/** The running bot: the SQLite tables, the per-user `context.user_data` and
    the job queue as fields, and each Telegram handler as a method that updates
    them step by step in the order the handler does. Every method is proved to
    leave the state, and send the reply, that its function in `Handlers`
    (or `Dispatch`) describes. */
module BotState {
  import opened Wrappers
  import opened PyText
  import opened Catalog
  import opened Model
  import opened Queries
  import Handlers
  import opened Dispatch

  class Bot {
    const admin: int
    var users: map<int, User>
    var orders: seq<Order>
    var promos: map<string, Percent>
    var banned: set<int>
    var sessions: map<int, Session>
    var reminders: seq<int>

    function State(): World
      reads this
    {
      World(admin, users, orders, promos, banned, sessions, reminders)
    }

    /** `init_db` with its promo seeds, for the operator `adminId` (ADMIN_ID). */
    constructor (adminId: int)
      ensures State() == Initial(adminId)
    {
      admin := adminId;
      users, orders, promos, banned := map[], [], SeedPromos, {};
      sessions, reminders := map[], [];
    }

    /** `check_ban`. */
    method CheckBan(uid: int) returns (isBanned: bool)
      ensures isBanned <==> uid in banned
    {
      isBanned := uid in banned;
    }

    method Start(uid: int, args: seq<string>) returns (reply: Reply)
      modifies this
      ensures Outcome(State(), reply) == Handlers.Start(old(State()), uid, args)
    {
      var isBanned := CheckBan(uid);
      if isBanned {
        return Refused;
      }
      if uid !in users {
        users := users[uid := User("ru", 0, "", "")];
      }
      if |args| > 0 && StartsWith(args[0], "ref") {
        users := users[uid := users[uid].(referredBy := RemoveAll(args[0], "ref"))];
      }
      reply := Welcome;
      reminders := reminders + [uid];
    }

    method ButtonCallback(uid: int, token: string) returns (reply: Reply)
      modifies this
      ensures Outcome(State(), reply) == Handlers.ButtonCallback(old(State()), uid, token)
    {
      if uid !in users {
        return Silent;
      }
      if token in PackageTokens {
        reply := SelectPackage(uid, TokenPackage(token));
      } else if token == "enter_id" {
        reply := AskPlayerId;
        sessions := sessions[uid := SessionOf(State(), uid).(waitingForId := true)];
      } else if token == "pay" {
        reply := Pay(uid);
      } else {
        reply := Silent;
      }
    }

    /** The package branch of `button_callback`. */
    method SelectPackage(uid: int, pkg: string) returns (reply: Reply)
      requires uid in users && pkg in Prices
      modifies this
      ensures Outcome(State(), reply) == Handlers.SelectPackage(old(State()), uid, pkg)
    {
      var session := SessionOf(State(), uid);
      sessions := sessions[uid := session.(selectedUc := Some(pkg))];
      var price := Quote(Prices[pkg], session.discount);
      reply := OrderDetails(pkg, price, session.discount);
      orders := orders + [Order(uid, pkg, price, session.discount, None, Pending)];
      users := users[uid := users[uid].(bonuses := users[uid].bonuses + PurchaseBonus(price))];
    }

    /** The "pay" branch of `button_callback`. */
    method Pay(uid: int) returns (reply: Reply)
      requires uid in users
      modifies this
      ensures Outcome(State(), reply) == Handlers.Pay(old(State()), uid)
    {
      var session := SessionOf(State(), uid);
      reply := PaymentDetails(session.selectedUc, session.playerId);
      var bonus := Commission(Handlers.SelectedListPrice(session));
      var referrer := Handlers.ReferrerOf(users[uid]);
      if referrer.Some? && referrer.value in users {
        var r := referrer.value;
        users := users[r := users[r].(bonuses := users[r].bonuses + bonus)];
      }
    }

    method HandlePlayerId(uid: int, text: string) returns (reply: Reply)
      modifies this
      ensures Outcome(State(), reply) == Handlers.HandlePlayerId(old(State()), uid, text)
    {
      var isBanned := CheckBan(uid);
      if isBanned {
        return Refused;
      }
      if uid !in users || !SessionOf(State(), uid).waitingForId {
        return Silent;
      }
      if !IsValidPlayerId(text) {
        return InvalidPlayerId;
      }
      sessions := sessions[uid := SessionOf(State(), uid).(playerId := Some(text), waitingForId := false)];
      reply := PlayerIdSaved(text);
      // UPDATE orders SET player_id = ? WHERE user_id = ? AND status = 'pending'
      ghost var before := orders;
      ghost var staged := State();
      var i := 0;
      while i < |orders|
        invariant State() == staged.(orders := orders)
        invariant 0 <= i <= |orders| == |before|
        invariant forall k :: 0 <= k < i ==>
          orders[k] == if IsPendingOf(before[k], uid) then before[k].(playerId := Some(text)) else before[k]
        invariant forall k :: i <= k < |orders| ==> orders[k] == before[k]
      {
        if IsPendingOf(orders[i], uid) {
          orders := orders[i := orders[i].(playerId := Some(text))];
        }
        i := i + 1;
      }
      assert orders == Handlers.AttachPlayerId(before, uid, text);
    }

    method PromoCommand(uid: int) returns (reply: Reply)
      modifies this
      ensures Outcome(State(), reply) == Handlers.PromoCommand(old(State()), uid)
    {
      var isBanned := CheckBan(uid);
      if isBanned {
        return Refused;
      }
      if uid !in users {
        return Silent;
      }
      reply := AskPromo;
      sessions := sessions[uid := SessionOf(State(), uid).(waitingForPromo := true)];
    }

    method HandlePromo(uid: int, text: string) returns (reply: Reply)
      modifies this
      ensures Outcome(State(), reply) == Handlers.HandlePromo(old(State()), uid, text)
    {
      var isBanned := CheckBan(uid);
      if isBanned {
        return Refused;
      }
      if uid !in users || !SessionOf(State(), uid).waitingForPromo {
        return Silent;
      }
      var code := Upper(text);
      if code in promos {
        sessions := sessions[uid := SessionOf(State(), uid).(discount := promos[code])];
        reply := PromoApplied(promos[code]);
      } else {
        reply := PromoInvalid;
      }
      sessions := sessions[uid := SessionOf(State(), uid).(waitingForPromo := false)];
    }

    method CustomCommand(uid: int) returns (reply: Reply)
      modifies this
      ensures Outcome(State(), reply) == Handlers.CustomCommand(old(State()), uid)
    {
      var isBanned := CheckBan(uid);
      if isBanned {
        return Refused;
      }
      if uid !in users {
        return Silent;
      }
      reply := AskCustomAmount;
      sessions := sessions[uid := SessionOf(State(), uid).(waitingForCustomUc := true)];
    }

    method HandleCustomUc(uid: int, text: string) returns (reply: Reply)
      modifies this
      ensures Outcome(State(), reply) == Handlers.HandleCustomUc(old(State()), uid, text)
    {
      var isBanned := CheckBan(uid);
      if isBanned {
        return Refused;
      }
      if uid !in users || !SessionOf(State(), uid).waitingForCustomUc {
        return Silent;
      }
      var amount := ParseInt(text);
      if amount.Some? && amount.value > 0 {
        if amount.value >= FloatIntLimit {
          return Silent;
        }
        reply := CustomQuote(amount.value, amount.value * 150);
      } else {
        reply := CustomInvalid;
      }
      sessions := sessions[uid := SessionOf(State(), uid).(waitingForCustomUc := false)];
    }

    method Referral(uid: int) returns (reply: Reply)
      modifies this
      ensures Outcome(State(), reply) == Handlers.Referral(old(State()), uid)
    {
      var isBanned := CheckBan(uid);
      if isBanned {
        return Refused;
      }
      if uid !in users {
        return Silent;
      }
      var code := users[uid].referralCode;
      if code == "" {
        code := "ref" + IntToString(uid);
        users := users[uid := users[uid].(referralCode := code)];
      }
      reply := ReferralLink(code);
    }

    method AdminCallback(uid: int, token: string) returns (reply: Reply)
      modifies this
      ensures Outcome(State(), reply) == Handlers.AdminCallback(old(State()), uid, token)
    {
      if uid != admin {
        return AccessDenied;
      }
      if token == "admin_orders" {
        reply := OrderList(orders);
      } else if token == "admin_stats" {
        var stats := AdminStats(orders);
        reply := if stats.Some? then StatsReport(stats.value) else Silent;
      } else if token == "admin_ban" {
        reply := AskBanTarget;
        sessions := sessions[uid := SessionOf(State(), uid).(waitingForBan := true)];
      } else {
        reply := Silent;
      }
    }

    method HandleAdminBan(uid: int, text: string) returns (reply: Reply)
      modifies this
      ensures Outcome(State(), reply) == Handlers.HandleAdminBan(old(State()), uid, text)
    {
      if uid != admin {
        return AccessDenied;
      }
      if !SessionOf(State(), uid).waitingForBan {
        return Silent;
      }
      var target := ParseInt(text);
      if target.Some? {
        if !FitsSqliteInteger(target.value) {
          return Silent;
        }
        banned := banned + {target.value};
        reply := UserBanned(target.value);
      } else {
        reply := BanInvalid;
      }
      sessions := sessions[uid := SessionOf(State(), uid).(waitingForBan := false)];
    }

    method SetLanguage(uid: int, data: string) returns (reply: Reply)
      modifies this
      ensures Outcome(State(), reply) == Handlers.SetLanguage(old(State()), uid, data)
    {
      if uid in users {
        var lang := if data == "lang_ru" then "ru" else "en";
        users := users[uid := users[uid].(language := lang)];
      }
      reply := LanguageChanged;
    }

    /** The `reminder` job for `uid`: the package to remind about, if any. */
    method Reminder(uid: int) returns (package: Option<string>)
      ensures package == ReminderFor(State(), uid)
    {
      if uid !in users {
        return None;
      }
      var latest := LatestPending(orders, uid);
      package := if latest.Some? then Some(orders[latest.value].package) else None;
    }

    /** `simple_chatbot`. */
    method Chatbot(uid: int, text: string) returns (reply: Reply)
      ensures Outcome(State(), reply) == Dispatch.Chatbot(State(), uid, text)
    {
      var isBanned := CheckBan(uid);
      if isBanned {
        return Refused;
      }
      reply := if uid in users then KeywordReply(text) else Silent;
    }

    /** A non-command text message: the first registered text handler whose
        filter accepts it runs, and no other. */
    method HandleText(uid: int, text: string) returns (reply: Reply)
      modifies this
      ensures Outcome(State(), reply) == DispatchText(old(State()), uid, text)
    {
      var handler := FirstMatch(TextHandlers, text);
      match handler {
        case None => reply := Silent;
        case Some(PlayerIdText) => reply := HandlePlayerId(uid, text);
        case Some(PromoText) => reply := HandlePromo(uid, text);
        case Some(CustomUcText) => reply := HandleCustomUc(uid, text);
        case Some(AdminBanText) => reply := HandleAdminBan(uid, text);
        case Some(ChatbotText) => reply := Chatbot(uid, text);
      }
    }
  }
}
