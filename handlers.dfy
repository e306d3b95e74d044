/** Each Telegram handler of the bot as a function from the state before the
    update to the state after it and the reply. A handler that reads the
    user's language first does nothing for an unregistered user: `fetchone()`
    returns `None`, indexing it raises, and the `except` swallows the error. */
module Handlers {
  import opened Wrappers
  import opened PyText
  import opened Catalog
  import opened Model
  import opened Queries

  /** Only the user's session changed: every table and the job list are as they were. */
  predicate OnlySessionChanged(w: World, w': World) {
    w' == w.(sessions := w'.sessions)
  }

  /** `check_ban`: the user id is in `banned_users`. */
  predicate IsBanned(w: World, uid: int) {
    uid in w.banned
  }

  /** The user passes `check_ban` and has a `users` row to read a language from. */
  predicate Admitted(w: World, uid: int) {
    !IsBanned(w, uid) && uid in w.users
  }

  /** The referrer named by the arguments of `/start`: the first argument,
      when it starts with "ref", with every "ref" removed. */
  function RefArgument(args: seq<string>): (r: Option<string>)
    ensures r.Some? <==> |args| > 0 && StartsWith(args[0], "ref")
    ensures r.Some? ==> r.value == RemoveAll(args[0][3..], "ref") && |r.value| <= |args[0]| - 3
  {
    if |args| > 0 && StartsWith(args[0], "ref") then Some(RemoveAll(args[0], "ref")) else None
  }

  /** `/start`: registers the user once, records the referrer named by the
      argument (overwriting an earlier one) and arms a reminder job. */
  function Start(w: World, uid: int, args: seq<string>): (o: Outcome)
    ensures IsBanned(w, uid) ==> o == Outcome(w, Refused)
    ensures !IsBanned(w, uid) ==>
      && o.reply == Welcome
      && uid in o.next.users
      && o.next == w.(users := o.next.users, reminders := w.reminders + [uid])
      && OthersUntouched(w.users, o.next.users, uid)
    ensures !IsBanned(w, uid) && uid in w.users ==>
      o.next.users[uid] == w.users[uid].(referredBy := o.next.users[uid].referredBy)
    ensures !IsBanned(w, uid) && uid !in w.users ==>
      o.next.users[uid] == User("ru", 0, "", o.next.users[uid].referredBy)
    ensures !IsBanned(w, uid) ==>
      o.next.users[uid].referredBy ==
        match RefArgument(args)
        case Some(r) => r
        case None => if uid in w.users then w.users[uid].referredBy else ""
  {
    if IsBanned(w, uid) then Outcome(w, Refused)
    else
      var registered := if uid in w.users then w.users else w.users[uid := User("ru", 0, "", "")];
      var users := match RefArgument(args)
        case Some(r) => registered[uid := registered[uid].(referredBy := r)]
        case None => registered;
      Outcome(w.(users := users, reminders := w.reminders + [uid]), Welcome)
  }

  /** A package button: records the selection, appends a pending order at the
      quoted price and credits the purchase bonus on that price to the buyer. */
  function SelectPackage(w: World, uid: int, pkg: string): (o: Outcome)
    requires uid in w.users && pkg in Prices
    ensures var s := SessionOf(w, uid);
            var q := Quote(Prices[pkg], s.discount);
            && o.reply == OrderDetails(pkg, q, s.discount)
            && o.next.orders == w.orders + [Order(uid, pkg, q, s.discount, None, Pending)]
            && o.next.users.Keys == w.users.Keys
            && o.next.users[uid] == w.users[uid].(bonuses := w.users[uid].bonuses + PurchaseBonus(q))
            && OthersUntouched(w.users, o.next.users, uid)
            && SessionOf(o.next, uid) == s.(selectedUc := Some(pkg))
            && OtherSessionsUntouched(w, o.next, uid)
            && o.next == w.(users := o.next.users, orders := o.next.orders, sessions := o.next.sessions)
  {
    var s := SessionOf(w, uid);
    var q := Quote(Prices[pkg], s.discount);
    Outcome(w.(sessions := w.sessions[uid := s.(selectedUc := Some(pkg))],
               orders := w.orders + [Order(uid, pkg, q, s.discount, None, Pending)],
               users := Credit(w.users, uid, PurchaseBonus(q))),
            OrderDetails(pkg, q, s.discount))
  }

  /** The "enter_id" button arms the player-id flag, whatever the other flags are. */
  function EnterId(w: World, uid: int): (o: Outcome)
    ensures o.reply == AskPlayerId && OnlySessionChanged(w, o.next)
    ensures SessionOf(o.next, uid) == SessionOf(w, uid).(waitingForId := true)
    ensures OtherSessionsUntouched(w, o.next, uid)
  {
    Outcome(w.(sessions := w.sessions[uid := SessionOf(w, uid).(waitingForId := true)]), AskPlayerId)
  }

  /** The list price `pay` reads: that of the selected package, 0 when none is selected. */
  function SelectedListPrice(s: Session): (p: nat)
    ensures p > 0 <==> s.selectedUc.Some? && s.selectedUc.value in Prices
    ensures p > 0 ==> p == Prices[s.selectedUc.value]
  {
    match s.selectedUc
    case Some(p) => if p in Prices then Prices[p] else 0
    case None => 0
  }

  /** The id `int(referred_by)` yields for a user whose `referred_by` is set;
      nothing when it is empty or does not parse. */
  function ReferrerOf(u: User): (r: Option<int>)
    ensures u.referredBy == "" ==> r.None?
    ensures forall a :: u.referredBy == IntToString(a) ==> r == Some(a)
    ensures u.referredBy != "" ==> r == ParseInt(u.referredBy)
    ensures r.Some? ==> IsDigit(u.referredBy[|u.referredBy| - 1])
  {
    if u.referredBy != "" then ParseInt(u.referredBy) else None
  }

  /** The "pay" button: credits five percent of the undiscounted list price to
      the referrer's row, if the payer has a referrer that parses and exists. */
  function Pay(w: World, uid: int): (o: Outcome)
    requires uid in w.users
    ensures var s := SessionOf(w, uid);
            && o.reply == PaymentDetails(s.selectedUc, s.playerId)
            && o.next == w.(users := o.next.users)
            && o.next.users.Keys == w.users.Keys
            && forall u :: u in w.users ==>
                 && o.next.users[u] == w.users[u].(bonuses := o.next.users[u].bonuses)
                 && o.next.users[u].bonuses == w.users[u].bonuses +
                      (if ReferrerOf(w.users[uid]) == Some(u) then Commission(SelectedListPrice(s)) else 0)
  {
    var bonus := Commission(SelectedListPrice(SessionOf(w, uid)));
    var s := SessionOf(w, uid);
    var users := match ReferrerOf(w.users[uid])
      case Some(r) => if r in w.users then Credit(w.users, r, bonus) else w.users
      case None => w.users;
    Outcome(w.(users := users), PaymentDetails(s.selectedUc, s.playerId))
  }

  /** `button_callback`, for the tokens its pattern admits. There is no ban check here. */
  function ButtonCallback(w: World, uid: int, token: string): (o: Outcome)
    ensures uid !in w.users ==> o == Outcome(w, Silent)
    ensures token !in PackageTokens && token != "enter_id" && token != "pay" ==> o.next == w
    ensures uid in w.users && token in PackageTokens ==> o == SelectPackage(w, uid, TokenPackage(token))
    ensures uid in w.users && token == "enter_id" ==> o == EnterId(w, uid)
    ensures uid in w.users && token == "pay" ==> o == Pay(w, uid)
  {
    if uid !in w.users then Outcome(w, Silent)
    else if token in PackageTokens then SelectPackage(w, uid, TokenPackage(token))
    else if token == "enter_id" then EnterId(w, uid)
    else if token == "pay" then Pay(w, uid)
    else Outcome(w, Silent)
  }

  /** What any button press keeps: only bonus columns change and none drops,
      the ledger only grows by pending orders, and bans, promos and jobs stay. */
  lemma ButtonCallbackFrame(w: World, uid: int, token: string)
    ensures var o := ButtonCallback(w, uid, token);
            && o.next == w.(users := o.next.users, orders := o.next.orders, sessions := o.next.sessions)
            && o.next.users.Keys == w.users.Keys
            && BalancesGrow(w.users, o.next.users)
            && (forall u :: u in w.users ==> o.next.users[u] == w.users[u].(bonuses := o.next.users[u].bonuses))
            && LedgerExtends(w.orders, o.next.orders)
            && (forall i :: |w.orders| <= i < |o.next.orders| ==> o.next.orders[i].status == Pending)
  {
  }

  /** The orders after `UPDATE orders SET player_id = ? WHERE user_id = ? AND status = 'pending'`. */
  function AttachPlayerId(os: seq<Order>, uid: int, pid: string): (r: seq<Order>)
    ensures |r| == |os| && LedgerExtends(os, r)
    ensures forall i :: 0 <= i < |os| && IsPendingOf(os[i], uid) ==> r[i].playerId == Some(pid)
    ensures forall i :: 0 <= i < |os| && !IsPendingOf(os[i], uid) ==> r[i] == os[i]
  {
    seq(|os|, i requires 0 <= i < |os| =>
      if IsPendingOf(os[i], uid) then os[i].(playerId := Some(pid)) else os[i])
  }

  /** Free text while waiting for a player id: a valid id is stored in the
      session and on every pending order of the user, and the flag is cleared;
      an invalid one is refused and the flag stays set. */
  function HandlePlayerId(w: World, uid: int, text: string): (o: Outcome)
    ensures IsBanned(w, uid) ==> o == Outcome(w, Refused)
    ensures !IsBanned(w, uid) && (uid !in w.users || !SessionOf(w, uid).waitingForId) ==> o == Outcome(w, Silent)
    ensures Admitted(w, uid) && SessionOf(w, uid).waitingForId && !IsValidPlayerId(text) ==>
      o == Outcome(w, InvalidPlayerId)
    ensures Admitted(w, uid) && SessionOf(w, uid).waitingForId && IsValidPlayerId(text) ==>
      && o.reply == PlayerIdSaved(text)
      && o.next.orders == AttachPlayerId(w.orders, uid, text)
      && SessionOf(o.next, uid) == SessionOf(w, uid).(playerId := Some(text), waitingForId := false)
      && OtherSessionsUntouched(w, o.next, uid)
      && o.next == w.(orders := o.next.orders, sessions := o.next.sessions)
  {
    if IsBanned(w, uid) then Outcome(w, Refused)
    else if uid !in w.users || !SessionOf(w, uid).waitingForId then Outcome(w, Silent)
    else if !IsValidPlayerId(text) then Outcome(w, InvalidPlayerId)
    else
      var s := SessionOf(w, uid).(playerId := Some(text), waitingForId := false);
      Outcome(w.(sessions := w.sessions[uid := s], orders := AttachPlayerId(w.orders, uid, text)),
              PlayerIdSaved(text))
  }

  /** `/promo`: arms the promo flag. */
  function PromoCommand(w: World, uid: int): (o: Outcome)
    ensures !Admitted(w, uid) ==> o == Outcome(w, if IsBanned(w, uid) then Refused else Silent)
    ensures Admitted(w, uid) ==>
      && o.reply == AskPromo && OnlySessionChanged(w, o.next)
      && SessionOf(o.next, uid) == SessionOf(w, uid).(waitingForPromo := true)
      && OtherSessionsUntouched(w, o.next, uid)
  {
    if IsBanned(w, uid) then Outcome(w, Refused)
    else if uid !in w.users then Outcome(w, Silent)
    else Outcome(w.(sessions := w.sessions[uid := SessionOf(w, uid).(waitingForPromo := true)]), AskPromo)
  }

  /** Free text while waiting for a promo code: the uppercased text is looked
      up; a hit copies its discount into the session, a miss keeps the old
      one; either way the flag is cleared after this one message. */
  function HandlePromo(w: World, uid: int, text: string): (o: Outcome)
    ensures IsBanned(w, uid) ==> o == Outcome(w, Refused)
    ensures !IsBanned(w, uid) && (uid !in w.users || !SessionOf(w, uid).waitingForPromo) ==> o == Outcome(w, Silent)
    ensures Admitted(w, uid) && SessionOf(w, uid).waitingForPromo ==>
      var s := SessionOf(w, uid);
      var code := Upper(text);
      && OnlySessionChanged(w, o.next)
      && OtherSessionsUntouched(w, o.next, uid)
      && !SessionOf(o.next, uid).waitingForPromo
      && (code in w.promos ==>
            && o.reply == PromoApplied(w.promos[code])
            && SessionOf(o.next, uid) == s.(discount := w.promos[code], waitingForPromo := false))
      && (code !in w.promos ==>
            && o.reply == PromoInvalid
            && SessionOf(o.next, uid) == s.(waitingForPromo := false))
  {
    if IsBanned(w, uid) then Outcome(w, Refused)
    else if uid !in w.users || !SessionOf(w, uid).waitingForPromo then Outcome(w, Silent)
    else
      var s := SessionOf(w, uid);
      var code := Upper(text);
      if code in w.promos then
        Outcome(w.(sessions := w.sessions[uid := s.(discount := w.promos[code], waitingForPromo := false)]),
                PromoApplied(w.promos[code]))
      else
        Outcome(w.(sessions := w.sessions[uid := s.(waitingForPromo := false)]), PromoInvalid)
  }

  /** `/custom`: arms the custom-amount flag. */
  function CustomCommand(w: World, uid: int): (o: Outcome)
    ensures !Admitted(w, uid) ==> o == Outcome(w, if IsBanned(w, uid) then Refused else Silent)
    ensures Admitted(w, uid) ==>
      && o.reply == AskCustomAmount && OnlySessionChanged(w, o.next)
      && SessionOf(o.next, uid) == SessionOf(w, uid).(waitingForCustomUc := true)
      && OtherSessionsUntouched(w, o.next, uid)
  {
    if IsBanned(w, uid) then Outcome(w, Refused)
    else if uid !in w.users then Outcome(w, Silent)
    else Outcome(w.(sessions := w.sessions[uid := SessionOf(w, uid).(waitingForCustomUc := true)]), AskCustomAmount)
  }

  /** The text is an integer too large for `float()`. */
  predicate FloatOverflows(text: string) {
    ParseInt(text).Some? && ParseInt(text).value >= FloatIntLimit
  }

  /** Free text while waiting for a custom amount: a positive integer is
      quoted at 1.5 per UC (150 hundredths; ₽ in the 'ru' text, USD in 'en'), anything else is refused,
      and the flag is cleared. An amount too large to become a float makes
      `uc_amount * 1.5` raise OverflowError, which only the outer handler
      catches: then nothing is sent and the flag stays set. No table changes. */
  function HandleCustomUc(w: World, uid: int, text: string): (o: Outcome)
    ensures IsBanned(w, uid) ==> o == Outcome(w, Refused)
    ensures !IsBanned(w, uid) && (uid !in w.users || !SessionOf(w, uid).waitingForCustomUc) ==> o == Outcome(w, Silent)
    ensures OnlySessionChanged(w, o.next) && OtherSessionsUntouched(w, o.next, uid)
    ensures Admitted(w, uid) && SessionOf(w, uid).waitingForCustomUc && FloatOverflows(text) ==>
      o == Outcome(w, Silent)
    ensures Admitted(w, uid) && SessionOf(w, uid).waitingForCustomUc && !FloatOverflows(text) ==>
      && SessionOf(o.next, uid) == SessionOf(w, uid).(waitingForCustomUc := false)
      && (o.reply.CustomQuote? <==> ParseInt(text).Some? && ParseInt(text).value > 0)
      && (o.reply.CustomQuote? ==> o.reply == CustomQuote(ParseInt(text).value, ParseInt(text).value * 150))
      && (!o.reply.CustomQuote? ==> o.reply == CustomInvalid)
  {
    if IsBanned(w, uid) then Outcome(w, Refused)
    else if uid !in w.users || !SessionOf(w, uid).waitingForCustomUc then Outcome(w, Silent)
    else
      var next := w.(sessions := w.sessions[uid := SessionOf(w, uid).(waitingForCustomUc := false)]);
      match ParseInt(text)
      case Some(n) =>
        if n <= 0 then Outcome(next, CustomInvalid)
        else if n >= FloatIntLimit then Outcome(w, Silent)
        else Outcome(next, CustomQuote(n, n * 150))
      case None => Outcome(next, CustomInvalid)
  }

  /** `/referral`: creates the code "ref" + user id the first time and hands
      out the stored code from then on. */
  function Referral(w: World, uid: int): (o: Outcome)
    ensures !Admitted(w, uid) ==> o == Outcome(w, if IsBanned(w, uid) then Refused else Silent)
    ensures Admitted(w, uid) && w.users[uid].referralCode != "" ==>
      o == Outcome(w, ReferralLink(w.users[uid].referralCode))
    ensures Admitted(w, uid) && w.users[uid].referralCode == "" ==>
      && o.reply == ReferralLink("ref" + IntToString(uid))
      && o.next == w.(users := w.users[uid := w.users[uid].(referralCode := "ref" + IntToString(uid))])
  {
    if IsBanned(w, uid) then Outcome(w, Refused)
    else if uid !in w.users then Outcome(w, Silent)
    else if w.users[uid].referralCode != "" then Outcome(w, ReferralLink(w.users[uid].referralCode))
    else
      var code := "ref" + IntToString(uid);
      Outcome(w.(users := w.users[uid := w.users[uid].(referralCode := code)]), ReferralLink(code))
  }

  /** `set_language`: "lang_ru" selects Russian and every other "lang_" button
      English. There is no ban check, and an unregistered user has no row for
      the UPDATE to change; the confirmation is sent either way. */
  function SetLanguage(w: World, uid: int, data: string): (o: Outcome)
    ensures o.reply == LanguageChanged
    ensures o.next == w.(users := o.next.users)
    ensures o.next.users.Keys == w.users.Keys
    ensures forall u :: u in w.users ==> o.next.users[u] == w.users[u].(language := o.next.users[u].language)
    ensures forall u :: u in w.users && u != uid ==> o.next.users[u] == w.users[u]
    ensures uid in w.users ==>
      && o.next.users[uid].language in {"ru", "en"}
      && (o.next.users[uid].language == "ru" <==> data == "lang_ru")
  {
    var lang := if data == "lang_ru" then "ru" else "en";
    if uid in w.users then Outcome(w.(users := w.users[uid := w.users[uid].(language := lang)]), LanguageChanged)
    else Outcome(w, LanguageChanged)
  }

  /** `admin_callback`: the operator's order list, statistics and ban prompt. */
  function AdminCallback(w: World, uid: int, token: string): (o: Outcome)
    ensures uid != w.admin ==> o == Outcome(w, AccessDenied)
    ensures token != "admin_ban" ==> o.next == w
    ensures uid == w.admin && token == "admin_stats" ==>
      o.reply == match AdminStats(w.orders) case Some(st) => StatsReport(st) case None => Silent
    ensures uid == w.admin && token == "admin_ban" ==>
      && o.reply == AskBanTarget && OnlySessionChanged(w, o.next)
      && SessionOf(o.next, uid) == SessionOf(w, uid).(waitingForBan := true)
      && OtherSessionsUntouched(w, o.next, uid)
  {
    if uid != w.admin then Outcome(w, AccessDenied)
    else if token == "admin_orders" then Outcome(w, OrderList(w.orders))
    else if token == "admin_stats" then
      match AdminStats(w.orders)
      case Some(st) => Outcome(w, StatsReport(st))
      case None => Outcome(w, Silent)
    else if token == "admin_ban" then
      Outcome(w.(sessions := w.sessions[uid := SessionOf(w, uid).(waitingForBan := true)]), AskBanTarget)
    else Outcome(w, Silent)
  }

  /** The text is an integer that an INTEGER column cannot hold. */
  predicate SqliteOverflows(text: string) {
    ParseInt(text).Some? && !FitsSqliteInteger(ParseInt(text).value)
  }

  /** Free text from the operator while waiting for a ban target: an integer
      is added to `banned_users` (INSERT OR IGNORE), anything else is refused,
      and the flag is cleared. An integer outside SQLite's INTEGER range makes
      the insert raise OverflowError, which only the outer handler catches:
      then nobody is banned, nothing is sent and the flag stays set. */
  function HandleAdminBan(w: World, uid: int, text: string): (o: Outcome)
    ensures uid != w.admin ==> o == Outcome(w, AccessDenied)
    ensures uid == w.admin && !SessionOf(w, uid).waitingForBan ==> o == Outcome(w, Silent)
    ensures uid == w.admin && SessionOf(w, uid).waitingForBan && SqliteOverflows(text) ==>
      o == Outcome(w, Silent)
    ensures uid == w.admin && SessionOf(w, uid).waitingForBan && !SqliteOverflows(text) ==>
      && o.next == w.(banned := o.next.banned, sessions := o.next.sessions)
      && SessionOf(o.next, uid) == SessionOf(w, uid).(waitingForBan := false)
      && OtherSessionsUntouched(w, o.next, uid)
      && o.next.banned == (match ParseInt(text) case Some(n) => w.banned + {n} case None => w.banned)
      && o.reply == (match ParseInt(text) case Some(n) => UserBanned(n) case None => BanInvalid)
  {
    if uid != w.admin then Outcome(w, AccessDenied)
    else if !SessionOf(w, uid).waitingForBan then Outcome(w, Silent)
    else
      var next := w.(sessions := w.sessions[uid := SessionOf(w, uid).(waitingForBan := false)]);
      match ParseInt(text)
      case Some(n) =>
        if FitsSqliteInteger(n) then Outcome(next.(banned := w.banned + {n}), UserBanned(n))
        else Outcome(w, Silent)
      case None => Outcome(next, BanInvalid)
  }
}
