/** Properties of whole conversations: what every sequence of updates keeps,
    and the referral, promo, ban and purchase flows end to end. */
module Scenarios {
  import opened Wrappers
  import opened PyText
  import opened Catalog
  import opened Model
  import opened Queries
  import opened Handlers
  import opened Dispatch

  /** An update as the application routes it. */
  datatype Event =
    | StartCmd(uid: int, args: seq<string>)
    | PromoCmd(uid: int)
    | CustomCmd(uid: int)
    | ReferralCmd(uid: int)
    | Callback(uid: int, data: string)
    | TextMessage(uid: int, text: string)

  /** The data `button_callback`'s pattern admits. */
  predicate IsButtonToken(data: string) {
    data in PackageTokens || data == "enter_id" || data == "pay"
  }

  /** One update: callback data goes to `button_callback`, or with the
      "lang_" prefix to `set_language`, or with the "admin_" prefix to
      `admin_callback`, in registration order; any other data reaches no handler. */
  function Step(w: World, e: Event): (w': World)
    ensures w'.admin == w.admin
    ensures w'.banned == w.banned
    ensures e.Callback? && !IsButtonToken(e.data) && !StartsWith(e.data, "lang_") && !StartsWith(e.data, "admin_") ==> w' == w
    ensures e.TextMessage? && IsCommand(e.text) ==> w' == w
  {
    match e
    case StartCmd(uid, args) => Start(w, uid, args).next
    case PromoCmd(uid) => PromoCommand(w, uid).next
    case CustomCmd(uid) => CustomCommand(w, uid).next
    case ReferralCmd(uid) => Referral(w, uid).next
    case Callback(uid, data) =>
      if IsButtonToken(data) then
        ButtonCallbackFrame(w, uid, data);
        ButtonCallback(w, uid, data).next
      else if StartsWith(data, "lang_") then SetLanguage(w, uid, data).next
      else if StartsWith(data, "admin_") then AdminCallback(w, uid, data).next
      else w
    case TextMessage(uid, text) =>
      DispatchConsequences(w, uid, text);
      DispatchText(w, uid, text).next
  }

  function Run(w: World, es: seq<Event>): World
    decreases |es|
  {
    if es == [] then w else Run(Step(w, es[0]), es[1..])
  }

  /** A stored referral code is the one `/referral` creates. */
  ghost predicate CodesWellFormed(w: World) {
    forall u :: u in w.users ==> w.users[u].referralCode in {"", "ref" + IntToString(u)}
  }

  /** What no update undoes: users are never deleted and balances never drop;
      orders are only appended, always as pending, and only their player id
      changes afterwards; bans are never lifted; the promo registry is
      read-only; a referral code once set stays; the admin is fixed. */
  ghost predicate Evolves(w: World, w': World) {
    && w'.admin == w.admin
    && BalancesGrow(w.users, w'.users)
    && LedgerExtends(w.orders, w'.orders)
    && (forall i :: |w.orders| <= i < |w'.orders| ==> w'.orders[i].status == Pending)
    && w.banned <= w'.banned
    && w'.promos == w.promos
    && (forall u :: u in w.users && w.users[u].referralCode != "" ==>
          w'.users[u].referralCode == w.users[u].referralCode)
  }

  lemma EvolvesTransitive(w1: World, w2: World, w3: World)
    requires Evolves(w1, w2) && Evolves(w2, w3)
    ensures Evolves(w1, w3)
  {
    forall i | |w1.orders| <= i < |w3.orders| ensures w3.orders[i].status == Pending {
      if i < |w2.orders| {
        assert w3.orders[i] == w2.orders[i].(playerId := w3.orders[i].playerId);
      }
    }
  }

  /** A handler that touches only sessions evolves the state trivially. */
  lemma SessionOnlyEvolves(w: World, w': World)
    requires CodesWellFormed(w) && OnlySessionChanged(w, w')
    ensures CodesWellFormed(w') && Evolves(w, w')
  {
  }

  lemma StartEvolves(w: World, uid: int, args: seq<string>)
    requires CodesWellFormed(w)
    ensures CodesWellFormed(Start(w, uid, args).next) && Evolves(w, Start(w, uid, args).next)
  {
  }

  lemma ReferralEvolves(w: World, uid: int)
    requires CodesWellFormed(w)
    ensures CodesWellFormed(Referral(w, uid).next) && Evolves(w, Referral(w, uid).next)
  {
  }

  lemma ButtonEvolves(w: World, uid: int, token: string)
    requires CodesWellFormed(w)
    ensures CodesWellFormed(ButtonCallback(w, uid, token).next) && Evolves(w, ButtonCallback(w, uid, token).next)
  {
    ButtonCallbackFrame(w, uid, token);
  }

  lemma AdminEvolves(w: World, uid: int, token: string)
    requires CodesWellFormed(w)
    ensures CodesWellFormed(AdminCallback(w, uid, token).next) && Evolves(w, AdminCallback(w, uid, token).next)
  {
    if token == "admin_ban" {
      SessionOnlyEvolves(w, AdminCallback(w, uid, token).next);
    }
  }

  lemma LanguageEvolves(w: World, uid: int, data: string)
    requires CodesWellFormed(w)
    ensures CodesWellFormed(SetLanguage(w, uid, data).next) && Evolves(w, SetLanguage(w, uid, data).next)
  {
  }

  lemma TextEvolves(w: World, uid: int, text: string)
    requires CodesWellFormed(w)
    ensures CodesWellFormed(DispatchText(w, uid, text).next) && Evolves(w, DispatchText(w, uid, text).next)
  {
    Routing(text);
    if !IsCommand(text) && !IsValidPlayerId(text) {
      var o := HandlePromo(w, uid, text);
      if Admitted(w, uid) && SessionOf(w, uid).waitingForPromo {
        SessionOnlyEvolves(w, o.next);
      }
    }
  }

  /** Every single update keeps the invariants and evolves the state. */
  lemma StepEvolves(w: World, e: Event)
    requires CodesWellFormed(w)
    ensures CodesWellFormed(Step(w, e))
    ensures Evolves(w, Step(w, e))
  {
    match e
    case StartCmd(uid, args) => StartEvolves(w, uid, args);
    case PromoCmd(uid) =>
      if Admitted(w, uid) { SessionOnlyEvolves(w, PromoCommand(w, uid).next); }
    case CustomCmd(uid) =>
      if Admitted(w, uid) { SessionOnlyEvolves(w, CustomCommand(w, uid).next); }
    case ReferralCmd(uid) => ReferralEvolves(w, uid);
    case Callback(uid, data) =>
      if IsButtonToken(data) {
        ButtonEvolves(w, uid, data);
      } else if StartsWith(data, "lang_") {
        LanguageEvolves(w, uid, data);
      } else if StartsWith(data, "admin_") {
        AdminEvolves(w, uid, data);
      }
    case TextMessage(uid, text) => TextEvolves(w, uid, text);
  }

  /** Hence so does every sequence of updates. */
  lemma {:induction false} RunEvolves(w: World, es: seq<Event>)
    requires CodesWellFormed(w)
    ensures CodesWellFormed(Run(w, es))
    ensures Evolves(w, Run(w, es))
    decreases |es|
  {
    if es != [] {
      StepEvolves(w, es[0]);
      RunEvolves(Step(w, es[0]), es[1..]);
      EvolvesTransitive(w, Step(w, es[0]), Run(w, es));
    }
  }

  /** The referral code handed out by `/referral` leads, through `/start`,
      back to its owner: `"ref" + str(id)` with "ref" removed parses to the id. */
  lemma ReferralCodeNamesOwner(a: int)
    ensures RefArgument(["ref" + IntToString(a)]) == Some(IntToString(a))
    ensures ParseInt(IntToString(a)) == Some(a) && IntToString(a) != ""
  {
    var s := IntToString(a);
    assert 'r' !in s by {
      forall i | 0 <= i < |s| ensures s[i] != 'r' { }
    }
    assert StartsWith("ref" + s, "ref") by {
      assert ("ref" + s)[..3] == "ref";
    }
    RemoveAllLeading("ref", s);
    RemoveAllAbsent(s, "ref");
  }

  /** `/referral` for a registered user hands out "ref" + id and changes no balance. */
  lemma ReferralHandsOutOwnCode(w: World, a: int)
    requires CodesWellFormed(w) && Admitted(w, a)
    ensures var o := Referral(w, a);
            && o.reply == ReferralLink("ref" + IntToString(a))
            && o.next.users.Keys == w.users.Keys && o.next.sessions == w.sessions && o.next.banned == w.banned
            && forall u :: u in w.users ==> o.next.users[u].bonuses == w.users[u].bonuses
  {
  }

  /** `/start` with A's code records A as B's referrer and leaves A's row alone. */
  lemma StartWithCode(w: World, b: int, a: int)
    requires b !in w.banned
    ensures var w' := Start(w, b, ["ref" + IntToString(a)]).next;
            && b in w'.users && ReferrerOf(w'.users[b]) == Some(a)
            && w'.users[b].bonuses == (if b in w.users then w.users[b].bonuses else 0)
            && (a != b && a in w.users ==> a in w'.users && w'.users[a] == w.users[a])
            && w'.sessions == w.sessions && w'.banned == w.banned
  {
    ReferralCodeNamesOwner(a);
  }

  /** Choosing a package selects it, keeps the referrer and credits only the buyer. */
  lemma SelectKeepsReferrer(w: World, b: int, token: string)
    requires b in w.users && token in PackageTokens
    ensures var w' := ButtonCallback(w, b, token).next;
            && SessionOf(w', b).selectedUc == Some(TokenPackage(token))
            && w'.users.Keys == w.users.Keys
            && w'.users[b] == w.users[b].(bonuses := w.users[b].bonuses
                 + PurchaseBonus(Quote(Prices[TokenPackage(token)], SessionOf(w, b).discount)))
            && forall u :: u in w.users && u != b ==> w'.users[u] == w.users[u]
  {
  }

  /** "pay" credits the referrer the commission on the selected list price. */
  lemma PayCreditsReferrer(w: World, b: int, a: int)
    requires b in w.users && a in w.users && ReferrerOf(w.users[b]) == Some(a)
    ensures var w' := ButtonCallback(w, b, "pay").next;
            && a in w'.users
            && w'.users[a].bonuses == w.users[a].bonuses + Commission(SelectedListPrice(SessionOf(w, b)))
            && (a != b ==> w'.users[b].bonuses == w.users[b].bonuses)
  {
    assert "pay" !in PackageTokens;
  }

  /** The referrer is whoever `int(referred_by)` names, whatever the numeral:
      "+7" and "007" credit user 7 just as "7" does. */
  lemma PayCreditsParsedReferrer(w: World, b: int, a: int)
    requires b in w.users && a in w.users
    requires w.users[b].referredBy != "" && ParseInt(w.users[b].referredBy) == Some(a)
    ensures var w' := ButtonCallback(w, b, "pay").next;
            && a in w'.users
            && w'.users[a].bonuses == w.users[a].bonuses + Commission(SelectedListPrice(SessionOf(w, b)))
            && (a != b ==> w'.users[b].bonuses == w.users[b].bonuses)
  {
    PayCreditsReferrer(w, b, a);
  }

  /** A referred purchase end to end: A asks for a link, B starts the bot with
      it, picks a package and presses "pay". A earns five percent of the list
      price, B earns the purchase bonus on the quoted price. */
  lemma ReferralRoundTrip(w: World, a: int, b: int, token: string)
    requires CodesWellFormed(w)
    requires a in w.users && a !in w.banned && b !in w.banned && a != b
    requires token in PackageTokens
    ensures var w1 := Referral(w, a).next;
            var code := Referral(w, a).reply.code;
            var w2 := Start(w1, b, [code]).next;
            var w3 := ButtonCallback(w2, b, token).next;
            var w4 := ButtonCallback(w3, b, "pay").next;
            && code == "ref" + IntToString(a)
            && w4.users[a].bonuses == w.users[a].bonuses + Commission(Prices[TokenPackage(token)])
            && w4.users[b].bonuses == (if b in w.users then w.users[b].bonuses else 0)
                 + PurchaseBonus(Quote(Prices[TokenPackage(token)], SessionOf(w, b).discount))
  {
    var w1 := Referral(w, a).next;
    ReferralHandsOutOwnCode(w, a);
    var w2 := Start(w1, b, ["ref" + IntToString(a)]).next;
    StartWithCode(w1, b, a);
    var w3 := ButtonCallback(w2, b, token).next;
    SelectKeepsReferrer(w2, b, token);
    PayCreditsReferrer(w3, b, a);
  }

  /** Nothing stops a user from naming themself as referrer: after
      `/start ref<own id>`, "pay" credits the payer's own balance. */
  lemma SelfReferralCreditsPayer(w: World, a: int, token: string)
    requires a !in w.banned && token in PackageTokens
    ensures var w1 := Start(w, a, ["ref" + IntToString(a)]).next;
            var w2 := ButtonCallback(w1, a, token).next;
            var w3 := ButtonCallback(w2, a, "pay").next;
            w3.users[a].bonuses == w2.users[a].bonuses + Commission(Prices[TokenPackage(token)])
  {
    var w1 := Start(w, a, ["ref" + IntToString(a)]).next;
    StartWithCode(w, a, a);
    var w2 := ButtonCallback(w1, a, token).next;
    SelectKeepsReferrer(w1, a, token);
    PayCreditsReferrer(w2, a, a);
  }

  /** `pay` credits nobody when `referred_by` does not parse as an integer. */
  lemma UnparsableReferrerCreditsNothing(w: World, uid: int)
    requires uid in w.users && ParseInt(w.users[uid].referredBy).None?
    ensures ButtonCallback(w, uid, "pay").next == w
  {
    assert !("pay" in PackageTokens);
  }

  /** The operator presses "admin_ban" and sends `text`. */
  function BanFlow(w: World, text: string): World {
    HandleAdminBan(AdminCallback(w, w.admin, "admin_ban").next, w.admin, text).next
  }

  /** Banning an id adds exactly it, and banning it again changes nothing:
      the insert is idempotent and `check_ban` then holds. */
  lemma BanIdempotent(w: World, n: int)
    requires FitsSqliteInteger(n)
    ensures BanFlow(w, IntToString(n)).banned == w.banned + {n}
    ensures BanFlow(BanFlow(w, IntToString(n)), IntToString(n)).banned == BanFlow(w, IntToString(n)).banned
    ensures IsBanned(BanFlow(w, IntToString(n)), n)
  {
    ReferralCodeNamesOwner(n);
    var w1 := BanFlow(w, IntToString(n));
    assert w1.admin == w.admin;
  }

  /** An id outside SQLite's INTEGER range bans nobody: the insert raises, and
      the flag set by "admin_ban" stays armed. */
  lemma BanOutOfRangeIgnored(w: World, n: int)
    requires !FitsSqliteInteger(n)
    ensures BanFlow(w, IntToString(n)).banned == w.banned
    ensures SessionOf(BanFlow(w, IntToString(n)), w.admin).waitingForBan
    ensures !IsBanned(BanFlow(w, IntToString(n)), n) <==> !IsBanned(w, n)
  {
    ReferralCodeNamesOwner(n);
  }

  /** The code of `/referral` is stable: asking again changes nothing and
      returns the same link. */
  lemma ReferralStable(w: World, uid: int)
    ensures Referral(Referral(w, uid).next, uid) == Referral(w, uid)
  {
  }

  /** Promo codes are case-insensitive: a code typed in any case acts as its uppercase form. */
  lemma PromoIgnoresCase(w: World, uid: int, text: string)
    ensures HandlePromo(w, uid, text) == HandlePromo(w, uid, Upper(text))
  {
    UpperIdempotent(text);
  }

  /** A promo applied before choosing a package discounts the order and the bonus. */
  lemma PromoThenPurchase(w: World, uid: int, text: string, token: string)
    requires Admitted(w, uid) && SessionOf(w, uid).waitingForPromo
    requires Upper(text) in w.promos && token in PackageTokens
    ensures var w1 := HandlePromo(w, uid, text).next;
            var w2 := ButtonCallback(w1, uid, token).next;
            var q := Quote(Prices[TokenPackage(token)], w.promos[Upper(text)]);
            && w2.orders == w.orders + [Order(uid, TokenPackage(token), q, w.promos[Upper(text)], None, Pending)]
            && w2.users[uid].bonuses == w.users[uid].bonuses + PurchaseBonus(q)
  {
    PackageTokensPriced(token);
  }

  /** After a package is chosen, the reminder names it and the revenue grows by its quoted price. */
  lemma PurchaseSeenByQueries(w: World, uid: int, token: string)
    requires uid in w.users && token in PackageTokens
    ensures var w1 := ButtonCallback(w, uid, token).next;
            && ReminderFor(w1, uid) == Some(TokenPackage(token))
            && AdminStats(w1.orders).Some?
            && AdminStats(w1.orders).value.total ==
                 SumPrices(w.orders) + Quote(Prices[TokenPackage(token)], SessionOf(w, uid).discount)
  {
    PackageTokensPriced(token);
    var w1 := ButtonCallback(w, uid, token).next;
    var o := w1.orders[|w1.orders| - 1];
    SumPricesAppend(w.orders, [o]);
    assert SumPrices([o]) == o.price by {
      assert [o][..0] == [];
    }
  }

  /** The only way into the player-id flow: "enter_id" arms the flag, and the
      next id-shaped message is written to every pending order of the user,
      stored in the session and disarms the flag. */
  lemma EnterIdThenPlayerId(w: World, uid: int, text: string)
    requires Admitted(w, uid) && IsValidPlayerId(text)
    ensures var w1 := ButtonCallback(w, uid, "enter_id").next;
            var o := DispatchText(w1, uid, text);
            && o.reply == PlayerIdSaved(text)
            && o.next.orders == AttachPlayerId(w.orders, uid, text)
            && SessionOf(o.next, uid).playerId == Some(text)
            && !SessionOf(o.next, uid).waitingForId
            && o.next.users == w.users && o.next.banned == w.banned
  {
    assert "enter_id" !in PackageTokens;
    assert !IsCommand(text) by {
      PlayerIdAlphabet(text);
    }
  }

  /** Attaching a player id keeps the orders pending, so the reminder still fires. */
  lemma PlayerIdKeepsReminder(w: World, uid: int, text: string)
    ensures ReminderFor(HandlePlayerId(w, uid, text).next, uid).Some? <==> ReminderFor(w, uid).Some?
  {
    var w1 := HandlePlayerId(w, uid, text).next;
    if ReminderFor(w, uid).Some? {
      var i :| 0 <= i < |w.orders| && IsPendingOf(w.orders[i], uid);
      assert IsPendingOf(w1.orders[i], uid);
    }
    if ReminderFor(w1, uid).Some? {
      var i :| 0 <= i < |w1.orders| && IsPendingOf(w1.orders[i], uid);
      assert IsPendingOf(w.orders[i], uid);
    }
  }

  /** A new user who starts the bot and picks the 60 UC package has one
      pending order at 90.06 roubles and no bonus yet. */
  lemma FirstPurchase(admin: int, uid: int)
    ensures var w1 := Start(Initial(admin), uid, []).next;
            var w2 := ButtonCallback(w1, uid, "60uc").next;
            && w2.orders == [Order(uid, "60", 9006, 0, None, Pending)]
            && w2.users[uid].bonuses == 0
            && w2.reminders == [uid]
  {
    PackageTokensPriced("60uc");
    assert "60uc" == "60" + "uc";
  }
}
