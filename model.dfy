/** The bot's state: the four SQLite tables, the per-user `context.user_data`
    sessions, the reminder jobs handed to the job queue, and the configured
    admin id. Also what a handler answers, as a message key with its data. */
module Model {
  import opened Wrappers
  import opened Catalog

  /** A row of `users`. A NULL `referral_code` or `referred_by` is the empty
      string: the code only ever tests these columns for truth. */
  datatype User = User(language: string, bonuses: nat, referralCode: string, referredBy: string)

  /** A stored status text other than 'pending'. */
  type OtherStatus = name: string | name != "pending"

  /** `pending` is the only status the bot writes; the others are the operator's,
      and none of them spells 'pending'. */
  datatype Status = Pending | Other(name: OtherStatus)

  /** A row of `orders`. The stored price text is the quoted price in kopecks
      together with the discount that produced it; the timestamp is the row's
      position in the ledger. */
  datatype Order = Order(userId: int, package: string, price: nat, discount: Percent,
                         playerId: Option<string>, status: Status)

  /** `context.user_data` of one user: the keys the handlers read with
      `.get(key, default)`, and four waiting flags that nothing keeps exclusive. */
  datatype Session = Session(selectedUc: Option<string>, discount: Percent, playerId: Option<string>,
                             waitingForId: bool, waitingForPromo: bool,
                             waitingForCustomUc: bool, waitingForBan: bool)

  const NewSession: Session := Session(None, 0, None, false, false, false, false)

  datatype World = World(admin: int,
                         users: map<int, User>,
                         orders: seq<Order>,
                         promos: map<string, Percent>,
                         banned: set<int>,
                         sessions: map<int, Session>,
                         reminders: seq<int>)

  /** The values SQLite can store in an INTEGER column: binding any other
      Python int raises OverflowError. */
  predicate FitsSqliteInteger(n: int) {
    -0x8000_0000_0000_0000 <= n <= 0x7FFF_FFFF_FFFF_FFFF
  }

  /** The seeded promo registry: SUMMER10 at 0.1 and WELCOME at 0.05. */
  const SeedPromos: map<string, Percent> := map["SUMMER10" := 10, "WELCOME" := 5]

  /** A fresh database after `init_db`, with no sessions and no jobs. */
  function Initial(admin: int): (w: World)
    ensures w.admin == admin
    ensures w.users == map[] && w.orders == [] && w.banned == {}
    ensures w.sessions == map[] && w.reminders == []
    ensures w.promos.Keys == {"SUMMER10", "WELCOME"}
    ensures w.promos["SUMMER10"] == 10 && w.promos["WELCOME"] == 5
  {
    World(admin, map[], [], SeedPromos, {}, map[], [])
  }

  /** The user's `context.user_data`, empty until a handler first writes it. */
  function SessionOf(w: World, uid: int): Session {
    if uid in w.sessions then w.sessions[uid] else NewSession
  }

  /** A statistics reply: order count, revenue in kopecks and the most ordered package. */
  datatype Stats = Stats(count: nat, total: nat, popular: string, popularCount: nat)

  /** What a handler sends back, as a message key and its parameters. */
  datatype Reply =
    | Silent                                   // nothing sent: flag not set, or exception swallowed
    | Refused                                  // the ban notice of check_ban
    | AccessDenied                             // a non-admin on an admin handler
    | Welcome
    | OrderDetails(package: string, price: nat, discount: Percent)
    | AskPlayerId
    | PaymentDetails(selected: Option<string>, deliveryId: Option<string>)
    | InvalidPlayerId
    | PlayerIdSaved(savedId: string)
    | AskPromo
    | PromoApplied(discount: Percent)
    | PromoInvalid
    | AskCustomAmount
    | CustomQuote(amount: nat, price: nat)
    | CustomInvalid
    | ReferralLink(code: string)
    | OrderList(orders: seq<Order>)
    | StatsReport(stats: Stats)
    | AskBanTarget
    | UserBanned(id: int)
    | BanInvalid
    | KeywordReply(question: string)          // simple_chatbot's canned answer to this text
    | LanguageChanged                          // set_language's confirmation

  /** The state after a handler and what it sent. */
  datatype Outcome = Outcome(next: World, reply: Reply)

  /** Adds `amount` to one user's bonuses: `UPDATE users SET bonuses = bonuses + ?`. */
  function Credit(users: map<int, User>, uid: int, amount: nat): (r: map<int, User>)
    requires uid in users
    ensures r.Keys == users.Keys
    ensures r[uid].bonuses == users[uid].bonuses + amount
    ensures r[uid] == users[uid].(bonuses := r[uid].bonuses)
    ensures forall u :: u in users && u != uid ==> r[u] == users[u]
  {
    users[uid := users[uid].(bonuses := users[uid].bonuses + amount)]
  }

  /** No user row disappears and no balance shrinks. */
  ghost predicate BalancesGrow(before: map<int, User>, after: map<int, User>) {
    forall u :: u in before ==> u in after && after[u].bonuses >= before[u].bonuses
  }

  /** Every user row other than `uid`'s is as it was, and no other row appears. */
  ghost predicate OthersUntouched(before: map<int, User>, after: map<int, User>, uid: int) {
    && (forall u :: u != uid ==> (u in before <==> u in after))
    && (forall u :: u != uid && u in before ==> after[u] == before[u])
  }

  /** The ledger keeps every earlier row and every column but the player id. */
  ghost predicate LedgerExtends(before: seq<Order>, after: seq<Order>) {
    && |before| <= |after|
    && forall i :: 0 <= i < |before| ==>
         after[i] == before[i].(playerId := after[i].playerId)
  }

  /** Only `uid`'s session may have changed. */
  ghost predicate OtherSessionsUntouched(w: World, w': World, uid: int) {
    forall u :: u != uid ==> SessionOf(w', u) == SessionOf(w, u)
  }
}
