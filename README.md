# UC top-up bot: purchase and accounting core

A Dafny model of the purchase and accounting logic of a Telegram bot that sells
PUBG "UC" packages. The bot registers users, quotes packages (optionally with a
promo discount), records orders, collects the player id the UC go to, credits
loyalty bonuses on purchases and referral commissions on payment, and lets one
operator see statistics and ban users. The Telegram transport and the SQLite
plumbing are removed. What is left is a sequential state machine over four
tables and a per-user session record.

## Layout

- `wrappers.dfy` (`Wrappers`): the `Option` type, standing for a missing row or
  unparsable text.
- `text.dfy` (`PyText`): the Python string operations the handlers depend on.
  These are the player-id regular expression, `int()`, `str()` of an integer,
  `str.replace(p, "")` and `str.upper()`. The alphabet is stated explicitly.
- `catalog.dfy` (`Catalog`): the price list in kopecks, the package behind a
  button token, the quoted price, the purchase bonus and the referral commission.
- `model.dfy` (`Model`): the state `World`. It holds the `users`, `orders`,
  `promos` and `banned_users` tables and the per-user `Session` (the
  `context.user_data` dictionary). It also holds the reminder jobs and the admin
  id. The module also defines the `Reply` a handler sends and frame predicates.
- `queries.dfy` (`Queries`): the reminder lookup and the operator statistics.
- `handlers.dfy` (`Handlers`): every handler as a function from the state
  before an update to the state after it and the reply.
- `dispatch.dfy` (`Dispatch`): the five text handlers in registration order,
  and the library's first-match rule.
- `bot.dfy` (`BotState.Bot`): the bot as a class. The tables, the sessions and
  the job list are fields, and each handler is a method that updates them step
  by step. Each method is proved to reach the state and the reply that its
  `Handlers` function gives.
- `scenarios.dfy` (`Scenarios`): invariants of every sequence of updates, and
  the referral, promo, ban and purchase flows end to end.

## Representation

- Prices are integer kopecks ("90.06 ₽" is 9006). Promo discounts are whole
  percents: SUMMER10 is 10 and WELCOME is 5.
- The purchase bonus is `price div 100000` (one unit per full 1000 roubles). The
  commission is `list price * 5 div 10000`.
- A NULL `referral_code` or `referred_by` is the empty string. The code only
  tests these columns for truth, so NULL and `""` behave alike.
- An order's timestamp is its position in the ledger, so "newest" means "last".
- A handler that reads the user's language (`c.fetchone()[0]`) raises for an
  unregistered user. The `except` swallows the error, so the model makes that
  handler a no-op with the reply `Silent`.

## Behaviour as the code has it

The model follows the code. Several of these points differ from how the bot is
meant to work:

- The waiting flags are four independent booleans, and nothing keeps them
  exclusive. "enter_id" sets its flag without looking at the others.
- `/start` overwrites an earlier referrer and arms the reminder job.
  Choosing a package arms nothing.
- A valid player id is written to every pending order of the user, not only to
  the newest one.
- `button_callback` has no ban check. A banned user can still place orders and
  press "pay".
- A user can be their own referrer. After `/start ref<own id>`, "pay" credits
  the payer (`Scenarios.SelfReferralCreditsPayer`).
- Repeating "pay" or a package button credits again, because nothing
  deduplicates credits.
- All five text handlers are registered in one handler group, and only the
  first match runs. So text of 8 to 12 digits reaches `handle_player_id` and
  all other text reaches `handle_promo`. `handle_custom_uc`, `handle_admin_ban`
  and `simple_chatbot` never run on a message, so text never bans anyone and
  never uses up the custom-amount flag (`Dispatch.ShadowedHandlers`,
  `Dispatch.DispatchConsequences`). Each handler is still modelled and callable
  on its own.
- `/admin` statistics with an empty ledger index a missing row. The exception
  is swallowed and no report is sent.

## Model

| member | source | states |
|---|---|---|
| PyText.PlayerIdAlphabet | bot.py:74-75 | a player id is 8 to 12 ASCII digits, optionally followed by one newline (Python's `$`); shorter or longer text, or a non-digit anywhere else, is rejected |
| PyText.IsValidPlayerId | bot.py:74-75 | an accepted player id is 8 to 13 characters long, all ASCII digits except possibly one final newline |
| PyText.ParseInt | bot.py:294 | `int()` accepts only a digit or a sign followed by digits; unsigned digits read as their decimal value, "+d" as d and "-d" as −d (leading zeros allowed, so "-007" is −7), and a negative result comes only from a leading '-' |
| PyText.ParseIntRejects | bot.py:573 | `int()` rejects the empty string, a bare sign, a leading character that is neither digit nor sign, and any later non-digit |
| PyText.DigitChar | bot.py:478 | the character written for a decimal digit is an ASCII digit of that value |
| PyText.NatToString | bot.py:478 | `str(n)` of a natural number is a non-empty run of ASCII digits whose decimal value is n, with no leading zero: it starts with '0' exactly when n is 0 |
| PyText.IntToString | bot.py:478 | `str(id)` consists of digits and '-', starts with '-' exactly for a negative id, never has a leading zero (after the sign), and `int()` reads it back as the same id |
| PyText.RemoveAll | bot.py:191 | `replace("ref", "")` never lengthens the text and adds no characters |
| PyText.RemoveAllAbsent | bot.py:191 | text that never contains the pattern's first character passes through `replace` unchanged |
| PyText.RemoveAllConcat | bot.py:238 | a prefix free of the pattern's first character is copied, and the scan continues behind it |
| PyText.RemoveAllLeading | bot.py:191 | a leading occurrence of the pattern is dropped and the rest is processed as if it stood alone |
| PyText.Upper | bot.py:377 | `upper()` keeps the length, turns each ASCII lower-case letter into its capital, leaves every other character alone, and leaves no lower-case ASCII letter |
| PyText.UpperIdempotent | bot.py:377 | uppercasing twice equals uppercasing once |
| Catalog.PackageOf | bot.py:238 | `replace("uc", "")` never lengthens the token, and a digit string followed by "uc" yields the digit string |
| Catalog.PackageTokensPriced | bot.py:237-241 | each of the six package tokens, with "uc" removed, is a package in `PRICES`, and adding "uc" back gives the token |
| Catalog.TokenPackage | bot.py:237-241 | a package button always names a package with a price, so `prices.get` never falls back to "неизвестно" |
| Catalog.Quote | bot.py:242-245 | with no discount the quote is the list price; otherwise it is list × (100 − discount)/100 to the nearest kopeck, and never above the list price |
| Catalog.PurchaseBonus | bot.py:266-267 | the bonus is the number of full 1000 roubles in the quoted price |
| Catalog.Commission | bot.py:287-288 | the commission is 5% of the list price, rounded down |
| Catalog.CatalogFigures | bot.py:54-57 | "900.61 ₽" earns no bonus and quotes at 810.55 under a 10% promo; "2251.53 ₽" pays a commission of 112; "9006.10 ₽" earns 9 bonus units |
| Model.Initial | bot.py:29-51 | the database starts with the given admin, no users, orders or bans, no sessions or jobs, and a promo table holding exactly SUMMER10 (10%) and WELCOME (5%) |
| Model.Credit | bot.py:268 | `bonuses = bonuses + n` raises one row by exactly n and leaves every other row and column alone |
| Queries.LatestPending | bot.py:594-595 | the result is the newest pending order of the user, or nothing if the user has no pending order |
| Queries.ReminderFor | bot.py:586-600 | the reminder fires exactly when a registered user has a pending order, and it names the newest one |
| Queries.SumPrices | bot.py:552 | the revenue is at least the price of every single order |
| Queries.SumPricesAppend | bot.py:552 | revenue over two runs of orders is the sum of their revenues |
| Queries.CountOf | bot.py:554 | a package's order count is at most the number of orders, and equals it when every order names that package |
| Queries.CountOfOccurs | bot.py:554 | a package with a positive order count occurs in the ledger |
| Queries.CountOfPositive | bot.py:554 | every package in the ledger has an order count of at least 1 |
| Queries.MostFrequent | bot.py:554-555 | the chosen package occurs among the orders and no order's package is ordered more often |
| Queries.AdminStats | bot.py:549-558 | with no orders there is no report; otherwise count is the number of orders, total is the sum of their prices, and the popular package has the largest order count (at least 1) |
| Handlers.RefArgument | bot.py:190-191 | a referrer is read exactly when the first argument starts with "ref"; it is the rest of the argument with every "ref" removed, so it is at least three characters shorter |
| Handlers.Start | bot.py:178-200 | a banned user gets the refusal and nothing changes; otherwise a new user is inserted with language 'ru', 0 bonuses and no code, while an existing user keeps language, bonuses and code; a "ref…" argument with every "ref" removed becomes `referred_by`, overwriting the old one; one reminder job is armed; no other row changes |
| Handlers.SelectPackage | bot.py:237-269 | exactly one order is appended for this user, with the package, the quoted price under the session discount, no player id and 'pending'; only this user's bonuses grow, by the purchase bonus on that price; `selected_uc` is set and the discount kept |
| Handlers.EnterId | bot.py:276-278 | "enter_id" sets `waiting_for_id` and leaves every other flag, session and table alone |
| Handlers.SelectedListPrice | bot.py:282-287 | the price `pay` reads is positive exactly when a priced package is selected, and is then its list price; otherwise the "0" fallback |
| Handlers.ReferrerOf | bot.py:291-294 | an empty `referred_by` names nobody; any other value names whoever `int()` reads it as (so "+7" and "007" name 7), and `str(a)` names a |
| Handlers.Pay | bot.py:280-296 | only bonus columns change; the user named by `int(referred_by)` gains 5% of the selected package's undiscounted list price (0 with none selected) and every other user, the payer included unless self-referred, gains nothing; nothing is credited when `referred_by` is empty or not an integer |
| Handlers.ButtonCallback | bot.py:226-298 | an unregistered user's button changes nothing; for a registered user a package token runs the package branch on its priced package, "enter_id" arms the id flag, and "pay" credits the referrer; any other token changes nothing |
| Handlers.ButtonCallbackFrame | bot.py:226-298 | a button never removes users or lowers a balance; it changes only bonus columns, only appends pending orders and leaves bans, promos and jobs alone |
| Handlers.AttachPlayerId | bot.py:322-323 | every pending order of this user gets the player id; all other orders, and every other column, are unchanged |
| Handlers.HandlePlayerId | bot.py:300-327 | banned users are refused; with the flag unset nothing changes; invalid text changes neither ledger nor flag; valid text updates the user's pending orders, stores the id in the session and clears the flag, with no other change |
| Handlers.PromoCommand | bot.py:350-364 | `/promo` sets only the promo flag of a registered, unbanned user |
| Handlers.HandlePromo | bot.py:366-390 | acts only with the promo flag set and always clears it; a hit on the uppercased text copies that code's discount into the session, a miss keeps the old discount; no table changes |
| Handlers.CustomCommand | bot.py:427-440 | `/custom` sets only the custom-amount flag of a registered, unbanned user |
| Handlers.HandleCustomUc | bot.py:442-466 | acts only with its flag set; the quote is given iff the text is a positive integer, at 1.5 per UC (150 hundredths), and the flag is cleared; an integer too large for `float()` raises OverflowError past the inner `except`, so nothing is sent and the flag stays set; no table changes |
| Handlers.Referral | bot.py:468-485 | an empty code becomes "ref" + user id; a stored code is returned and nothing changes |
| Handlers.SetLanguage | bot.py:500-512 | a "lang_" button changes only the pressing user's language column, to 'ru' exactly for "lang_ru" and to 'en' otherwise; an unregistered user changes nothing; the confirmation is always sent; there is no ban check |
| Handlers.AdminCallback | bot.py:530-564 | a non-admin is refused with no change; the order list and statistics change nothing; "admin_ban" sets only the admin's ban flag |
| Handlers.HandleAdminBan | bot.py:566-584 | a non-admin is refused with no change; with the flag set, integer text adds that id to the banned set (INSERT OR IGNORE) and other text leaves it alone, the flag being cleared in both cases; an integer outside SQLite's 64-bit INTEGER range raises OverflowError at the insert, so nobody is banned, nothing is sent and the flag stays set |
| Dispatch.FirstMatch | bot.py:652-656 | the chosen handler accepts the text and no earlier registered handler does; with none chosen, none accepts it |
| Dispatch.Chatbot | bot.py:602-629 | the keyword responder changes no state |
| Dispatch.DispatchText | bot.py:652-656 | a command reaches no text handler; an 8-to-12-digit id is handled by `handle_player_id`; any other text by `handle_promo` |
| Dispatch.Routing | bot.py:652-653 | non-command text of 8 to 12 digits goes to `handle_player_id`, other non-command text goes to `handle_promo`, and commands go to neither |
| Dispatch.ShadowedHandlers | bot.py:653-656 | `handle_custom_uc`, `handle_admin_ban` and `simple_chatbot` are never chosen |
| Dispatch.DispatchConsequences | bot.py:652-656 | a text message never changes the banned set, never touches the custom-amount flag, never gets a canned answer and never gets the invalid-id reply |
| Dispatch.FlagsLeftArmed | bot.py:652-653 | text that is not an id leaves `waiting_for_id` as it was; an id-shaped text leaves `waiting_for_promo` as it was |
| BotState.Bot.constructor | bot.py:29-51 | the bot starts from the initial database |
| BotState.Bot.CheckBan | bot.py:162-176 | `check_ban` holds iff the user id is in the banned set |
| BotState.Bot.Start | bot.py:178-200 | updates the tables and jobs step by step, and ends in the state and reply of `Handlers.Start` |
| BotState.Bot.ButtonCallback | bot.py:226-298 | ends in the state and reply of `Handlers.ButtonCallback` |
| BotState.Bot.SelectPackage | bot.py:237-269 | sets the session, appends the order and credits the bonus, ending as `Handlers.SelectPackage` says |
| BotState.Bot.Pay | bot.py:280-296 | credits the referrer in place, ending as `Handlers.Pay` says |
| BotState.Bot.HandlePlayerId | bot.py:300-327 | updates the pending orders row by row, ending as `Handlers.HandlePlayerId` says |
| BotState.Bot.PromoCommand | bot.py:350-364 | ends as `Handlers.PromoCommand` says |
| BotState.Bot.HandlePromo | bot.py:366-390 | ends as `Handlers.HandlePromo` says |
| BotState.Bot.CustomCommand | bot.py:427-440 | ends as `Handlers.CustomCommand` says |
| BotState.Bot.HandleCustomUc | bot.py:442-466 | ends as `Handlers.HandleCustomUc` says |
| BotState.Bot.Referral | bot.py:468-485 | ends as `Handlers.Referral` says |
| BotState.Bot.SetLanguage | bot.py:500-512 | writes the language column in place, ending as `Handlers.SetLanguage` says |
| BotState.Bot.AdminCallback | bot.py:530-564 | ends as `Handlers.AdminCallback` says |
| BotState.Bot.HandleAdminBan | bot.py:566-584 | ends as `Handlers.HandleAdminBan` says |
| BotState.Bot.Reminder | bot.py:586-600 | reads the state only and returns the package `Queries.ReminderFor` names |
| BotState.Bot.Chatbot | bot.py:602-629 | reads the state only and replies as `Dispatch.Chatbot` says |
| BotState.Bot.HandleText | bot.py:652-656 | runs the first registered text handler that accepts the message, ending as `Dispatch.DispatchText` says |
| Scenarios.StepEvolves | bot.py:640-656 | no update deletes a user, lowers a balance, changes an order except for its player id, writes a status other than 'pending', lifts a ban, edits a promo or changes a referral code once set; stored codes stay "ref" + owner id |
| Scenarios.Step | bot.py:640-656 | no routed update changes the admin or the banned set; callback data matching none of the registered patterns (buttons, "lang_", "admin_") and command text change nothing |
| Scenarios.RunEvolves | bot.py:640-656 | the same holds for every sequence of updates |
| Scenarios.EvolvesTransitive | bot.py:640-656 | two evolutions in a row are one evolution |
| Scenarios.SessionOnlyEvolves | bot.py:350-364 | a handler that changes only sessions (/promo, /custom, "admin_ban", the promo reply) keeps the invariants |
| Scenarios.StartEvolves | bot.py:178-200 | `/start` keeps the invariants: it may insert a user and rewrite `referred_by`, but no balance, order, ban, promo or code changes |
| Scenarios.ReferralEvolves | bot.py:468-485 | `/referral` keeps the invariants: a code it writes is "ref" + the owner's id and an existing code stays |
| Scenarios.ButtonEvolves | bot.py:226-298 | a package, "enter_id" or "pay" button keeps the invariants |
| Scenarios.AdminEvolves | bot.py:530-564 | an operator button keeps the invariants |
| Scenarios.LanguageEvolves | bot.py:500-512 | a language button keeps the invariants |
| Scenarios.TextEvolves | bot.py:652-656 | a text message keeps the invariants |
| Scenarios.ReferralCodeNamesOwner | bot.py:190-191 | the link argument "ref" + id, with "ref" removed, parses back to the id |
| Scenarios.ReferralHandsOutOwnCode | bot.py:475-483 | `/referral` for a registered user hands out "ref" + the user's id and changes no user set, balance, session or ban |
| Scenarios.StartWithCode | bot.py:190-192 | `/start` with A's code makes A the user's referrer and leaves A's row unchanged |
| Scenarios.SelectKeepsReferrer | bot.py:237-269 | choosing a package records it and credits only the buyer |
| Scenarios.PayCreditsReferrer | bot.py:287-294 | "pay" credits the referrer the commission on the selected list price and leaves another payer's balance unchanged |
| Scenarios.PayCreditsParsedReferrer | bot.py:291-294 | "pay" credits the commission to the user `int(referred_by)` names, for any numeral `int()` accepts, and leaves another payer's balance unchanged |
| Scenarios.ReferralRoundTrip | bot.py:178-298 | when A shares a link and B starts with it, picks a package and pays, A gains 5% of the list price and B gains the purchase bonus on the quoted price |
| Scenarios.SelfReferralCreditsPayer | bot.py:190-294 | a user who starts with their own code is credited the commission on their own payment |
| Scenarios.UnparsableReferrerCreditsNothing | bot.py:293-297 | "pay" changes nothing when `referred_by` is not an integer |
| Scenarios.BanIdempotent | bot.py:576 | an id SQLite can store is banned exactly, banning it again changes nothing, and `check_ban` then holds |
| Scenarios.BanOutOfRangeIgnored | bot.py:573-584 | an id outside SQLite's INTEGER range bans nobody and leaves the ban prompt armed |
| Scenarios.ReferralStable | bot.py:477-480 | asking for the referral link twice gives the same link and state as asking once |
| Scenarios.PromoIgnoresCase | bot.py:377-379 | a promo code typed in any case acts like its upper-case form |
| Scenarios.PromoThenPurchase | bot.py:242-268 | after a promo hit, the next order is quoted at the discount and the bonus is computed on the discounted price |
| Scenarios.PurchaseSeenByQueries | bot.py:552-598 | after a package is chosen, the reminder names it and revenue grows by its quoted price |
| Scenarios.EnterIdThenPlayerId | bot.py:276-278 | after "enter_id", an id-shaped message is saved: every pending order of the user gets it, the session stores it and the flag is cleared, with users and bans unchanged |
| Scenarios.PlayerIdKeepsReminder | bot.py:322-323 | attaching a player id keeps the orders pending, so whether a reminder fires is unchanged |
| Scenarios.FirstPurchase | bot.py:178-269 | a new user who starts and picks 60 UC has one pending order at 90.06 ₽, no bonus and one reminder job |

## Left out

- Telegram transport is not modelled: reply texts, inline keyboards, `query.answer`, the admin notification for a new order (bot.py:271-274) and `send_message`/`send_photo`. A reply is a message key with its data.
- The following handlers only render or forward and are not modelled: `handle_screenshot`, `buy_uc`, `history`, `bonuses`, `language` (the language keyboard), the `/admin` menu and `TRANSLATIONS`. The language column is kept and written by `set_language`, but no reply is rendered in it.
- Bootstrap is not modelled: the /opt/data write check, the `init_db` DDL and the `prices.json` write/read. `load_prices` is the constant `Catalog.Prices`.
- SQLite failures other than the missing user row and an out-of-range ban id are not modelled. A store that cannot be reached would end the handler early.
- Timestamps are replaced by ledger order. `ORDER BY timestamp DESC` has one-second resolution and can tie. The model always takes the last order inserted.
- The reminder delay (`run_once(..., 600)`) is not modelled. An armed job is only a user id in `reminders`. When it fires, `Bot.Reminder` computes the package to name.
- User ids come from Telegram and are taken to fit SQLite's INTEGER column. The model does not bound them, so the OverflowError an out-of-range id would raise in `start` or in the referrer credit of "pay" is not modelled.
- Concurrency (asyncio, the webhook) is not modelled. Updates are applied one at a time.
- `ADMIN_ID` comes from the environment in the source. Here it is the constructor's parameter.
- Catalog.Quote: rounds the exact decimal product half up to a kopeck. Python formats the binary float `price_value * (1 - discount)` with `:.2f`, and the two can differ by a kopeck on ties.
- Catalog.PurchaseBonus: floors on exact kopecks, while the source floors a float. The two agree on every price the bot can quote.
- Catalog.Commission: floors on exact kopecks, while the source truncates the float `price * 0.05`. They agree on the six list prices.
- The display of the discount (`discount*100`) and the custom quote's float `uc_amount * 1.5` are not modelled. The custom quote is 1.5 per UC exactly, kept as 150 hundredths; the 'ru' text shows it in ₽ and the 'en' text in USD.
- Promo discounts are whole percents in [0, 100). Only the two seeded codes exist, and no handler in the core adds promos.
- PyText.ParseInt: accepts an optional sign and ASCII digits only. Python's `int()` also accepts surrounding whitespace, underscores between digits and non-ASCII decimal digits.
- PyText.IsValidPlayerId: `\d` is limited to ASCII digits. Python's `\d` also matches other Unicode decimal digits.
- PyText.Upper: maps only ASCII letters. Python's `str.upper()` also maps non-ASCII letters, some of them onto ASCII capitals.
- Dispatch.IsCommand: `filters.COMMAND` is modelled as text starting with '/'. The library checks for a bot-command entity at offset 0.
- Dispatch.Chatbot: the keyword table of `simple_chatbot` is not modelled. The reply carries the text it would look up.
- Queries.MostFrequent: when several packages share the top count, SQLite's choice among them is not modelled. The model picks one of them.
