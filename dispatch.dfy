/** How a text message reaches a handler. The application registers five
    `MessageHandler`s for non-command text in one group, and the library runs
    only the first whose filter accepts the message. */
module Dispatch {
  import opened Wrappers
  import opened PyText
  import opened Model
  import opened Handlers

  datatype TextHandler = PlayerIdText | PromoText | CustomUcText | AdminBanText | ChatbotText

  /** The text handlers in registration order. */
  const TextHandlers: seq<TextHandler> := [PlayerIdText, PromoText, CustomUcText, AdminBanText, ChatbotText]

  /** `filters.COMMAND`: the message opens with a bot command. */
  predicate IsCommand(text: string) {
    |text| > 0 && text[0] == '/'
  }

  /** `filters.TEXT & ~filters.COMMAND`, and for the player-id handler also
      `filters.Regex(r'^\d{8,12}$')`. */
  predicate Accepts(h: TextHandler, text: string) {
    !IsCommand(text) && (h == PlayerIdText ==> IsValidPlayerId(text))
  }

  /** The first handler of `hs` whose filter accepts the text. */
  function FirstMatch(hs: seq<TextHandler>, text: string): (r: Option<TextHandler>)
    ensures r.Some? ==> exists k :: 0 <= k < |hs| && hs[k] == r.value && Accepts(hs[k], text)
                          && forall j :: 0 <= j < k ==> !Accepts(hs[j], text)
    ensures r.None? ==> forall j :: 0 <= j < |hs| ==> !Accepts(hs[j], text)
    decreases |hs|
  {
    if hs == [] then None
    else if Accepts(hs[0], text) then Some(hs[0])
    else
      var r := FirstMatch(hs[1..], text);
      assert r.Some? ==> exists k :: 0 <= k < |hs| && hs[k] == r.value && Accepts(hs[k], text)
                            && forall j :: 0 <= j < k ==> !Accepts(hs[j], text) by {
        if r.Some? {
          var k :| 0 <= k < |hs| - 1 && hs[1..][k] == r.value && Accepts(hs[1..][k], text)
                   && forall j :: 0 <= j < k ==> !Accepts(hs[1..][j], text);
          forall j | 0 <= j < k + 1 ensures !Accepts(hs[j], text) {
            if j > 0 { assert hs[j] == hs[1..][j - 1]; }
          }
          assert hs[k + 1] == r.value;
        }
      }
      r
  }

  /** `simple_chatbot`: a canned answer looked up by the lowercased text; it changes nothing. */
  function Chatbot(w: World, uid: int, text: string): (o: Outcome)
    ensures o.next == w
  {
    if IsBanned(w, uid) then Outcome(w, Refused)
    else if uid !in w.users then Outcome(w, Silent)
    else Outcome(w, KeywordReply(text))
  }

  function RunText(h: TextHandler, w: World, uid: int, text: string): Outcome {
    match h
    case PlayerIdText => HandlePlayerId(w, uid, text)
    case PromoText => HandlePromo(w, uid, text)
    case CustomUcText => HandleCustomUc(w, uid, text)
    case AdminBanText => HandleAdminBan(w, uid, text)
    case ChatbotText => Chatbot(w, uid, text)
  }

  /** A non-command text message, handled by the first matching handler. */
  function DispatchText(w: World, uid: int, text: string): (o: Outcome)
    ensures IsCommand(text) ==> o == Outcome(w, Silent)
    ensures !IsCommand(text) && IsValidPlayerId(text) ==> o == HandlePlayerId(w, uid, text)
    ensures !IsCommand(text) && !IsValidPlayerId(text) ==> o == HandlePromo(w, uid, text)
  {
    Routing(text);
    match FirstMatch(TextHandlers, text)
    case None => Outcome(w, Silent)
    case Some(h) => RunText(h, w, uid, text)
  }

  /** Where text goes: ids of 8 to 12 digits to `handle_player_id`, every
      other non-command text to `handle_promo`. */
  lemma Routing(text: string)
    ensures FirstMatch(TextHandlers, text) ==
      if IsCommand(text) then None
      else if IsValidPlayerId(text) then Some(PlayerIdText)
      else Some(PromoText)
  {
    var r := FirstMatch(TextHandlers, text);
    if r.Some? {
      var k :| 0 <= k < 5 && TextHandlers[k] == r.value && Accepts(TextHandlers[k], text)
               && forall j :: 0 <= j < k ==> !Accepts(TextHandlers[j], text);
      assert k <= 1;
    } else {
      assert !Accepts(TextHandlers[1], text);
    }
  }

  /** The three handlers registered after `handle_promo` never see a message. */
  lemma ShadowedHandlers(text: string)
    ensures FirstMatch(TextHandlers, text) !in {Some(CustomUcText), Some(AdminBanText), Some(ChatbotText)}
  {
    Routing(text);
  }

  /** Hence a text message never bans anyone, never consumes the custom-amount
      flag and never reaches the canned answers, and a valid id is never refused. */
  lemma DispatchConsequences(w: World, uid: int, text: string)
    ensures DispatchText(w, uid, text).next.banned == w.banned
    ensures SessionOf(DispatchText(w, uid, text).next, uid).waitingForCustomUc == SessionOf(w, uid).waitingForCustomUc
    ensures !DispatchText(w, uid, text).reply.KeywordReply?
    ensures DispatchText(w, uid, text).reply != InvalidPlayerId
  {
    Routing(text);
  }

  /** Text that is not an id never clears the player-id flag, and an id-shaped
      text never reaches the promo handler, so it leaves the promo flag set. */
  lemma FlagsLeftArmed(w: World, uid: int, text: string)
    ensures !IsValidPlayerId(text) ==>
      SessionOf(DispatchText(w, uid, text).next, uid).waitingForId == SessionOf(w, uid).waitingForId
    ensures IsValidPlayerId(text) ==>
      SessionOf(DispatchText(w, uid, text).next, uid).waitingForPromo == SessionOf(w, uid).waitingForPromo
  {
    Routing(text);
  }
}
