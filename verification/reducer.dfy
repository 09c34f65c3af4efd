/** `handle_chat_response`: folding one optional server reply into the session. */
module Reducer {
  import opened Wrappers
  import opened Text
  import opened Chat
  import opened Session

  /** `context.hackathon_details.drillPartnerName` when it is truthy. */
  function PartnerName(ctx: Option<Context>): (p: Option<string>)
    ensures p.Some? ==> p.value != ""
    ensures p.Some? <==> ctx.Some? && ctx.value.hackathonDetails.Some?
                         && Truthy(ctx.value.hackathonDetails.value.drillPartnerName)
    ensures p.Some? ==> p == ctx.value.hackathonDetails.value.drillPartnerName
  {
    match ctx
    case None => None
    case Some(c) =>
      match c.hackathonDetails
      case None => None
      case Some(d) => if Truthy(d.drillPartnerName) then d.drillPartnerName else None
  }

  /** `context.get("original_name", "")`, with an absent context read as `{}`. */
  function OriginalName(ctx: Option<Context>): (name: string)
    ensures ctx.None? ==> name == ""
    ensures ctx.Some? && ctx.value.originalName.None? ==> name == ""
    ensures ctx.Some? && ctx.value.originalName.Some? ==> name == ctx.value.originalName.value
  {
    match ctx
    case None => ""
    case Some(c) => c.originalName.GetOr("")
  }

  /** The success message for a registered event. It opens with the heading,
      names the partner right after it exactly when one is known, and ends with
      the link line carrying the link verbatim; the length pins the rest. */
  function SuccessText(ctx: Option<Context>, link: string): (t: string)
    ensures StartsWith(t, SuccessHeading)
    ensures EndsWith(t, LinkLead + link)
    ensures StartsWith(t, SuccessHeading + PartnerLead) <==> PartnerName(ctx).Some?
    ensures PartnerName(ctx).Some? ==> StartsWith(t, SuccessHeading + PartnerLead + PartnerName(ctx).value)
    ensures |t| == |SuccessHeading| + |LinkLead| + |link|
                   + (if PartnerName(ctx).Some? then |PartnerLead| + |PartnerName(ctx).value| else 0)
  {
    var withPartner := match PartnerName(ctx)
      case Some(p) => PartnerLead + p
      case None => "";
    var t := SuccessHeading + withPartner + LinkLead + link;
    assert t[..|SuccessHeading|] == SuccessHeading;
    assert t[|t| - |LinkLead + link|..] == LinkLead + link;
    if PartnerName(ctx).None? then
      assert t[|SuccessHeading|] == '\n';
      t
    else
      assert t[..|SuccessHeading + PartnerLead|] == SuccessHeading + PartnerLead;
      assert t[..|SuccessHeading + PartnerLead + PartnerName(ctx).value|]
          == SuccessHeading + PartnerLead + PartnerName(ctx).value;
      t
  }

  /** A reply announces a registered event when its `event_link` is truthy. */
  predicate HasEventLink(rep: Reply) {
    Truthy(rep.eventLink)
  }

  /** The completion flag the session adopts: the reply's, or false when missing. */
  function AdoptedComplete(rep: Reply): bool {
    rep.registrationComplete.GetOr(false)
  }

  /** The assistant messages one reply appends to the transcript. */
  function Appended(rep: Reply): seq<Message> {
    [Message(Assistant, rep.message)]
    + (if HasEventLink(rep) then
         [Message(Assistant, SuccessText(rep.context, rep.eventLink.value))]
         + (if AdoptedComplete(rep) then [Message(Assistant, AnotherEventPrompt)] else [])
       else [])
  }

  /** Folding an optional reply into the session. A missing reply (transport
      failure) changes nothing. A present one makes its id, context and current
      question authoritative, adopts its completion flag (false if missing), and
      extends the transcript with 1 to 3 assistant messages: the reply text,
      then the success message exactly when an event link is present, then the
      "another event" prompt exactly when, in addition, registration is complete. */
  function Reduce(s: State, reply: Option<Reply>): (r: State)
    ensures reply.None? ==> r == s
    ensures reply.Some? ==>
      && r.sessionId == reply.value.sessionId
      && r.context == reply.value.context
      && r.currentQuestion == reply.value.currentQuestion
      && r.registrationComplete == (reply.value.registrationComplete == Some(true))
      && r.started == s.started
    ensures |s.messages| <= |r.messages| && r.messages[..|s.messages|] == s.messages
    ensures reply.Some? ==> |s.messages| + 1 <= |r.messages| <= |s.messages| + 3
    ensures forall i :: |s.messages| <= i < |r.messages| ==> r.messages[i].role == Assistant
    ensures reply.Some? ==> r.messages[|s.messages|] == Message(Assistant, reply.value.message)
    ensures reply.Some? ==> (|s.messages| + 2 <= |r.messages| <==> HasEventLink(reply.value))
    ensures reply.Some? && HasEventLink(reply.value) ==>
      r.messages[|s.messages| + 1] == Message(Assistant, SuccessText(reply.value.context, reply.value.eventLink.value))
    ensures |r.messages| == |s.messages| + 3 <==> reply.Some? && HasEventLink(reply.value) && r.registrationComplete
    ensures |r.messages| == |s.messages| + 3 ==> r.messages[|s.messages| + 2] == Message(Assistant, AnotherEventPrompt)
  {
    match reply
    case None => s
    case Some(rep) =>
      State(rep.context, rep.currentQuestion, s.messages + Appended(rep),
            AdoptedComplete(rep), s.started, rep.sessionId)
  }

  /** A reply whose completion flag is false or missing never yields the
      "another event" prompt: nothing the client adds after the reply's own
      text is that prompt, whatever else the reply carries. */
  lemma IncompleteReplyNeverPrompts(s: State, rep: Reply)
    requires rep.registrationComplete != Some(true)
    ensures |Reduce(s, Some(rep)).messages| <= |s.messages| + 2
    ensures forall i :: |s.messages| < i < |Reduce(s, Some(rep)).messages| ==>
      Reduce(s, Some(rep)).messages[i].content != AnotherEventPrompt
  {
  }

  /** A reply with a link always leaves that exact link in the transcript:
      the success message ends with it. */
  lemma EventLinkReachesTranscript(s: State, rep: Reply)
    requires HasEventLink(rep)
    ensures exists i :: (|s.messages| <= i < |Reduce(s, Some(rep)).messages|
      && EndsWith(Reduce(s, Some(rep)).messages[i].content, rep.eventLink.value))
  {
    var r := Reduce(s, Some(rep));
    var t := r.messages[|s.messages| + 1].content;
    var link := rep.eventLink.value;
    assert EndsWith(t, LinkLead + link);
    assert t[|t| - |link|..] == (LinkLead + link)[|LinkLead|..];
  }

  /** The fields a reply makes authoritative do not depend on the session it
      is folded into, and the transcript gains the same messages either way. */
  lemma ReplyIsAuthoritative(s: State, u: State, rep: Reply)
    ensures Reduce(s, Some(rep)).sessionId == Reduce(u, Some(rep)).sessionId
    ensures Reduce(s, Some(rep)).context == Reduce(u, Some(rep)).context
    ensures Reduce(s, Some(rep)).currentQuestion == Reduce(u, Some(rep)).currentQuestion
    ensures Reduce(s, Some(rep)).registrationComplete == Reduce(u, Some(rep)).registrationComplete
    ensures Reduce(s, Some(rep)).messages[|s.messages|..] == Reduce(u, Some(rep)).messages[|u.messages|..]
  {
  }

  // ---------------------------------------------------------------------
  // Suggestions that require a selection

  /** `f"{i+1}. {suggestion}"`. */
  function Line(i: nat, suggestion: string): string {
    NatToString(i + 1) + ". " + suggestion
  }

  /** The listing lines for `suggestions`, the first of them numbered as item `k`. */
  function LinesFrom(suggestions: seq<string>, k: nat): (lines: seq<string>)
    ensures |lines| == |suggestions|
    decreases |suggestions|
  {
    if |suggestions| == 0 then []
    else [Line(k, suggestions[0])] + LinesFrom(suggestions[1..], k + 1)
  }

  function ListingLines(suggestions: seq<string>): seq<string> {
    LinesFrom(suggestions, 0)
  }

  /** The numbered listing `"\n".join(f"{i+1}. {s}" ...)`: empty for no
      suggestions, otherwise opening with item 1 and closing with the last
      item under its own number. */
  function Listing(suggestions: seq<string>): (l: string)
    ensures |suggestions| == 0 ==> l == ""
    ensures 1 <= |suggestions| ==> StartsWith(l, "1. " + suggestions[0])
    ensures 1 <= |suggestions| ==>
      EndsWith(l, NatToString(|suggestions|) + ". " + suggestions[|suggestions| - 1])
  {
    ListingNumbersFromOne(suggestions);
    assert NatToString(1) == "1";
    Join(ListingLines(suggestions), '\n')
  }

  lemma {:induction false} LinesFromAt(suggestions: seq<string>, k: nat, i: nat)
    requires i < |suggestions|
    ensures LinesFrom(suggestions, k)[i] == Line(k + i, suggestions[i])
    decreases i
  {
    if i > 0 {
      LinesFromAt(suggestions[1..], k + 1, i - 1);
    }
  }

  /** Line `i` of the listing is item `i` numbered `i + 1`: the decimal
      number, a dot and a space, then the suggestion verbatim. */
  lemma ListingNumbersFromOne(suggestions: seq<string>)
    ensures |ListingLines(suggestions)| == |suggestions|
    ensures forall i :: 0 <= i < |suggestions| ==>
      ListingLines(suggestions)[i] == NatToString(i + 1) + ". " + suggestions[i]
  {
    forall i | 0 <= i < |suggestions|
      ensures ListingLines(suggestions)[i] == NatToString(i + 1) + ". " + suggestions[i]
    {
      LinesFromAt(suggestions, 0, i);
    }
  }

  /** When no suggestion contains a newline, splitting the listing on newlines
      gives back its lines, one per suggestion and in order. */
  lemma ListingSplitsIntoLines(suggestions: seq<string>)
    requires 1 <= |suggestions|
    requires forall i :: 0 <= i < |suggestions| ==> '\n' !in suggestions[i]
    ensures Split(Listing(suggestions), '\n') == ListingLines(suggestions)
    ensures |Split(Listing(suggestions), '\n')| == |suggestions|
  {
    var lines := ListingLines(suggestions);
    ListingNumbersFromOne(suggestions);
    forall i | 0 <= i < |lines|
      ensures '\n' !in lines[i]
    {
      var num := NatToString(i + 1);
      assert lines[i] == num + ". " + suggestions[i];
      forall j | 0 <= j < |lines[i]|
        ensures lines[i][j] != '\n'
      {
        if j < |num| {
          assert lines[i][j] == num[j] && IsDigit(num[j]);
        } else if j >= |num| + 2 {
          assert lines[i][j] == suggestions[i][j - |num| - 2];
        }
      }
    }
    SplitJoin(lines, '\n');
  }

  /** What the client prepares for a suggestion prompt: the numbered listing
      and the original name echoed from the context. */
  datatype Selection = Selection(listing: string, originalName: string)

  /** The selection prompt a reply calls for: present exactly when the reply
      has a non-empty suggestion list and requires a selection. */
  function SelectionPrompt(rep: Reply): (p: Option<Selection>)
    ensures p.Some? <==> rep.suggestions.Some? && |rep.suggestions.value| > 0 && rep.requiresSelection == Some(true)
    ensures p.Some? ==> p.value.originalName == OriginalName(rep.context)
    ensures p.Some? ==> p.value.listing == Listing(rep.suggestions.value)
  {
    if rep.suggestions.Some? && |rep.suggestions.value| > 0 && rep.requiresSelection == Some(true) then
      Some(Selection(Listing(rep.suggestions.value), OriginalName(rep.context)))
    else None
  }

  /** Suggestions never reach the transcript: folding a reply with its
      suggestion fields removed gives the same session. */
  lemma SuggestionsAddNoMessage(s: State, rep: Reply)
    ensures Reduce(s, Some(rep)) == Reduce(s, Some(rep.(suggestions := None, requiresSelection := None)))
  {
  }

  // ---------------------------------------------------------------------
  // A conversation as a sequence of sends

  /** Folding a run of send results (replies or transport failures), in the
      order the sends were issued. */
  function ReduceAll(s: State, replies: seq<Option<Reply>>): State
    decreases |replies|
  {
    if |replies| == 0 then s else ReduceAll(Reduce(s, replies[0]), replies[1..])
  }

  function Successes(replies: seq<Option<Reply>>): nat
    decreases |replies|
  {
    if |replies| == 0 then 0
    else (if replies[0].Some? then 1 else 0) + Successes(replies[1..])
  }

  /** Over any run of send results folded in turn, the transcript is
      append-only: the old transcript stays a prefix, every reply adds one to
      three messages, and every absent reply adds none. */
  lemma {:induction false} TranscriptAppendOnly(s: State, replies: seq<Option<Reply>>)
    ensures |s.messages| + Successes(replies) <= |ReduceAll(s, replies).messages|
    ensures |ReduceAll(s, replies).messages| <= |s.messages| + 3 * Successes(replies)
    ensures ReduceAll(s, replies).messages[..|s.messages|] == s.messages
    ensures ReduceAll(s, replies).started == s.started
    decreases |replies|
  {
    if |replies| > 0 {
      var s1 := Reduce(s, replies[0]);
      TranscriptAppendOnly(s1, replies[1..]);
      var r := ReduceAll(s, replies);
      assert r.messages[..|s.messages|] == r.messages[..|s1.messages|][..|s.messages|];
    }
  }

  /** Folding a run of send results that are all absent leaves the session
      exactly as it was. */
  lemma {:induction false} FailedSendsChangeNothing(s: State, replies: seq<Option<Reply>>)
    requires forall i :: 0 <= i < |replies| ==> replies[i].None?
    ensures ReduceAll(s, replies) == s
    decreases |replies|
  {
    if |replies| > 0 {
      FailedSendsChangeNothing(s, replies[1..]);
    }
  }
}
