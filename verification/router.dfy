/** The state-changing parts of `main`: the first-render start, the helper
    text, sending free text, the yes/no routing once registration is complete,
    and one whole render. */
module Router {
  import opened Wrappers
  import opened Text
  import opened Chat
  import opened Session
  import opened Reducer

  /** The remote service as seen by one send: `None` is a transport failure. */
  type Server = Request -> Option<Reply>

  // ---------------------------------------------------------------------
  // Helper text

  const DefaultHelper := "Type your message here..."
  const PartnerUrlHelper := "Enter the partner organization's website URL (e.g., https://example.com)..."
  const SelectionHelper := "Enter a number to choose or type 'keep original'..."
  const HasPartnerHelper := "Type 'yes' to add a partner organization or 'no' to continue without one..."
  const CompletionHelper := "Type 'yes' to start new registration or 'no' to end"

  /** The question tags that have a helper text of their own. */
  const HelpedTags: set<string> := {"partnerUrl", "drillName_selection", "hasPartner"}

  /** The input placeholder for the question the server asked last: a
      specific prompt for three tags, the generic one for any other tag and
      for no tag at all. */
  function HelperText(question: Option<string>): (h: string)
    ensures h == DefaultHelper <==> !(question.Some? && question.value in HelpedTags)
  {
    if question == Some("partnerUrl") then PartnerUrlHelper
    else if question == Some("drillName_selection") then SelectionHelper
    else if question == Some("hasPartner") then HasPartnerHelper
    else DefaultHelper
  }

  /** The same mapping written as data: tag, helper text. */
  const HelperTable: seq<(string, string)> := [
    ("partnerUrl", PartnerUrlHelper),
    ("drillName_selection", SelectionHelper),
    ("hasPartner", HasPartnerHelper)
  ]

  /** The text of the first entry of `table` whose tag is `key`, else `default`. */
  function Lookup(table: seq<(string, string)>, key: string, default: string): string
    decreases |table|
  {
    if |table| == 0 then default
    else if table[0].0 == key then table[0].1
    else Lookup(table[1..], key, default)
  }

  /** The helper text is exactly a lookup in the tag table, with the generic
      prompt for a missing or unlisted tag. */
  lemma HelperTextIsTableLookup(question: Option<string>)
    ensures HelperText(question) ==
      (if question.Some? then Lookup(HelperTable, question.value, DefaultHelper) else DefaultHelper)
  {
    if question.Some? {
      var q := question.value;
      var t1, t2 := HelperTable[1..], HelperTable[1..][1..];
      assert t2[1..] == [];
      assert Lookup(HelperTable, q, DefaultHelper)
          == if q == "partnerUrl" then PartnerUrlHelper else Lookup(t1, q, DefaultHelper);
      assert Lookup(t1, q, DefaultHelper)
          == if q == "drillName_selection" then SelectionHelper else Lookup(t2, q, DefaultHelper);
      assert Lookup(t2, q, DefaultHelper)
          == if q == "hasPartner" then HasPartnerHelper else Lookup(t2[1..], q, DefaultHelper);
    }
  }

  /** The placeholder of the chat input: the yes/no prompt once registration
      is complete, the helper text of the current question before. */
  function Placeholder(s: State): (h: string)
    ensures s.registrationComplete ==> h == CompletionHelper
    ensures !s.registrationComplete ==> h == HelperText(s.currentQuestion)
  {
    if s.registrationComplete then CompletionHelper else HelperText(s.currentQuestion)
  }

  // ---------------------------------------------------------------------
  // Start, send, yes/no

  /** First render: the welcome message, one send of the empty text, the
      reply folded in, and the session marked started even if the send
      failed. On a started session nothing happens. */
  function Start(s: State, server: Server): (t: Turn)
    ensures t.state.started
    ensures s.started ==> t == Turn(s, [])
    ensures !s.started ==> t.effects == [Post(Request(s.sessionId, "", s.context, s.currentQuestion))]
    ensures !s.started ==>
      && |s.messages| < |t.state.messages|
      && t.state.messages[..|s.messages|] == s.messages
      && t.state.messages[|s.messages|] == Message(Assistant, Welcome)
    ensures !s.started && server(BuildRequest(s, "")).None? ==>
      t.state == s.(messages := s.messages + [Message(Assistant, Welcome)], started := true)
    ensures !s.started && server(BuildRequest(s, "")).Some? ==>
      && |s.messages| + 2 <= |t.state.messages|
      && t.state.messages[|s.messages| + 1] == Message(Assistant, server(BuildRequest(s, "")).value.message)
      && t.state.sessionId == server(BuildRequest(s, "")).value.sessionId
      && t.state.currentQuestion == server(BuildRequest(s, "")).value.currentQuestion
    ensures !s.started ==>
      t.state.(started := s.started)
      == Reduce(s.(messages := s.messages + [Message(Assistant, Welcome)]), server(BuildRequest(s, "")))
  {
    if s.started then Turn(s, [])
    else
      var welcomed := s.(messages := s.messages + [Message(Assistant, Welcome)]);
      var req := BuildRequest(welcomed, "");
      Turn(Reduce(welcomed, server(req)).(started := true), [Post(req)])
  }

  /** Free text before completion: the user's message is appended, sent with
      the session's id, context and question, and the reply folded in. A
      failed send leaves just the user's message added. */
  function Submit(s: State, text: string, server: Server): (t: Turn)
    ensures t.effects == [Post(Request(s.sessionId, text, s.context, s.currentQuestion))]
    ensures |s.messages| < |t.state.messages| && t.state.messages[..|s.messages|] == s.messages
    ensures t.state.messages[|s.messages|] == Message(User, text)
    ensures t.state.started == s.started
    ensures server(BuildRequest(s, text)).None? ==>
      t.state == s.(messages := s.messages + [Message(User, text)])
    ensures server(BuildRequest(s, text)).Some? ==>
      && |s.messages| + 2 <= |t.state.messages| <= |s.messages| + 4
      && t.state.messages[|s.messages| + 1] == Message(Assistant, server(BuildRequest(s, text)).value.message)
      && t.state.sessionId == server(BuildRequest(s, text)).value.sessionId
      && t.state.context == server(BuildRequest(s, text)).value.context
      && t.state.currentQuestion == server(BuildRequest(s, text)).value.currentQuestion
      && t.state.registrationComplete == (server(BuildRequest(s, text)).value.registrationComplete == Some(true))
    ensures t.state == Reduce(s.(messages := s.messages + [Message(User, text)]), server(BuildRequest(s, text)))
  {
    var asked := s.(messages := s.messages + [Message(User, text)]);
    var req := BuildRequest(asked, text);
    Turn(Reduce(asked, server(req)), [Post(req)])
  }

  /** `text.lower() in ['no', 'n']`: exactly the six spellings of "n" and "no". */
  predicate IsDecline(text: string): (b: bool)
    ensures b <==> text in {"n", "N", "no", "nO", "No", "NO"}
  {
    DeclineSpellings(text);
    Lower(text) == "no" || Lower(text) == "n"
  }

  /** The texts that lower-case to "no" or "n" are exactly the six spellings
      of "n" and "no". */
  lemma DeclineSpellings(text: string)
    ensures (Lower(text) == "no" || Lower(text) == "n") <==> text in {"n", "N", "no", "nO", "No", "NO"}
  {
    if Lower(text) == "no" || Lower(text) == "n" {
      assert |Lower(text)| == |text|;
      assert Lower(text)[0] == 'n' && LowerChar(text[0]) == 'n';
      if |text| == 2 {
        assert Lower(text)[1] == 'o' && LowerChar(text[1]) == 'o';
        assert text == [text[0], text[1]];
      } else {
        assert text == [text[0]];
      }
    }
  }

  /** Input once registration is complete: a decline appends exactly the
      closing message and touches the network not at all; anything else resets
      the session to its defaults, with no `/chat` send. */
  function Answer(s: State, text: string): (t: Turn)
    ensures forall i :: 0 <= i < |t.effects| ==> t.effects[i].Delete?
    ensures IsDecline(text) ==>
      t.effects == [] && t.state == s.(messages := s.messages + [Message(Assistant, Closing)])
    ensures !IsDecline(text) ==> t.state == Defaults()
    ensures !IsDecline(text) ==> (t.effects != [] <==> Truthy(s.sessionId))
    ensures !IsDecline(text) ==> t == Reset(s)
  {
    if IsDecline(text) then Turn(s.(messages := s.messages + [Message(Assistant, Closing)]), [])
    else Reset(s)
  }

  /** Routing one chat input (absent or empty means nothing was submitted). */
  function Route(s: State, input: Option<string>, server: Server): (t: Turn)
    ensures !Truthy(input) ==> t == Turn(s, [])
    ensures Truthy(input) && !s.registrationComplete ==>
      && t.effects == [Post(Request(s.sessionId, input.value, s.context, s.currentQuestion))]
      && |s.messages| < |t.state.messages|
      && t.state.messages[..|s.messages|] == s.messages
      && t.state.messages[|s.messages|] == Message(User, input.value)
    ensures Truthy(input) && s.registrationComplete && IsDecline(input.value) ==>
      t == Turn(s.(messages := s.messages + [Message(Assistant, Closing)]), [])
    ensures Truthy(input) && s.registrationComplete && !IsDecline(input.value) ==>
      t.state == Defaults() && forall i :: 0 <= i < |t.effects| ==> t.effects[i].Delete?
    ensures Truthy(input) && !s.registrationComplete ==> t == Submit(s, input.value, server)
    ensures Truthy(input) && s.registrationComplete ==> t == Answer(s, input.value)
  {
    if !Truthy(input) then Turn(s, [])
    else if !s.registrationComplete then Submit(s, input.value, server)
    else Answer(s, input.value)
  }

  /** One execution of `main`: fill missing keys, run the start path, then
      route the input. Unless the input reset the session, the transcript only
      grows and the session ends up started; at most two sends happen. */
  function Render(store: Store, input: Option<string>, server: Server): (t: Turn)
    ensures t.state == Defaults() ||
      (|Init(store).messages| <= |t.state.messages|
       && t.state.messages[..|Init(store).messages|] == Init(store).messages
       && t.state.started)
    ensures |t.effects| <= 2
    ensures Init(store).started && !Truthy(input) ==> t == Turn(Init(store), [])
    ensures !Init(store).started ==> 1 <= |t.effects| && t.effects[0] == Post(BuildRequest(Init(store), ""))
    ensures !Init(store).started && t.state != Defaults() ==>
      && |Init(store).messages| < |t.state.messages|
      && t.state.messages[|Init(store).messages|] == Message(Assistant, Welcome)
    ensures Truthy(input) && !Start(Init(store), server).state.registrationComplete ==>
      1 <= |t.effects| && t.effects[|t.effects| - 1].Post? && t.effects[|t.effects| - 1].request.message == input.value
    ensures Init(store).started && !Init(store).registrationComplete && Truthy(input) ==>
      t == Submit(Init(store), input.value, server)
    ensures Init(store).started && Init(store).registrationComplete && Truthy(input) ==>
      t == Answer(Init(store), input.value)
    ensures !Truthy(input) ==> t == Start(Init(store), server)
    ensures Truthy(input) ==>
      && t.state == Route(Start(Init(store), server).state, input, server).state
      && t.effects == Start(Init(store), server).effects + Route(Start(Init(store), server).state, input, server).effects
  {
    var s := Init(store);
    var started := Start(s, server);
    var routed := Route(started.state, input, server);
    var n := |s.messages|;
    RouteKeepsOrResets(started.state, input, server);
    assert routed.state != Defaults() ==>
      routed.state.messages[..n] == routed.state.messages[..|started.state.messages|][..n];
    assert !s.started && routed.state != Defaults() ==>
      routed.state.messages[n] == started.state.messages[n];
    Turn(routed.state, started.effects + routed.effects)
  }

  /** Routing an input either resets the session or keeps its transcript as a
      prefix and its started flag. */
  lemma RouteKeepsOrResets(s: State, input: Option<string>, server: Server)
    ensures var r := Route(s, input, server).state;
      r == Defaults() || (|s.messages| <= |r.messages| && r.messages[..|s.messages|] == s.messages && r.started == s.started)
  {
  }

  /** A failed send can be retried by resubmitting the same text in a later
      render, whatever the service answers then: the retry posts exactly the
      same request, and the transcript holds the text once per attempt. */
  lemma RetryResendsSameRequest(s: State, text: string, server: Server, retryServer: Server)
    requires server(BuildRequest(s, text)).None?
    ensures Submit(Submit(s, text, server).state, text, retryServer).effects == Submit(s, text, server).effects
    ensures Submit(Submit(s, text, server).state, text, retryServer).state.messages[|s.messages|..|s.messages| + 2]
      == [Message(User, text), Message(User, text)]
  {
  }

  /** The start path never runs twice: a second start is a no-op. */
  lemma StartRunsOnce(s: State, server: Server)
    ensures Start(Start(s, server).state, server) == Turn(Start(s, server).state, [])
  {
  }

  /** The very first render, on an empty store, welcomes the user and makes one
      send of the empty text with no session id, context or question. */
  lemma FirstRenderWelcomes(server: Server)
    ensures Render(EmptyStore(), None, server).effects == [Post(Request(None, "", None, None))]
    ensures Render(EmptyStore(), None, server).state.messages[0] == Message(Assistant, Welcome)
    ensures Render(EmptyStore(), None, server).state.started
  {
  }

  /** After a reset the store holds the defaults, so the rerun that follows
      starts a new conversation: welcome, then one empty send with no session id. */
  lemma RerunAfterResetStartsOver(s: State, text: string, server: Server)
    requires s.registrationComplete && text != "" && !IsDecline(text)
    ensures Render(StoreOf(Route(s, Some(text), server).state), None, server).effects
      == [Post(Request(None, "", None, None))]
    ensures Render(StoreOf(Route(s, Some(text), server).state), None, server).state.messages[0]
      == Message(Assistant, Welcome)
  {
  }

  /** Declining leaves registration complete, so every later input is routed
      to the yes/no choice again, and repeated declines only add closing messages. */
  lemma DeclineKeepsConversationClosed(s: State, text: string, server: Server)
    requires s.registrationComplete && text != "" && IsDecline(text)
    ensures Route(s, Some(text), server).state.registrationComplete
    ensures Route(s, Some(text), server).effects == []
    ensures Placeholder(Route(s, Some(text), server).state) == CompletionHelper
  {
  }
}
