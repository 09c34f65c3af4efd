/** The session store (`st.session_state`), its defaults, and session reset. */
module Session {
  import opened Wrappers
  import opened Chat

  /** The six keys the client keeps in its session store. */
  datatype State = State(
    context: Option<Context>,
    currentQuestion: Option<string>,
    messages: seq<Message>,
    registrationComplete: bool,
    started: bool,
    sessionId: Option<string>)

  /** The session store as a dictionary: each key may be absent (`None` here),
      and a present key may itself hold Python's `None`. */
  datatype Store = Store(
    context: Option<Option<Context>>,
    currentQuestion: Option<Option<string>>,
    messages: Option<seq<Message>>,
    registrationComplete: Option<bool>,
    started: Option<bool>,
    sessionId: Option<Option<string>>)

  /** Something the client asks of the outside world while handling an event:
      a `/chat` POST, or the best-effort DELETE of a server-side session. */
  datatype Effect = Post(request: Request) | Delete(sessionId: string)

  /** The state after handling an event, with the effects issued, in order. */
  datatype Turn = Turn(state: State, effects: seq<Effect>)

  /** The fresh-session values. */
  function Defaults(): State {
    State(None, None, [], false, false, None)
  }

  /** A store with every key deleted. */
  function EmptyStore(): Store {
    Store(None, None, None, None, None, None)
  }

  /** A store holding every key of `s`. */
  function StoreOf(s: State): Store {
    Store(Some(s.context), Some(s.currentQuestion), Some(s.messages),
          Some(s.registrationComplete), Some(s.started), Some(s.sessionId))
  }

  /** `init_session_state`: every key already present keeps its value, every
      missing key gets its default. */
  function Init(st: Store): (s: State)
    ensures st.context.Some? ==> s.context == st.context.value
    ensures st.currentQuestion.Some? ==> s.currentQuestion == st.currentQuestion.value
    ensures st.messages.Some? ==> s.messages == st.messages.value
    ensures st.registrationComplete.Some? ==> s.registrationComplete == st.registrationComplete.value
    ensures st.started.Some? ==> s.started == st.started.value
    ensures st.sessionId.Some? ==> s.sessionId == st.sessionId.value
    ensures st.context.None? ==> s.context == Defaults().context
    ensures st.currentQuestion.None? ==> s.currentQuestion == Defaults().currentQuestion
    ensures st.messages.None? ==> s.messages == Defaults().messages
    ensures st.registrationComplete.None? ==> s.registrationComplete == Defaults().registrationComplete
    ensures st.started.None? ==> s.started == Defaults().started
    ensures st.sessionId.None? ==> s.sessionId == Defaults().sessionId
  {
    State(
      st.context.GetOr(None),
      st.currentQuestion.GetOr(None),
      st.messages.GetOr([]),
      st.registrationComplete.GetOr(false),
      st.started.GetOr(false),
      st.sessionId.GetOr(None))
  }

  /** Initialising a fully populated store changes nothing, which is why every
      render may call it. */
  lemma InitKeepsPopulatedStore(s: State)
    ensures Init(StoreOf(s)) == s
  {
  }

  /** Initialising an emptied store yields exactly the defaults. */
  lemma InitEmptyIsDefaults()
    ensures Init(EmptyStore()) == Defaults()
  {
  }

  /** The payload `send_message(text)` posts: the session's id, context and
      current question, with the user's text. */
  function BuildRequest(s: State, text: string): (req: Request)
    ensures req.sessionId == s.sessionId && req.context == s.context
    ensures req.currentQuestion == s.currentQuestion && req.message == text
  {
    Request(s.sessionId, text, s.context, s.currentQuestion)
  }

  /** `reset_session`: a DELETE for a truthy session id (its failure is
      ignored, so it has no bearing on the result), then every key is deleted
      and the store is re-initialised. */
  function Reset(s: State): (t: Turn)
    ensures t.state == Defaults()
    ensures t.state.messages == [] && !t.state.registrationComplete && !t.state.started
    ensures t.state.sessionId.None? && t.state.context.None? && t.state.currentQuestion.None?
    ensures |t.effects| <= 1
    ensures t.effects != [] <==> Truthy(s.sessionId)
    ensures t.effects != [] ==> t.effects[0] == Delete(s.sessionId.value)
  {
    var deletes := if Truthy(s.sessionId) then [Delete(s.sessionId.value)] else [];
    Turn(Init(EmptyStore()), deletes)
  }
}
