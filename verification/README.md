# Event-registration chat client: conversation state machine

A Dafny model of the client-side conversation state of a Streamlit chat client
for hackathon/event registration (`app.py`). The client keeps a session
store (`context`, `current_question`, `messages`, `registration_complete`,
`started`, `session_id`). It posts each user input made before
registration is complete to a remote `/chat` service and folds the reply back
into the store. The reply can carry an
event link, a completion flag, suggestions and a progress context. Once
registration is complete, the client offers a yes/no choice to register
another event.

Everything is a pure function over immutable records:

- `Wrappers` — `Option`, for every key or reply field that may be missing.
- `Text` — decimal rendering (`str(i + 1)`), single-character join and
  split, ASCII `lower()`, and prefix/suffix tests.
- `Chat` — the message, reply, request and context records, and the fixed
  texts the client writes itself.
- `Session` — the store as a record (`State`) and as a dictionary with
  possibly missing keys (`Store`), `init_session_state`, `reset_session`,
  the request payload, and the effects a step issues (`Post` of a request,
  best-effort `Delete` of a server session).
- `Reducer` — `handle_chat_response`: adopting the reply's authoritative
  fields, appending the reply text, the success message and the
  "register another event?" prompt, and the suggestion listing it computes.
- `Router` — the parts of `main` that change state: the helper text, the
  first-render start, sending free text, the yes/no routing after
  completion, and one whole render.

The network is a parameter `server: Request -> Option<Reply>`. `None` stands
for a transport failure. Each send records the request it posted as a
`Post` effect, so "no send happens" is a statement about the effect list.
Python truthiness is modelled where the code relies on it. An empty
`event_link`, an empty partner name, an empty chat input and an empty
`session_id` all count as absent.

## Behaviour of the code worth noting

- The "register another event?" prompt is appended only inside the
  event-link branch (app.py:91-95). A reply that completes registration
  without a link gets no prompt.
- `session_id` is adopted with `.get` (app.py:54), so a reply without one
  clears the session id.
- A reset re-initialises `session_id` to `None` (app.py:104-106, 21-22); the
  client generates no local id.
- The suggestion listing and the original name are computed and then
  discarded (app.py:64-77; the message that would show them is commented
  out), so suggestions never reach the transcript.

## Model

| member | source | states |
|---|---|---|
| Session.Init | app.py:10-22 | every key already in the store keeps its value; every missing key gets its default (`None`, `[]`, `False`) |
| Session.InitKeepsPopulatedStore | app.py:10-22 | initialising a store that holds all six keys changes nothing, so calling it on every render is harmless |
| Session.InitEmptyIsDefaults | app.py:104-106 | initialising an emptied store gives exactly the fresh-session defaults |
| Session.BuildRequest | app.py:26-31 | the posted payload carries the session's id, context and current question together with the user's text |
| Session.Reset | app.py:97-106 | the result is the defaults (empty transcript, not complete, not started, no id, context or question); a delete is issued exactly when the session id is truthy, for that id, and nothing else is sent |
| Reducer.PartnerName | app.py:80-83 | a partner name is reported exactly when the context has a details record whose `drillPartnerName` is non-empty, and it is that name |
| Reducer.SuccessText | app.py:79-89 | the success message opens with the heading, names " with partner P" right after it exactly when a non-empty partner name is in the context, and ends with the link line carrying the exact link |
| Reducer.Reduce | app.py:49-95 | an absent reply changes nothing; a present one adopts id, context and question, and the completion flag (false when missing); the old transcript stays a prefix; 1 to 3 assistant messages are appended; the first is the reply text; a success message follows exactly when the link is truthy; the "another event" prompt comes third exactly when there is a link and the adopted flag is true |
| Reducer.IncompleteReplyNeverPrompts | app.py:91-95 | a reply whose completion flag is false or missing adds at most two messages, and nothing after its own text is the "another event" prompt |
| Reducer.EventLinkReachesTranscript | app.py:79-89 | a reply with a truthy link always adds a message ending with that exact link |
| Reducer.ReplyIsAuthoritative | app.py:54-57 | the adopted fields and the appended messages depend only on the reply, not on the session it is folded into |
| Reducer.ListingNumbersFromOne | app.py:65-68 | listing line i is the decimal of i + 1, ". ", then suggestion i verbatim, one line per suggestion |
| Reducer.ListingSplitsIntoLines | app.py:65-68 | when no suggestion holds a newline, splitting the listing on newlines gives back exactly its lines |
| Reducer.OriginalName | app.py:69 | the original name is the context's `original_name`, or "" when the context or the key is absent |
| Reducer.Listing | app.py:65-68 | the listing is "" for no suggestions; otherwise it opens with "1. " and the first suggestion and ends with the last suggestion under its own number |
| Reducer.SelectionPrompt | app.py:64-69 | a listing is prepared exactly when suggestions are non-empty and a selection is required, together with the context's original name ("" when absent) |
| Reducer.SuggestionsAddNoMessage | app.py:64-77 | removing the suggestion fields from a reply does not change what folding it does |
| Reducer.TranscriptAppendOnly | app.py:49-95 | over any run of send results folded in turn, the old transcript stays a prefix; each reply adds 1 to 3 messages and each absent reply adds none |
| Reducer.FailedSendsChangeNothing | app.py:51-52 | folding a run of send results that are all absent leaves the session exactly as it was |
| Text.NatToString | app.py:66 | the number is rendered as at least one decimal digit, with no leading zero except for 0 |
| Text.DecimalRoundTrip | app.py:66 | reading the decimal rendering back gives the number |
| Text.Join | app.py:65 | the newline join is "" for no parts; otherwise it opens with the first part and ends with the last |
| Text.SplitJoin | app.py:65 | splitting a newline join gives back the parts when no part holds the separator |
| Router.HelperText | app.py:141-147 | the generic "Type your message here..." is chosen exactly when the question tag is missing or is none of partnerUrl, drillName_selection, hasPartner |
| Router.HelperTextIsTableLookup | app.py:141-147 | the helper text equals a lookup of the tag in the three-entry tag-to-text table, with the generic text as the fallback |
| Router.Placeholder | app.py:139-161 | once registration is complete the input offers the yes/no prompt; before that, the current question's helper text |
| Router.Start | app.py:125-133 | on an unstarted session: welcome message first, exactly one send of "" with the session's fields, then the result folded in by `Reducer.Reduce` on the welcomed session, and started set even when the send failed; on a started session nothing happens |
| Router.Submit | app.py:149-157 | the user's message is appended and sent with the session's id, context and question, and the result is folded in by `Reducer.Reduce`; a failed send leaves only that message added; a reply's text follows it and its id, context, question and completion flag are adopted |
| Router.RetryResendsSameRequest | app.py:149-159 | after a failed send, resubmitting the same text in a later render, whatever the service answers then, posts exactly the same request, and the transcript holds the text once per attempt |
| Router.IsDecline | app.py:162 | an input declines exactly when it is one of n, N, no, nO, No, NO |
| Router.DeclineSpellings | app.py:162 | a text lower-cases to "no" or "n" exactly when it is one of n, N, no, nO, No, NO |
| Router.Answer | app.py:161-169 | a decline appends exactly the closing message and makes no send or reset; any other input is exactly `Session.Reset`: the defaults, with one delete for a truthy session id and no chat send |
| Router.Route | app.py:139-169 | no input changes nothing; before completion, a truthy input is exactly `Router.Submit`; after completion, it is exactly `Router.Answer` |
| Router.RouteKeepsOrResets | app.py:139-169 | routing an input either resets the session or keeps the transcript as a prefix and the started flag |
| Router.Render | app.py:123-169 | after one render the session either was reset to the defaults, or kept its transcript as a prefix and is started; at most two sends; an unstarted session first posts "" and shows the welcome right after the old transcript; a truthy input before completion is the last send; with no input the render is exactly `Router.Start`; with input its state is `Router.Route` applied after `Router.Start`, and its effects are those of the start followed by those of the route |
| Router.StartRunsOnce | app.py:125-133 | a second start is a no-op with no effects |
| Router.FirstRenderWelcomes | app.py:123-133 | the first render on an empty store shows the welcome and sends "" with no id, context or question |
| Router.RerunAfterResetStartsOver | app.py:167-169 | after a reset, the next render with no input starts a new conversation: welcome, then one send with no session id |
| Router.DeclineKeepsConversationClosed | app.py:160-166 | after a decline registration is still complete, nothing was sent, and the input keeps offering the yes/no prompt |

## Left out

- HTTP transport (`requests.post`, `requests.delete`, `raise_for_status`, JSON encoding, the `print` logging): a send is the abstract `server` parameter, and the delete is a recorded effect whose outcome is ignored, as the code ignores it.
- `st.error` on transport failure and `st.rerun`: both are UI control flow. A rerun is itself a render with no input, which `Router.Render` covers (`Router.RerunAfterResetStartsOver`).
- Rendering: page header, logo, the chat bubble loop and the CSS blocks, including the partnerUrl style block.
- Crash paths: a reply without `message` (a `KeyError`) and a reply whose `context` or `hackathon_details` is present but `null` (`.get` on `None`). `message` is a required reply field. An absent context reads as `{}`, as `.get("context", {})` does.
- Context contents beyond `original_name` and `hackathon_details.drillPartnerName`: the client echoes the context back unchanged and reads nothing else.
- Values of unexpected JSON types (a non-boolean `registration_complete`, a non-string partner name): fields are typed as the service documents them.
- Text.Lower: lower-cases ASCII letters only, not all of Unicode. For the "no"/"n" test this makes no difference, because only 'N' and 'O' lower-case to 'n' and 'o'.
- The empty-dict reply, which Python also treats as failure: such a reply has no `message`, so the model cannot express it.
