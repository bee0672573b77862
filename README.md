# Run-lifecycle model of the relationship-coach chat client

The chat page sends each user message to a hosted assistant and shows the
reply. It does this through `OpenAIService`, a thin client for an
assistants backend. Each turn adds the user's message to a conversation
thread, starts a run of the configured assistant and polls the run until
it ends or its attempt budget is spent. It then reads the reply from the
newest assistant message with non-empty list content among the thread's 20
newest messages.
Around the client, the page's session keeps three things:

- the conversation's thread id;
- the chat history;
- a flag saying whether the client has been set up.

This project models that client and that session. It then proves what they
promise about the order of the calls, the poll's three exits, which reply
is read, and how the history grows.

The backend is not the vendor SDK. It is a scripted oracle, `Backend.BackendState`,
which holds:

- the thread ids that successive create-thread calls hand out;
- the id a created run gets;
- the reports that successive get-run calls return;
- the thread's messages, newest first;
- the set of operations that raise;
- a trace of every call made, sleeps included.

Each remote operation is a pure step on that state. The class
`Backend.ScriptedBackend` holds the same state in fields, and its methods
take exactly those steps.

The model has these modules:

- `Types`: runs, statuses, messages, calls, errors and configuration.
- `Backend`: the scripted backend.
- `Lines`: the newline join the reply is built with, and its inverse the
  split.
- `Extractor`: which message the reply is read from, and how it is read.
- `Poller`: the polling loop as a recursive specification, `PollSpec`. It
  also has a closed form, `PollOutcome`, that says where the loop stops,
  computed from the first terminal report in the script. The two are
  proved equal.
- `Service`: the class `OpenAIService`. Each of its methods is proved equal
  to a specification function on the backend state (`CreateRunSpec`,
  `LatestResponseSpec`, `ProcessTurnSpec`, and so on). Lemmas about those
  functions state the guards, the call order and the result of a turn.
- `Session`: the class `ChatSession`, holding the page's session. Its
  methods are proved equal to specification functions on `SessionState`,
  and lemmas about those functions state the thread and history properties.
- `Scenarios`: a few concrete turns, each derived from the general lemmas.

Two behaviours of the code worth stating plainly:

- A run that ends in a failure status raises an error that carries that
  status only. The run's `last_error` is only logged (streamlit_app.py:248-250).
- After "new conversation", the code guarantees a new create-thread call.
  It does not guarantee a different thread id: the id is whatever the
  backend hands out.

## Model

| member | source | states |
|---|---|---|
| Backend.Window | streamlit_app.py:260-267 | the listing returns the first `limit` messages of the thread, newest first, or all of them when there are fewer |
| Lines.SplitJoin | streamlit_app.py:284 | joining parts that contain no newline with "\n" and then splitting at newlines gives the parts back, so the join loses nothing |
| Extractor.TextValuesAppend | streamlit_app.py:280-283 | the collected text values of a list of blocks are those of its first part followed by those of its second, so each block adds its own text in place |
| Extractor.TextValuesSingle | streamlit_app.py:282-283 | one block adds its text value exactly when its type is "text" |
| Extractor.TextValuesEmpty | streamlit_app.py:280-284 | no text value is collected exactly when no block is a text block |
| Extractor.FirstEligibleIsChosen | streamlit_app.py:277-286 | the reply comes from the first listed message that is the assistant's with non-empty list content; earlier user messages and assistant messages with empty content are passed over |
| Extractor.NoneIffNoEligible | streamlit_app.py:277-289 | the scan gives None exactly when no listed message is eligible, in both directions |
| Extractor.NoTextBlocksGiveEmptyReply | streamlit_app.py:279-286 | a chosen message that has content but no text block gives the empty reply "", not None |
| Extractor.ReplySplitsIntoTextValues | streamlit_app.py:280-286 | when the text values hold no newline, splitting the reply at newlines recovers them in their original order |
| Poller.Cycles | streamlit_app.py:241-255 | n non-terminal rounds are exactly 2n calls, alternating a status check of the run and a sleep of the poll interval |
| Poller.FirstStop | streamlit_app.py:240-250 | the index of the first report that is "completed" or a failure status; every report before it is non-terminal |
| Poller.PollMatchesClosedForm | streamlit_app.py:234-258 | for every script and budget, the polling loop ends where the closed form says: timeout with no check if the budget is ≤ 0; the raised backend error after one check; timeout after budget rounds; or an exit on the first terminal report after one sleep per earlier check |
| Poller.PollReturnsOnCompleted | streamlit_app.py:240-246 | the run is returned on the first check that reports "completed", after k check-sleep rounds and with no further check or sleep |
| Poller.PollRaisesOnFailureStatus | streamlit_app.py:247-250 | on the first check that reports failed, cancelled, expired or requires_action, the poll raises a failure naming that status, with no sleep and no further check |
| Poller.PollTimesOut | streamlit_app.py:240-258 | when no report within the budget is terminal, the poll times out after exactly max_poll_attempts checks and as many sleeps; with max_poll_attempts ≤ 0 it makes no check |
| Poller.CountCycles | streamlit_app.py:241-255 | n rounds hold n status checks and n sleeps |
| Poller.PollAccounting | streamlit_app.py:234-258 | for any backend, the poll only appends to the trace and makes at most max_poll_attempts checks; a timeout has made exactly that many checks and sleeps; every other exit has one sleep fewer than checks; only a "completed" run is returned; a status failure names a failure status; nothing but the script and trace changes |
| Service.ServiceConfig | streamlit_app.py:145-157 | the service is built exactly when the given key, or the configured one when none is given, is neither empty nor the placeholder key; otherwise it raises the "not configured" error; the other settings are taken from the configuration unchanged |
| Service.ThreadParamsFor | streamlit_app.py:175-182 | create-thread sends file-search tool resources exactly when a vector store id is set, naming that one store |
| Service.CreateRunGuard | streamlit_app.py:206-221 | create_run raises "Assistant ID is required to create a run." with no remote call exactly when neither the requested nor the configured assistant id is set; otherwise it makes one create-run call for the requested id, else the configured one |
| Service.ResponseReadsWindow | streamlit_app.py:272-289 | reading the reply makes one listing call (order desc, limit 20) and reads the reply from those 20 newest messages; it is None exactly when none of them is eligible |
| Service.TurnLaunches | streamlit_app.py:297-304 | a turn whose message and run are created goes on to poll the created run on the same thread |
| Service.FinishTurnCalls | streamlit_app.py:303-307 | after the run is created a turn only appends calls; a successful turn makes the poll's rounds, the final check and then one listing; a turn failing other than in the listing lists nothing |
| Service.CallShapeAfterLaunch | streamlit_app.py:297-315 | the call order of a turn whose two creations succeed |
| Service.TurnCallOrder | streamlit_app.py:291-315 | for any backend: without an assistant id the turn raises "Assistant ID is required." and makes no call; otherwise it adds the user message first and creates the run second; a successful turn then polls and lists the messages last; a poll failure or timeout never lists |
| Service.TurnPropagatesCreationFailure | streamlit_app.py:297-301 | a failing add-message ends the turn with that backend error after that one call; a failing create-run ends it with that error after the add-message and create-run calls, with no poll |
| Service.TurnPropagatesListingFailure | streamlit_app.py:303-307 | when the run completes but the listing fails, the turn raises the listing's error after exactly the calls of a successful turn |
| Service.TurnSucceeds | streamlit_app.py:291-315 | when the backend answers and the run completes within the budget, the turn returns the thread id it was given, the reply read from the 20 newest messages or the fixed fallback reply when none is eligible, and the completed run's usage, after exactly the calls of a successful turn |
| Service.TurnPropagatesPollFailure | streamlit_app.py:303-304 | a failing or timed-out poll ends the turn with the poll's error unchanged and the backend as the poll left it |
| Service.OpenAIService.constructor | streamlit_app.py:145-157 | a service holds an accepted key and the given configuration and backend |
| Service.OpenAIService.New | streamlit_app.py:145-157 | construction succeeds exactly when the guard accepts the effective key; it raises the guard's error otherwise |
| Service.OpenAIService.CheckApiKey | streamlit_app.py:161-169 | the key is valid exactly when the lightweight listing call succeeds; that call is recorded |
| Service.OpenAIService.CreateThread | streamlit_app.py:171-189 | building the tool resources and thread parameters step by step gives the parameters ThreadParamsFor states, sent in one create-thread call |
| Service.OpenAIService.AddMessageToThread | streamlit_app.py:191-204 | one create-message call with the thread, role and content; a backend error is raised unchanged |
| Service.OpenAIService.CreateRun | streamlit_app.py:206-221 | the assistant-id guard and the create-run call, as CreateRunSpec states |
| Service.OpenAIService.GetRunStatus | streamlit_app.py:223-232 | one get-run call that returns the next report or raises |
| Service.OpenAIService.PollRunUntilCompletion | streamlit_app.py:234-258 | the while loop over the attempt counter returns and leaves the backend exactly as PollSpec says, so every Poller lemma holds of it |
| Service.OpenAIService.GetAssistantMessages | streamlit_app.py:260-270 | one listing call, newest first, with the given limit |
| Service.OpenAIService.GetLatestAssistantResponse | streamlit_app.py:272-289 | the loop over messages and the inner loop collecting text blocks return the reply LatestResponseSpec states, so the Extractor lemmas hold of it |
| Service.OpenAIService.ProcessUserMessage | streamlit_app.py:291-315 | the turn returns and leaves the backend exactly as ProcessTurnSpec says, so the turn lemmas hold of it |
| Session.InitializeClientSetsFlag | streamlit_app.py:359-386 | setting up the client leaves the thread and the history alone and returns the flag it leaves; a set-up session is left as it is; otherwise the flag ends up set exactly when the configured key is neither empty nor the placeholder and the key check succeeds; the backend gains at most the one key-check call |
| Session.EnsureThreadCreatesLazily | streamlit_app.py:393-404 | ensure_thread makes a create-thread call exactly when no thread is held and the client is set up; on success it stores the id it got; on failure it returns false with the thread id left unset; otherwise it changes nothing |
| Session.EnsureThreadIdempotent | streamlit_app.py:393-404 | after ensure_thread has succeeded, a second call makes no second create and changes nothing |
| Session.NewConversationCreatesAgain | streamlit_app.py:323-326 | the button leaves no thread and an empty history, and the next ensure_thread on a set-up client makes a create-thread call |
| Session.ProcessMessageAppendsReply | streamlit_app.py:412-443 | on a set-up session holding a thread, handling an input runs exactly one turn on that thread; the history gains one assistant entry with the reply when the turn succeeds and nothing when it raises |
| Session.ProcessMessageOnNewThread | streamlit_app.py:412-443 | for the first input on a set-up session with no thread: when ensure_thread fails nothing more happens; when it succeeds the turn runs on the new thread and the history gains one assistant entry with the reply exactly when the turn succeeds |
| Session.ProcessMessageAfterSetUp | streamlit_app.py:412-416 | on a session not yet set up, a failed set-up ends the handling with the state set-up left; a successful one continues exactly as handling the input on the set-up session |
| Session.ProcessMessageAppendsAtMostOne | streamlit_app.py:412-443 | whatever happens, handling an input keeps the earlier history and adds at most one entry, an assistant entry |
| Session.ChatInputHistory | streamlit_app.py:446-454 | an empty prompt changes nothing; otherwise the history becomes the old one plus the user's entry, followed by at most one assistant entry |
| Session.ChatSession.constructor | streamlit_app.py:127-139 | a new session holds no thread, an empty history and no client |
| Session.ChatSession.InitializeClient | streamlit_app.py:359-386 | the flag, the session and the backend change as InitializeClientSpec states, so InitializeClientSetsFlag holds of it |
| Session.ChatSession.EnsureThread | streamlit_app.py:393-404 | the session's thread and the backend change as EnsureThreadSpec states, so the ensure_thread lemmas hold of it |
| Session.ChatSession.NewConversation | streamlit_app.py:323-326 | the thread id becomes None and the history empty; the client flag is kept |
| Session.ChatSession.ProcessMessage | streamlit_app.py:412-443 | set-up, thread creation and the turn happen as ProcessMessageSpec states, so the history lemmas hold of it |
| Session.ChatSession.OnChatInput | streamlit_app.py:446-454 | an empty prompt is ignored; otherwise the user's entry is added to the history before the input is handled, as ChatInputSpec states, so ChatInputHistory holds of it |
| Scenarios.TwoTextBlocksJoined | streamlit_app.py:280-284 | an assistant message with text blocks "A" and "B" gives the reply "A\nB" |
| Scenarios.CompletedAtOnceJoinsBlocks | streamlit_app.py:291-315 | a run completed at the first check, with that message newest, makes the turn return "A\nB" on the same thread |
| Scenarios.QueuedInProgressCompleted | streamlit_app.py:234-258 | reports queued, in_progress, completed give the reply after three checks and two sleeps |
| Scenarios.FailedRunRaisesWithoutListing | streamlit_app.py:247-250 | a "failed" report whose run has a last error raises a failure naming the status only, and the messages are never listed |
| Scenarios.StuckRunTimesOut | streamlit_app.py:252-258 | with three attempts and a run stuck in progress, the turn times out after three checks and three sleeps |

## Left out

- The page's presentation is not modelled: page setup, styling, sidebar text, chat rendering, the progress-status labels and the error banners. It is UI only.
- The vendor SDK and its client object are not modelled. The scripted backend stands in for them.
- Async execution is not modelled. A sleep is a recorded step, `Sleep(interval)`, with no time passing.
- Loading the settings from the environment or secrets, and parsing them as integers and floats, is left out as I/O. The settings are fields of `Config`. The poll interval is a `real`, not a binary float.
- The initialization call each page rerun makes at top level (streamlit_app.py:389-390) is `ChatSession.InitializeClient` itself. It is not modelled as a separate operation.
- Logging is not modelled.
- Session.ChatSession.constructor: the session's `processing_message` flag (streamlit_app.py:138-139) is set but never read, so the session does not hold it.
- `max_retries` is stored by the source and never used, so the model only keeps it in `Config`.
- Service.OpenAIService.CheckApiKey: returns only the validity flag, not the success or failure message. The message is shown or logged and nothing else depends on it.
- Service.OpenAIService.PollRunUntilCompletion: the timeout error carries the run id but not the seconds figure `max_poll_attempts * poll_interval`. That figure is float formatting in a message.
- Service.OpenAIService.ProcessUserMessage: the run's usage is an opaque optional value passed through. Its conversion to a dictionary is not modelled.
- Session.ChatSession.InitializeClient: a backend error is an `Error` value, not an exception object, so the text of the error banner is not modelled.
- Poller.PollTimesOut: requires the script to hold at least max_poll_attempts reports. A scripted backend whose reports run out raises on the next check. Running out is a property of the script, not of the poller, and `Poller.PollMatchesClosedForm` covers that case.
- Session.EnsureThreadIdempotent: requires the backend to hand out non-empty thread ids. The source tests the held id for truth, so a thread with an empty id would make the next call create again.
- The listing is always asked for newest first, the only order the client uses. The scripted backend ignores the order argument, which is still recorded in the trace.
