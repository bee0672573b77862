/**
 * The per-visitor session of the chat page: the conversation's thread id,
 * the chat history shown on the page, and whether the client has been set
 * up. `ChatSession` holds these in fields; each of its methods is tied to
 * a pure function on `SessionState` and the backend state.
 */
module Session {
  import opened Types
  import opened Backend
  import opened Service

  datatype ChatEntry = ChatEntry(role: string, content: string)

  datatype SessionState = SessionState(threadId: Option<string>, messages: seq<ChatEntry>, clientInitialized: bool)

  /** A fresh session: no thread, no history, no client. */
  const InitialSession: SessionState := SessionState(None, [], false)

  /** The page tests the thread id for truth: it holds a thread when the id
      is set and non-empty. */
  predicate HoldsThread(ss: SessionState) {
    ss.threadId.Some? && ss.threadId.value != ""
  }

  /** Setting up the client: build the service with the configured key and
      validate the key with one lightweight call. */
  function InitializeClientSpec(env: Config, ss: SessionState, s: BackendState): (bool, SessionState, BackendState)
  {
    if ss.clientInitialized then (true, ss, s)
    else if env.apiKey == "" then (false, ss, s)
    else if ServiceConfig(env.apiKey, env).Failure? then (false, ss.(clientInitialized := false), s)
    else
      var (valid, s1) := ListModelsStep(s);
      (valid, ss.(clientInitialized := valid), s1)
  }

  /** Create a thread when none is held and the client is set up, and remember its id. */
  function EnsureThreadSpec(env: Config, ss: SessionState, s: BackendState): (bool, SessionState, BackendState)
  {
    if !HoldsThread(ss) && ss.clientInitialized then
      var (created, s1) := CreateThreadSpec(env, s);
      if created.Success? then (true, ss.(threadId := Some(created.value)), s1)
      else (false, ss, s1)
    else (true, ss, s)
  }

  /** The "new conversation" button: forget the thread and the history. */
  function NewConversationSpec(ss: SessionState): SessionState
  {
    ss.(threadId := None, messages := [])
  }

  /** Handle one user input: set up the client and the thread if needed, run
      the turn, and add the reply to the history only when the turn succeeds. */
  function ProcessMessageSpec(env: Config, ss: SessionState, s: BackendState, userInput: string): (SessionState, BackendState)
  {
    var (_, ss1, s1) := if ss.clientInitialized then (true, ss, s) else InitializeClientSpec(env, ss, s);
    if !ss1.clientInitialized then (ss1, s1)
    else
      var (ok, ss2, s2) := if HoldsThread(ss1) then (true, ss1, s1) else EnsureThreadSpec(env, ss1, s1);
      if !ok then (ss2, s2)
      else
        var (r, s3) := ProcessTurnSpec(env, s2, ss2.threadId.value, userInput);
        if r.Success? then (ss2.(messages := ss2.messages + [ChatEntry("assistant", r.value.text)]), s3)
        else (ss2, s3)
  }

  /** The chat input: an empty prompt is ignored; otherwise record the
      user's entry, then handle it. */
  function ChatInputSpec(env: Config, ss: SessionState, s: BackendState, prompt: string): (SessionState, BackendState)
  {
    if prompt == "" then (ss, s)
    else ProcessMessageSpec(env, ss.(messages := ss.messages + [ChatEntry("user", prompt)]), s, prompt)
  }

  // ---------------------------------------------------------------------
  // Properties

  /** Setting up the client touches neither the thread nor the history. It
      reports the flag it leaves; on a session not yet set up the flag ends
      up set exactly when the configured key is accepted and the key check
      succeeds. The backend gains at most the one key-check call. */
  lemma InitializeClientSetsFlag(env: Config, ss: SessionState, s: BackendState)
    ensures var (ok, ss', s') := InitializeClientSpec(env, ss, s);
            && ss'.threadId == ss.threadId && ss'.messages == ss.messages
            && ok == ss'.clientInitialized
            && (ss.clientInitialized ==> ss' == ss && s' == s)
            && (!ss.clientInitialized ==>
                  (ss'.clientInitialized <==> ApiKeyAccepted(env.apiKey) && OpListModels !in s.failing))
            && (s'.trace == s.trace || s'.trace == s.trace + [ListModels])
            && s'.(trace := s.trace) == s
  {
  }

  /** ensure_thread makes a create-thread call exactly when no thread is
      held and the client is set up; it then stores the id it got, and on a
      failed create returns false with the thread id left as it was. It
      never touches the history or the client flag. */
  lemma EnsureThreadCreatesLazily(env: Config, ss: SessionState, s: BackendState)
    ensures var (ok, ss', s') := EnsureThreadSpec(env, ss, s);
            && ((!HoldsThread(ss) && ss.clientInitialized)
                  <==> s'.trace == s.trace + [CreateThread(ThreadParamsFor(env.vectorStoreId))])
            && (HoldsThread(ss) || !ss.clientInitialized ==> ok && ss' == ss && s' == s)
            && (!ok ==> ss' == ss)
            && (ok && !HoldsThread(ss) && ss.clientInitialized ==>
                  |s.threadIds| > 0 && ss' == ss.(threadId := Some(s.threadIds[0])))
  {
  }

  /** Once ensure_thread has succeeded, a second call makes no second create,
      provided the backend hands out non-empty ids. */
  lemma EnsureThreadIdempotent(env: Config, ss: SessionState, s: BackendState)
    requires forall i :: 0 <= i < |s.threadIds| ==> s.threadIds[i] != ""
    ensures var (ok, ss', s') := EnsureThreadSpec(env, ss, s);
            ok ==> EnsureThreadSpec(env, ss', s') == (true, ss', s')
  {
    var (ok, ss', s') := EnsureThreadSpec(env, ss, s);
    if ok && !HoldsThread(ss) && ss.clientInitialized {
      assert s.threadIds[0] != "";
    }
  }

  /** After the button is pressed the history is empty, and the next
      ensure_thread (with the client set up) creates a new thread. */
  lemma NewConversationCreatesAgain(env: Config, ss: SessionState, s: BackendState)
    requires ss.clientInitialized
    ensures var ss0 := NewConversationSpec(ss);
            && ss0.threadId == None && ss0.messages == []
            && EnsureThreadSpec(env, ss0, s).2.trace == s.trace + [CreateThread(ThreadParamsFor(env.vectorStoreId))]
  {
  }

  /** Handling an input on a set-up session that holds a thread runs exactly
      one turn on that thread; the history gains the reply as one assistant
      entry when the turn succeeds, and nothing when it raises. */
  lemma ProcessMessageAppendsReply(env: Config, ss: SessionState, s: BackendState, userInput: string)
    requires ss.clientInitialized && HoldsThread(ss)
    ensures var (r, s') := ProcessTurnSpec(env, s, ss.threadId.value, userInput);
            (ProcessMessageSpec(env, ss, s, userInput)
             == (if r.Success? then ss.(messages := ss.messages + [ChatEntry("assistant", r.value.text)]) else ss, s'))
  {
  }

  /** The first input of a conversation, on a set-up session holding no
      thread, first runs ensure_thread. When that fails nothing more
      happens; when it succeeds the turn runs on the new thread, and the
      history gains the reply as one assistant entry exactly when the turn
      succeeds. */
  lemma ProcessMessageOnNewThread(env: Config, ss: SessionState, s: BackendState, userInput: string)
    requires ss.clientInitialized && !HoldsThread(ss)
    ensures var (ok, ss1, s1) := EnsureThreadSpec(env, ss, s);
            var (ss', s') := ProcessMessageSpec(env, ss, s, userInput);
            && (!ok ==> ss' == ss && s' == s1)
            && (ok ==> ss1.threadId.Some?)
            && (ok ==> (var (r, s3) := ProcessTurnSpec(env, s1, ss1.threadId.value, userInput);
                        ss' == (if r.Success? then ss1.(messages := ss.messages + [ChatEntry("assistant", r.value.text)]) else ss1)
                        && s' == s3))
  {
  }

  /** An input on a session not yet set up first sets up the client. When
      that fails nothing more happens; when it succeeds the input is handled
      as on the set-up session. */
  lemma ProcessMessageAfterSetUp(env: Config, ss: SessionState, s: BackendState, userInput: string)
    requires !ss.clientInitialized
    ensures var (_, ss1, s1) := InitializeClientSpec(env, ss, s);
            && (!ss1.clientInitialized ==> ProcessMessageSpec(env, ss, s, userInput) == (ss1, s1))
            && (ss1.clientInitialized ==> ProcessMessageSpec(env, ss, s, userInput) == ProcessMessageSpec(env, ss1, s1, userInput))
  {
  }

  /** Whatever happens, handling an input keeps the history it started with
      and adds at most one entry, an assistant entry. */
  lemma ProcessMessageAppendsAtMostOne(env: Config, ss: SessionState, s: BackendState, userInput: string)
    ensures var (ss', s') := ProcessMessageSpec(env, ss, s, userInput);
            && |ss.messages| <= |ss'.messages| <= |ss.messages| + 1
            && ss'.messages[..|ss.messages|] == ss.messages
            && (|ss'.messages| == |ss.messages| + 1 ==> ss'.messages[|ss.messages|].role == "assistant")
  {
    var (ss', s') := ProcessMessageSpec(env, ss, s, userInput);
    if |ss'.messages| != |ss.messages| {
      assert ss'.messages[..|ss.messages|] == ss.messages;
    }
  }

  /** The chat input ignores an empty prompt; otherwise the history becomes
      the old one with the user's entry, followed by at most one more entry,
      the assistant's. */
  lemma ChatInputHistory(env: Config, ss: SessionState, s: BackendState, prompt: string)
    ensures prompt == "" ==> ChatInputSpec(env, ss, s, prompt) == (ss, s)
    ensures prompt != "" ==>
              var h := ss.messages + [ChatEntry("user", prompt)];
              var ss' := ChatInputSpec(env, ss, s, prompt).0;
              && |h| <= |ss'.messages| <= |h| + 1
              && ss'.messages[..|h|] == h
              && (|ss'.messages| == |h| + 1 ==> ss'.messages[|h|].role == "assistant")
  {
    if prompt != "" {
      ProcessMessageAppendsAtMostOne(env, ss.(messages := ss.messages + [ChatEntry("user", prompt)]), s, prompt);
    }
  }

  // ---------------------------------------------------------------------
  // The session object

  class ChatSession {
    const env: Config
    const backend: ScriptedBackend
    var threadId: Option<string>
    var messages: seq<ChatEntry>
    var clientInitialized: bool
    var service: OpenAIService?

    /** The service, once built, uses the session's configuration and
        backend; a set-up client has a service. */
    ghost predicate Valid()
      reads this
    {
      && (service != null ==> service.config == env && service.backend == backend)
      && (clientInitialized ==> service != null)
    }

    function Snapshot(): SessionState
      reads this
    {
      SessionState(threadId, messages, clientInitialized)
    }

    constructor (env: Config, backend: ScriptedBackend)
      ensures Valid() && Snapshot() == InitialSession
      ensures this.env == env && this.backend == backend
    {
      this.env := env;
      this.backend := backend;
      threadId := None;
      messages := [];
      clientInitialized := false;
      service := null;
    }

    method InitializeClient() returns (ok: bool)
      requires Valid()
      modifies this, backend
      ensures Valid()
      ensures (ok, Snapshot(), backend.State()) == InitializeClientSpec(env, old(Snapshot()), old(backend.State()))
    {
      if clientInitialized {
        return true;
      }
      if env.apiKey == "" {
        return false;
      }
      var created := OpenAIService.New(env.apiKey, env, backend);
      if created.Failure? {
        clientInitialized := false;
        return false;
      }
      service := created.value;
      var valid := service.CheckApiKey();
      clientInitialized := valid;
      return valid;
    }

    method EnsureThread() returns (ok: bool)
      requires Valid()
      modifies this, backend
      ensures Valid()
      ensures (ok, Snapshot(), backend.State()) == EnsureThreadSpec(env, old(Snapshot()), old(backend.State()))
    {
      if !(threadId.Some? && threadId.value != "") && clientInitialized {
        var thread := service.CreateThread();
        if thread.Failure? {
          return false;
        }
        threadId := Some(thread.value);
        return true;
      }
      return true;
    }

    method NewConversation()
      requires Valid()
      modifies this
      ensures Valid()
      ensures Snapshot() == NewConversationSpec(old(Snapshot()))
    {
      threadId := None;
      messages := [];
    }

    method ProcessMessage(userInput: string)
      requires Valid()
      modifies this, backend
      ensures Valid()
      ensures (Snapshot(), backend.State()) == ProcessMessageSpec(env, old(Snapshot()), old(backend.State()), userInput)
    {
      if !clientInitialized {
        var _ := InitializeClient();
        if !clientInitialized {
          return;
        }
      }
      if !(threadId.Some? && threadId.value != "") {
        var created := EnsureThread();
        if !created {
          return;
        }
      }
      var r := service.ProcessUserMessage(threadId.value, userInput);
      if r.Success? {
        messages := messages + [ChatEntry("assistant", r.value.text)];
      }
    }

    method OnChatInput(prompt: string)
      requires Valid()
      modifies this, backend
      ensures Valid()
      ensures (Snapshot(), backend.State()) == ChatInputSpec(env, old(Snapshot()), old(backend.State()), prompt)
    {
      if prompt == "" {
        return;
      }
      messages := messages + [ChatEntry("user", prompt)];
      ProcessMessage(prompt);
    }
  }
}
