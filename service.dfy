/**
 * The assistant service: its configuration guards, the operations it runs
 * against the backend, and one user turn (add the message, start a run,
 * poll it, read the reply).
 *
 * Every operation is a pure function of the backend state first; the
 * methods of `OpenAIService` carry out the same steps on a
 * `ScriptedBackend` and promise exactly that function's result and new state.
 */
module Service {
  import opened Types
  import opened Backend
  import opened Lines
  import opened Extractor
  import opened Poller

  // ---------------------------------------------------------------------
  // Configuration guards

  /** The key the service is built with: the given key, or the configured
      one when the given key is empty. */
  function EffectiveApiKey(given: string, configured: string): string {
    if given != "" then given else configured
  }

  predicate ApiKeyAccepted(key: string) {
    key != "" && key != PlaceholderApiKey
  }

  /** The constructor's guard: the service's configuration, or the error
      raised for an empty or placeholder key. */
  function ServiceConfig(givenKey: string, env: Config): (r: Result<Config>)
    ensures r.Success? <==> ApiKeyAccepted(EffectiveApiKey(givenKey, env.apiKey))
    ensures r.Failure? ==> r.error == ValueError(ApiKeyNotConfigured)
    ensures r.Success? ==> r.value.apiKey != "" && r.value.apiKey != PlaceholderApiKey
    ensures r.Success? ==> r.value.apiKey == (if givenKey != "" then givenKey else env.apiKey)
    ensures r.Success? ==> r.value.(apiKey := env.apiKey) == env
  {
    var key := EffectiveApiKey(givenKey, env.apiKey);
    if !ApiKeyAccepted(key) then Failure(ValueError(ApiKeyNotConfigured))
    else Success(env.(apiKey := key))
  }

  /** The arguments of create-thread: tool resources for file search exactly
      when a vector store is configured. */
  function ThreadParamsFor(vectorStoreId: string): (p: ThreadParams)
    ensures p.FileSearch? <==> vectorStoreId != ""
    ensures p.FileSearch? ==> p.vectorStoreIds == [vectorStoreId]
  {
    if vectorStoreId != "" then FileSearch([vectorStoreId]) else NoParams
  }

  function CreateThreadSpec(cfg: Config, s: BackendState): (Result<string>, BackendState)
  {
    CreateThreadStep(s, ThreadParamsFor(cfg.vectorStoreId))
  }

  /** The assistant a run is created for: the requested one, else the configured one. */
  function TargetAssistant(cfg: Config, assistantId: string): string {
    if assistantId != "" then assistantId else cfg.assistantId
  }

  function CreateRunSpec(cfg: Config, s: BackendState, threadId: string, assistantId: string): (Result<Run>, BackendState)
  {
    var target := TargetAssistant(cfg, assistantId);
    if target == "" then (Failure(ValueError(AssistantIdRequiredForRun)), s)
    else CreateRunStep(s, threadId, target)
  }

  /** create_run refuses, before any remote call, exactly when neither a
      requested nor a configured assistant id is set; otherwise it makes one
      create-run call for the target assistant. */
  lemma CreateRunGuard(cfg: Config, s: BackendState, threadId: string, assistantId: string)
    ensures var (r, s') := CreateRunSpec(cfg, s, threadId, assistantId);
            && ((assistantId == "" && cfg.assistantId == "") <==> r == Failure(ValueError(AssistantIdRequiredForRun)))
            && (assistantId == "" && cfg.assistantId == "" ==> s' == s)
            && (assistantId != "" || cfg.assistantId != "" ==>
                  s'.trace == s.trace + [CreateRun(threadId, TargetAssistant(cfg, assistantId))])
  {
  }

  // ---------------------------------------------------------------------
  // The reply

  function LatestResponseSpec(s: BackendState, threadId: string): (Result<Option<string>>, BackendState)
  {
    var (listed, s1) := ListMessagesStep(s, threadId, "desc", ResponseWindow);
    if listed.Failure? then (Failure(listed.error), s1)
    else (Success(LatestAssistantText(listed.value)), s1)
  }

  /** The reply is read from the 20 newest messages only: it is None exactly
      when none of them is eligible, and otherwise the reply of the first
      eligible one. */
  lemma ResponseReadsWindow(s: BackendState, threadId: string)
    requires OpListMessages !in s.failing
    ensures var (r, s') := LatestResponseSpec(s, threadId);
            var w := Window(s.listed, ResponseWindow);
            && s' == Record(s, ListMessages(threadId, "desc", ResponseWindow))
            && r == Success(LatestAssistantText(w))
            && (r == Success(None) <==> forall j :: 0 <= j < |s.listed| && j < ResponseWindow ==> !Eligible(s.listed[j]))
  {
    var w := Window(s.listed, ResponseWindow);
    NoneIffNoEligible(w);
  }

  // ---------------------------------------------------------------------
  // One user turn

  function ProcessTurnSpec(cfg: Config, s: BackendState, threadId: string, content: string): (Result<TurnResult>, BackendState)
  {
    if cfg.assistantId == "" then (Failure(ValueError(AssistantIdRequired)), s)
    else
      var (added, s1) := CreateMessageStep(s, threadId, "user", content);
      if added.Failure? then (Failure(added.error), s1)
      else
        var (run, s2) := CreateRunSpec(cfg, s1, threadId, cfg.assistantId);
        if run.Failure? then (Failure(run.error), s2)
        else FinishTurnSpec(cfg, s2, threadId, run.value.id)
  }

  /** The rest of a turn once its run exists: poll the run, then read the reply. */
  function FinishTurnSpec(cfg: Config, s: BackendState, threadId: string, runId: string): (Result<TurnResult>, BackendState)
  {
    var (done, s1) := PollSpec(s, threadId, runId, 0, cfg.maxPollAttempts, cfg.pollInterval);
    if done.Failure? then (Failure(done.error), s1)
    else
      var (reply, s2) := LatestResponseSpec(s1, threadId);
      if reply.Failure? then (Failure(reply.error), s2)
      else (Success(TurnResult(threadId, reply.value.GetOr(FallbackReply), done.value.usage)), s2)
  }

  /** The backend once the user message is added and the run created. */
  function Launched(cfg: Config, s: BackendState, threadId: string, content: string): BackendState
  {
    s.(trace := s.trace + [CreateMessage(threadId, "user", content), CreateRun(threadId, cfg.assistantId)])
  }

  /** A turn whose two creations succeed continues with its created run. */
  lemma TurnLaunches(cfg: Config, s: BackendState, threadId: string, content: string)
    requires cfg.assistantId != ""
    requires OpCreateMessage !in s.failing && OpCreateRun !in s.failing
    ensures ProcessTurnSpec(cfg, s, threadId, content)
         == FinishTurnSpec(cfg, Launched(cfg, s, threadId, content), threadId, s.newRunId)
  {
    assert CreateRunSpec(cfg, CreateMessageStep(s, threadId, "user", content).1, threadId, cfg.assistantId).1
        == Launched(cfg, s, threadId, content);
  }

  predicate NoListing(calls: seq<Call>) {
    forall i :: 0 <= i < |calls| ==> !calls[i].ListMessages?
  }

  lemma NoListingInCycles(threadId: string, runId: string, interval: real, n: nat, before: seq<Call>, after: seq<Call>)
    requires NoListing(before) && NoListing(after)
    ensures NoListing(before + Cycles(threadId, runId, interval, n) + after)
  {
    var c := Cycles(threadId, runId, interval, n);
    var all := before + c + after;
    forall i | 0 <= i < |all| ensures !all[i].ListMessages? {
      if i < |before| {
        assert all[i] == before[i];
      } else if i < |before| + |c| {
        assert all[i] == c[i - |before|];
      } else {
        assert all[i] == after[i - |before| - |c|];
      }
    }
  }

  /** The calls the rest of a turn makes: the poll's checks and sleeps, and
      the listing of the messages last, exactly when the poll returned a run. */
  lemma {:induction false} FinishTurnCalls(cfg: Config, s: BackendState, threadId: string, runId: string)
    ensures var (r, s') := FinishTurnSpec(cfg, s, threadId, runId);
            var k := FirstStop(s.runScript);
            var check := RetrieveRun(threadId, runId);
            && |s.trace| <= |s'.trace| && s'.trace[..|s.trace|] == s.trace
            && (r.Success? ==> s'.trace == s.trace + Cycles(threadId, runId, cfg.pollInterval, k)
                                           + [check, ListMessages(threadId, "desc", ResponseWindow)])
            && (r.Failure? && r.error != BackendError(OpListMessages) ==> NoListing(s'.trace[|s.trace|..]))
  {
    var interval := cfg.pollInterval;
    var check := RetrieveRun(threadId, runId);
    PollMatchesClosedForm(s, threadId, runId, 0, cfg.maxPollAttempts, interval);
    var (r, s') := FinishTurnSpec(cfg, s, threadId, runId);
    var n := Budget(0, cfg.maxPollAttempts);
    var k := FirstStop(s.runScript);
    if n == 0 {
      assert s'.trace == s.trace;
    } else if OpRetrieveRun in s.failing {
      assert s'.trace == s.trace + [check];
    } else if n <= k {
      assert s'.trace == s.trace + Cycles(threadId, runId, interval, n);
      NoListingInCycles(threadId, runId, interval, n, [], []);
      assert s'.trace[|s.trace|..] == [] + Cycles(threadId, runId, interval, n) + [];
    } else if k == |s.runScript| || s.runScript[k].status != Completed {
      assert s'.trace == s.trace + Cycles(threadId, runId, interval, k) + [check];
      NoListingInCycles(threadId, runId, interval, k, [], [check]);
      assert s'.trace[|s.trace|..] == [] + Cycles(threadId, runId, interval, k) + [check];
    } else {
      assert s'.trace == s.trace + Cycles(threadId, runId, interval, k) + [check] + [ListMessages(threadId, "desc", ResponseWindow)];
    }
  }

  /** The calls of a turn as they must appear when it succeeds, with k status checks before the last one. */
  function SuccessfulTurnCalls(cfg: Config, s: BackendState, threadId: string, content: string, k: nat): seq<Call>
  {
    [CreateMessage(threadId, "user", content), CreateRun(threadId, cfg.assistantId)]
    + Cycles(threadId, s.newRunId, cfg.pollInterval, k)
    + [RetrieveRun(threadId, s.newRunId), ListMessages(threadId, "desc", ResponseWindow)]
  }

  /** The order of a turn's calls, given what the turn returned and the
      backend it left: a turn without an assistant id makes no call;
      otherwise the first call adds the user message and the second creates
      the run; a successful turn then polls and lists the messages last; and
      a turn that fails for any reason but the listing itself never lists. */
  predicate TurnCallShape(cfg: Config, s: BackendState, threadId: string, content: string, r: Result<TurnResult>, s': BackendState)
  {
    && |s.trace| <= |s'.trace| && s'.trace[..|s.trace|] == s.trace
    && var d := s'.trace[|s.trace|..];
       && (cfg.assistantId == "" ==> r == Failure(ValueError(AssistantIdRequired)) && s' == s)
       && (cfg.assistantId != "" ==> |d| >= 1 && d[0] == CreateMessage(threadId, "user", content))
       && (cfg.assistantId != "" && |d| >= 2 ==> d[1] == CreateRun(threadId, cfg.assistantId))
       && (r.Success? ==> d == SuccessfulTurnCalls(cfg, s, threadId, content, FirstStop(s.runScript)))
       && (r.Failure? && r.error != BackendError(OpListMessages) ==> NoListing(d))
  }

  lemma CallShapeAfterLaunch(cfg: Config, s: BackendState, threadId: string, content: string)
    requires cfg.assistantId != ""
    requires OpCreateMessage !in s.failing && OpCreateRun !in s.failing
    ensures var (r, s') := FinishTurnSpec(cfg, Launched(cfg, s, threadId, content), threadId, s.newRunId);
            TurnCallShape(cfg, s, threadId, content, r, s')
  {
    var cm := CreateMessage(threadId, "user", content);
    var cr := CreateRun(threadId, cfg.assistantId);
    var s2 := Launched(cfg, s, threadId, content);
    FinishTurnCalls(cfg, s2, threadId, s.newRunId);
    var (r, s') := FinishTurnSpec(cfg, s2, threadId, s.newRunId);
    var d := s'.trace[|s.trace|..];
    var tail := s'.trace[|s2.trace|..];
    assert d == [cm, cr] + tail;
    if r.Failure? && r.error != BackendError(OpListMessages) {
      forall i | 0 <= i < |d| ensures !d[i].ListMessages? {
        if i >= 2 {
          assert d[i] == tail[i - 2];
        }
      }
    }
  }

  /** Every turn, whatever the backend answers, makes its calls in the order TurnCallShape states. */
  lemma TurnCallOrder(cfg: Config, s: BackendState, threadId: string, content: string)
    ensures TurnCallShape(cfg, s, threadId, content, ProcessTurnSpec(cfg, s, threadId, content).0,
                          ProcessTurnSpec(cfg, s, threadId, content).1)
  {
    if cfg.assistantId != "" && OpCreateMessage !in s.failing && OpCreateRun !in s.failing {
      TurnLaunches(cfg, s, threadId, content);
      CallShapeAfterLaunch(cfg, s, threadId, content);
    } else if cfg.assistantId != "" && OpCreateMessage !in s.failing {
      var s' := ProcessTurnSpec(cfg, s, threadId, content).1;
      assert s'.trace == s.trace + [CreateMessage(threadId, "user", content), CreateRun(threadId, cfg.assistantId)];
    }
  }

  /** A turn on a backend that answers every call and completes the run
      within the budget returns the thread id it was given, the reply read
      from the 20 newest messages (or the fallback reply when none of them is
      eligible) and the completed run's usage. */
  lemma TurnSucceeds(cfg: Config, s: BackendState, threadId: string, content: string)
    requires cfg.assistantId != ""
    requires OpCreateMessage !in s.failing && OpCreateRun !in s.failing
    requires OpRetrieveRun !in s.failing && OpListMessages !in s.failing
    requires FirstStop(s.runScript) < |s.runScript| && FirstStop(s.runScript) < cfg.maxPollAttempts
    requires s.runScript[FirstStop(s.runScript)].status == Completed
    ensures var (r, s') := ProcessTurnSpec(cfg, s, threadId, content);
            var w := Window(s.listed, ResponseWindow);
            && r == Success(TurnResult(threadId, LatestAssistantText(w).GetOr(FallbackReply),
                                       s.runScript[FirstStop(s.runScript)].usage))
            && ((forall j :: 0 <= j < |w| ==> !Eligible(w[j])) ==> r.value.text == FallbackReply)
            && s'.trace == s.trace + SuccessfulTurnCalls(cfg, s, threadId, content, FirstStop(s.runScript))
  {
    var k := FirstStop(s.runScript);
    var s2 := Launched(cfg, s, threadId, content);
    TurnLaunches(cfg, s, threadId, content);
    PollReturnsOnCompleted(s2, threadId, s.newRunId, cfg.maxPollAttempts, cfg.pollInterval, k);
    NoneIffNoEligible(Window(s.listed, ResponseWindow));
  }

  /** A poll that fails ends the turn right there: the turn raises the
      poll's error unchanged, and the backend is left as the poll left it. */
  lemma TurnPropagatesPollFailure(cfg: Config, s: BackendState, threadId: string, content: string)
    requires cfg.assistantId != ""
    requires OpCreateMessage !in s.failing && OpCreateRun !in s.failing
    ensures var (done, s3) := PollSpec(Launched(cfg, s, threadId, content), threadId, s.newRunId,
                                       0, cfg.maxPollAttempts, cfg.pollInterval);
            done.Failure? ==> ProcessTurnSpec(cfg, s, threadId, content) == (Failure(done.error), s3)
  {
    TurnLaunches(cfg, s, threadId, content);
  }

  /** A failing creation ends the turn at once with the backend's error:
      a failed add-message makes no further call, and a failed create-run
      makes no call after it. */
  lemma TurnPropagatesCreationFailure(cfg: Config, s: BackendState, threadId: string, content: string)
    requires cfg.assistantId != ""
    ensures OpCreateMessage in s.failing ==>
              ProcessTurnSpec(cfg, s, threadId, content)
              == (Failure(BackendError(OpCreateMessage)), Record(s, CreateMessage(threadId, "user", content)))
    ensures OpCreateMessage !in s.failing && OpCreateRun in s.failing ==>
              ProcessTurnSpec(cfg, s, threadId, content)
              == (Failure(BackendError(OpCreateRun)), Launched(cfg, s, threadId, content))
  {
    assert CreateRunSpec(cfg, CreateMessageStep(s, threadId, "user", content).1, threadId, cfg.assistantId).1
        == Launched(cfg, s, threadId, content);
  }

  /** A listing that fails after a completed poll ends the turn with the
      listing's error, after exactly the calls of a successful turn. */
  lemma TurnPropagatesListingFailure(cfg: Config, s: BackendState, threadId: string, content: string)
    requires cfg.assistantId != ""
    requires OpCreateMessage !in s.failing && OpCreateRun !in s.failing
    requires OpRetrieveRun !in s.failing && OpListMessages in s.failing
    requires FirstStop(s.runScript) < |s.runScript| && FirstStop(s.runScript) < cfg.maxPollAttempts
    requires s.runScript[FirstStop(s.runScript)].status == Completed
    ensures var (r, s') := ProcessTurnSpec(cfg, s, threadId, content);
            && r == Failure(BackendError(OpListMessages))
            && s'.trace == s.trace + SuccessfulTurnCalls(cfg, s, threadId, content, FirstStop(s.runScript))
  {
    var k := FirstStop(s.runScript);
    TurnLaunches(cfg, s, threadId, content);
    PollReturnsOnCompleted(Launched(cfg, s, threadId, content), threadId, s.newRunId,
                           cfg.maxPollAttempts, cfg.pollInterval, k);
  }

  // ---------------------------------------------------------------------
  // The service object

  class OpenAIService {
    const config: Config
    const backend: ScriptedBackend

    constructor (config: Config, backend: ScriptedBackend)
      requires ApiKeyAccepted(config.apiKey)
      ensures this.config == config && this.backend == backend
    {
      this.config := config;
      this.backend := backend;
    }

    /** Construction as the client does it: with the given key, or the
        configured one when none is given; raises for an empty or
        placeholder key. */
    static method New(givenKey: string, env: Config, backend: ScriptedBackend) returns (r: Result<OpenAIService>)
      ensures r.Success? <==> ServiceConfig(givenKey, env).Success?
      ensures r.Failure? ==> r.error == ServiceConfig(givenKey, env).error
      ensures r.Success? ==> fresh(r.value) && r.value.config == ServiceConfig(givenKey, env).value
                              && r.value.backend == backend
    {
      var key := if givenKey != "" then givenKey else env.apiKey;
      if key == "" || key == PlaceholderApiKey {
        return Failure(ValueError(ApiKeyNotConfigured));
      }
      var service := new OpenAIService(env.(apiKey := key), backend);
      return Success(service);
    }

    /** The lightweight call that tells whether the key is usable. */
    method CheckApiKey() returns (valid: bool)
      modifies backend
      ensures (valid, backend.State()) == ListModelsStep(old(backend.State()))
    {
      valid := backend.ListModels();
    }

    method CreateThread() returns (r: Result<string>)
      modifies backend
      ensures (r, backend.State()) == CreateThreadSpec(config, old(backend.State()))
    {
      var vectorStoreIds: seq<string> := [];
      if config.vectorStoreId != "" {
        vectorStoreIds := [config.vectorStoreId];
      }
      var threadParams := NoParams;
      if vectorStoreIds != [] {
        threadParams := FileSearch(vectorStoreIds);
      }
      r := backend.CreateThread(threadParams);
    }

    method AddMessageToThread(threadId: string, content: string, role: string) returns (r: Result<()>)
      modifies backend
      ensures (r, backend.State()) == CreateMessageStep(old(backend.State()), threadId, role, content)
    {
      r := backend.CreateMessage(threadId, role, content);
    }

    method CreateRun(threadId: string, assistantId: string) returns (r: Result<Run>)
      modifies backend
      ensures (r, backend.State()) == CreateRunSpec(config, old(backend.State()), threadId, assistantId)
    {
      var target := if assistantId != "" then assistantId else config.assistantId;
      if target == "" {
        return Failure(ValueError(AssistantIdRequiredForRun));
      }
      r := backend.CreateRun(threadId, target);
    }

    method GetRunStatus(threadId: string, runId: string) returns (r: Result<Run>)
      modifies backend
      ensures (r, backend.State()) == RetrieveRunStep(old(backend.State()), threadId, runId)
    {
      r := backend.RetrieveRun(threadId, runId);
    }

    method PollRunUntilCompletion(threadId: string, runId: string) returns (r: Result<Run>)
      modifies backend
      ensures (r, backend.State())
           == PollSpec(old(backend.State()), threadId, runId, 0, config.maxPollAttempts, config.pollInterval)
    {
      var attempts := 0;
      while attempts < config.maxPollAttempts
        invariant PollSpec(backend.State(), threadId, runId, attempts, config.maxPollAttempts, config.pollInterval)
               == PollSpec(old(backend.State()), threadId, runId, 0, config.maxPollAttempts, config.pollInterval)
        decreases config.maxPollAttempts - attempts
      {
        var run := GetRunStatus(threadId, runId);
        if run.Failure? {
          return Failure(run.error);
        }
        if run.value.status == Completed {
          return Success(run.value);
        } else if run.value.status in FailureStatuses {
          return Failure(RunFailed(run.value.status));
        }
        backend.Sleep(config.pollInterval);
        attempts := attempts + 1;
      }
      return Failure(RunTimeout(runId));
    }

    method GetAssistantMessages(threadId: string, limit: nat) returns (r: Result<seq<Message>>)
      modifies backend
      ensures (r, backend.State()) == ListMessagesStep(old(backend.State()), threadId, "desc", limit)
    {
      r := backend.ListMessages(threadId, "desc", limit);
    }

    /** Scans the newest messages for the first eligible one and joins its
        text blocks; the run id only names the run in the service's log. */
    method GetLatestAssistantResponse(threadId: string, runId: string) returns (r: Result<Option<string>>)
      modifies backend
      ensures (r, backend.State()) == LatestResponseSpec(old(backend.State()), threadId)
    {
      var listed := GetAssistantMessages(threadId, ResponseWindow);
      if listed.Failure? {
        return Failure(listed.error);
      }
      var messages := listed.value;
      var i := 0;
      while i < |messages|
        invariant 0 <= i <= |messages|
        invariant LatestAssistantText(messages[i..]) == LatestAssistantText(messages)
      {
        var message := messages[i];
        assert messages[i..][1..] == messages[i + 1..];
        if message.role == "assistant" {
          if message.content.Blocks? && |message.content.blocks| > 0 {
            var blocks := message.content.blocks;
            var textContent: seq<string> := [];
            var k := 0;
            while k < |blocks|
              invariant 0 <= k <= |blocks|
              invariant textContent == TextValues(blocks[..k])
            {
              assert blocks[..k + 1][..k] == blocks[..k];
              if blocks[k].kind == "text" {
                textContent := textContent + [blocks[k].text];
              }
              k := k + 1;
            }
            assert blocks[..k] == blocks;
            return Success(Some(JoinLines(textContent)));
          }
        }
        i := i + 1;
      }
      return Success(None);
    }

    method ProcessUserMessage(threadId: string, content: string) returns (r: Result<TurnResult>)
      modifies backend
      ensures (r, backend.State()) == ProcessTurnSpec(config, old(backend.State()), threadId, content)
    {
      if config.assistantId == "" {
        return Failure(ValueError(AssistantIdRequired));
      }
      var added := AddMessageToThread(threadId, content, "user");
      if added.Failure? {
        return Failure(added.error);
      }
      var run := CreateRun(threadId, config.assistantId);
      if run.Failure? {
        return Failure(run.error);
      }
      var completed := PollRunUntilCompletion(threadId, run.value.id);
      if completed.Failure? {
        return Failure(completed.error);
      }
      var response := GetLatestAssistantResponse(threadId, completed.value.id);
      if response.Failure? {
        return Failure(response.error);
      }
      var usage := completed.value.usage;
      if response.value.None? {
        return Success(TurnResult(threadId, FallbackReply, usage));
      }
      return Success(TurnResult(threadId, response.value.value, usage));
    }
  }
}
