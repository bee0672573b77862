/**
 * The assistant backend as a scripted oracle. Its state says what each
 * remote operation will answer (successive thread ids, successive run
 * reports, the thread's messages newest first, which operations raise)
 * and records every call made, sleeps included, in one trace.
 *
 * Each operation is a pure step on `BackendState`; the class
 * `ScriptedBackend` holds the same state in fields and its methods take
 * exactly those steps.
 */
module Backend {
  import opened Types

  datatype BackendState = BackendState(
    threadIds: seq<string>,   // ids handed out by successive create-thread calls
    newRunId: string,         // the id a created run gets
    runScript: seq<Run>,      // what successive get-run calls report
    listed: seq<Message>,     // the thread's messages, newest first
    failing: set<Op>,         // operations that raise instead of answering
    trace: seq<Call>)         // every call made so far, oldest first

  function Record(s: BackendState, c: Call): (s': BackendState)
    ensures s'.trace == s.trace + [c]
    ensures s'.(trace := s.trace) == s
  {
    s.(trace := s.trace + [c])
  }

  /** The first `limit` messages of `listed` (all of them when there are fewer). */
  function Window(listed: seq<Message>, limit: nat): (w: seq<Message>)
    ensures |w| <= limit && |w| <= |listed|
    ensures |w| == limit || |w| == |listed|
    ensures forall i :: 0 <= i < |w| ==> w[i] == listed[i]
  {
    if limit < |listed| then listed[..limit] else listed
  }

  function CreateThreadStep(s: BackendState, params: ThreadParams): (Result<string>, BackendState)
  {
    var s1 := Record(s, CreateThread(params));
    if OpCreateThread in s.failing || s.threadIds == [] then (Failure(BackendError(OpCreateThread)), s1)
    else (Success(s.threadIds[0]), s1.(threadIds := s.threadIds[1..]))
  }

  function CreateMessageStep(s: BackendState, threadId: string, role: string, content: string): (Result<()>, BackendState)
  {
    var s1 := Record(s, CreateMessage(threadId, role, content));
    if OpCreateMessage in s.failing then (Failure(BackendError(OpCreateMessage)), s1)
    else (Success(()), s1)
  }

  /** A created run starts out "queued". */
  function CreateRunStep(s: BackendState, threadId: string, assistantId: string): (Result<Run>, BackendState)
  {
    var s1 := Record(s, CreateRun(threadId, assistantId));
    if OpCreateRun in s.failing then (Failure(BackendError(OpCreateRun)), s1)
    else (Success(Run(s.newRunId, threadId, "queued", None, None)), s1)
  }

  /** A get-run call consumes the next scripted report; it raises when the
      operation is failing or the script has run out. */
  function RetrieveRunStep(s: BackendState, threadId: string, runId: string): (Result<Run>, BackendState)
  {
    var s1 := Record(s, RetrieveRun(threadId, runId));
    if OpRetrieveRun in s.failing || s.runScript == [] then (Failure(BackendError(OpRetrieveRun)), s1)
    else (Success(s.runScript[0]), s1.(runScript := s.runScript[1..]))
  }

  /** The script keeps the messages newest first, the only order the client asks for. */
  function ListMessagesStep(s: BackendState, threadId: string, order: string, limit: nat): (Result<seq<Message>>, BackendState)
  {
    var s1 := Record(s, ListMessages(threadId, order, limit));
    if OpListMessages in s.failing then (Failure(BackendError(OpListMessages)), s1)
    else (Success(Window(s.listed, limit)), s1)
  }

  /** The lightweight call that validates the API key; true when it succeeds. */
  function ListModelsStep(s: BackendState): (bool, BackendState)
  {
    (OpListModels !in s.failing, Record(s, ListModels))
  }

  /** An untimed sleep, recorded so that its place among the calls is visible. */
  function SleepStep(s: BackendState, seconds: real): BackendState
  {
    Record(s, Sleep(seconds))
  }

  class ScriptedBackend {
    var threadIds: seq<string>
    var newRunId: string
    var runScript: seq<Run>
    var listed: seq<Message>
    var failing: set<Op>
    var trace: seq<Call>

    function State(): BackendState
      reads this
    {
      BackendState(threadIds, newRunId, runScript, listed, failing, trace)
    }

    constructor (init: BackendState)
      ensures State() == init
    {
      threadIds := init.threadIds;
      newRunId := init.newRunId;
      runScript := init.runScript;
      listed := init.listed;
      failing := init.failing;
      trace := init.trace;
    }

    method CreateThread(params: ThreadParams) returns (r: Result<string>)
      modifies this
      ensures (r, State()) == CreateThreadStep(old(State()), params)
    {
      trace := trace + [Call.CreateThread(params)];
      if OpCreateThread in failing || threadIds == [] {
        r := Failure(BackendError(OpCreateThread));
      } else {
        r := Success(threadIds[0]);
        threadIds := threadIds[1..];
      }
    }

    method CreateMessage(threadId: string, role: string, content: string) returns (r: Result<()>)
      modifies this
      ensures (r, State()) == CreateMessageStep(old(State()), threadId, role, content)
    {
      trace := trace + [Call.CreateMessage(threadId, role, content)];
      if OpCreateMessage in failing {
        r := Failure(BackendError(OpCreateMessage));
      } else {
        r := Success(());
      }
    }

    method CreateRun(threadId: string, assistantId: string) returns (r: Result<Run>)
      modifies this
      ensures (r, State()) == CreateRunStep(old(State()), threadId, assistantId)
    {
      trace := trace + [Call.CreateRun(threadId, assistantId)];
      if OpCreateRun in failing {
        r := Failure(BackendError(OpCreateRun));
      } else {
        r := Success(Run(newRunId, threadId, "queued", None, None));
      }
    }

    method RetrieveRun(threadId: string, runId: string) returns (r: Result<Run>)
      modifies this
      ensures (r, State()) == RetrieveRunStep(old(State()), threadId, runId)
    {
      trace := trace + [Call.RetrieveRun(threadId, runId)];
      if OpRetrieveRun in failing || runScript == [] {
        r := Failure(BackendError(OpRetrieveRun));
      } else {
        r := Success(runScript[0]);
        runScript := runScript[1..];
      }
    }

    method ListMessages(threadId: string, order: string, limit: nat) returns (r: Result<seq<Message>>)
      modifies this
      ensures (r, State()) == ListMessagesStep(old(State()), threadId, order, limit)
    {
      trace := trace + [Call.ListMessages(threadId, order, limit)];
      if OpListMessages in failing {
        r := Failure(BackendError(OpListMessages));
      } else {
        r := Success(Window(listed, limit));
      }
    }

    method ListModels() returns (ok: bool)
      modifies this
      ensures (ok, State()) == ListModelsStep(old(State()))
    {
      trace := trace + [Call.ListModels];
      ok := OpListModels !in failing;
    }

    method Sleep(seconds: real)
      modifies this
      ensures State() == SleepStep(old(State()), seconds)
    {
      trace := trace + [Call.Sleep(seconds)];
    }
  }
}
