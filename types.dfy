/**
 * Values exchanged between the coaching chat client and the hosted
 * assistant backend: runs and their statuses, thread messages, the calls
 * the client makes, the errors it raises and its configuration.
 */
module Types {

  datatype Option<+T> = None | Some(value: T) {
    function GetOr(default: T): T {
      match this
      case Some(v) => v
      case None => default
    }
  }

  /** Either a value or the error the client raises instead of returning. */
  datatype Result<+T> = Success(value: T) | Failure(error: Error)

  // ---------------------------------------------------------------------
  // Runs

  /** The one status on which the poller returns the run. */
  const Completed: string := "completed"

  /** The statuses on which the poller gives up at once. */
  const FailureStatuses: seq<string> := ["failed", "cancelled", "expired", "requires_action"]

  predicate IsFailureStatus(status: string) {
    status in FailureStatuses
  }

  /** Every status other than the five terminal ones ("queued",
      "in_progress", or any value the backend may add) keeps the poller going. */
  predicate IsNonTerminal(status: string) {
    status != Completed && !IsFailureStatus(status)
  }

  /** Token accounting the backend may attach to a run; passed through untouched. */
  datatype Usage = Usage(promptTokens: nat, completionTokens: nat, totalTokens: nat)

  datatype Run = Run(id: string, threadId: string, status: string, lastError: Option<string>, usage: Option<Usage>)

  // ---------------------------------------------------------------------
  // Messages

  /** One block of a message's content; `text` is the block's text value
      and matters only when `kind` is "text". */
  datatype ContentBlock = ContentBlock(kind: string, text: string)

  /** A message's content: a list of blocks, or anything else (a missing
      value, or one that is not a list). */
  datatype Content = Blocks(blocks: seq<ContentBlock>) | Unstructured

  datatype Message = Message(role: string, content: Content)

  // ---------------------------------------------------------------------
  // Calls made to the outside world, in the order they are made

  /** The keyword arguments of a create-thread call: none, or tool resources
      naming the vector stores for file search. */
  datatype ThreadParams = NoParams | FileSearch(vectorStoreIds: seq<string>)

  /** The remote operations, as named in a backend error. */
  datatype Op = OpCreateThread | OpCreateMessage | OpCreateRun | OpRetrieveRun | OpListMessages | OpListModels

  datatype Call =
    | CreateThread(params: ThreadParams)
    | CreateMessage(threadId: string, role: string, content: string)
    | CreateRun(threadId: string, assistantId: string)
    | RetrieveRun(threadId: string, runId: string)
    | ListMessages(threadId: string, order: string, limit: nat)
    | ListModels
    | Sleep(seconds: real)

  // ---------------------------------------------------------------------
  // Errors

  datatype Error =
    | ValueError(message: string)   // a configuration guard refused the call
    | BackendError(op: Op)          // a remote call raised; re-raised unchanged
    | RunFailed(status: string)     // the run ended in one of FailureStatuses
    | RunTimeout(runId: string)     // the poller used up its attempts

  const ApiKeyNotConfigured: string := "OpenAI API key is not configured."
  const AssistantIdRequiredForRun: string := "Assistant ID is required to create a run."
  const AssistantIdRequired: string := "Assistant ID is required."

  /** The key value shipped in the example configuration, refused like an empty key. */
  const PlaceholderApiKey: string := "your_openai_api_key_here"

  /** The reply given when the run produced no readable assistant message. */
  const FallbackReply: string := "אני לא יכול לספק תשובה כרגע."

  /** The window of messages listed after a run, newest first. */
  const ResponseWindow: nat := 20

  // ---------------------------------------------------------------------
  // Configuration and results

  /** The service's configuration; maxRetries is stored but never read. */
  datatype Config = Config(
    apiKey: string,
    assistantId: string,
    vectorStoreId: string,
    maxRetries: int,
    pollInterval: real,
    maxPollAttempts: int)

  /** What one processed user turn returns to the page. */
  datatype TurnResult = TurnResult(threadId: string, text: string, usage: Option<Usage>)
}
