/**
 * Concrete turns against small scripted backends, each proved from the
 * general lemmas.
 */
module Scenarios {
  import opened Types
  import opened Backend
  import opened Extractor
  import Lines
  import opened Poller
  import opened Service

  const RunId: string := "run_1"

  /** A configuration with an assistant, no vector store and a one-second interval. */
  function TestConfig(maxPollAttempts: int): Config {
    Config("sk-test", "asst_1", "", 3, 1.0, maxPollAttempts)
  }

  /** A backend that answers every call, reports `script` and lists `listed`. */
  function Scripted(script: seq<Run>, listed: seq<Message>): BackendState {
    BackendState([], RunId, script, listed, {}, [])
  }

  function Report(threadId: string, status: string, lastError: Option<string>): Run {
    Run(RunId, threadId, status, lastError, None)
  }

  function AssistantSays(texts: seq<string>): Message {
    Message("assistant", Blocks(seq(|texts|, i requires 0 <= i < |texts| => ContentBlock("text", texts[i]))))
  }

  /** A message with the text blocks "A" and "B" gives the reply "A\nB". */
  lemma TwoTextBlocksJoined()
    ensures LatestAssistantText([AssistantSays(["A", "B"])]) == Some("A\nB")
  {
    var m := AssistantSays(["A", "B"]);
    var blocks := m.content.blocks;
    assert blocks == [ContentBlock("text", "A")] + [ContentBlock("text", "B")];
    TextValuesAppend([ContentBlock("text", "A")], [ContentBlock("text", "B")]);
    TextValuesSingle(ContentBlock("text", "A"));
    TextValuesSingle(ContentBlock("text", "B"));
    assert TextValues(blocks) == ["A", "B"];
    assert ["A", "B"][1..] == ["B"];
    assert Lines.JoinLines(["A", "B"]) == "A\nB";
    assert ResponseText(m) == "A\nB";
  }

  /** A run completed at the first check whose one assistant message has the
      text blocks "A" and "B" yields the reply "A\nB". */
  lemma CompletedAtOnceJoinsBlocks(threadId: string, content: string)
    ensures ProcessTurnSpec(TestConfig(30), Scripted([Report(threadId, Completed, None)], [AssistantSays(["A", "B"])]),
                            threadId, content).0
         == Success(TurnResult(threadId, "A\nB", None))
  {
    var s := Scripted([Report(threadId, Completed, None)], [AssistantSays(["A", "B"])]);
    FirstStopAt(s.runScript, 0);
    TurnSucceeds(TestConfig(30), s, threadId, content);
    assert Window(s.listed, ResponseWindow) == s.listed;
    TwoTextBlocksJoined();
  }

  /** A run reported "queued", then "in_progress", then "completed", whose
      newest message is the assistant's "Hello", yields "Hello" on the same
      thread after three checks and two sleeps. */
  lemma QueuedInProgressCompleted(threadId: string, content: string)
    ensures var s := Scripted([Report(threadId, "queued", None), Report(threadId, "in_progress", None),
                               Report(threadId, Completed, None)], [AssistantSays(["Hello"])]);
            var (r, s') := ProcessTurnSpec(TestConfig(30), s, threadId, content);
            && r == Success(TurnResult(threadId, "Hello", None))
            && s'.trace == SuccessfulTurnCalls(TestConfig(30), s, threadId, content, 2)
  {
    var s := Scripted([Report(threadId, "queued", None), Report(threadId, "in_progress", None),
                       Report(threadId, Completed, None)], [AssistantSays(["Hello"])]);
    FirstStopAt(s.runScript, 2);
    TurnSucceeds(TestConfig(30), s, threadId, content);
    FirstEligibleIsChosen(s.listed, 0);
    TextValuesSingle(ContentBlock("text", "Hello"));
  }

  /** A run reported "failed" with a "rate_limited" error makes the turn
      raise a failure naming the status only, and the messages are never listed. */
  lemma FailedRunRaisesWithoutListing(threadId: string, content: string)
    ensures var s := Scripted([Report(threadId, "failed", Some("rate_limited"))], [AssistantSays(["late"])]);
            var (r, s') := ProcessTurnSpec(TestConfig(30), s, threadId, content);
            && r == Failure(RunFailed("failed"))
            && NoListing(s'.trace)
  {
    var s := Scripted([Report(threadId, "failed", Some("rate_limited"))], [AssistantSays(["late"])]);
    var cfg := TestConfig(30);
    TurnLaunches(cfg, s, threadId, content);
    PollRaisesOnFailureStatus(Launched(cfg, s, threadId, content), threadId, RunId, 30, 1.0, 0);
    TurnCallOrder(cfg, s, threadId, content);
  }

  /** With maxAttempts 3 and a run that stays "in_progress", the turn raises
      a timeout after three checks and three sleeps. */
  lemma StuckRunTimesOut(threadId: string, content: string)
    ensures var stuck := Report(threadId, "in_progress", None);
            var s := Scripted([stuck, stuck, stuck, stuck], []);
            var (r, s') := ProcessTurnSpec(TestConfig(3), s, threadId, content);
            && r == Failure(RunTimeout(RunId))
            && s'.trace == [CreateMessage(threadId, "user", content), CreateRun(threadId, "asst_1")]
                           + Cycles(threadId, RunId, 1.0, 3)
  {
    var stuck := Report(threadId, "in_progress", None);
    var s := Scripted([stuck, stuck, stuck, stuck], []);
    var cfg := TestConfig(3);
    TurnLaunches(cfg, s, threadId, content);
    PollTimesOut(Launched(cfg, s, threadId, content), threadId, RunId, 3, 1.0);
  }
}
