/**
 * The run poller: check the run's status, return it on "completed", give
 * up on a failure status, otherwise sleep and count one attempt, until the
 * attempt budget is spent.
 *
 * `PollSpec` follows the loop one check at a time; `PollOutcome` says in
 * one step where the loop stops, from the first terminal report in the
 * script. `PollMatchesClosedForm` proves the two equal, and the exit
 * properties follow from it.
 */
module Poller {
  import opened Types
  import opened Backend

  /** n rounds of "check the status, then sleep". */
  function Cycles(threadId: string, runId: string, interval: real, n: nat): (c: seq<Call>)
    ensures |c| == 2 * n
    ensures forall i :: 0 <= i < |c| ==> c[i] == if i % 2 == 0 then RetrieveRun(threadId, runId) else Sleep(interval)
    decreases n
  {
    if n == 0 then []
    else [RetrieveRun(threadId, runId), Sleep(interval)] + Cycles(threadId, runId, interval, n - 1)
  }

  /** The polling loop from attempt number `attempts` on. */
  function PollSpec(s: BackendState, threadId: string, runId: string, attempts: int, maxAttempts: int, interval: real): (Result<Run>, BackendState)
    decreases maxAttempts - attempts
  {
    if attempts >= maxAttempts then (Failure(RunTimeout(runId)), s)
    else
      var (r, s1) := RetrieveRunStep(s, threadId, runId);
      if r.Failure? then (Failure(r.error), s1)
      else if r.value.status == Completed then (Success(r.value), s1)
      else if IsFailureStatus(r.value.status) then (Failure(RunFailed(r.value.status)), s1)
      else PollSpec(SleepStep(s1, interval), threadId, runId, attempts + 1, maxAttempts, interval)
  }

  /** The index of the first terminal report in the script, or its length when there is none. */
  function FirstStop(script: seq<Run>): (k: nat)
    ensures k <= |script|
    ensures forall j :: 0 <= j < k ==> IsNonTerminal(script[j].status)
    ensures k < |script| ==> !IsNonTerminal(script[k].status)
    decreases |script|
  {
    if |script| == 0 || !IsNonTerminal(script[0].status) then 0
    else 1 + FirstStop(script[1..])
  }

  /** What the poller answers on a terminal report. */
  function Exit(run: Run): Result<Run> {
    if run.status == Completed then Success(run) else Failure(RunFailed(run.status))
  }

  /** The poll with a budget of `budget` checks, in closed form. */
  function PollOutcome(s: BackendState, threadId: string, runId: string, budget: nat, interval: real): (Result<Run>, BackendState)
  {
    var check := RetrieveRun(threadId, runId);
    var k := FirstStop(s.runScript);
    if budget == 0 then
      (Failure(RunTimeout(runId)), s)
    else if OpRetrieveRun in s.failing then
      (Failure(BackendError(OpRetrieveRun)), Record(s, check))
    else if budget <= k then
      // every report within the budget keeps the loop going
      (Failure(RunTimeout(runId)),
       s.(runScript := s.runScript[budget..], trace := s.trace + Cycles(threadId, runId, interval, budget)))
    else if k < |s.runScript| then
      // the k-th report is terminal: no sleep after it
      (Exit(s.runScript[k]),
       s.(runScript := s.runScript[k + 1..], trace := s.trace + Cycles(threadId, runId, interval, k) + [check]))
    else
      // the script runs out first: the next check raises
      (Failure(BackendError(OpRetrieveRun)),
       s.(runScript := [], trace := s.trace + Cycles(threadId, runId, interval, k) + [check]))
  }

  function Budget(attempts: int, maxAttempts: int): nat {
    if maxAttempts - attempts > 0 then maxAttempts - attempts else 0
  }

  lemma {:induction false} PollMatchesClosedForm(s: BackendState, threadId: string, runId: string, attempts: int, maxAttempts: int, interval: real)
    ensures PollSpec(s, threadId, runId, attempts, maxAttempts, interval)
         == PollOutcome(s, threadId, runId, Budget(attempts, maxAttempts), interval)
    decreases maxAttempts - attempts
  {
    var check := RetrieveRun(threadId, runId);
    var m := Budget(attempts, maxAttempts);
    var script := s.runScript;
    if attempts >= maxAttempts || OpRetrieveRun in s.failing {
    } else if script == [] {
      assert Cycles(threadId, runId, interval, 0) == [];
      assert s.(runScript := [], trace := s.trace + [] + [check]) == Record(s, check);
    } else if !IsNonTerminal(script[0].status) {
      assert FirstStop(script) == 0;
      assert Cycles(threadId, runId, interval, 0) == [];
      assert s.trace + [] + [check] == s.trace + [check];
    } else {
      var s2 := s.(runScript := script[1..], trace := s.trace + [check, Sleep(interval)]);
      assert SleepStep(RetrieveRunStep(s, threadId, runId).1, interval) == s2;
      PollMatchesClosedForm(s2, threadId, runId, attempts + 1, maxAttempts, interval);
      var k := FirstStop(script);
      assert FirstStop(s2.runScript) == k - 1;
      assert Budget(attempts + 1, maxAttempts) == m - 1;
      forall n: nat | 1 <= n
        ensures s2.trace + Cycles(threadId, runId, interval, n - 1) == s.trace + Cycles(threadId, runId, interval, n)
      {
        assert [check, Sleep(interval)] + Cycles(threadId, runId, interval, n - 1) == Cycles(threadId, runId, interval, n);
      }
      if m - 1 == 0 {
        assert s2 == s.(runScript := script[m..], trace := s.trace + Cycles(threadId, runId, interval, m));
      } else if m <= k {
        assert s2.runScript[m - 1..] == script[m..];
      } else if k < |script| {
        assert s2.runScript[k..] == script[k + 1..];
        assert s2.runScript[k - 1] == script[k];
        assert s2.trace + Cycles(threadId, runId, interval, k - 1) + [check]
            == s.trace + Cycles(threadId, runId, interval, k) + [check];
      } else {
        assert s2.trace + Cycles(threadId, runId, interval, k - 1) + [check]
            == s.trace + Cycles(threadId, runId, interval, k) + [check];
      }
    }
  }

  /** The first terminal report is the one the script says. */
  lemma FirstStopAt(script: seq<Run>, k: nat)
    requires k < |script|
    requires forall j :: 0 <= j < k ==> IsNonTerminal(script[j].status)
    requires !IsNonTerminal(script[k].status)
    ensures FirstStop(script) == k
  {
  }

  /** Success exit: the run is returned on the first check that reports
      "completed", after one sleep per earlier check and none after it. */
  lemma PollReturnsOnCompleted(s: BackendState, threadId: string, runId: string, maxAttempts: int, interval: real, k: nat)
    requires OpRetrieveRun !in s.failing
    requires k < |s.runScript| && k < maxAttempts
    requires forall j :: 0 <= j < k ==> IsNonTerminal(s.runScript[j].status)
    requires s.runScript[k].status == Completed
    ensures PollSpec(s, threadId, runId, 0, maxAttempts, interval)
         == (Success(s.runScript[k]),
             s.(runScript := s.runScript[k + 1..],
                trace := s.trace + Cycles(threadId, runId, interval, k) + [RetrieveRun(threadId, runId)]))
  {
    FirstStopAt(s.runScript, k);
    PollMatchesClosedForm(s, threadId, runId, 0, maxAttempts, interval);
  }

  /** Failure exit: on the first check that reports a failure status the
      poller raises a failure naming that status, with no sleep after it. */
  lemma PollRaisesOnFailureStatus(s: BackendState, threadId: string, runId: string, maxAttempts: int, interval: real, k: nat)
    requires OpRetrieveRun !in s.failing
    requires k < |s.runScript| && k < maxAttempts
    requires forall j :: 0 <= j < k ==> IsNonTerminal(s.runScript[j].status)
    requires IsFailureStatus(s.runScript[k].status)
    ensures PollSpec(s, threadId, runId, 0, maxAttempts, interval)
         == (Failure(RunFailed(s.runScript[k].status)),
             s.(runScript := s.runScript[k + 1..],
                trace := s.trace + Cycles(threadId, runId, interval, k) + [RetrieveRun(threadId, runId)]))
  {
    FirstStopAt(s.runScript, k);
    PollMatchesClosedForm(s, threadId, runId, 0, maxAttempts, interval);
  }

  /** Timeout: when no report within the budget is terminal, the poller
      raises a timeout after exactly maxAttempts checks and maxAttempts
      sleeps; with a budget of zero or less it makes no check at all. */
  lemma PollTimesOut(s: BackendState, threadId: string, runId: string, maxAttempts: int, interval: real)
    requires OpRetrieveRun !in s.failing
    requires maxAttempts <= |s.runScript|
    requires forall j :: 0 <= j < maxAttempts ==> IsNonTerminal(s.runScript[j].status)
    ensures PollSpec(s, threadId, runId, 0, maxAttempts, interval)
         == (Failure(RunTimeout(runId)),
             s.(runScript := s.runScript[Budget(0, maxAttempts)..],
                trace := s.trace + Cycles(threadId, runId, interval, Budget(0, maxAttempts))))
  {
    PollMatchesClosedForm(s, threadId, runId, 0, maxAttempts, interval);
    if maxAttempts <= 0 {
      assert s.(runScript := s.runScript[0..], trace := s.trace + Cycles(threadId, runId, interval, 0)) == s;
    }
  }

  // ---------------------------------------------------------------------
  // Counting checks and sleeps in a trace

  function Count(calls: seq<Call>, p: Call -> bool): nat
    decreases |calls|
  {
    if |calls| == 0 then 0 else (if p(calls[0]) then 1 else 0) + Count(calls[1..], p)
  }

  predicate IsCheck(c: Call) { c.RetrieveRun? }
  predicate IsSleep(c: Call) { c.Sleep? }

  lemma {:induction false} CountAppend(a: seq<Call>, b: seq<Call>, p: Call -> bool)
    ensures Count(a + b, p) == Count(a, p) + Count(b, p)
    decreases |a|
  {
    if |a| == 0 {
      assert a + b == b;
    } else {
      assert (a + b)[1..] == a[1..] + b;
      CountAppend(a[1..], b, p);
    }
  }

  lemma {:induction false} CountCycles(threadId: string, runId: string, interval: real, n: nat)
    ensures Count(Cycles(threadId, runId, interval, n), IsCheck) == n
    ensures Count(Cycles(threadId, runId, interval, n), IsSleep) == n
    decreases n
  {
    if n > 0 {
      var pair := [RetrieveRun(threadId, runId), Sleep(interval)];
      var rest := Cycles(threadId, runId, interval, n - 1);
      CountCycles(threadId, runId, interval, n - 1);
      CountAppend(pair, rest, IsCheck);
      CountAppend(pair, rest, IsSleep);
      assert pair[1..][1..] == [];
    }
  }

  /** Whatever the backend reports, the poll only appends to the trace,
      makes at most maxAttempts status checks, sleeps once after every
      check but the last, and on a timeout has made exactly maxAttempts
      checks and as many sleeps. It returns only a "completed" run, names
      only a failure status, and changes nothing but the script and trace. */
  lemma PollAccounting(s: BackendState, threadId: string, runId: string, maxAttempts: int, interval: real)
    ensures var (r, s') := PollSpec(s, threadId, runId, 0, maxAttempts, interval);
            var n := Budget(0, maxAttempts);
            && |s.trace| <= |s'.trace| && s'.trace[..|s.trace|] == s.trace
            && var d := s'.trace[|s.trace|..];
               && Count(d, IsCheck) <= n
               && (r == Failure(RunTimeout(runId)) ==> Count(d, IsCheck) == n && Count(d, IsSleep) == n)
               && (r != Failure(RunTimeout(runId)) ==> Count(d, IsSleep) + 1 == Count(d, IsCheck))
               && (r.Success? ==> r.value.status == Completed)
               && (r.Failure? && r.error.RunFailed? ==> IsFailureStatus(r.error.status))
               && s'.(runScript := s.runScript, trace := s.trace) == s
  {
    PollMatchesClosedForm(s, threadId, runId, 0, maxAttempts, interval);
    var (r, s') := PollSpec(s, threadId, runId, 0, maxAttempts, interval);
    var k := FirstStop(s.runScript);
    var check := RetrieveRun(threadId, runId);
    var n := Budget(0, maxAttempts);
    var d := s'.trace[|s.trace|..];
    if n == 0 {
      assert d == [];
    } else if OpRetrieveRun in s.failing {
      assert d == [check];
    } else if n <= k {
      assert d == Cycles(threadId, runId, interval, n);
      CountCycles(threadId, runId, interval, n);
    } else {
      assert d == Cycles(threadId, runId, interval, k) + [check];
      CountCycles(threadId, runId, interval, k);
      CountAppend(Cycles(threadId, runId, interval, k), [check], IsCheck);
      CountAppend(Cycles(threadId, runId, interval, k), [check], IsSleep);
      if k < |s.runScript| {
        assert !IsNonTerminal(s.runScript[k].status);
      }
    }
  }
}
