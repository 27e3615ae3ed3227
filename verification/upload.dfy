/** The upload poller of api.ts (`uploadFile`): one upload call, then the
    file's state is fetched, and fetched again every 2000 ms while it is
    `PROCESSING`, at most 60 times more. Progress and status are reported
    along the way, and the poller ends in exactly one of three ways: a
    timeout error, a failure error, or the last handle fetched.

    The file service is an oracle: `polls[j]` is the handle the `j`-th
    `files.get` call answers with (`polls[0]` is the first fetch, `polls[j]`
    for `j > 0` the fetch after the `j`-th re-poll wait). */
module Upload {
  import opened Wrappers
  import opened Types

  /** `maxRetries`: re-polls allowed after the first fetch. */
  const MaxRetries: nat := 60
  /** The delay before each re-poll, in milliseconds. */
  const PollInterval: int := 2000
  /** The ceiling of the progress reported while polling. */
  const PollingCeiling: int := 95

  const ProcessingState := "PROCESSING"
  const FailedState := "FAILED"

  const UploadingStatus := "Uploading file..."
  const ProcessingStatus := "Processing media..."
  const CompleteStatus := "Processing complete"
  const TimeoutMessage := "File processing timed out. Please try again."
  const FailedMessage := "File processing failed."

  /** What `uploadFile` does, in order: the two callbacks, the upload call,
      the state fetches and the timer between them. */
  datatype UploadEvent =
    | Status(message: string)
    | Progress(percent: int)
    | SendFile
    | FetchState
    | Sleep(ms: int)

  /** The events and the outcome: the handle returned, or the message of
      the `Error` thrown. */
  datatype UploadRun = UploadRun(trace: seq<UploadEvent>, result: Result<UploadedFile, string>)

  function Min(a: int, b: int): int {
    if a <= b then a else b
  }

  /** The file service answers every fetch the poller can make. */
  predicate Answers(polls: seq<UploadedFile>) {
    |polls| > MaxRetries
  }

  /** The `while` loop from the point where `retries` re-polls have been made
      and `progress` was the last value reported, followed by the checks
      after the loop. */
  function Poll(polls: seq<UploadedFile>, retries: nat, progress: int): (run: UploadRun)
    requires Answers(polls) && retries <= MaxRetries
    ensures run.result.Success? ==>
      exists j | retries <= j <= MaxRetries :: run.result.value == polls[j]
    ensures run.result.Success? ==>
      run.result.value.state != ProcessingState && run.result.value.state != FailedState
    ensures run.result.Failure? ==>
      run.result.error == TimeoutMessage || run.result.error == FailedMessage
    decreases MaxRetries - retries
  {
    var current := polls[retries];
    if current.state == ProcessingState then
      if retries >= MaxRetries then UploadRun([], Failure(TimeoutMessage))
      else
        var next := Min(progress + 5, PollingCeiling);
        var rest := Poll(polls, retries + 1, next);
        UploadRun([Progress(next), Sleep(PollInterval), FetchState] + rest.trace, rest.result)
    else if current.state == FailedState then UploadRun([Progress(0)], Failure(FailedMessage))
    else UploadRun([Progress(100), Status(CompleteStatus)], Success(current))
  }

  /** The events before the loop: status, 10 %, the upload, 50 %, status,
      first fetch. */
  function Opening(): seq<UploadEvent> {
    [Status(UploadingStatus), Progress(10), SendFile, Progress(50), Status(ProcessingStatus), FetchState]
  }

  /** `uploadFile(file, onProgress, onStatusChange)`. */
  function UploadFile(polls: seq<UploadedFile>): (run: UploadRun)
    requires Answers(polls)
    ensures |run.trace| >= |Opening()| && run.trace[..|Opening()|] == Opening()
    ensures run.result.Success? ==>
      exists j | 0 <= j <= MaxRetries :: run.result.value == polls[j]
    ensures run.result.Success? ==>
      run.result.value.state != ProcessingState && run.result.value.state != FailedState
    ensures run.result.Failure? ==>
      run.result.error == TimeoutMessage || run.result.error == FailedMessage
  {
    var rest := Poll(polls, 0, 50);
    UploadRun(Opening() + rest.trace, rest.result)
  }

  // ---------------------------------------------------------------------
  // Reference definitions
  // ---------------------------------------------------------------------

  /** The first fetch, from the `from`-th on and among the 61 the poller may
      make, whose state is not `PROCESSING`. */
  function SettledFrom(polls: seq<UploadedFile>, from: nat): (j: Option<nat>)
    requires Answers(polls)
    ensures j.Some? ==> from <= j.value <= MaxRetries && polls[j.value].state != ProcessingState
    ensures j.Some? ==> forall q | from <= q < j.value :: polls[q].state == ProcessingState
    ensures j.None? ==> forall q | from <= q <= MaxRetries :: polls[q].state == ProcessingState
    decreases MaxRetries + 1 - from
  {
    if from > MaxRetries then None
    else if polls[from].state != ProcessingState then Some(from)
    else SettledFrom(polls, from + 1)
  }

  /** How many re-polls are made from the `from`-th fetch on: up to the
      first settled fetch, or all that remain. */
  function RepollsFrom(polls: seq<UploadedFile>, from: nat): (n: nat)
    requires Answers(polls) && from <= MaxRetries
    ensures from <= n <= MaxRetries
  {
    match SettledFrom(polls, from)
    case Some(j) => j
    case None => MaxRetries
  }

  /** The outcome decided by the first settled fetch from the `from`-th on. */
  function OutcomeFrom(polls: seq<UploadedFile>, from: nat): Result<UploadedFile, string>
    requires Answers(polls)
  {
    match SettledFrom(polls, from)
    case None => Failure(TimeoutMessage)
    case Some(j) =>
      if polls[j].state == FailedState then Failure(FailedMessage) else Success(polls[j])
  }

  /** The number of re-polls of a whole upload. */
  function Repolls(polls: seq<UploadedFile>): nat
    requires Answers(polls)
  {
    RepollsFrom(polls, 0)
  }

  /** The outcome of a whole upload. */
  function Outcome(polls: seq<UploadedFile>): Result<UploadedFile, string>
    requires Answers(polls)
  {
    OutcomeFrom(polls, 0)
  }

  /** The progress reported before re-poll `j` (counting from 0). */
  function RampValue(j: int): int {
    Min(55 + 5 * j, PollingCeiling)
  }

  /** One round of the loop: report, wait, fetch. */
  function Step(j: nat): seq<UploadEvent> {
    [Progress(RampValue(j)), Sleep(PollInterval), FetchState]
  }

  /** The rounds `lo` up to `hi` (exclusive). */
  function Steps(lo: nat, hi: nat): seq<UploadEvent>
    requires lo <= hi
    decreases hi - lo
  {
    if lo == hi then [] else Step(lo) + Steps(lo + 1, hi)
  }

  /** The events after the loop for each outcome. */
  function Ending(result: Result<UploadedFile, string>): seq<UploadEvent> {
    match result
    case Success(_) => [Progress(100), Status(CompleteStatus)]
    case Failure(e) => if e == FailedMessage then [Progress(0)] else []
  }

  // ---------------------------------------------------------------------
  // The closed form
  // ---------------------------------------------------------------------

  lemma RampStep(r: nat)
    ensures Min(Min(50 + 5 * r, PollingCeiling) + 5, PollingCeiling) == Min(50 + 5 * (r + 1), PollingCeiling)
    ensures RampValue(r) == Min(50 + 5 * (r + 1), PollingCeiling)
  {
  }

  /** The loop entered with `r` re-polls made (and so with progress
      `min(50 + 5r, 95)`) runs the rounds `r` up to the re-poll count, then
      the ending of the outcome the first settled fetch decides. */
  lemma {:induction false} PollClosedForm(polls: seq<UploadedFile>, r: nat, progress: int)
    requires Answers(polls) && r <= MaxRetries && progress == Min(50 + 5 * r, PollingCeiling)
    ensures Poll(polls, r, progress).result == OutcomeFrom(polls, r)
    ensures Poll(polls, r, progress).trace == Steps(r, RepollsFrom(polls, r)) + Ending(OutcomeFrom(polls, r))
    decreases MaxRetries - r
  {
    MessagesDiffer();
    if polls[r].state == ProcessingState && r < MaxRetries {
      var next := Min(progress + 5, PollingCeiling);
      RampStep(r);
      PollClosedForm(polls, r + 1, next);
      var rest := Poll(polls, r + 1, next);
      assert SettledFrom(polls, r) == SettledFrom(polls, r + 1);
      assert OutcomeFrom(polls, r) == OutcomeFrom(polls, r + 1);
      assert RepollsFrom(polls, r) == RepollsFrom(polls, r + 1);
      assert Poll(polls, r, progress) == UploadRun(Step(r) + rest.trace, rest.result);
      assert Steps(r, RepollsFrom(polls, r)) == Step(r) + Steps(r + 1, RepollsFrom(polls, r + 1));
    } else if polls[r].state == ProcessingState {
      assert SettledFrom(polls, r) == None;
      assert OutcomeFrom(polls, r) == Failure(TimeoutMessage);
      assert RepollsFrom(polls, r) == r;
      assert Poll(polls, r, progress) == UploadRun([], Failure(TimeoutMessage));
    } else {
      assert SettledFrom(polls, r) == Some(r);
      assert RepollsFrom(polls, r) == r;
      if polls[r].state == FailedState {
        assert OutcomeFrom(polls, r) == Failure(FailedMessage);
        assert Poll(polls, r, progress) == UploadRun([Progress(0)], Failure(FailedMessage));
      } else {
        assert OutcomeFrom(polls, r) == Success(polls[r]);
        assert Poll(polls, r, progress) == UploadRun([Progress(100), Status(CompleteStatus)], Success(polls[r]));
      }
    }
  }

  /** The two failure messages and the two states differ. */
  lemma MessagesDiffer()
    ensures TimeoutMessage != FailedMessage && ProcessingState != FailedState
  {
    assert TimeoutMessage[16] != FailedMessage[16];
    assert |ProcessingState| != |FailedState|;
  }

  /** The whole upload: the opening, one round per re-poll, the ending of
      the outcome. */
  lemma UploadClosedForm(polls: seq<UploadedFile>)
    requires Answers(polls)
    ensures UploadFile(polls).result == Outcome(polls)
    ensures UploadFile(polls).trace == Shape(Repolls(polls), Outcome(polls))
  {
    var rest := Poll(polls, 0, 50);
    UploadStartsPolling(polls);
    PollFromStart(polls);
    var o, st, e := Opening(), Steps(0, Repolls(polls)), Ending(Outcome(polls));
    assert o + (st + e) == (o + st) + e;
  }

  lemma UploadStartsPolling(polls: seq<UploadedFile>)
    requires Answers(polls)
    ensures UploadFile(polls).result == Poll(polls, 0, 50).result
    ensures UploadFile(polls).trace == Opening() + Poll(polls, 0, 50).trace
  {
  }

  lemma PollFromStart(polls: seq<UploadedFile>)
    requires Answers(polls)
    ensures Poll(polls, 0, 50).result == Outcome(polls)
    ensures Poll(polls, 0, 50).trace == Steps(0, Repolls(polls)) + Ending(Outcome(polls))
  {
    PollClosedForm(polls, 0, 50);
  }

  // ---------------------------------------------------------------------
  // Projections of a trace
  // ---------------------------------------------------------------------

  /** The values passed to `onProgress`, in order. */
  function ProgressReports(t: seq<UploadEvent>): (r: seq<int>)
    ensures |r| <= |t|
  {
    if t == [] then [] else (if t[0].Progress? then [t[0].percent] else []) + ProgressReports(t[1..])
  }

  /** The values passed to `onStatusChange`, in order. */
  function StatusReports(t: seq<UploadEvent>): (r: seq<string>)
    ensures |r| <= |t|
  {
    if t == [] then [] else (if t[0].Status? then [t[0].message] else []) + StatusReports(t[1..])
  }

  /** The number of `files.get` calls. */
  function FetchCount(t: seq<UploadEvent>): (n: nat)
    ensures n <= |t|
  {
    if t == [] then 0 else (if t[0] == FetchState then 1 else 0) + FetchCount(t[1..])
  }

  /** The number of timers awaited. */
  function SleepCount(t: seq<UploadEvent>): (n: nat)
    ensures n <= |t|
  {
    if t == [] then 0 else (if t[0].Sleep? then 1 else 0) + SleepCount(t[1..])
  }

  /** Each projection of a concatenation is the projections of its parts,
      concatenated or summed. */
  lemma ProjectionsConcat(a: seq<UploadEvent>, b: seq<UploadEvent>)
    ensures ProgressReports(a + b) == ProgressReports(a) + ProgressReports(b)
    ensures StatusReports(a + b) == StatusReports(a) + StatusReports(b)
    ensures FetchCount(a + b) == FetchCount(a) + FetchCount(b)
    ensures SleepCount(a + b) == SleepCount(a) + SleepCount(b)
  {
    ProgressConcat(a, b);
    StatusConcat(a, b);
    CountsConcat(a, b);
  }

  lemma {:induction false} ProgressConcat(a: seq<UploadEvent>, b: seq<UploadEvent>)
    ensures ProgressReports(a + b) == ProgressReports(a) + ProgressReports(b)
    decreases |a|
  {
    if a == [] {
      assert a + b == b;
    } else {
      var h := if a[0].Progress? then [a[0].percent] else [];
      assert (a + b)[0] == a[0];
      assert (a + b)[1..] == a[1..] + b;
      assert ProgressReports(a + b) == h + ProgressReports(a[1..] + b);
      ProgressConcat(a[1..], b);
      assert ProgressReports(a) == h + ProgressReports(a[1..]);
    }
  }

  lemma {:induction false} StatusConcat(a: seq<UploadEvent>, b: seq<UploadEvent>)
    ensures StatusReports(a + b) == StatusReports(a) + StatusReports(b)
    decreases |a|
  {
    if a == [] {
      assert a + b == b;
    } else {
      var h := if a[0].Status? then [a[0].message] else [];
      assert (a + b)[0] == a[0];
      assert (a + b)[1..] == a[1..] + b;
      assert StatusReports(a + b) == h + StatusReports(a[1..] + b);
      StatusConcat(a[1..], b);
      assert StatusReports(a) == h + StatusReports(a[1..]);
    }
  }

  lemma {:induction false} CountsConcat(a: seq<UploadEvent>, b: seq<UploadEvent>)
    ensures FetchCount(a + b) == FetchCount(a) + FetchCount(b)
    ensures SleepCount(a + b) == SleepCount(a) + SleepCount(b)
    decreases |a|
  {
    if a == [] {
      assert a + b == b;
    } else {
      assert (a + b)[0] == a[0];
      assert (a + b)[1..] == a[1..] + b;
      CountsConcat(a[1..], b);
    }
  }

  /** The progress values of rounds `lo` up to `hi`. */
  function Ramp(lo: nat, hi: nat): (r: seq<int>)
    requires lo <= hi
    ensures |r| == hi - lo
    ensures forall k | 0 <= k < |r| :: r[k] == RampValue(lo + k)
  {
    seq(hi - lo, k => RampValue(lo + k))
  }

  lemma StepProjections(j: nat)
    ensures ProgressReports(Step(j)) == [RampValue(j)]
    ensures StatusReports(Step(j)) == []
    ensures FetchCount(Step(j)) == 1 && SleepCount(Step(j)) == 1
  {
    var a, b, c := Progress(RampValue(j)), Sleep(PollInterval), FetchState;
    assert Step(j) == [a] + ([b] + [c]);
    ProjectionsConcat([a], [b] + [c]);
    ProjectionsConcat([b], [c]);
    OneEvent(a);
    OneEvent(b);
    OneEvent(c);
  }

  lemma OneEvent(e: UploadEvent)
    ensures ProgressReports([e]) == (if e.Progress? then [e.percent] else [])
    ensures StatusReports([e]) == (if e.Status? then [e.message] else [])
    ensures FetchCount([e]) == (if e == FetchState then 1 else 0)
    ensures SleepCount([e]) == (if e.Sleep? then 1 else 0)
  {
    assert [e][1..] == [];
  }

  lemma OpeningProjections()
    ensures ProgressReports(Opening()) == [10, 50]
    ensures StatusReports(Opening()) == [UploadingStatus, ProcessingStatus]
    ensures FetchCount(Opening()) == 1 && SleepCount(Opening()) == 0
  {
    var o := Opening();
    assert o[1..] == [Progress(10), SendFile, Progress(50), Status(ProcessingStatus), FetchState];
    assert o[1..][1..] == [SendFile, Progress(50), Status(ProcessingStatus), FetchState];
    assert o[1..][1..][1..] == [Progress(50), Status(ProcessingStatus), FetchState];
    assert o[1..][1..][1..][1..] == [Status(ProcessingStatus), FetchState];
    assert o[1..][1..][1..][1..][1..] == [FetchState];
    assert o[1..][1..][1..][1..][1..][1..] == [];
  }

  lemma EndingProjections(result: Result<UploadedFile, string>)
    ensures StatusReports(Ending(result)) == (if result.Success? then [CompleteStatus] else [])
    ensures FetchCount(Ending(result)) == 0 && SleepCount(Ending(result)) == 0
    ensures forall q | 0 <= q < |Ending(result)| :: !Ending(result)[q].Sleep?
  {
    var e := Ending(result);
    if result.Success? {
      assert e[1..] == [Status(CompleteStatus)];
      assert e[1..][1..] == [];
    } else if e != [] {
      assert e[1..] == [];
    }
  }

  /** What the rounds `lo` up to `hi` report and how many fetches and
      timers they contain. */
  lemma {:induction false} StepsProjections(lo: nat, hi: nat)
    requires lo <= hi
    ensures ProgressReports(Steps(lo, hi)) == Ramp(lo, hi)
    ensures StatusReports(Steps(lo, hi)) == []
    ensures FetchCount(Steps(lo, hi)) == hi - lo
    ensures SleepCount(Steps(lo, hi)) == hi - lo
    decreases hi - lo
  {
    if lo < hi {
      StepsProjections(lo + 1, hi);
      ProjectionsConcat(Step(lo), Steps(lo + 1, hi));
      StepProjections(lo);
      assert Ramp(lo, hi) == [RampValue(lo)] + Ramp(lo + 1, hi);
    }
  }

  /** Every timer lasts 2000 ms and is followed at once by a fetch. */
  predicate SleepsThenFetch(t: seq<UploadEvent>) {
    forall q | 0 <= q < |t| && t[q].Sleep? :: t[q].ms == PollInterval && q + 1 < |t| && t[q + 1] == FetchState
  }

  lemma SleepsThenFetchConcat(a: seq<UploadEvent>, b: seq<UploadEvent>)
    requires SleepsThenFetch(a) && SleepsThenFetch(b)
    ensures SleepsThenFetch(a + b)
  {
    var t := a + b;
    forall q | 0 <= q < |t| && t[q].Sleep?
      ensures t[q].ms == PollInterval && q + 1 < |t| && t[q + 1] == FetchState
    {
      if q < |a| {
        assert t[q] == a[q] && t[q + 1] == a[q + 1];
      } else {
        assert t[q] == b[q - |a|] && t[q + 1] == b[q + 1 - |a|];
      }
    }
  }

  lemma {:induction false} StepsSleepThenFetch(lo: nat, hi: nat)
    requires lo <= hi
    ensures SleepsThenFetch(Steps(lo, hi))
    decreases hi - lo
  {
    if lo < hi {
      StepsSleepThenFetch(lo + 1, hi);
      assert SleepsThenFetch(Step(lo));
      SleepsThenFetchConcat(Step(lo), Steps(lo + 1, hi));
    }
  }

  // ---------------------------------------------------------------------
  // Properties of the closed form
  // ---------------------------------------------------------------------

  /** The ending's progress report for each outcome. */
  function EndingProgress(result: Result<UploadedFile, string>): seq<int> {
    match result
    case Success(_) => [100]
    case Failure(e) => if e == FailedMessage then [0] else []
  }

  /** The trace of an upload with `n` re-polls and the given outcome. */
  function Shape(n: nat, result: Result<UploadedFile, string>): seq<UploadEvent> {
    Opening() + Steps(0, n) + Ending(result)
  }

  lemma EndingProgressReports(result: Result<UploadedFile, string>)
    ensures ProgressReports(Ending(result)) == EndingProgress(result)
  {
    var e := Ending(result);
    if result.Success? {
      assert e == [Progress(100)] + [Status(CompleteStatus)];
      ProjectionsConcat([Progress(100)], [Status(CompleteStatus)]);
      OneEvent(Progress(100));
      OneEvent(Status(CompleteStatus));
    } else if e != [] {
      OneEvent(Progress(0));
    }
  }

  lemma {:induction false} ShapeProjections(n: nat, result: Result<UploadedFile, string>)
    ensures ProgressReports(Shape(n, result)) == [10, 50] + Ramp(0, n) + EndingProgress(result)
    ensures StatusReports(Shape(n, result))
      == [UploadingStatus, ProcessingStatus] + (if result.Success? then [CompleteStatus] else [])
    ensures FetchCount(Shape(n, result)) == n + 1
    ensures SleepCount(Shape(n, result)) == n
  {
    var o := Opening();
    var st := Steps(0, n);
    var e := Ending(result);
    assert Shape(n, result) == (o + st) + e;
    ProjectionsConcat(o, st);
    StepsProjections(0, n);
    OpeningProjections();
    assert ProgressReports(o + st) == [10, 50] + Ramp(0, n);
    assert StatusReports(o + st) == [UploadingStatus, ProcessingStatus];
    ProjectionsConcat(o + st, e);
    EndingProjections(result);
    EndingProgressReports(result);
  }

  lemma ShapeSleeps(n: nat, result: Result<UploadedFile, string>)
    ensures SleepsThenFetch(Shape(n, result))
  {
    var o := Opening();
    var st := Steps(0, n);
    var e := Ending(result);
    StepsSleepThenFetch(0, n);
    EndingProjections(result);
    assert SleepsThenFetch(o);
    SleepsThenFetchConcat(o, st);
    SleepsThenFetchConcat(o + st, e);
  }

  /** A sequence that never decreases. */
  predicate NonDecreasing(s: seq<int>) {
    forall a, b | 0 <= a < b < |s| :: s[a] <= s[b]
  }

  /** The reports before the ending lie in [10, 95], never decrease, and
      stay so with 100 appended. */
  lemma RampBounds(n: nat)
    ensures forall k | 0 <= k < n :: 55 <= Ramp(0, n)[k] <= PollingCeiling
    ensures forall k | 0 <= k < |[10, 50] + Ramp(0, n)| :: 10 <= ([10, 50] + Ramp(0, n))[k] <= PollingCeiling
    ensures NonDecreasing([10, 50] + Ramp(0, n))
    ensures NonDecreasing([10, 50] + Ramp(0, n) + [100])
  {
    var r := Ramp(0, n);
    var s := [10, 50] + r;
    forall k | 0 <= k < |s|
      ensures 10 <= s[k] <= PollingCeiling
    {
      if k >= 2 {
        assert s[k] == r[k - 2];
      }
    }
    forall a, b | 0 <= a < b < |s|
      ensures s[a] <= s[b]
    {
      if a >= 2 {
        assert s[a] == r[a - 2] && s[b] == r[b - 2];
      } else if b >= 2 {
        assert s[b] == r[b - 2];
      }
    }
    var full := s + [100];
    forall a, b | 0 <= a < b < |full|
      ensures full[a] <= full[b]
    {
      if b < |s| {
        assert full[a] == s[a] && full[b] == s[b];
      } else {
        assert full[a] == s[a];
      }
    }
  }

  // ---------------------------------------------------------------------
  // Properties of the upload
  // ---------------------------------------------------------------------

  /** Progress is reported as 10, then 50, then once per re-poll the ramp
      min(55 + 5j, 95), then 100 on success, 0 on failure, and nothing more
      on timeout. */
  lemma ProgressTrace(polls: seq<UploadedFile>)
    requires Answers(polls)
    ensures ProgressReports(UploadFile(polls).trace)
      == [10, 50] + Ramp(0, Repolls(polls)) + EndingProgress(UploadFile(polls).result)
  {
    UploadClosedForm(polls);
    ShapeProjections(Repolls(polls), Outcome(polls));
  }

  /** The state is fetched once, plus once per re-poll, so at most 61
      times, with one timer per re-poll. */
  lemma FetchesAndSleeps(polls: seq<UploadedFile>)
    requires Answers(polls)
    ensures FetchCount(UploadFile(polls).trace) == Repolls(polls) + 1 <= MaxRetries + 1
    ensures SleepCount(UploadFile(polls).trace) == Repolls(polls)
  {
    UploadClosedForm(polls);
    ShapeProjections(Repolls(polls), Outcome(polls));
  }

  /** Each of those timers lasts 2000 ms and is followed at once by a
      fetch. */
  lemma SleepsPrecedeFetches(polls: seq<UploadedFile>)
    requires Answers(polls)
    ensures SleepsThenFetch(UploadFile(polls).trace)
  {
    UploadClosedForm(polls);
    ShapeSleeps(Repolls(polls), Outcome(polls));
  }

  /** The reports before the ending never decrease and every polling value
      lies in [55, 95]; on success the whole sequence is non-decreasing, and
      on failure the final 0 is the only drop. */
  lemma ProgressMonotone(polls: seq<UploadedFile>)
    requires Answers(polls)
    ensures forall k | 0 <= k < Repolls(polls) :: 55 <= Ramp(0, Repolls(polls))[k] <= PollingCeiling
    ensures NonDecreasing([10, 50] + Ramp(0, Repolls(polls)))
    ensures UploadFile(polls).result.Success? ==> NonDecreasing(ProgressReports(UploadFile(polls).trace))
    ensures UploadFile(polls).result == Failure(FailedMessage) ==>
      ProgressReports(UploadFile(polls).trace) == [10, 50] + Ramp(0, Repolls(polls)) + [0]
  {
    ProgressTrace(polls);
    RampBounds(Repolls(polls));
  }

  /** A timeout reports neither 100 nor 0. */
  lemma TimeoutReportsNoEnd(polls: seq<UploadedFile>)
    requires Answers(polls)
    requires UploadFile(polls).result == Failure(TimeoutMessage)
    ensures 100 !in ProgressReports(UploadFile(polls).trace)
    ensures 0 !in ProgressReports(UploadFile(polls).trace)
  {
    ProgressTrace(polls);
    RampBounds(Repolls(polls));
  }

  /** The upload times out exactly when none of the 61 fetches settles. */
  lemma TimeoutIff(polls: seq<UploadedFile>)
    requires Answers(polls)
    ensures UploadFile(polls).result == Failure(TimeoutMessage) <==>
      forall q | 0 <= q <= MaxRetries :: polls[q].state == ProcessingState
  {
    UploadClosedForm(polls);
  }

  /** The upload fails exactly when the first settled fetch is `FAILED`. */
  lemma FailedIff(polls: seq<UploadedFile>)
    requires Answers(polls)
    ensures UploadFile(polls).result == Failure(FailedMessage) <==>
      exists j | 0 <= j <= MaxRetries ::
        && polls[j].state == FailedState
        && forall q | 0 <= q < j :: polls[q].state == ProcessingState
  {
    UploadClosedForm(polls);
    if j :| (0 <= j <= MaxRetries && polls[j].state == FailedState &&
             forall q | 0 <= q < j :: polls[q].state == ProcessingState) {
      SettledAt(polls, j);
    }
  }

  /** The upload succeeds exactly when the first settled fetch has any
      state other than `FAILED` (not only `ACTIVE`), and returns that
      handle. */
  lemma SuccessIff(polls: seq<UploadedFile>)
    requires Answers(polls)
    ensures UploadFile(polls).result.Success? <==>
      exists j | 0 <= j <= MaxRetries ::
        && polls[j].state != ProcessingState && polls[j].state != FailedState
        && (forall q | 0 <= q < j :: polls[q].state == ProcessingState)
    ensures UploadFile(polls).result.Success? ==>
      forall j | 0 <= j <= MaxRetries && polls[j].state != ProcessingState
          && (forall q | 0 <= q < j :: polls[q].state == ProcessingState) ::
        UploadFile(polls).result.value == polls[j]
  {
    UploadClosedForm(polls);
    forall j | 0 <= j <= MaxRetries && polls[j].state != ProcessingState
        && (forall q | 0 <= q < j :: polls[q].state == ProcessingState)
      ensures SettledFrom(polls, 0) == Some(j)
    {
      SettledAt(polls, j);
    }
  }

  /** A fetch that settles after only `PROCESSING` states is the first
      settled one. */
  lemma SettledAt(polls: seq<UploadedFile>, i: nat)
    requires Answers(polls) && i <= MaxRetries
    requires polls[i].state != ProcessingState
    requires forall q | 0 <= q < i :: polls[q].state == ProcessingState
    ensures SettledFrom(polls, 0) == Some(i)
  {
  }

  /** The statuses are 'Uploading file...', 'Processing media...' and, only
      on success, 'Processing complete'. */
  lemma StatusOrder(polls: seq<UploadedFile>)
    requires Answers(polls)
    ensures StatusReports(UploadFile(polls).trace)
      == [UploadingStatus, ProcessingStatus] + (if UploadFile(polls).result.Success? then [CompleteStatus] else [])
  {
    UploadClosedForm(polls);
    ShapeProjections(Repolls(polls), Outcome(polls));
  }
}
