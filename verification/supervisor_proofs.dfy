/** What `onModeSelect` and `handleCancel` guarantee: the guard on a missing
    file, the retry schedule and its backoff delays, early stopping, the
    supersession guarantee, and the outcome of a request that stays current. */
module SupervisorProofs {
  import opened Wrappers
  import opened Types
  import opened Context
  import opened Effects
  import opened Supervisor
  import Sanitize

  /** The longest possible schedule of suspensions: call 0, wait 0, call 1,
      wait 1, call 2. */
  function Schedule(p: PromptArg, env: Env): (sch: seq<Effect>)
    requires ValidEnv(env)
    ensures |sch| == 2 * MaxAttempts - 1
    ensures forall q | 0 <= q < |sch| :: sch[q].Generate? <==> q % 2 == 0
    ensures forall q | 0 <= q < |sch| && sch[q].Generate? :: sch[q] == Generate(q / 2, p)
    ensures forall q | 0 <= q < |sch| && sch[q].Wait? ::
      && sch[q].attempt == q / 2 < MaxAttempts - 1
      && (BaseDelay * Pow2(q / 2)) as real <= sch[q].delay < (BaseDelay * Pow2(q / 2)) as real + JitterBound
  {
    [ Generate(0, p), Wait(0, Delay(0, env.jitter[0])),
      Generate(1, p), Wait(1, Delay(1, env.jitter[1])),
      Generate(2, p) ]
  }

  /** A reply ends the loop: it rejected, or it carries a stop signal. */
  predicate Settles(reply: Reply) {
    reply.Threw? || StopsRetrying(reply.response)
  }

  /** The attempt whose reply decides the request: the first that settles,
      else the last one. */
  function FirstSettled(env: Env): (s: nat)
    requires ValidEnv(env)
    ensures s < MaxAttempts
    ensures forall j | 0 <= j < s :: !Settles(env.replies[j])
    ensures s < MaxAttempts - 1 ==> Settles(env.replies[s])
  {
    if Settles(env.replies[0]) then 0
    else if Settles(env.replies[1]) then 1
    else 2
  }

  /** How many suspensions the request goes through: every call up to the
      deciding one with the wait after each unsettled call, cut short when
      the token is replaced (a wait already scheduled still elapses). */
  function SuspensionCount(env: Env): (n: nat)
    requires ValidEnv(env)
    ensures n <= 2 * MaxAttempts - 1
  {
    var full := 2 * FirstSettled(env) + 1;
    match env.replacedDuring
    case None => full
    case Some(k) => if k / 2 < FirstSettled(env) then 2 * (k / 2) + 2 else full
  }

  /** The suspensions of a trace, in order. */
  function Awaits(t: seq<Effect>): (r: seq<Effect>)
    ensures |r| <= |t|
    decreases |t|
  {
    if t == [] then [] else (if IsAwait(t[0]) then [t[0]] else []) + Awaits(t[1..])
  }

  predicate NoAwaits(t: seq<Effect>) {
    forall q | 0 <= q < |t| :: !IsAwait(t[q])
  }

  lemma {:induction false} AwaitsConcat(a: seq<Effect>, b: seq<Effect>)
    ensures Awaits(a + b) == Awaits(a) + Awaits(b)
    decreases |a|
  {
    if a == [] {
      assert a + b == b;
    } else {
      var h := if IsAwait(a[0]) then [a[0]] else [];
      assert (a + b)[0] == a[0];
      assert (a + b)[1..] == a[1..] + b;
      assert Awaits(a + b) == h + Awaits(a[1..] + b);
      AwaitsConcat(a[1..], b);
      assert Awaits(a) == h + Awaits(a[1..]);
    }
  }

  lemma {:induction false} NoAwaitsFacts(t: seq<Effect>)
    requires NoAwaits(t)
    ensures Awaits(t) == [] && AwaitCount(t) == 0
    decreases |t|
  {
    if t != [] {
      NoAwaitsFacts(t[1..]);
    }
  }

  /** A trace without suspensions is quiet for any limit. */
  lemma NoAwaitsIsQuiet(t: seq<Effect>, k: nat)
    requires NoAwaits(t)
    ensures Quiet(t, k)
  {
    forall p | 0 <= p < |t|
      ensures AwaitCount(t[..p]) == 0
    {
      NoAwaitsFacts(t[..p]);
    }
  }

  lemma SettleHasNoAwaits(env: Env, n: nat, w: seq<Effect>)
    requires NoAwaits(w)
    ensures NoAwaits(Settle(env, n, w))
  {
  }

  lemma AppliedWritesHaveNoAwaits(a: Applied)
    ensures NoAwaits(AppliedWrites(a))
  {
  }

  /** The suspension count when attempt `i` runs and settles the request. */
  lemma SettlingAttemptCount(env: Env, i: nat)
    requires ValidEnv(env) && i < MaxAttempts && !Stale(env, 2 * i)
    requires forall j | 0 <= j < i :: !Settles(env.replies[j])
    requires Settles(env.replies[i]) || i == MaxAttempts - 1
    ensures SuspensionCount(env) == 2 * i + 1
  {
  }

  /** The suspension count when attempt `i` runs and does not settle. */
  lemma UnsettledAttemptCount(env: Env, i: nat)
    requires ValidEnv(env) && i < MaxAttempts - 1 && !Stale(env, 2 * i)
    requires forall j | 0 <= j <= i :: !Settles(env.replies[j])
    ensures SuspensionCount(env) >= 2 * i + 2
  {
  }

  /** A call followed by a suspension-free ending suspends once. */
  lemma CallThenSettle(g: Effect, x: seq<Effect>)
    requires g.Generate? && NoAwaits(x)
    ensures Awaits([g] + x) == [g]
  {
    NoAwaitsFacts(x);
    AwaitsConcat([g], x);
    assert Awaits([g]) == [g] + Awaits([]);
  }

  /** A loop entered after the token was replaced only scrolls. */
  lemma StaleRunAwaits(p: PromptArg, i: nat, env: Env)
    requires ValidEnv(env) && i < MaxAttempts && Stale(env, 2 * i)
    requires forall j | 0 <= j < i :: !Settles(env.replies[j])
    ensures Awaits(Run(p, i, env)) == [] && SuspensionCount(env) <= 2 * i
  {
    assert Run(p, i, env) == [ScrollToTop];
    assert Awaits([ScrollToTop]) == Awaits([]);
  }

  /** An attempt that settles the request is its last suspension. */
  lemma SettlingRunAwaits(p: PromptArg, i: nat, env: Env)
    requires ValidEnv(env) && i < MaxAttempts && !Stale(env, 2 * i)
    requires forall j | 0 <= j < i :: !Settles(env.replies[j])
    requires Settles(env.replies[i]) || i == MaxAttempts - 1
    ensures Awaits(Run(p, i, env)) == [Generate(i, p)]
  {
    var g := Generate(i, p);
    var reply := env.replies[i];
    var w := if reply.Threw? then [SetApiError(Some(ErrorText(reply.thrown)))] else AppliedWrites(Classify(reply.response));
    if reply.Returned? {
      AppliedWritesHaveNoAwaits(Classify(reply.response));
    }
    var x := Settle(env, 2 * i + 1, w);
    assert Run(p, i, env) == [g] + x;
    CallThenSettle(g, x);
  }

  /** The retry loop from attempt `i` makes that attempt first, with the
      request's prompt, unless the token was already replaced; in that case
      it only scrolls. */
  lemma RunStartsWithCall(p: PromptArg, i: nat, env: Env)
    requires ValidEnv(env) && i < MaxAttempts
    ensures Stale(env, 2 * i) <==> Run(p, i, env) == [ScrollToTop]
    ensures !Stale(env, 2 * i) ==> |Run(p, i, env)| > 0 && Run(p, i, env)[0] == Generate(i, p)
  {
    if !Stale(env, 2 * i) {
      var x := RunTail(p, i, env);
      assert Run(p, i, env)[0] == Generate(i, p);
    }
  }

  /** The trace's last effect is the scroll to the top. */
  predicate EndsWithScroll(t: seq<Effect>) {
    |t| > 0 && t[|t| - 1] == ScrollToTop
  }

  /** However the retry loop ends (a settled reply, a thrown error, the last
      attempt, or a replaced token), its last effect is the `finally`
      block's scroll. */
  lemma {:induction false} RunEndsWithScroll(p: PromptArg, i: nat, env: Env)
    requires ValidEnv(env) && i < MaxAttempts
    ensures EndsWithScroll(Run(p, i, env))
    decreases MaxAttempts - i
  {
    if Stale(env, 2 * i) {
      StaleRunEnds(p, i, env);
    } else if Settles(env.replies[i]) || i == MaxAttempts - 1 {
      SettlingRunEnds(p, i, env);
    } else {
      RunEndsWithScroll(p, i + 1, env);
      UnsettledRunEnds(p, i, env);
    }
  }

  /** A request with a file, whether its prompt resolves or not, ends with
      the `finally` block's scroll. */
  lemma RequestEndsWithScroll(s: AppState, mode: string, requestId: int, env: Env)
    requires ValidEnv(env) && s.file.Some?
    ensures EndsWithScroll(OnModeSelect(s, mode, requestId, env))
  {
    OnModeSelectCases(s, mode, requestId, env);
    var pre := StartWrites(s, mode, requestId);
    match ResolvePrompt(mode, s)
    case Failure(e) =>
      LastOfConcat(pre, PromptFailureWrites(e));
    case Success(p) =>
      RunEndsWithScroll(p, 0, env);
      LastOfConcat(pre, Run(p, 0, env));
  }

  /** A loop whose token was already replaced only scrolls. */
  lemma StaleRunEnds(p: PromptArg, i: nat, env: Env)
    requires ValidEnv(env) && i < MaxAttempts && Stale(env, 2 * i)
    ensures EndsWithScroll(Run(p, i, env))
  {
    assert Run(p, i, env) == [ScrollToTop];
  }

  /** An attempt that settles ends the loop with the scroll. */
  lemma SettlingRunEnds(p: PromptArg, i: nat, env: Env)
    requires ValidEnv(env) && i < MaxAttempts && !Stale(env, 2 * i)
    requires Settles(env.replies[i]) || i == MaxAttempts - 1
    ensures EndsWithScroll(Run(p, i, env))
  {
    var x := RunTail(p, i, env);
    LastOfConcat([Generate(i, p)], x);
  }

  /** An attempt that does not settle ends the way the next attempt does. */
  lemma UnsettledRunEnds(p: PromptArg, i: nat, env: Env)
    requires ValidEnv(env) && i < MaxAttempts - 1 && !Stale(env, 2 * i)
    requires !Settles(env.replies[i])
    requires EndsWithScroll(Run(p, i + 1, env))
    ensures EndsWithScroll(Run(p, i, env))
  {
    var rest := Run(p, i + 1, env);
    var x := RunTail(p, i, env);
    LastOfConcat([Wait(i, Delay(i, env.jitter[i]))], rest);
    LastOfConcat([Generate(i, p)], x);
  }

  /** What the loop does after attempt `i`'s call: settle, or wait and go
      on to the next attempt. */
  function RunTail(p: PromptArg, i: nat, env: Env): (x: seq<Effect>)
    requires ValidEnv(env) && i < MaxAttempts && !Stale(env, 2 * i)
    ensures Run(p, i, env) == [Generate(i, p)] + x
    ensures env.replies[i].Threw? || StopsRetrying(env.replies[i].response) || i == MaxAttempts - 1 ==>
      |x| > 0 && x[|x| - 1] == ScrollToTop
    ensures !env.replies[i].Threw? && !StopsRetrying(env.replies[i].response) && i < MaxAttempts - 1 ==>
      x == [Wait(i, Delay(i, env.jitter[i]))] + Run(p, i + 1, env)
  {
    match env.replies[i]
    case Threw(e) => Settle(env, 2 * i + 1, [SetApiError(Some(ErrorText(e)))])
    case Returned(reply) =>
      if StopsRetrying(reply) || i == MaxAttempts - 1 then Settle(env, 2 * i + 1, AppliedWrites(Classify(reply)))
      else [Wait(i, Delay(i, env.jitter[i]))] + Run(p, i + 1, env)
  }

  /** The last effect of a settle is the scroll. */
  lemma SettleEndsWithScroll(env: Env, n: nat, w: seq<Effect>)
    ensures |Settle(env, n, w)| > 0 && Settle(env, n, w)[|Settle(env, n, w)| - 1] == ScrollToTop
  {
  }

  /** The last element of a concatenation with a non-empty right side. */
  lemma LastOfConcat<T>(a: seq<T>, b: seq<T>)
    requires |b| > 0
    ensures |a + b| > 0 && (a + b)[|a + b| - 1] == b[|b| - 1] && (a + b)[..|a|] == a
  {
  }

  /** An attempt that does not settle suspends twice, then the loop goes on. */
  lemma UnsettledRunAwaits(p: PromptArg, i: nat, env: Env)
    requires ValidEnv(env) && i < MaxAttempts - 1 && !Stale(env, 2 * i)
    requires !Settles(env.replies[i])
    ensures Awaits(Run(p, i, env)) == [Generate(i, p), Wait(i, Delay(i, env.jitter[i]))] + Awaits(Run(p, i + 1, env))
  {
    var g := Generate(i, p);
    var w := Wait(i, Delay(i, env.jitter[i]));
    var rest := Run(p, i + 1, env);
    assert Run(p, i, env) == [g] + ([w] + rest);
    AwaitsConcat([g], [w] + rest);
    AwaitsConcat([w], rest);
    assert [g][1..] == [] && [w][1..] == [];
    assert Awaits([g]) == [g] && Awaits([w]) == [w];
  }

  /** The retry loop from attempt `i` follows the schedule from suspension
      `2i` up to the suspension count. */
  lemma {:induction false} RunFollowsSchedule(p: PromptArg, i: nat, env: Env)
    requires ValidEnv(env) && i < MaxAttempts
    requires forall j | 0 <= j < i :: !Settles(env.replies[j])
    ensures SuspensionCount(env) >= 2 * i ==> Awaits(Run(p, i, env)) == Schedule(p, env)[2 * i..SuspensionCount(env)]
    ensures SuspensionCount(env) < 2 * i ==> Awaits(Run(p, i, env)) == []
    decreases MaxAttempts - i
  {
    var n := SuspensionCount(env);
    var sch := Schedule(p, env);
    if Stale(env, 2 * i) {
      StaleRunAwaits(p, i, env);
    } else if Settles(env.replies[i]) || i == MaxAttempts - 1 {
      SettlingRunAwaits(p, i, env);
      SettlingAttemptCount(env, i);
      assert sch[2 * i..n] == [sch[2 * i]];
    } else {
      UnsettledRunAwaits(p, i, env);
      UnsettledAttemptCount(env, i);
      RunFollowsSchedule(p, i + 1, env);
      SliceTwo(sch, 2 * i, n);
      ScheduleAt(p, env, i);
    }
  }

  /** Call `i` and the wait after it sit at positions `2i` and `2i + 1`. */
  lemma ScheduleAt(p: PromptArg, env: Env, i: nat)
    requires ValidEnv(env) && i < MaxAttempts - 1
    ensures Schedule(p, env)[2 * i] == Generate(i, p)
    ensures Schedule(p, env)[2 * i + 1] == Wait(i, Delay(i, env.jitter[i]))
  {
    if i == 0 {
    } else {
      assert i == 1;
    }
  }

  lemma SliceTwo<T>(s: seq<T>, a: nat, n: nat)
    requires a + 2 <= n <= |s|
    ensures s[a..n] == [s[a], s[a + 1]] + s[a + 2..n]
  {
  }

  /** The suspensions of a request that has a file and a resolvable prompt
      are exactly the first `SuspensionCount(env)` entries of the schedule:
      at most three calls, in attempt order, and a wait only right after an
      unsettled call that is not the last, with the wait after attempt `i`
      lasting between 1000·2^i and 1000·2^i + 1000 ms. */
  lemma RequestFollowsSchedule(s: AppState, mode: string, requestId: int, env: Env)
    requires ValidEnv(env) && s.file.Some?
    requires Resolvable(mode, s)
    ensures Awaits(OnModeSelect(s, mode, requestId, env)) == Schedule(ResolvePrompt(mode, s).value, env)[..SuspensionCount(env)]
  {
    var p := ResolvePrompt(mode, s).value;
    var pre := StartWrites(s, mode, requestId);
    assert OnModeSelect(s, mode, requestId, env) == pre + Run(p, 0, env);
    StartWritesAwaitNothing(s, mode, requestId);
    AwaitsConcat(pre, Run(p, 0, env));
    RunFollowsSchedule(p, 0, env);
    assert Schedule(p, env)[2 * 0..SuspensionCount(env)] == Schedule(p, env)[..SuspensionCount(env)];
  }

  lemma StartWritesAwaitNothing(s: AppState, mode: string, requestId: int)
    ensures NoAwaits(StartWrites(s, mode, requestId))
    ensures Awaits(StartWrites(s, mode, requestId)) == [] && AwaitCount(StartWrites(s, mode, requestId)) == 0
  {
    var t := StartWrites(s, mode, requestId);
    assert forall q | 0 <= q < |t| :: !IsAwait(t[q]);
    NoAwaitsFacts(t);
  }

  lemma PromptFailureAwaitsNothing(e: Thrown)
    ensures NoAwaits(PromptFailureWrites(e))
  {
    var t := PromptFailureWrites(e);
    assert forall q | 0 <= q < |t| :: !IsAwait(t[q]);
  }

  lemma NoAwaitsConcat(a: seq<Effect>, b: seq<Effect>)
    requires NoAwaits(a) && NoAwaits(b)
    ensures NoAwaits(a + b)
  {
    forall q | 0 <= q < |a + b|
      ensures !IsAwait((a + b)[q])
    {
      if q < |a| {
        assert (a + b)[q] == a[q];
      } else {
        assert (a + b)[q] == b[q - |a|];
      }
    }
  }

  /** The three shapes of a request: no file, a prompt that cannot be
      resolved, and the retry loop after the synchronous start. */
  lemma OnModeSelectCases(s: AppState, mode: string, requestId: int, env: Env)
    requires ValidEnv(env)
    ensures s.file.None? ==> OnModeSelect(s, mode, requestId, env) == [SetApiError(Some(NoFileMessage))]
    ensures s.file.Some? && ResolvePrompt(mode, s).Failure? ==>
      OnModeSelect(s, mode, requestId, env) == StartWrites(s, mode, requestId) + PromptFailureWrites(ResolvePrompt(mode, s).error)
    ensures s.file.Some? && ResolvePrompt(mode, s).Success? ==>
      OnModeSelect(s, mode, requestId, env) == StartWrites(s, mode, requestId) + Run(ResolvePrompt(mode, s).value, 0, env)
  {
  }

  /** A request writes the no-file error alone exactly when there is no
      file; with a file it takes its token before anything else and goes on
      past the seven synchronous start writes. */
  lemma RequestStartsWithToken(s: AppState, mode: string, requestId: int, env: Env)
    requires ValidEnv(env)
    ensures s.file.None? <==> OnModeSelect(s, mode, requestId, env) == [SetApiError(Some(NoFileMessage))]
    ensures s.file.Some? ==> |OnModeSelect(s, mode, requestId, env)| > 7 && OnModeSelect(s, mode, requestId, env)[0] == IssueToken(requestId)
  {
    OnModeSelectCases(s, mode, requestId, env);
    if s.file.Some? {
      var t := OnModeSelect(s, mode, requestId, env);
      var pre := StartWrites(s, mode, requestId);
      if ResolvePrompt(mode, s).Success? {
        RunStartsWithCall(ResolvePrompt(mode, s).value, 0, env);
      }
      assert t[0] == pre[0];
    }
  }

  /** Chart or Custom requested while neither is selected: a request with a
      file starts its first attempt with the prompt function itself, uncalled,
      in place of a prompt text. */
  lemma UncalledTemplateReachesCall(s: AppState, mode: string, requestId: int, env: Env)
    requires ValidEnv(env) && s.file.Some?
    requires mode == "Chart" || mode == "Custom"
    requires s.selectedMode != "Custom" && s.selectedMode != "Chart"
    ensures var kind := if mode == "Chart" then Modes.ChartTemplate else Modes.CustomTemplate;
      var t := OnModeSelect(s, mode, requestId, env);
      |t| > 7 && t[7] == Generate(0, UncalledTemplate(kind))
  {
    ModePromptDisagreement(mode, s);
    var p := ResolvePrompt(mode, s).value;
    OnModeSelectCases(s, mode, requestId, env);
    var pre := StartWrites(s, mode, requestId);
    assert |pre| == 7;
    assert Run(p, 0, env)[0] == Generate(0, p);
    assert (pre + Run(p, 0, env))[7] == Run(p, 0, env)[0];
  }

  /** A request that stops for any reason before calling (no file, or a
      prompt that cannot be resolved) makes no call and never waits. */
  lemma NoPromptNoCall(s: AppState, mode: string, requestId: int, env: Env)
    requires ValidEnv(env)
    requires s.file.None? || ResolvePrompt(mode, s).Failure?
    ensures NoAwaits(OnModeSelect(s, mode, requestId, env))
    ensures Awaits(OnModeSelect(s, mode, requestId, env)) == []
  {
    var t := OnModeSelect(s, mode, requestId, env);
    OnModeSelectCases(s, mode, requestId, env);
    if s.file.Some? {
      StartWritesAwaitNothing(s, mode, requestId);
      PromptFailureAwaitsNothing(ResolvePrompt(mode, s).error);
      NoAwaitsConcat(StartWrites(s, mode, requestId), PromptFailureWrites(ResolvePrompt(mode, s).error));
    }
    NoAwaitsFacts(t);
  }

  /** Once attempt `i` has produced a settling reply, no later attempt is
      made. */
  lemma EarlyStop(s: AppState, mode: string, requestId: int, env: Env, i: nat)
    requires ValidEnv(env) && s.file.Some? && i < MaxAttempts
    requires Resolvable(mode, s)
    requires Settles(env.replies[i])
    ensures forall q | 0 <= q < |Awaits(OnModeSelect(s, mode, requestId, env))| ::
      var e := Awaits(OnModeSelect(s, mode, requestId, env))[q];
      IsAwait(e) && e.attempt <= i
  {
    var p := ResolvePrompt(mode, s).value;
    var a := Awaits(OnModeSelect(s, mode, requestId, env));
    RequestFollowsSchedule(s, mode, requestId, env);
    ScheduleStopsAt(p, env, i);
    forall q | 0 <= q < |a|
      ensures IsAwait(a[q]) && a[q].attempt <= i
    {
      assert a[q] == Schedule(p, env)[q];
    }
  }

  /** Every suspension the request goes through belongs to an attempt no
      later than any attempt whose reply settles. */
  lemma ScheduleStopsAt(p: PromptArg, env: Env, i: nat)
    requires ValidEnv(env) && i < MaxAttempts
    requires Settles(env.replies[i])
    ensures forall q | 0 <= q < SuspensionCount(env) ::
      IsAwait(Schedule(p, env)[q]) && Schedule(p, env)[q].attempt <= i
  {
    assert FirstSettled(env) <= i;
  }

  /** The retry loop from attempt `i` obeys the supersession guarantee:
      after the suspension during which its token was replaced it neither
      calls nor writes anything. */
  lemma {:induction false} RunIsQuiet(p: PromptArg, i: nat, env: Env, k: nat)
    requires ValidEnv(env) && i < MaxAttempts
    requires env.replacedDuring == Some(k) && k >= 2 * i
    ensures Quiet(Run(p, i, env), k - 2 * i)
    decreases MaxAttempts - i
  {
    if Settles(env.replies[i]) || i == MaxAttempts - 1 {
      SettlingRunIsQuiet(p, i, env, k);
    } else {
      if k - 2 * i > 1 {
        RunIsQuiet(p, i + 1, env, k);
      }
      UnsettledRunIsQuiet(p, i, env, k);
    }
  }

  /** An attempt that does not settle calls, waits, and hands over to the
      next attempt, which is quiet by then if the token is already gone. */
  lemma UnsettledRunIsQuiet(p: PromptArg, i: nat, env: Env, k: nat)
    requires ValidEnv(env) && i < MaxAttempts - 1
    requires env.replacedDuring == Some(k) && k >= 2 * i
    requires !Settles(env.replies[i])
    requires k - 2 * i > 1 ==> Quiet(Run(p, i + 1, env), k - 2 * (i + 1))
    ensures Quiet(Run(p, i, env), k - 2 * i)
  {
    var kk := k - 2 * i;
    var g := Generate(i, p);
    var w := Wait(i, Delay(i, env.jitter[i]));
    var rest := Run(p, i + 1, env);
    assert Run(p, i, env) == [g] + ([w] + rest);
    OneAwaitIsQuiet(g, kk);
    OneAwaitIsQuiet(w, if kk > 0 then kk - 1 else 0);
    if kk <= 1 {
      assert rest == [ScrollToTop];
      QuietConcat([w], rest, 0);
    } else {
      QuietConcat([w], rest, kk - 1);
    }
    QuietConcat([g], [w] + rest, kk);
  }

  /** A one-suspension trace is quiet and suspends once. */
  lemma OneAwaitIsQuiet(e: Effect, k: nat)
    requires IsAwait(e)
    ensures Quiet([e], k) && AwaitCount([e]) == 1
  {
    assert [e][..0] == [];
    assert [e][1..] == [];
  }

  /** The attempt that ends the loop calls once, then writes only while the
      request is current. */
  lemma SettlingRunIsQuiet(p: PromptArg, i: nat, env: Env, k: nat)
    requires ValidEnv(env) && i < MaxAttempts
    requires env.replacedDuring == Some(k) && k >= 2 * i
    requires Settles(env.replies[i]) || i == MaxAttempts - 1
    ensures Quiet(Run(p, i, env), k - 2 * i)
  {
    var reply := env.replies[i];
    var g := Generate(i, p);
    var kk := k - 2 * i;
    var w := if reply.Threw? then [SetApiError(Some(ErrorText(reply.thrown)))] else AppliedWrites(Classify(reply.response));
    if reply.Returned? {
      AppliedWritesHaveNoAwaits(Classify(reply.response));
    }
    var x := Settle(env, 2 * i + 1, w);
    assert Run(p, i, env) == [g] + x;
    SettleHasNoAwaits(env, 2 * i + 1, w);
    OneAwaitIsQuiet(g, kk);
    NoAwaitsIsQuiet(x, if kk > 0 then kk - 1 else 0);
    QuietConcat([g], x, kk);
  }

  /** Supersession: once the token has been replaced during suspension `k`,
      the request makes no further call and writes nothing (no timecodes, no
      text, no error, and it leaves `isLoading` as it is); at most the wait
      already scheduled elapses and the final scroll happens. */
  lemma SupersededRequestIsQuiet(s: AppState, mode: string, requestId: int, env: Env, k: nat)
    requires ValidEnv(env) && env.replacedDuring == Some(k)
    ensures Quiet(OnModeSelect(s, mode, requestId, env), k)
  {
    var t := OnModeSelect(s, mode, requestId, env);
    var r := ResolvePrompt(mode, s);
    if s.file.None? || r.Failure? {
      NoPromptNoCall(s, mode, requestId, env);
      NoAwaitsIsQuiet(t, k);
    } else {
      var pre := StartWrites(s, mode, requestId);
      OnModeSelectCases(s, mode, requestId, env);
      StartWritesAwaitNothing(s, mode, requestId);
      RunIsQuiet(r.value, 0, env, k);
      QuietAfterAwaitFree(pre, Run(r.value, 0, env), k);
    }
  }

  /** The three result fields of the session. */
  datatype Outputs = Outputs(timecodeList: Option<seq<Timecode>>, textResponse: Option<string>, apiError: Option<string>)

  predicate AtMostOneOutput(o: Outputs) {
    (if o.timecodeList.Some? then 1 else 0) + (if o.textResponse.Some? then 1 else 0) + (if o.apiError.Some? then 1 else 0) <= 1
  }

  /** What a reply leaves in the result fields when it is applied. */
  function ReplyOutputs(reply: Reply): (o: Outputs)
    ensures AtMostOneOutput(o)
    ensures o == Outputs(None, None, None) <==> reply.Returned? && Classify(reply.response).IgnoreCall?
  {
    match reply
    case Threw(e) => Outputs(None, None, Some(ErrorText(e)))
    case Returned(r) =>
      match Classify(r)
      case ApplyTimecodes(Some(ts)) => Outputs(Some(Sanitize.SanitizeTimecodes(ts)), None, None)
      case ApplyTimecodes(None) => Outputs(None, None, Some(MissingTimecodesErrorMessage))
      case IgnoreCall(_) => Outputs(None, None, None)
      case ApplyText(t) => Outputs(None, Some(t), None)
      case SafetyBlock => Outputs(None, None, Some(SafetyMessage))
      case RecitationBlock => Outputs(None, None, Some(RecitationMessage))
      case NoValidResponse => Outputs(None, None, Some(NoValidResponseMessage))
  }

  /** What a request that stays current leaves in the result fields: the
      prompt error, or the deciding reply applied. */
  function ExpectedOutputs(s: AppState, mode: string, env: Env): (o: Outputs)
    requires ValidEnv(env)
    ensures AtMostOneOutput(o)
  {
    match ResolvePrompt(mode, s)
    case Failure(e) => Outputs(None, None, Some(ErrorText(e)))
    case Success(_) => ReplyOutputs(env.replies[FirstSettled(env)])
  }

  /** The machine `m` with the given outputs stored and `isLoading` cleared. */
  function Finished(m: Machine, o: Outputs): Machine {
    m.(ui := m.ui.(timecodeList := o.timecodeList, textResponse := o.textResponse, apiError := o.apiError, isLoading := false))
  }

  /** The outcome writes of a reply, performed on a session whose result
      fields are clear, store exactly the reply's outputs. */
  lemma {:induction false} WritesStoreOutputs(m: Machine, reply: Reply, w: seq<Effect>)
    requires m.ui.timecodeList.None? && m.ui.textResponse.None? && m.ui.apiError.None?
    requires reply.Threw? ==> w == [SetApiError(Some(ErrorText(reply.thrown)))]
    requires reply.Returned? ==> w == AppliedWrites(Classify(reply.response))
    ensures ApplyAll(m, w) == Finished(m, ReplyOutputs(reply)).(ui := Finished(m, ReplyOutputs(reply)).ui.(isLoading := m.ui.isLoading))
  {
    if w != [] {
      assert |w| == 1;
      assert w[1..] == [];
    }
  }

  /** Settling a current request stores the reply's outputs. */
  lemma SettleOutputs(m: Machine, env: Env, n: nat, reply: Reply, w: seq<Effect>)
    requires !Stale(env, n)
    requires m.ui.timecodeList.None? && m.ui.textResponse.None? && m.ui.apiError.None?
    requires reply.Threw? ==> w == [SetApiError(Some(ErrorText(reply.thrown)))]
    requires reply.Returned? ==> w == AppliedWrites(Classify(reply.response))
    ensures ApplyAll(m, Settle(env, n, w)) == Finished(m, ReplyOutputs(reply))
  {
    var tail := [SetLoading(false), ScrollToTop];
    assert Settle(env, n, w) == w + tail;
    ApplyAllConcat(m, w, tail);
    WritesStoreOutputs(m, reply, w);
    var m1 := ApplyAll(m, w);
    ApplyAllCons(m1, SetLoading(false), [ScrollToTop]);
    ApplyAllSingle(Apply(m1, SetLoading(false)), ScrollToTop);
  }

  /** The retry loop of a request that is never superseded ends with the
      deciding reply's outputs stored and `isLoading` cleared. */
  lemma {:induction false} RunOutcome(m: Machine, p: PromptArg, i: nat, env: Env)
    requires ValidEnv(env) && i < MaxAttempts && env.replacedDuring.None?
    requires forall j | 0 <= j < i :: !Settles(env.replies[j])
    requires m.ui.timecodeList.None? && m.ui.textResponse.None? && m.ui.apiError.None?
    ensures ApplyAll(m, Run(p, i, env)) == Finished(m, ReplyOutputs(env.replies[FirstSettled(env)]))
    decreases MaxAttempts - i
  {
    var g := Generate(i, p);
    var reply := env.replies[i];
    assert !Stale(env, 2 * i) && Apply(m, g) == m;
    if Settles(reply) || i == MaxAttempts - 1 {
      SettlingRunOutcome(m, p, i, env);
    } else {
      var wt := Wait(i, Delay(i, env.jitter[i]));
      var rest := Run(p, i + 1, env);
      assert Run(p, i, env) == [g] + ([wt] + rest);
      ApplyAllCons(m, g, [wt] + rest);
      ApplyAllCons(m, wt, rest);
      assert ApplyAll(m, Run(p, i, env)) == ApplyAll(m, rest);
      assert forall j | 0 <= j < i + 1 :: !Settles(env.replies[j]);
      RunOutcome(m, p, i + 1, env);
    }
  }

  /** The attempt that decides the request stores its reply's outputs. */
  lemma SettlingRunOutcome(m: Machine, p: PromptArg, i: nat, env: Env)
    requires ValidEnv(env) && i < MaxAttempts && env.replacedDuring.None?
    requires forall j | 0 <= j < i :: !Settles(env.replies[j])
    requires Settles(env.replies[i]) || i == MaxAttempts - 1
    requires m.ui.timecodeList.None? && m.ui.textResponse.None? && m.ui.apiError.None?
    ensures ApplyAll(m, Run(p, i, env)) == Finished(m, ReplyOutputs(env.replies[FirstSettled(env)]))
  {
    var g := Generate(i, p);
    var reply := env.replies[i];
    var w := if reply.Threw? then [SetApiError(Some(ErrorText(reply.thrown)))] else AppliedWrites(Classify(reply.response));
    var x := Settle(env, 2 * i + 1, w);
    assert Run(p, i, env) == [g] + x;
    ApplyAllCons(m, g, x);
    assert ApplyAll(m, Run(p, i, env)) == ApplyAll(m, x);
    SettleOutputs(m, env, 2 * i + 1, reply, w);
    assert FirstSettled(env) == i;
  }

  /** The machine right after the synchronous start of a request. */
  function Started(m: Machine, mode: string, requestId: int): Machine {
    m.(latestRequest := requestId,
       ui := m.ui.(activeMode := Some(mode), isLoading := true, timecodeList := None,
                   textResponse := None, apiError := None, chartLabel := ChartLabel(m.ui)))
  }

  /** Starting a request takes the token, marks the session loading, clears
      every earlier result and sets the chart label. */
  lemma StartClearsResults(m: Machine, mode: string, requestId: int)
    ensures ApplyAll(m, StartWrites(m.ui, mode, requestId)) == Started(m, mode, requestId)
  {
    var x := [IssueToken(requestId), SetActiveMode(Some(mode)), SetLoading(true)];
    var y := [SetTimecodeList(None), SetTextResponse(None), SetApiError(None)];
    var z := [SetChartLabel(ChartLabel(m.ui))];
    assert StartWrites(m.ui, mode, requestId) == x + y + z;
    ApplyAllConcat(m, x + y, z);
    ApplyAllConcat(m, x, y);
    var m1 := ApplyAll(m, x);
    var m2 := ApplyAll(m1, y);
    TakeTokenEffect(m, mode, requestId);
    ClearResultsEffect(m1);
    ApplyAllSingle(m2, z[0]);
  }

  lemma TakeTokenEffect(m: Machine, mode: string, requestId: int)
    ensures ApplyAll(m, [IssueToken(requestId), SetActiveMode(Some(mode)), SetLoading(true)])
      == m.(latestRequest := requestId, ui := m.ui.(activeMode := Some(mode), isLoading := true))
  {
    ApplyAllThree(m, IssueToken(requestId), SetActiveMode(Some(mode)), SetLoading(true));
  }

  /** A request that is never superseded ends with its token current,
      `isLoading` cleared, the active mode and chart label set, and the
      result fields holding exactly the expected outputs, whatever they held
      before; nothing else in the session changes. */
  lemma CurrentRequestOutcome(m: Machine, mode: string, requestId: int, env: Env)
    requires ValidEnv(env) && env.replacedDuring.None? && m.ui.file.Some?
    ensures ApplyAll(m, OnModeSelect(m.ui, mode, requestId, env))
      == Finished(Started(m, mode, requestId), ExpectedOutputs(m.ui, mode, env))
  {
    var pre := StartWrites(m.ui, mode, requestId);
    var m1 := Started(m, mode, requestId);
    var r := ResolvePrompt(mode, m.ui);
    OnModeSelectCases(m.ui, mode, requestId, env);
    StartClearsResults(m, mode, requestId);
    if r.Failure? {
      var x := PromptFailureWrites(r.error);
      ApplyAllConcat(m, pre, x);
      PromptFailureOutcome(m1, r.error);
      assert ExpectedOutputs(m.ui, mode, env) == Outputs(None, None, Some(ErrorText(r.error)));
    } else {
      ApplyAllConcat(m, pre, Run(r.value, 0, env));
      RunOutcome(m1, r.value, 0, env);
      assert ExpectedOutputs(m.ui, mode, env) == ReplyOutputs(env.replies[FirstSettled(env)]);
    }
  }

  /** A prompt that cannot be resolved is reported as the request's error. */
  lemma PromptFailureOutcome(m: Machine, e: Thrown)
    requires m.ui.timecodeList.None? && m.ui.textResponse.None?
    ensures ApplyAll(m, PromptFailureWrites(e)) == Finished(m, Outputs(None, None, Some(ErrorText(e))))
  {
    var x := PromptFailureWrites(e);
    var m1 := Apply(m, x[0]);
    assert x == [x[0]] + ([SetLoading(false)] + [ScrollToTop]);
    ApplyAllCons(m, x[0], [SetLoading(false)] + [ScrollToTop]);
    ApplyAllCons(m1, SetLoading(false), [ScrollToTop]);
    ApplyAllSingle(Apply(m1, SetLoading(false)), ScrollToTop);
  }

  /** Without a file a request only reports the missing file: no call, and
      the request token stays as it was. */
  lemma NoFileGuard(m: Machine, mode: string, requestId: int, env: Env)
    requires ValidEnv(env) && m.ui.file.None?
    ensures ApplyAll(m, OnModeSelect(m.ui, mode, requestId, env)) == m.(ui := m.ui.(apiError := Some(NoFileMessage)))
    ensures Awaits(OnModeSelect(m.ui, mode, requestId, env)) == []
  {
    ApplyAllSingle(m, SetApiError(Some(NoFileMessage)));
    NoPromptNoCall(m.ui, mode, requestId, env);
  }

  /** When every reply is empty and nothing supersedes the request, exactly
      three calls and two waits happen and the request ends with the
      no-valid-response error. */
  lemma AmbiguousRepliesExhaustRetries(m: Machine, mode: string, requestId: int, env: Env)
    requires ValidEnv(env) && env.replacedDuring.None? && m.ui.file.Some?
    requires Resolvable(mode, m.ui)
    requires forall j | 0 <= j < MaxAttempts :: !Settles(env.replies[j])
    ensures Awaits(OnModeSelect(m.ui, mode, requestId, env)) == Schedule(ResolvePrompt(mode, m.ui).value, env)
    ensures ApplyAll(m, OnModeSelect(m.ui, mode, requestId, env)).ui.apiError == Some(NoValidResponseMessage)
  {
    var p := ResolvePrompt(mode, m.ui).value;
    RequestFollowsSchedule(m.ui, mode, requestId, env);
    var sch := Schedule(p, env);
    assert sch[..SuspensionCount(env)] == sch;
    CurrentRequestOutcome(m, mode, requestId, env);
  }

  /** Last request wins. Request A (token `idA`) runs up to a point after
      the suspension during which its token was replaced; then request B
      (token `idB`, never superseded) runs to completion; then the rest of A
      runs. The session ends exactly as B left it: B's outputs, B's token,
      and A's late effects changed nothing. */
  lemma LastRequestWins(
    m: Machine, modeA: string, idA: int, envA: Env, k: nat, cut: nat,
    modeB: string, idB: int, envB: Env)
    requires ValidEnv(envA) && envA.replacedDuring == Some(k)
    requires cut <= |OnModeSelect(m.ui, modeA, idA, envA)|
    requires AwaitCount(OnModeSelect(m.ui, modeA, idA, envA)[..cut]) > k
    requires ValidEnv(envB) && envB.replacedDuring.None?
    requires idB != idA
    requires ApplyAll(m, OnModeSelect(m.ui, modeA, idA, envA)[..cut]).ui.file.Some?
    ensures
      var a := OnModeSelect(m.ui, modeA, idA, envA);
      var mid := ApplyAll(m, a[..cut]);
      var afterB := ApplyAll(mid, OnModeSelect(mid.ui, modeB, idB, envB));
      && ApplyAll(afterB, a[cut..]) == afterB
      && afterB == Finished(Started(mid, modeB, idB), ExpectedOutputs(mid.ui, modeB, envB))
      && afterB.latestRequest != idA
  {
    var a := OnModeSelect(m.ui, modeA, idA, envA);
    var mid := ApplyAll(m, a[..cut]);
    var afterB := ApplyAll(mid, OnModeSelect(mid.ui, modeB, idB, envB));
    SupersededRequestIsQuiet(m.ui, modeA, idA, envA, k);
    QuietTailIsNoOp(a, k, cut);
    AllInertIsNoOp(afterB, a[cut..]);
    CurrentRequestOutcome(mid, modeB, idB, envB);
  }

  /** Cancelling with a fresh token supersedes the running request, stops
      the spinner and clears the error, and changes nothing else. */
  lemma CancelSupersedes(m: Machine, now: int, requestId: int)
    requires now != requestId
    ensures ApplyAll(m, Cancel(now)) == m.(latestRequest := now, ui := m.ui.(isLoading := false, apiError := None))
    ensures ApplyAll(m, Cancel(now)).latestRequest != requestId
  {
    var t := Cancel(now);
    ApplyAllCons(m, t[0], t[1..]);
    assert t[1..] == [SetLoading(false)] + [SetApiError(None)];
    ApplyAllCons(Apply(m, t[0]), SetLoading(false), [SetApiError(None)]);
    ApplyAllSingle(Apply(Apply(m, t[0]), SetLoading(false)), SetApiError(None));
  }

  /** Why freshness is an assumption: a cancel whose `Date.now()` equals the
      running request's token leaves that request current. */
  lemma CancelWithRepeatedClockIsIneffective(m: Machine)
    ensures ApplyAll(m, Cancel(m.latestRequest)).latestRequest == m.latestRequest
  {
    CancelSupersedes(m, m.latestRequest, m.latestRequest + 1);
  }
}
