/** The observable effects of the orchestration code, and the machine they
    act on: the session record plus the three mutable refs of App.tsx
    (`latestRequestRef`, `vidUrlRef`) and a ledger of live object URLs. */
module Effects {
  import opened Wrappers
  import opened Types
  import opened Context
  import Modes

  /** What a generation call is given as its prompt text: a mode's stored
      instruction text, the output of a prompt function, or (when the mode
      passed in and the selected mode disagree) the prompt function itself,
      uncalled. */
  datatype PromptArg = StoredPrompt(key: string) | RenderedPrompt(text: string) | UncalledTemplate(kind: Modes.TemplateKind)

  datatype Effect =
    // writes of `onModeSelect` and `handleCancel`
    | IssueToken(token: int)
    | SetActiveMode(mode: Option<string>)
    | SetLoading(on: bool)
    | SetTimecodeList(list: Option<seq<Timecode>>)
    | SetTextResponse(text: Option<string>)
    | SetApiError(apiError: Option<string>)
    | SetChartLabel(chartLabel: string)
    // suspensions of `onModeSelect`: one generation call, one backoff timer
    | Generate(attempt: nat, prompt: PromptArg)
    | Wait(attempt: nat, delay: real)
    // `scrollRef.current?.scrollTo({top: 0})`
    | ScrollToTop
    // writes of `handleFileUpload`
    | SetLoadingVideo(on: bool)
    | SetVideoError(videoError: Option<string>)
    | SetFile(file: Option<UploadedFile>)
    | SetUploadProgress(percent: int)
    | SetUploadStatus(status: string)
    | SetVideoDuration(seconds: real)
    | SetMediaType(mediaType: Option<MediaType>)
    | SetVidUrl(vidUrl: Option<string>)
    | CreateObjectUrl(url: string)
    | RevokeObjectUrl(url: string)

  /** The session record and the refs that live beside it. */
  datatype Machine = Machine(ui: AppState, latestRequest: int, vidUrlRef: Option<string>, liveUrls: set<string>)

  /** A fresh session: `latestRequestRef` and `vidUrlRef` at their initial
      values and no object URL allocated. */
  function InitialMachine(): (m: Machine)
    ensures m.ui == InitialState() && m.latestRequest == 0
    ensures m.vidUrlRef.None? && m.liveUrls == {}
  {
    Machine(InitialState(), 0, None, {})
  }

  /** A point at which `onModeSelect` suspends, letting other handlers run. */
  predicate IsAwait(e: Effect) {
    e.Generate? || e.Wait?
  }

  /** Effects that leave the machine as it is. */
  predicate Inert(e: Effect) {
    e.Wait? || e.ScrollToTop?
  }

  /** Performs one effect. */
  function Apply(m: Machine, e: Effect): Machine {
    match e
    case IssueToken(t) => m.(latestRequest := t)
    case SetActiveMode(a) => m.(ui := m.ui.(activeMode := a))
    case SetLoading(b) => m.(ui := m.ui.(isLoading := b))
    case SetTimecodeList(l) => m.(ui := m.ui.(timecodeList := l))
    case SetTextResponse(t) => m.(ui := m.ui.(textResponse := t))
    case SetApiError(a) => m.(ui := m.ui.(apiError := a))
    case SetChartLabel(l) => m.(ui := m.ui.(chartLabel := l))
    case Generate(_, _) => m
    case Wait(_, _) => m
    case ScrollToTop => m
    case SetLoadingVideo(b) => m.(ui := m.ui.(isLoadingVideo := b))
    case SetVideoError(v) => m.(ui := m.ui.(videoError := v))
    case SetFile(f) => m.(ui := m.ui.(file := f))
    case SetUploadProgress(p) => m.(ui := m.ui.(uploadProgress := p))
    case SetUploadStatus(s) => m.(ui := m.ui.(uploadStatus := s))
    case SetVideoDuration(d) => m.(ui := m.ui.(videoDuration := d))
    case SetMediaType(t) => m.(ui := m.ui.(mediaType := t))
    case SetVidUrl(u) => m.(ui := m.ui.(vidUrl := u))
    case CreateObjectUrl(u) => m.(vidUrlRef := Some(u), liveUrls := m.liveUrls + {u})
    case RevokeObjectUrl(u) => m.(liveUrls := m.liveUrls - {u})
  }

  /** What one effect may touch: only a token write changes the request
      token, only the object-URL calls change `vidUrlRef` and the ledger,
      each session write changes the session alone, and a suspension or a
      scroll changes nothing. */
  lemma ApplyFrame(m: Machine, e: Effect)
    ensures !e.IssueToken? ==> Apply(m, e).latestRequest == m.latestRequest
    ensures !e.CreateObjectUrl? && !e.RevokeObjectUrl? ==> Apply(m, e).vidUrlRef == m.vidUrlRef && Apply(m, e).liveUrls == m.liveUrls
    ensures e.IssueToken? || e.CreateObjectUrl? || e.RevokeObjectUrl? ==> Apply(m, e).ui == m.ui
    ensures Inert(e) || IsAwait(e) ==> Apply(m, e) == m
  {
  }

  /** Performs a trace of effects in order. */
  function ApplyAll(m: Machine, t: seq<Effect>): Machine
    decreases |t|
  {
    if t == [] then m else ApplyAll(Apply(m, t[0]), t[1..])
  }

  /** Performing a one-effect trace is performing the effect. */
  lemma ApplyAllSingle(m: Machine, e: Effect)
    ensures ApplyAll(m, [e]) == Apply(m, e)
  {
    assert [e][1..] == [];
  }

  /** Performing a trace is performing its first effect, then the rest. */
  lemma ApplyAllCons(m: Machine, e: Effect, t: seq<Effect>)
    ensures ApplyAll(m, [e] + t) == ApplyAll(Apply(m, e), t)
  {
    assert ([e] + t)[0] == e;
    assert ([e] + t)[1..] == t;
  }

  /** Performing a three-effect trace. */
  lemma ApplyAllThree(m: Machine, a: Effect, b: Effect, c: Effect)
    ensures ApplyAll(m, [a, b, c]) == Apply(Apply(Apply(m, a), b), c)
  {
    ApplyAllCons(m, a, [b, c]);
    assert [a, b, c] == [a] + [b, c];
    ApplyAllCons(Apply(m, a), b, [c]);
    assert [b, c] == [b] + [c];
    ApplyAllSingle(Apply(Apply(m, a), b), c);
  }

  /** Clearing the three result fields. */
  lemma ClearResultsEffect(m: Machine)
    ensures ApplyAll(m, [SetTimecodeList(None), SetTextResponse(None), SetApiError(None)])
      == m.(ui := m.ui.(timecodeList := None, textResponse := None, apiError := None))
  {
    ApplyAllThree(m, SetTimecodeList(None), SetTextResponse(None), SetApiError(None));
  }

  /** Number of suspensions in a trace. */
  function AwaitCount(t: seq<Effect>): nat
    decreases |t|
  {
    if t == [] then 0 else (if IsAwait(t[0]) then 1 else 0) + AwaitCount(t[1..])
  }

  predicate AllInert(t: seq<Effect>) {
    forall p | 0 <= p < |t| :: Inert(t[p])
  }

  /** Once more than `k` suspensions have passed, the trace only waits out
      timers and scrolls: no calls, no writes. */
  predicate Quiet(t: seq<Effect>, k: nat) {
    forall p | 0 <= p < |t| && AwaitCount(t[..p]) > k :: Inert(t[p])
  }

  /** Inert effects indeed change nothing. */
  lemma InertIsNoOp(m: Machine, e: Effect)
    requires Inert(e)
    ensures Apply(m, e) == m
  {
  }

  /** An inert trace changes nothing. */
  lemma {:induction false} AllInertIsNoOp(m: Machine, t: seq<Effect>)
    requires AllInert(t)
    ensures ApplyAll(m, t) == m
    decreases |t|
  {
    if t != [] {
      AllInertIsNoOp(m, t[1..]);
    }
  }

  /** Performing two traces one after the other is performing their
      concatenation. */
  lemma {:induction false} ApplyAllConcat(m: Machine, a: seq<Effect>, b: seq<Effect>)
    ensures ApplyAll(m, a + b) == ApplyAll(ApplyAll(m, a), b)
    decreases |a|
  {
    if a != [] {
      assert (a + b)[0] == a[0];
      assert (a + b)[1..] == a[1..] + b;
      ApplyAllConcat(Apply(m, a[0]), a[1..], b);
    } else {
      assert a + b == b;
    }
  }

  lemma {:induction false} AwaitCountConcat(a: seq<Effect>, b: seq<Effect>)
    ensures AwaitCount(a + b) == AwaitCount(a) + AwaitCount(b)
    decreases |a|
  {
    if a != [] {
      assert (a + b)[0] == a[0];
      assert (a + b)[1..] == a[1..] + b;
      AwaitCountConcat(a[1..], b);
    } else {
      assert a + b == b;
    }
  }

  /** A prefix never holds more suspensions than the whole trace. */
  lemma AwaitCountPrefix(t: seq<Effect>, p: nat)
    requires p <= |t|
    ensures AwaitCount(t[..p]) <= AwaitCount(t)
  {
    assert t == t[..p] + t[p..];
    AwaitCountConcat(t[..p], t[p..]);
  }

  lemma AppendLeft(a: seq<Effect>, b: seq<Effect>, p: nat)
    requires p < |a|
    ensures (a + b)[p] == a[p] && (a + b)[..p] == a[..p]
  {
  }

  lemma AppendRight(a: seq<Effect>, b: seq<Effect>, q: nat)
    requires q < |b|
    ensures (a + b)[|a| + q] == b[q] && (a + b)[..|a| + q] == a + b[..q]
  {
  }

  /** Quiet traces compose: the second part must be quiet for the
      suspensions the first part has not used up, and entirely inert when
      the first part has already passed the limit. */
  lemma QuietConcat(a: seq<Effect>, b: seq<Effect>, k: nat)
    requires Quiet(a, k)
    requires AwaitCount(a) > k ==> AllInert(b)
    requires AwaitCount(a) <= k ==> Quiet(b, k - AwaitCount(a))
    ensures Quiet(a + b, k)
  {
    var t := a + b;
    forall p | 0 <= p < |t| && AwaitCount(t[..p]) > k
      ensures Inert(t[p])
    {
      if p < |a| {
        AppendLeft(a, b, p);
      } else {
        var q := p - |a|;
        AppendRight(a, b, q);
        AwaitCountConcat(a, b[..q]);
        if AwaitCount(a) <= k {
          assert AwaitCount(b[..q]) > k - AwaitCount(a);
        }
      }
    }
  }

  /** Prepending effects that do not suspend keeps a trace quiet. */
  lemma QuietAfterAwaitFree(a: seq<Effect>, b: seq<Effect>, k: nat)
    requires AwaitCount(a) == 0
    requires Quiet(b, k)
    ensures Quiet(a + b, k)
  {
    forall p | 0 <= p < |a|
      ensures AwaitCount(a[..p]) == 0
    {
      AwaitCountPrefix(a, p);
    }
    QuietConcat(a, b, k);
  }

  /** An inert trace is quiet for any number of suspensions. */
  lemma AllInertIsQuiet(t: seq<Effect>, k: nat)
    requires AllInert(t)
    ensures Quiet(t, k)
  {
  }

  /** The effects of a quiet trace that come after its `k`-th suspension
      change nothing, whatever other traces ran in between. */
  lemma QuietTailIsNoOp(t: seq<Effect>, k: nat, p: nat)
    requires Quiet(t, k) && p <= |t| && AwaitCount(t[..p]) > k
    ensures AllInert(t[p..])
  {
    forall q | 0 <= q < |t[p..]|
      ensures Inert(t[p..][q])
    {
      assert t[..p + q] == t[..p] + t[p..p + q];
      AwaitCountConcat(t[..p], t[p..p + q]);
      assert t[p..][q] == t[p + q];
    }
  }
}
