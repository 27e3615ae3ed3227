/** The request supervisor of App.tsx: `onModeSelect` (prompt resolution,
    the bounded retry loop with exponential backoff, applying the final
    response, and abandoning a request whose token was replaced) and
    `handleCancel`.

    The generation service is an oracle: `Env.replies[i]` is what attempt `i`
    resolves or rejects with. Every other handler that runs while the request
    is suspended is summarised by `Env.replacedDuring`: the number of the
    suspension during which `latestRequestRef` first stopped holding this
    request's token (suspension `2i` is call `i`, suspension `2i + 1` the
    backoff timer after it). Tokens are `Date.now()` values, assumed never to
    repeat, so once replaced the token never comes back; this freshness is an
    assumption of the model, stated where it is used. */
module Supervisor {
  import opened Wrappers
  import opened Types
  import opened Strings
  import opened Context
  import opened Effects
  import Modes
  import Sanitize

  const MaxAttempts: nat := 3
  const BaseDelay: nat := 1000
  /** `Math.random() * 1000` lies in [0, 1000). */
  const JitterBound: real := 1000.0

  const NoFileMessage := "Please upload a video or audio file first."
  const SafetyMessage := "The model blocked the response due to safety concerns. Please try a different prompt or video."
  const RecitationMessage := "The model blocked the response due to recitation concerns."
  const NoValidResponseMessage := "The model didn't return a valid response after multiple attempts. Please try a different prompt."
  const UnknownErrorMessage := "An unknown error occurred."
  /** The TypeError V8 raises for `modes[mode].prompt` when `mode` is not a key. */
  const PromptLookupErrorMessage := "Cannot read properties of undefined (reading 'prompt')"
  /** The TypeError V8 raises for `timecodes.map` when the call's arguments
      have no `timecodes` field. */
  const MissingTimecodesErrorMessage := "Cannot read properties of undefined (reading 'map')"

  /** The TypeError V8 raises for `modes[mode].subModes![chartMode]` when the
      mode has no sub-modes. */
  function SubModesErrorMessage(chartMode: string): string {
    "Cannot read properties of undefined (reading '" + chartMode + "')"
  }

  /** What the environment does while one request runs. */
  datatype Env = Env(replies: seq<Reply>, jitter: seq<real>, replacedDuring: Option<nat>)

  /** The oracle answers every attempt and every jitter lies in [0, 1000). */
  predicate ValidEnv(env: Env) {
    && |env.replies| >= MaxAttempts
    && |env.jitter| >= MaxAttempts - 1
    && forall j | 0 <= j < |env.jitter| :: 0.0 <= env.jitter[j] < JitterBound
  }

  /** After `n` suspensions, `latestRequestRef.current !== requestId`. */
  predicate Stale(env: Env, n: nat) {
    env.replacedDuring.Some? && env.replacedDuring.value < n
  }

  function Pow2(n: nat): (r: nat)
    ensures r >= 1
  {
    if n == 0 then 1 else 2 * Pow2(n - 1)
  }

  /** `1000 * 2 ** i + Math.random() * 1000`, the jitter already scaled. */
  function Delay(i: nat, jitter: real): real {
    (BaseDelay * Pow2(i)) as real + jitter
  }

  /** The message a caught value is reported with. */
  function ErrorText(t: Thrown): string {
    match t
    case ErrorObject(msg) => msg
    case NonErrorValue => UnknownErrorMessage
  }

  /** `call?.name && call.args`: a first call with a non-empty name and
      arguments. */
  predicate UsableCall(r: Response) {
    && r.firstCall.Some?
    && r.firstCall.value.name.Some? && r.firstCall.value.name.value != ""
    && r.firstCall.value.args.Some?
  }

  predicate PolicyBlocked(r: Response) {
    r.finishReason == Some("SAFETY") || r.finishReason == Some("RECITATION")
  }

  /** The loop's `break` conditions: a blocking finish reason, any first
      function call, or non-empty text. */
  predicate StopsRetrying(r: Response) {
    PolicyBlocked(r) || r.firstCall.Some? || Truthy(r.text)
  }

  /** How the final response is applied. */
  datatype Applied =
    | ApplyTimecodes(timecodes: Option<seq<Timecode>>)
    | IgnoreCall(name: string)
    | ApplyText(text: string)
    | SafetyBlock
    | RecitationBlock
    | NoValidResponse

  /** The first matching rule of the final step: a usable `set_timecodes*`
      call, any other usable call, non-empty text, then the finish reason. */
  function Classify(r: Response): (a: Applied)
    ensures UsableCall(r) <==> a.ApplyTimecodes? || a.IgnoreCall?
    ensures a.ApplyTimecodes? <==> UsableCall(r) && StartsWith(r.firstCall.value.name.value, "set_timecodes")
    ensures a.ApplyTimecodes? ==> a.timecodes == r.firstCall.value.args.value.timecodes
    ensures a.ApplyText? <==> !UsableCall(r) && Truthy(r.text)
    ensures a.ApplyText? ==> a.text == r.text.value
    ensures a.SafetyBlock? <==> !UsableCall(r) && !Truthy(r.text) && r.finishReason == Some("SAFETY")
    ensures a.RecitationBlock? <==> !UsableCall(r) && !Truthy(r.text) && r.finishReason == Some("RECITATION")
  {
    if UsableCall(r) then
      var call := r.firstCall.value;
      if StartsWith(call.name.value, "set_timecodes") then ApplyTimecodes(call.args.value.timecodes)
      else IgnoreCall(call.name.value)
    else if Truthy(r.text) then ApplyText(r.text.value)
    else if r.finishReason == Some("SAFETY") then SafetyBlock
    else if r.finishReason == Some("RECITATION") then RecitationBlock
    else NoValidResponse
  }

  /** The writes of one way of applying the final response. A usable
      `set_timecodes*` call without a `timecodes` argument makes
      `setTimecodes` throw; the catch reports the TypeError. */
  function AppliedWrites(a: Applied): seq<Effect> {
    match a
    case ApplyTimecodes(Some(ts)) => [SetTimecodeList(Some(Sanitize.SanitizeTimecodes(ts)))]
    case ApplyTimecodes(None) => [SetApiError(Some(MissingTimecodesErrorMessage))]
    case IgnoreCall(_) => []
    case ApplyText(t) => [SetTextResponse(Some(t))]
    case SafetyBlock => [SetApiError(Some(SafetyMessage))]
    case RecitationBlock => [SetApiError(Some(RecitationMessage))]
    case NoValidResponse => [SetApiError(Some(NoValidResponseMessage))]
  }

  /** The end of a request after `awaited` suspensions: the outcome's writes
      and clearing `isLoading` if the request is still current, and the
      unconditional scroll of the `finally` block. */
  function Settle(env: Env, awaited: nat, writes: seq<Effect>): seq<Effect> {
    (if Stale(env, awaited) then [] else writes + [SetLoading(false)]) + [ScrollToTop]
  }

  /** The retry loop from attempt `i` on, followed by the final step. */
  function Run(p: PromptArg, i: nat, env: Env): seq<Effect>
    requires ValidEnv(env) && i < MaxAttempts
    decreases MaxAttempts - i
  {
    if Stale(env, 2 * i) then [ScrollToTop]
    else
      [Generate(i, p)] +
      match env.replies[i]
      case Threw(e) => Settle(env, 2 * i + 1, [SetApiError(Some(ErrorText(e)))])
      case Returned(r) =>
        if StopsRetrying(r) || i == MaxAttempts - 1 then Settle(env, 2 * i + 1, AppliedWrites(Classify(r)))
        else [Wait(i, Delay(i, env.jitter[i]))] + Run(p, i + 1, env)
  }

  /** The chart label written when a request starts: the custom chart prompt,
      the chart preset, or nothing outside Chart mode. */
  function ChartLabel(s: AppState): (r: string)
    ensures s.selectedMode != "Chart" ==> r == ""
    ensures s.selectedMode == "Chart" && s.chartMode == "Custom" ==> r == s.chartPrompt
    ensures s.selectedMode == "Chart" && s.chartMode != "Custom" ==> r == s.chartMode
  {
    if s.selectedMode == "Chart" then
      if s.chartMode == "Custom" then s.chartPrompt else s.chartMode
    else ""
  }

  /** Whether a prompt can be resolved: `mode` is a key of the table, and it
      is not Custom called while Chart is selected with a preset (Custom has
      no sub-modes to read the preset from). */
  predicate Resolvable(mode: string, s: AppState) {
    mode in Modes.Keys && !(mode == "Custom" && s.selectedMode == "Chart" && s.chartMode != "Custom")
  }

  /** Turns the mode's prompt configuration into the call's prompt. The
      Custom/Chart tests look at the selected mode, the prompt at `mode`. */
  function ResolvePrompt(mode: string, s: AppState): (r: Result<PromptArg, Thrown>)
    ensures r.Success? <==> Resolvable(mode, s)
    ensures mode == "Custom" && s.selectedMode == "Custom" ==>
      r == Success(RenderedPrompt(Modes.CustomPrefix + s.customPrompt))
    ensures mode == "Chart" && s.selectedMode == "Chart" && s.chartMode == "Custom" ==>
      r == Success(RenderedPrompt(Modes.ChartPrefix + s.chartPrompt + Modes.ChartSuffix))
    ensures mode == "Chart" && s.selectedMode == "Chart" && s.chartMode != "Custom" ==>
      r == Success(RenderedPrompt(Modes.ChartPrefix + Modes.Interpolate(Modes.FindSubMode(Modes.ChartSubModes, s.chartMode)) + Modes.ChartSuffix))
    ensures mode in Modes.Keys && mode != "Chart" && mode != "Custom" ==> r == Success(StoredPrompt(mode))
  {
    match Modes.Lookup(mode)
    case None => Failure(ErrorObject(PromptLookupErrorMessage))
    case Some(m) =>
      var isCustom := s.selectedMode == "Custom";
      var isChart := s.selectedMode == "Chart";
      var isCustomChart := isChart && s.chartMode == "Custom";
      if isCustom && m.prompt.Template? then
        Success(RenderedPrompt(Modes.ApplyTemplate(m.prompt.kind, Some(s.customPrompt))))
      else if isChart && m.prompt.Template? then
        if isCustomChart then Success(RenderedPrompt(Modes.ApplyTemplate(m.prompt.kind, Some(s.chartPrompt))))
        else
          match m.subModes
          case None => Failure(ErrorObject(SubModesErrorMessage(s.chartMode)))
          case Some(subs) => Success(RenderedPrompt(Modes.ApplyTemplate(m.prompt.kind, Modes.FindSubMode(subs, s.chartMode))))
      else
        match m.prompt
        case Stored(k) => Success(StoredPrompt(k))
        case Template(kind) => Success(UncalledTemplate(kind))
  }

  /** When the mode passed in and the selected mode disagree: an unknown
      mode throws reading `.prompt`; Custom called while Chart is selected
      gets the chart prompt behind the Custom prefix, or throws reading the
      missing `subModes` when a preset is chosen; Chart called while Custom
      is selected wraps the custom prompt in the Chart template; and Chart
      or Custom called while neither is selected passes the prompt function
      itself on, uncalled. */
  lemma ModePromptDisagreement(mode: string, s: AppState)
    ensures mode !in Modes.Keys ==> ResolvePrompt(mode, s) == Failure(ErrorObject(PromptLookupErrorMessage))
    ensures mode == "Custom" && s.selectedMode == "Chart" && s.chartMode == "Custom" ==>
      ResolvePrompt(mode, s) == Success(RenderedPrompt(Modes.CustomPrefix + s.chartPrompt))
    ensures mode == "Custom" && s.selectedMode == "Chart" && s.chartMode != "Custom" ==>
      ResolvePrompt(mode, s) == Failure(ErrorObject(SubModesErrorMessage(s.chartMode)))
    ensures mode == "Chart" && s.selectedMode == "Custom" ==>
      ResolvePrompt(mode, s) == Success(RenderedPrompt(Modes.ChartPrefix + s.customPrompt + Modes.ChartSuffix))
    ensures mode == "Chart" && s.selectedMode != "Custom" && s.selectedMode != "Chart" ==>
      ResolvePrompt(mode, s) == Success(UncalledTemplate(Modes.ChartTemplate))
    ensures mode == "Custom" && s.selectedMode != "Custom" && s.selectedMode != "Chart" ==>
      ResolvePrompt(mode, s) == Success(UncalledTemplate(Modes.CustomTemplate))
  {
  }

  /** The synchronous start of a request that has a file. */
  function StartWrites(s: AppState, mode: string, requestId: int): seq<Effect> {
    [ IssueToken(requestId), SetActiveMode(Some(mode)), SetLoading(true),
      SetTimecodeList(None), SetTextResponse(None), SetApiError(None),
      SetChartLabel(ChartLabel(s)) ]
  }

  /** The catch and `finally` blocks after a prompt that cannot be
      resolved. */
  function PromptFailureWrites(e: Thrown): seq<Effect> {
    [SetApiError(Some(ErrorText(e))), SetLoading(false), ScrollToTop]
  }

  /** `onModeSelect(mode)` run against the session `s`, with token
      `requestId`, in the environment `env`: the effects it performs, in
      order. */
  function OnModeSelect(s: AppState, mode: string, requestId: int, env: Env): (r: seq<Effect>)
    requires ValidEnv(env)
  {
    if s.file.None? then [SetApiError(Some(NoFileMessage))]
    else
      StartWrites(s, mode, requestId) +
      match ResolvePrompt(mode, s)
      case Failure(e) => PromptFailureWrites(e)
      case Success(p) => Run(p, 0, env)
  }

  /** `handleCancel()` with `Date.now()` equal to `now`. */
  function Cancel(now: int): (r: seq<Effect>)
    ensures IssueToken(now) in r && SetLoading(false) in r && SetApiError(None) in r
    ensures forall q | 0 <= q < |r| :: !IsAwait(r[q]) && !r[q].SetTimecodeList? && !r[q].SetTextResponse? && !r[q].SetActiveMode?
  {
    [IssueToken(now), SetLoading(false), SetApiError(None)]
  }
}
