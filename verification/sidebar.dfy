/** The mode sidebar of Sidebar.tsx: the resizable width, the mode flags
    App.tsx passes in, the Generate button's `disabled` predicate, the mode
    buttons (Table disabled for audio), the Back button, the prompt boxes
    with their Enter-to-submit key handler, and the chart presets. Each user
    action is a pure step from the session to the next session plus the
    mode `onModeSelect` is called with, if any. */
module Sidebar {
  import opened Wrappers
  import opened Types
  import opened Strings
  import opened Context
  import Modes

  const MinWidth: real := 200.0
  const MaxWidth: real := 600.0
  const InitialWidth: real := 250.0

  const CustomKey := "Custom"
  const ChartKey := "Chart"
  const TableKey := "Table"
  /** The chart mode that means "use the chart prompt". */
  const CustomChartMode := "Custom"

  // ---------------------------------------------------------------------
  // Width
  // ---------------------------------------------------------------------

  /** `Math.max(200, Math.min(newWidth, 600))`. */
  function ClampWidth(w: real): (r: real)
    ensures MinWidth <= r <= MaxWidth
    ensures MinWidth <= w <= MaxWidth ==> r == w
    ensures w < MinWidth ==> r == MinWidth
    ensures w > MaxWidth ==> r == MaxWidth
  {
    var capped := if w <= MaxWidth then w else MaxWidth;
    if MinWidth >= capped then MinWidth else capped
  }

  /** The sidebar starts 250 pixels wide, inside the range clamping keeps. */
  lemma InitialWidthInRange()
    ensures MinWidth <= InitialWidth <= MaxWidth && ClampWidth(InitialWidth) == InitialWidth
  {
  }

  /** Clamping twice is clamping once, and clamping keeps order. */
  lemma ClampWidthIdempotentMonotone(a: real, b: real)
    ensures ClampWidth(ClampWidth(a)) == ClampWidth(a)
    ensures a <= b ==> ClampWidth(a) <= ClampWidth(b)
  {
  }

  /** A mouse move: while resizing with the sidebar mounted, the width
      follows the mouse, clamped; otherwise it stays. */
  function Resize(width: real, resizing: bool, mounted: bool, clientX: real, left: real): (r: real)
    ensures resizing && mounted ==> r == ClampWidth(clientX - left)
    ensures !(resizing && mounted) ==> r == width
    ensures MinWidth <= width <= MaxWidth ==> MinWidth <= r <= MaxWidth
  {
    if resizing && mounted then ClampWidth(clientX - left) else width
  }

  // ---------------------------------------------------------------------
  // Flags and predicates
  // ---------------------------------------------------------------------

  /** `isCustomModeBool` of App.tsx. */
  predicate IsCustomMode(s: AppState) {
    s.selectedMode == CustomKey
  }

  /** `isChartModeBool` of App.tsx. */
  predicate IsChartMode(s: AppState) {
    s.selectedMode == ChartKey
  }

  /** `isCustomChartModeBool` of App.tsx. */
  predicate IsCustomChartMode(s: AppState) {
    IsChartMode(s) && s.chartMode == CustomChartMode
  }

  /** `hasSubMode`: the sidebar shows a prompt box rather than the mode
      list. */
  predicate HasSubMode(s: AppState) {
    IsCustomMode(s) || IsChartMode(s)
  }

  /** App.tsx renders the sidebar only with a video URL and no upload in
      progress. */
  predicate SidebarShown(s: AppState) {
    Truthy(s.vidUrl) && !s.isLoadingVideo
  }

  /** The Generate button's `disabled` expression: `!x.trim()` holds when the
      trimmed text is the empty string. */
  predicate GenerateDisabled(s: AppState)
    ensures s.isLoading ==> GenerateDisabled(s)
    ensures !s.isLoading && !HasSubMode(s) ==> !GenerateDisabled(s)
    ensures !s.isLoading && IsChartMode(s) && !IsCustomChartMode(s) ==> !GenerateDisabled(s)
  {
    || s.isLoading
    || (IsCustomMode(s) && Trim(s.customPrompt) == "")
    || (IsChartMode(s) && IsCustomChartMode(s) && Trim(s.chartPrompt) == "")
  }

  /** Generate is disabled exactly while a request loads, or when the prompt
      in use consists of whitespace only (the empty prompt included). */
  lemma GenerateDisabledIff(s: AppState)
    ensures GenerateDisabled(s) <==>
      || s.isLoading
      || (s.selectedMode == CustomKey && Blank(s.customPrompt))
      || (s.selectedMode == ChartKey && s.chartMode == CustomChartMode && Blank(s.chartPrompt))
  {
    TrimEmptyIffBlank(s.customPrompt);
    TrimEmptyIffBlank(s.chartPrompt);
  }

  /** A mode button's `disabled` expression. */
  predicate ModeButtonDisabled(s: AppState, key: string) {
    s.mediaType == Some(Audio) && key == TableKey
  }

  /** Among the eight mode buttons, exactly Table is disabled for audio, and
      none is for video or before any media is loaded. */
  lemma ModeButtonsDisabledIff(s: AppState)
    ensures forall i | 0 <= i < |Modes.Keys| ::
      ModeButtonDisabled(s, Modes.Keys[i]) <==> (s.mediaType == Some(Audio) && i == 4)
  {
    assert Modes.Keys[4] == TableKey;
  }

  // ---------------------------------------------------------------------
  // Actions
  // ---------------------------------------------------------------------

  datatype Action =
    | SelectMode(key: string)         // a mode button
    | SelectChartMode(name: string)   // a chart preset button
    | EditCustomPrompt(text: string)  // typing in the custom prompt box
    | EditChartPrompt(text: string)   // typing in the chart prompt box
    | FocusChartPrompt                // focusing the chart prompt box
    | KeyDown(key: string, shift: bool) // a key in the prompt box shown
    | Back                            // the Back button
    | ClickGenerate                   // the Generate button

  /** The session after an action and the mode `onModeSelect` is called
      with, if any. */
  datatype Step = Step(state: AppState, submitted: Option<string>)

  /** Whether the control an action comes from is on screen and enabled. */
  predicate Available(s: AppState, a: Action) {
    SidebarShown(s) &&
    match a
    case SelectMode(k) => !HasSubMode(s) && k in Modes.Keys && !ModeButtonDisabled(s, k)
    case SelectChartMode(name) => IsChartMode(s) && name in Modes.ChartModeNames()
    case EditCustomPrompt(_) => IsCustomMode(s)
    case EditChartPrompt(_) => IsChartMode(s)
    case FocusChartPrompt => IsChartMode(s)
    case KeyDown(_, _) => HasSubMode(s)
    case Back => HasSubMode(s)
    case ClickGenerate => !GenerateDisabled(s)
  }

  /** Performs one action; an action on a control that is hidden or
      disabled does nothing. */
  function Handle(s: AppState, a: Action): (r: Step)
    ensures !Available(s, a) ==> r == Step(s, None)
    ensures r.submitted.Some? ==> r.state == s && r.submitted == Some(s.selectedMode)
    ensures r.state == s.(selectedMode := r.state.selectedMode, chartMode := r.state.chartMode,
                          customPrompt := r.state.customPrompt, chartPrompt := r.state.chartPrompt)
  {
    if !Available(s, a) then Step(s, None)
    else
      match a
      case SelectMode(k) => Step(s.(selectedMode := k), None)
      case SelectChartMode(name) => Step(s.(chartMode := name), None)
      case EditCustomPrompt(t) => Step(s.(customPrompt := t), None)
      case EditChartPrompt(t) => Step(s.(chartPrompt := t), None)
      case FocusChartPrompt => Step(s.(chartMode := CustomChartMode), None)
      case KeyDown(key, shift) =>
        if key == "Enter" && !shift then Step(s, Some(s.selectedMode)) else Step(s, None)
      case Back => Step(s.(selectedMode := Modes.FirstKey()), None)
      case ClickGenerate => Step(s, Some(s.selectedMode))
  }

  /** The sidebar only edits the four fields it owns, and submits only the
      selected mode. */
  lemma HandleFrame(s: AppState, a: Action)
    ensures Handle(s, a).state == s.(
      selectedMode := Handle(s, a).state.selectedMode,
      chartMode := Handle(s, a).state.chartMode,
      customPrompt := Handle(s, a).state.customPrompt,
      chartPrompt := Handle(s, a).state.chartPrompt)
    ensures Handle(s, a).submitted.Some? ==> Handle(s, a).submitted == Some(s.selectedMode)
  {
  }

  /** Clicking Generate submits exactly when the button is enabled (and the
      sidebar shown). */
  lemma GenerateSubmitsIffEnabled(s: AppState)
    ensures Handle(s, ClickGenerate).submitted.Some? <==> SidebarShown(s) && !GenerateDisabled(s)
  {
  }

  /** Enter without Shift in a prompt box submits the selected mode even when
      Generate is disabled: while a request is loading, and with a blank
      prompt. */
  lemma EnterIgnoresDisabled(s: AppState)
    requires SidebarShown(s) && HasSubMode(s)
    ensures Handle(s, KeyDown("Enter", false)).submitted == Some(s.selectedMode)
    ensures Handle(s, KeyDown("Enter", true)).submitted.None?
  {
  }

  /** A concrete case: Custom mode, an empty prompt and a request loading:
      the button is disabled, Enter still submits. */
  lemma EnterSubmitsWhileDisabledExample()
    ensures var s := InitialState().(vidUrl := Some("blob:a"), selectedMode := CustomKey, isLoading := true);
      && GenerateDisabled(s)
      && Handle(s, ClickGenerate).submitted.None?
      && Handle(s, KeyDown("Enter", false)).submitted == Some(CustomKey)
  {
    var s := InitialState().(vidUrl := Some("blob:a"), selectedMode := CustomKey, isLoading := true);
    assert Truthy(s.vidUrl);
  }

  /** Back returns to the first mode, which shows the mode list again. */
  lemma BackLeavesSubMode(s: AppState)
    requires SidebarShown(s) && HasSubMode(s)
    ensures Handle(s, Back).state.selectedMode == Modes.Keys[0]
    ensures !HasSubMode(Handle(s, Back).state)
  {
  }

  /** Focusing the chart prompt switches to the custom chart mode, so the
      chart prompt becomes the one Generate checks. */
  lemma FocusSelectsCustomChart(s: AppState)
    requires SidebarShown(s) && IsChartMode(s)
    ensures IsCustomChartMode(Handle(s, FocusChartPrompt).state)
    ensures GenerateDisabled(Handle(s, FocusChartPrompt).state) <==>
      s.isLoading || Blank(s.chartPrompt)
  {
    GenerateDisabledIff(Handle(s, FocusChartPrompt).state);
  }

  /** A preset picked from the chart list is one Chart's sub-modes define,
      so a Chart request resolves its description. */
  lemma PresetResolves(s: AppState, name: string)
    requires Available(s, SelectChartMode(name))
    ensures Modes.FindSubMode(Modes.ChartSubModes, Handle(s, SelectChartMode(name)).state.chartMode).Some?
  {
    assert name in ["Excitement", "Importance", "Number of people"];
  }
}
