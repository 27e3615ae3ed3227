/** The shared session record (`AppContextType` of context.tsx), its initial
    values, and the guard that refuses to read it outside a provider. */
module Context {
  import opened Wrappers
  import opened Types
  import Modes

  /** Every state field of the session; the setters are the `Effect`s of the
      Effects module. */
  datatype AppState = AppState(
    vidUrl: Option<string>,
    videoDuration: real,
    file: Option<UploadedFile>,
    mediaType: Option<MediaType>,
    timecodeList: Option<seq<Timecode>>,
    textResponse: Option<string>,
    requestedTimecode: Option<real>,
    selectedMode: string,
    activeMode: Option<string>,
    isLoading: bool,
    showSidebar: bool,
    isLoadingVideo: bool,
    videoError: Option<string>,
    uploadProgress: int,
    uploadStatus: string,
    apiError: Option<string>,
    customPrompt: string,
    chartMode: string,
    chartPrompt: string,
    chartLabel: string,
    activeSegmentIndex: int)

  /** The chart mode a session starts with. */
  const InitialChartMode := "Sentiment"

  const OutsideProviderMessage := "useAppContext must be used within an AppProvider"

  /** The values `AppProvider` creates its state with. */
  function InitialState(): (s: AppState)
    ensures s.file.None? && s.vidUrl.None? && s.mediaType.None?
    ensures s.timecodeList.None? && s.textResponse.None? && s.apiError.None? && s.videoError.None?
    ensures s.requestedTimecode.None? && s.activeMode.None?
    ensures !s.isLoading && !s.isLoadingVideo && s.showSidebar
    ensures s.uploadProgress == 0 && s.uploadStatus == "" && s.videoDuration == 0.0
    ensures s.selectedMode == Modes.Keys[0] && Modes.Lookup(s.selectedMode).Some?
    ensures s.customPrompt == "" && s.chartPrompt == "" && s.chartLabel == ""
    ensures s.chartMode == InitialChartMode && s.activeSegmentIndex == -1
  {
    AppState(
      vidUrl := None, videoDuration := 0.0, file := None, mediaType := None,
      timecodeList := None, textResponse := None, requestedTimecode := None,
      selectedMode := Modes.FirstKey(), activeMode := None, isLoading := false,
      showSidebar := true, isLoadingVideo := false, videoError := None,
      uploadProgress := 0, uploadStatus := "", apiError := None,
      customPrompt := "", chartMode := InitialChartMode, chartPrompt := "",
      chartLabel := "", activeSegmentIndex := -1)
  }

  /** `useAppContext()`: the provider's value, or the error thrown when a
      component is rendered outside any provider (`provided` is `None`). */
  function UseAppContext(provided: Option<AppState>): (r: Result<AppState, string>)
    ensures r.Failure? <==> provided.None?
    ensures r.Failure? ==> r.error == OutsideProviderMessage
    ensures r.Success? ==> r.value == provided.value
  {
    match provided
    case None => Failure(OutsideProviderMessage)
    case Some(s) => Success(s)
  }

  /** The initial chart mode names no Chart preset, so the preset lookup a
      Chart request makes before the user picks a preset finds nothing. */
  lemma InitialChartModeHasNoPreset()
    ensures Modes.FindSubMode(Modes.Lookup("Chart").value.subModes.value, InitialState().chartMode).None?
  {
    Modes.SentimentIsNotAPreset();
  }
}
