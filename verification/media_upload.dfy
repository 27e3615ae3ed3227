/** `handleFileUpload` of App.tsx, with the unmount clean-up beside it: the
    media-type check, the reset of the session, the replacement of the
    object URL that backs the player, the upload with its progress and
    status reports, and the outcome.

    `URL.createObjectURL` is an oracle: `newUrl` is the URL it returns. The
    upload is the `Upload` model, driven by the file service's answers
    `polls`. Only the state writes are traced; the suspensions inside the
    upload belong to the `Upload` trace. */
module MediaUpload {
  import opened Wrappers
  import opened Types
  import opened Strings
  import opened Context
  import opened Effects
  import Upload

  const VideoPrefix := "video/"
  const AudioPrefix := "audio/"
  const InvalidTypeMessage := "Invalid file type. Please upload a video or audio file."

  /** The dropped or picked `File`: its name and MIME type. */
  datatype LocalFile = LocalFile(name: string, fileType: string)

  predicate IsVideo(f: LocalFile) {
    StartsWith(f.fileType, VideoPrefix)
  }

  predicate IsAudio(f: LocalFile) {
    StartsWith(f.fileType, AudioPrefix)
  }

  /** No MIME type is both video and audio. */
  lemma NotBoth(f: LocalFile)
    ensures !(IsVideo(f) && IsAudio(f))
  {
  }

  /** The media type a file is accepted as, if any. */
  function MediaKind(f: LocalFile): (k: Option<MediaType>)
    ensures k == Some(Video) <==> IsVideo(f)
    ensures k == Some(Audio) <==> IsAudio(f)
    ensures k.None? <==> !IsVideo(f) && !IsAudio(f)
  {
    NotBoth(f);
    if IsVideo(f) then Some(Video) else if IsAudio(f) then Some(Audio) else None
  }

  /** The writes before the upload: loading on, every earlier file, result
      and error cleared, progress and duration zeroed, the media type set. */
  function ResetWrites(kind: MediaType): seq<Effect> {
    [SetLoadingVideo(true), SetVideoError(None), SetFile(None)]
      + [SetTimecodeList(None), SetTextResponse(None), SetApiError(None)]
      + [SetUploadProgress(0), SetVideoDuration(0.0), SetMediaType(Some(kind))]
  }

  /** Revoke the URL `vidUrlRef` holds (when truthy), create the new one,
      show it. */
  function UrlSwap(vidUrlRef: Option<string>, newUrl: string): seq<Effect> {
    (if Truthy(vidUrlRef) then [RevokeObjectUrl(vidUrlRef.value)] else [])
      + [CreateObjectUrl(newUrl), SetVidUrl(Some(newUrl))]
  }

  /** The upload's reports, passed to `setUploadProgress` and
      `setUploadStatus`. */
  function ReportWrites(t: seq<Upload.UploadEvent>): (w: seq<Effect>)
    ensures |w| <= |t|
    ensures forall q | 0 <= q < |w| :: w[q].SetUploadProgress? || w[q].SetUploadStatus?
  {
    if t == [] then []
    else
      (match t[0]
       case Progress(p) => [SetUploadProgress(p)]
       case Status(s) => [SetUploadStatus(s)]
       case _ => [])
      + ReportWrites(t[1..])
  }

  /** `setFile(res)` or, in the `catch`, `setVideoError(e.message)`. */
  function OutcomeWrites(result: Result<UploadedFile, string>): seq<Effect> {
    match result
    case Success(h) => [SetFile(Some(h))]
    case Failure(message) => [SetVideoError(Some(message))]
  }

  /** The `finally` block. */
  function FinallyWrites(): seq<Effect> {
    [SetLoadingVideo(false), SetUploadProgress(0)]
  }

  /** `handleFileUpload(fileToUpload)` with `vidUrlRef.current` as it is when
      the handler starts. */
  function HandleFileUpload(vidUrlRef: Option<string>, picked: Option<LocalFile>, newUrl: string, polls: seq<UploadedFile>): (r: seq<Effect>)
    requires Upload.Answers(polls)
    ensures picked.None? <==> r == []
    ensures picked.Some? && MediaKind(picked.value).None? ==> r == [SetVideoError(Some(InvalidTypeMessage))]
    ensures picked.Some? && MediaKind(picked.value).Some? ==>
      && |r| >= 14 && r[0] == SetLoadingVideo(true)
      && r[|r| - 2] == SetLoadingVideo(false) && r[|r| - 1] == SetUploadProgress(0)
  {
    match picked
    case None => []
    case Some(f) =>
      match MediaKind(f)
      case None => [SetVideoError(Some(InvalidTypeMessage))]
      case Some(kind) =>
        var run := Upload.UploadFile(polls);
        ResetWrites(kind) + UrlSwap(vidUrlRef, newUrl) + ReportWrites(run.trace)
          + OutcomeWrites(run.result) + FinallyWrites()
  }

  /** The clean-up of the mount effect. */
  function Unmount(vidUrlRef: Option<string>): (r: seq<Effect>)
    ensures Truthy(vidUrlRef) ==> r == [RevokeObjectUrl(vidUrlRef.value)]
    ensures !Truthy(vidUrlRef) ==> r == []
  {
    if Truthy(vidUrlRef) then [RevokeObjectUrl(vidUrlRef.value)] else []
  }

  // ---------------------------------------------------------------------
  // What each part does to the machine
  // ---------------------------------------------------------------------

  /** Performing three effects in a row. */
  lemma ApplyAllThreeTriples(m: Machine, x: seq<Effect>, y: seq<Effect>, z: seq<Effect>)
    requires |x| == 3 && |y| == 3 && |z| == 3
    ensures ApplyAll(m, x + y + z)
      == ApplyAll(ApplyAll(ApplyAll(m, x), y), z)
  {
    ApplyAllConcat(m, x + y, z);
    ApplyAllConcat(m, x, y);
  }

  lemma ResetEffect(m: Machine, kind: MediaType)
    ensures ApplyAll(m, ResetWrites(kind)) == m.(ui := m.ui.(
      isLoadingVideo := true, videoError := None, file := None,
      timecodeList := None, textResponse := None, apiError := None,
      uploadProgress := 0, videoDuration := 0.0, mediaType := Some(kind)))
  {
    var x := [SetLoadingVideo(true), SetVideoError(None), SetFile(None)];
    var y := [SetTimecodeList(None), SetTextResponse(None), SetApiError(None)];
    var z := [SetUploadProgress(0), SetVideoDuration(0.0), SetMediaType(Some(kind))];
    ApplyAllThreeTriples(m, x, y, z);
    var m1 := ApplyAll(m, x);
    var m2 := ApplyAll(m1, y);
    ResetFileEffect(m);
    ClearResultsEffect(m1);
    ResetMediaEffect(m2, kind);
  }

  lemma ResetFileEffect(m: Machine)
    ensures ApplyAll(m, [SetLoadingVideo(true), SetVideoError(None), SetFile(None)])
      == m.(ui := m.ui.(isLoadingVideo := true, videoError := None, file := None))
  {
    ApplyAllThree(m, SetLoadingVideo(true), SetVideoError(None), SetFile(None));
  }

  lemma ResetMediaEffect(m: Machine, kind: MediaType)
    ensures ApplyAll(m, [SetUploadProgress(0), SetVideoDuration(0.0), SetMediaType(Some(kind))])
      == m.(ui := m.ui.(uploadProgress := 0, videoDuration := 0.0, mediaType := Some(kind)))
  {
    ApplyAllThree(m, SetUploadProgress(0), SetVideoDuration(0.0), SetMediaType(Some(kind)));
  }

  /** The URL held before is released (when truthy), the new one is live,
      held in `vidUrlRef` and shown. */
  lemma UrlSwapEffect(m: Machine, vidUrlRef: Option<string>, newUrl: string)
    ensures ApplyAll(m, UrlSwap(vidUrlRef, newUrl)) == m.(
      ui := m.ui.(vidUrl := Some(newUrl)),
      vidUrlRef := Some(newUrl),
      liveUrls := (if Truthy(vidUrlRef) then m.liveUrls - {vidUrlRef.value} else m.liveUrls) + {newUrl})
  {
    var create := [CreateObjectUrl(newUrl), SetVidUrl(Some(newUrl))];
    if Truthy(vidUrlRef) {
      var revoke := RevokeObjectUrl(vidUrlRef.value);
      assert UrlSwap(vidUrlRef, newUrl) == [revoke] + create;
      ApplyAllCons(m, revoke, create);
      CreateAndShowEffect(Apply(m, revoke), newUrl);
    } else {
      assert UrlSwap(vidUrlRef, newUrl) == create;
      CreateAndShowEffect(m, newUrl);
    }
  }

  /** Creating the new URL and showing it. */
  lemma CreateAndShowEffect(m: Machine, newUrl: string)
    ensures ApplyAll(m, [CreateObjectUrl(newUrl), SetVidUrl(Some(newUrl))]) == m.(
      ui := m.ui.(vidUrl := Some(newUrl)), vidUrlRef := Some(newUrl), liveUrls := m.liveUrls + {newUrl})
  {
    var c, v := CreateObjectUrl(newUrl), SetVidUrl(Some(newUrl));
    assert [c, v] == [c] + [v];
    ApplyAllCons(m, c, [v]);
    ApplyAllSingle(Apply(m, c), v);
  }

  /** The last element of `s`, or `d` when `s` is empty. */
  function LastOr<T>(s: seq<T>, d: T): T {
    if s == [] then d else s[|s| - 1]
  }

  lemma LastOrConcat<T>(a: seq<T>, b: seq<T>, d: T)
    ensures LastOr(a + b, d) == LastOr(b, LastOr(a, d))
  {
    if b == [] {
      assert a + b == a;
    }
  }

  /** The reports leave the last progress and the last status reported, and
      touch nothing else. */
  lemma {:induction false} ReportEffect(m: Machine, t: seq<Upload.UploadEvent>)
    ensures ApplyAll(m, ReportWrites(t)) == m.(ui := m.ui.(
      uploadProgress := LastOr(Upload.ProgressReports(t), m.ui.uploadProgress),
      uploadStatus := LastOr(Upload.StatusReports(t), m.ui.uploadStatus)))
    decreases |t|
  {
    if t != [] {
      var head := ReportWrites([t[0]]);
      assert [t[0]][1..] == [];
      assert ReportWrites(t) == head + ReportWrites(t[1..]);
      ApplyAllConcat(m, head, ReportWrites(t[1..]));
      var m1 := ApplyAll(m, head);
      assert m1 == m.(ui := m.ui.(
        uploadProgress := LastOr(Upload.ProgressReports([t[0]]), m.ui.uploadProgress),
        uploadStatus := LastOr(Upload.StatusReports([t[0]]), m.ui.uploadStatus))) by {
        Upload.OneEvent(t[0]);
        if head != [] {
          ApplyAllSingle(m, head[0]);
        }
      }
      ReportEffect(m1, t[1..]);
      assert t == [t[0]] + t[1..];
      Upload.ProjectionsConcat([t[0]], t[1..]);
      LastOrConcat(Upload.ProgressReports([t[0]]), Upload.ProgressReports(t[1..]), m.ui.uploadProgress);
      LastOrConcat(Upload.StatusReports([t[0]]), Upload.StatusReports(t[1..]), m.ui.uploadStatus);
    }
  }

  /** The status an upload leaves: 'Processing complete' on success, else
      'Processing media...'. */
  function FinalStatus(result: Result<UploadedFile, string>): string {
    if result.Success? then Upload.CompleteStatus else Upload.ProcessingStatus
  }

  /** The upload's reports, whatever the answers, end with the final
      status. */
  lemma UploadReportsEffect(m: Machine, polls: seq<UploadedFile>)
    requires Upload.Answers(polls)
    ensures ApplyAll(m, ReportWrites(Upload.UploadFile(polls).trace)).ui.uploadStatus
      == FinalStatus(Upload.UploadFile(polls).result)
    ensures ApplyAll(m, ReportWrites(Upload.UploadFile(polls).trace))
      == m.(ui := m.ui.(
        uploadProgress := ApplyAll(m, ReportWrites(Upload.UploadFile(polls).trace)).ui.uploadProgress,
        uploadStatus := FinalStatus(Upload.UploadFile(polls).result)))
  {
    var run := Upload.UploadFile(polls);
    ReportEffect(m, run.trace);
    Upload.StatusOrder(polls);
  }

  /** The session after an accepted file's upload has ended. */
  function Uploaded(m: Machine, kind: MediaType, newUrl: string, result: Result<UploadedFile, string>): Machine {
    m.(
      ui := m.ui.(
        isLoadingVideo := false,
        videoError := if result.Failure? then Some(result.error) else None,
        file := if result.Success? then Some(result.value) else None,
        timecodeList := None, textResponse := None, apiError := None,
        uploadProgress := 0, uploadStatus := FinalStatus(result),
        videoDuration := 0.0, mediaType := Some(kind), vidUrl := Some(newUrl)),
      vidUrlRef := Some(newUrl),
      liveUrls := (if Truthy(m.vidUrlRef) then m.liveUrls - {m.vidUrlRef.value} else m.liveUrls) + {newUrl})
  }

  /** The outcome write followed by the `finally` block: the handle or the
      message is stored, loading ends and progress returns to 0. */
  lemma SettleEffect(m: Machine, result: Result<UploadedFile, string>)
    ensures ApplyAll(m, OutcomeWrites(result) + FinallyWrites()) == m.(ui := m.ui.(
      videoError := if result.Failure? then Some(result.error) else m.ui.videoError,
      file := if result.Success? then Some(result.value) else m.ui.file,
      isLoadingVideo := false, uploadProgress := 0))
  {
    var o := OutcomeWrites(result);
    var m1 := Apply(m, o[0]);
    FinallyEffect(m1);
    ApplyAllCons(m, o[0], FinallyWrites());
    assert o + FinallyWrites() == [o[0]] + FinallyWrites();
    if result.Success? {
      assert m1 == m.(ui := m.ui.(file := Some(result.value)));
    } else {
      assert m1 == m.(ui := m.ui.(videoError := Some(result.error)));
    }
  }

  /** The `finally` block ends loading and resets progress. */
  lemma FinallyEffect(m: Machine)
    ensures ApplyAll(m, FinallyWrites()) == m.(ui := m.ui.(isLoadingVideo := false, uploadProgress := 0))
  {
    var f := FinallyWrites();
    ApplyAllCons(m, f[0], [f[1]]);
    assert f == [f[0]] + [f[1]];
    ApplyAllSingle(Apply(m, f[0]), f[1]);
  }

  // ---------------------------------------------------------------------
  // Properties of the handler
  // ---------------------------------------------------------------------

  /** Without a file the handler does nothing; with a file of any other
      type it only reports the invalid type. */
  lemma RejectedFile(m: Machine, picked: Option<LocalFile>, newUrl: string, polls: seq<UploadedFile>)
    requires Upload.Answers(polls)
    requires picked.None? || MediaKind(picked.value).None?
    ensures picked.None? ==> ApplyAll(m, HandleFileUpload(m.vidUrlRef, picked, newUrl, polls)) == m
    ensures picked.Some? ==>
      ApplyAll(m, HandleFileUpload(m.vidUrlRef, picked, newUrl, polls)) == m.(ui := m.ui.(videoError := Some(InvalidTypeMessage)))
  {
    if picked.Some? {
      ApplyAllSingle(m, SetVideoError(Some(InvalidTypeMessage)));
    }
  }

  /** An accepted file ends the handler with the loading flag off, progress
      0, earlier results cleared, the media type and new URL set, and either
      the returned handle stored (and no video error) or the thrown
      message as the video error (and no file); the previous URL is
      released and only the new one added. */
  lemma AcceptedFile(m: Machine, f: LocalFile, newUrl: string, polls: seq<UploadedFile>)
    requires Upload.Answers(polls)
    requires MediaKind(f).Some?
    ensures ApplyAll(m, HandleFileUpload(m.vidUrlRef, Some(f), newUrl, polls))
      == Uploaded(m, MediaKind(f).value, newUrl, Upload.UploadFile(polls).result)
  {
    var kind := MediaKind(f).value;
    var run := Upload.UploadFile(polls);
    var a := ResetWrites(kind);
    var b := UrlSwap(m.vidUrlRef, newUrl);
    var c := ReportWrites(run.trace);
    var d := OutcomeWrites(run.result) + FinallyWrites();
    assert HandleFileUpload(m.vidUrlRef, Some(f), newUrl, polls) == a + b + c + d;
    ApplyAllConcat(m, a + b + c, d);
    ApplyAllConcat(m, a + b, c);
    ApplyAllConcat(m, a, b);
    ResetEffect(m, kind);
    var m1 := ApplyAll(m, a);
    UrlSwapEffect(m1, m.vidUrlRef, newUrl);
    var m2 := ApplyAll(m1, b);
    UploadReportsEffect(m2, polls);
    var m3 := ApplyAll(m2, c);
    SettleEffect(m3, run.result);
  }

  /** Uploading never touches `latestRequestRef`: a generation request
      started for the previous file stays current and still applies its
      outcome after the upload has cleared the results. */
  lemma UploadKeepsRequestToken(m: Machine, picked: Option<LocalFile>, newUrl: string, polls: seq<UploadedFile>)
    requires Upload.Answers(polls)
    ensures ApplyAll(m, HandleFileUpload(m.vidUrlRef, picked, newUrl, polls)).latestRequest == m.latestRequest
  {
    if picked.None? || MediaKind(picked.value).None? {
      RejectedFile(m, picked, newUrl, polls);
    } else {
      AcceptedFile(m, picked.value, newUrl, polls);
    }
  }

  // ---------------------------------------------------------------------
  // The object-URL ledger
  // ---------------------------------------------------------------------

  /** At most one object URL is live, and it is the one `vidUrlRef` holds
      (object URLs are never empty, so a held URL is truthy). */
  predicate LedgerOk(m: Machine) {
    match m.vidUrlRef
    case None => m.liveUrls == {}
    case Some(u) => u != "" && m.liveUrls == {u}
  }

  lemma InitialLedger()
    ensures LedgerOk(InitialMachine())
  {
  }

  /** Every upload, accepted or not, keeps the ledger: the URL it replaces
      is released before the new one becomes the only live URL. */
  lemma UploadKeepsLedger(m: Machine, picked: Option<LocalFile>, newUrl: string, polls: seq<UploadedFile>)
    requires Upload.Answers(polls)
    requires LedgerOk(m) && newUrl != ""
    ensures LedgerOk(ApplyAll(m, HandleFileUpload(m.vidUrlRef, picked, newUrl, polls)))
    ensures |ApplyAll(m, HandleFileUpload(m.vidUrlRef, picked, newUrl, polls)).liveUrls| <= 1
  {
    if picked.None? || MediaKind(picked.value).None? {
      RejectedFile(m, picked, newUrl, polls);
    } else {
      AcceptedFile(m, picked.value, newUrl, polls);
    }
  }

  /** Unmounting releases every live object URL. */
  lemma UnmountReleasesAll(m: Machine)
    requires LedgerOk(m)
    ensures ApplyAll(m, Unmount(m.vidUrlRef)).liveUrls == {}
  {
    if Truthy(m.vidUrlRef) {
      ApplyAllSingle(m, RevokeObjectUrl(m.vidUrlRef.value));
    }
  }
}
