/**
 * The upload widget: drag-and-drop and file-picker selection, the camera
 * overlay and photo capture, the preview and the reset button. Calls it makes
 * to its parent (`onFileSelected`, `onReset`) are recorded in order; the
 * object URL, the camera's answer and the captured blob are inputs.
 */
module FileUpload {
  import opened Wrappers
  import opened Text

  /** A picked or captured file: name, MIME type and an opaque identity of its bytes. */
  datatype File = File(name: string, mimeType: string, blob: nat)

  /** What `URL.createObjectURL` returned; opaque. */
  type ObjectUrl = string

  /** A call from the widget into its parent. */
  datatype Callback = FileSelected(file: File) | ResetRequested

  /** How `getUserMedia` and `video.play()` turn out. */
  datatype CameraResult = Denied | PlayFailed | Playing

  const NotAnImageAlert := "Mohon pilih file gambar"
  const NoCameraAlert := "Kamera tidak tersedia pada perangkat ini."
  const ImageWord := "image"
  const PhotoName := "photo.jpg"
  const JpegType := "image/jpeg"
  const DragEnter := "dragenter"
  const DragOver := "dragover"

  datatype Widget = Widget(
    dragActive: bool,
    previewUrl: Option<ObjectUrl>,
    showCameraOverlay: bool,
    showResetIcon: bool,
      /** the video element holds a running camera stream */
    cameraStream: bool,
      /** camera streams left running with no video element to stop them */
    leakedStreams: nat,
      /** `toBlob` callbacks not yet delivered */
    pendingCaptures: nat,
    calls: seq<Callback>,
    alerts: seq<string>)

  const Mounted := Widget(false, None, false, false, false, 0, 0, [], [])

  /** `type.match("image.*")`: the pattern is unanchored, so any occurrence of "image" matches. */
  predicate IsImageType(mimeType: string)
  {
    Contains(mimeType, ImageWord)
  }

  /** `handleDrag` */
  function OnDrag(w: Widget, eventType: string): (w': Widget)
  {
    w.(dragActive := eventType == DragEnter || eventType == DragOver)
  }

  /** `handleFile` */
  function OnFile(w: Widget, file: File, url: ObjectUrl): (w': Widget)
  {
    if !IsImageType(file.mimeType) then w.(alerts := w.alerts + [NotAnImageAlert])
    else w.(previewUrl := Some(url), calls := w.calls + [FileSelected(file)], showResetIcon := true)
  }

  /** `files && files[0]` */
  function FirstFile(files: Option<seq<File>>): (first: Option<File>)
  {
    if files.Some? && |files.value| > 0 then Some(files.value[0]) else None
  }

  /** `handleDrop` */
  function OnDrop(w: Widget, files: Option<seq<File>>, url: ObjectUrl): (w': Widget)
  {
    var cleared := w.(dragActive := false);
    if FirstFile(files).Some? then OnFile(cleared, FirstFile(files).value, url) else cleared
  }

  /** `handleChange` */
  function OnChange(w: Widget, files: Option<seq<File>>, url: ObjectUrl): (w': Widget)
  {
    if FirstFile(files).Some? then OnFile(w, FirstFile(files).value, url) else w
  }

  /**
   * `startCamera`, taken as one step. A failed `play()` closes the overlay
   * after the stream was attached, so the unmounted video element takes the
   * running stream with it.
   */
  function OnStartCamera(w: Widget, r: CameraResult): (w': Widget)
  {
    var shown := w.(showCameraOverlay := true);
    match r
    case Denied => shown.(alerts := w.alerts + [NoCameraAlert], showCameraOverlay := false)
    case PlayFailed =>
      shown.(alerts := w.alerts + [NoCameraAlert], showCameraOverlay := false,
             cameraStream := false, leakedStreams := w.leakedStreams + 1)
    case Playing => shown.(cameraStream := true)
  }

  /** `stopCamera` */
  function OnStopCamera(w: Widget): (w': Widget)
  {
    w.(cameraStream := false, showCameraOverlay := false)
  }

  /** `capturePhoto`: without a mounted video nothing happens; otherwise a blob is requested and the camera stops. */
  function OnCapture(w: Widget, hasContext: bool): (w': Widget)
  {
    if !w.showCameraOverlay then w
    else OnStopCamera(w.(pendingCaptures := w.pendingCaptures + if hasContext then 1 else 0))
  }

  /** The `toBlob` callback: the photo goes through `handleFile` and then straight to the parent again. */
  function OnPhotoBlob(w: Widget, blob: Option<nat>, url: ObjectUrl): (w': Widget)
    requires w.pendingCaptures > 0
  {
    var taken := w.(pendingCaptures := w.pendingCaptures - 1);
    if blob.None? then taken
    else
      var file := File(PhotoName, JpegType, blob.value);
      var handled := OnFile(taken, file, url);
      handled.(calls := handled.calls + [FileSelected(file)])
  }

  /** `resetUpload` */
  function OnResetUpload(w: Widget): (w': Widget)
  {
    var stopped := OnStopCamera(w.(previewUrl := None, showResetIcon := false));
    stopped.(calls := stopped.calls + [ResetRequested])
  }

  /** The drop zone and picker are rendered exactly when there is no preview. */
  predicate UploadAreaShown(w: Widget)
  {
    w.previewUrl.None?
  }

  /**
   * The widget's invariant: the camera stream is attached exactly while the
   * overlay is shown, and the reset icon is on exactly when a preview is.
   */
  predicate Inv(w: Widget)
  {
    && (w.cameraStream <==> w.showCameraOverlay)
    && (w.showResetIcon <==> w.previewUrl.Some?)
  }

  // ---- Properties of single handlers ----

  /** A MIME type is accepted exactly when "image" occurs in it, anywhere and in that case. */
  lemma ImageTypeIff(mimeType: string)
    ensures IsImageType(mimeType) <==> exists i :: OccursAt(mimeType, ImageWord, i)
  {
    ContainsIff(mimeType, ImageWord);
  }

  lemma ImageTypeExamples()
    ensures IsImageType("image/png")
  {
    assert StartsWith("image/png", ImageWord);
  }

  /** The check is unanchored: "image" may occur anywhere in the type. */
  lemma ImageTypeUnanchored()
    ensures IsImageType("application/x-image")
  {
    var t := "application/x-image";
    assert t[14..] == ImageWord;
    SuffixContains(t, 14, ImageWord);
  }

  /** The check is case-sensitive: an upper-case type is rejected. */
  lemma ImageTypeCaseSensitive()
    ensures !IsImageType("IMAGE/PNG")
  {
    NotContainsWithoutFirstChar("IMAGE/PNG", ImageWord);
  }

  /** `handleDrag` marks the zone active exactly on "dragenter" and "dragover". */
  lemma HandleDragIff(w: Widget, eventType: string)
    ensures OnDrag(w, eventType).dragActive <==> eventType == DragEnter || eventType == DragOver
    ensures OnDrag(w, eventType).(dragActive := w.dragActive) == w
  {
  }

  /**
   * A rejected file only raises the alert; an accepted one sets the preview,
   * calls `onFileSelected` exactly once and shows the reset icon.
   */
  lemma HandleFileEffect(w: Widget, file: File, url: ObjectUrl)
    ensures !IsImageType(file.mimeType) ==>
      OnFile(w, file, url) == w.(alerts := w.alerts + [NotAnImageAlert])
    ensures IsImageType(file.mimeType) ==>
      && OnFile(w, file, url).previewUrl == Some(url)
      && OnFile(w, file, url).calls == w.calls + [FileSelected(file)]
      && OnFile(w, file, url).showResetIcon
      && OnFile(w, file, url).alerts == w.alerts
      && OnFile(w, file, url).showCameraOverlay == w.showCameraOverlay
  {
  }

  /** A drop clears the drag highlight and hands over the first file only, if there is one. */
  lemma HandleDropEffect(w: Widget, files: Option<seq<File>>, url: ObjectUrl)
    ensures !OnDrop(w, files, url).dragActive
    ensures files.Some? && |files.value| > 0 ==>
      OnDrop(w, files, url) == OnFile(w.(dragActive := false), files.value[0], url)
    ensures (files.None? || files.value == []) ==> OnDrop(w, files, url) == w.(dragActive := false)
    ensures files.Some? && |files.value| > 0 ==>
      OnChange(w, files, url) == OnFile(w, files.value[0], url)
    ensures (files.None? || files.value == []) ==> OnChange(w, files, url) == w
  {
  }

  /**
   * Opening the camera shows the overlay only when the stream plays; on either
   * failure the overlay is closed again and the alert raised.
   */
  lemma StartCameraEffect(w: Widget, r: CameraResult)
    ensures OnStartCamera(w, r).showCameraOverlay <==> r == Playing
    ensures r != Playing ==> OnStartCamera(w, r).alerts == w.alerts + [NoCameraAlert]
    ensures OnStartCamera(w, r).calls == w.calls && OnStartCamera(w, r).previewUrl == w.previewUrl
    ensures r == PlayFailed ==> OnStartCamera(w, r).leakedStreams == w.leakedStreams + 1
    ensures r != PlayFailed ==> OnStartCamera(w, r).leakedStreams == w.leakedStreams
  {
  }

  /** Capturing closes the overlay and stops the attached stream at once. */
  lemma CaptureClosesCamera(w: Widget, hasContext: bool)
    requires w.showCameraOverlay
    ensures !OnCapture(w, hasContext).showCameraOverlay && !OnCapture(w, hasContext).cameraStream
    ensures OnCapture(w, hasContext).calls == w.calls
    ensures OnCapture(w, hasContext).pendingCaptures == w.pendingCaptures + (if hasContext then 1 else 0)
  {
  }

  /** One captured photo reaches the parent twice: once through `handleFile` and once directly. */
  lemma PhotoSelectedTwice(w: Widget, blob: nat, url: ObjectUrl)
    requires w.pendingCaptures > 0
    ensures var f := File(PhotoName, JpegType, blob);
      OnPhotoBlob(w, Some(blob), url).calls == w.calls + [FileSelected(f), FileSelected(f)]
    ensures OnPhotoBlob(w, Some(blob), url).previewUrl == Some(url)
  {
    assert StartsWith(JpegType, ImageWord);
  }

  /** Resetting clears the preview and the reset icon, closes the overlay and calls `onReset` once. */
  lemma ResetUploadEffect(w: Widget)
    ensures var r := OnResetUpload(w);
      && r.previewUrl.None? && !r.showResetIcon && !r.showCameraOverlay && !r.cameraStream
      && r.calls == w.calls + [ResetRequested]
      && UploadAreaShown(r)
  {
  }

  // ---- Any sequence of events ----

  datatype WidgetEvent =
    | Dragged(eventType: string)
    | Dropped(dropped: Option<seq<File>>, dropUrl: ObjectUrl)
    | Changed(picked: Option<seq<File>>, pickUrl: ObjectUrl)
    | CameraOpened(result: CameraResult)
    | CameraClosed
    | Captured(hasContext: bool)
    | BlobArrived(blob: Option<nat>, blobUrl: ObjectUrl)
    | ResetClicked

  /**
   * Whether the element the event comes from is on screen: the drop zone, the
   * file input and the camera button live in the upload area, the capture and
   * close buttons in the overlay, and the full-screen overlay covers the rest.
   */
  predicate Reachable(w: Widget, e: WidgetEvent)
  {
    match e
    case Dragged(_) => UploadAreaShown(w) && !w.showCameraOverlay
    case Dropped(_, _) => UploadAreaShown(w) && !w.showCameraOverlay
    case Changed(_, _) => UploadAreaShown(w) && !w.showCameraOverlay
    case CameraOpened(_) => UploadAreaShown(w) && !w.showCameraOverlay
    case CameraClosed => w.showCameraOverlay
    case Captured(_) => w.showCameraOverlay
    case BlobArrived(_, _) => w.pendingCaptures > 0
    case ResetClicked => !UploadAreaShown(w) && w.showResetIcon && !w.showCameraOverlay
  }

  /** An event from an element that is not on screen changes nothing. */
  function Step(w: Widget, e: WidgetEvent): (w': Widget)
  {
    if !Reachable(w, e) then w else
    match e
    case Dragged(t) => OnDrag(w, t)
    case Dropped(fs, u) => OnDrop(w, fs, u)
    case Changed(fs, u) => OnChange(w, fs, u)
    case CameraOpened(r) => OnStartCamera(w, r)
    case CameraClosed => OnStopCamera(w)
    case Captured(ctx) => OnCapture(w, ctx)
    case BlobArrived(b, u) => OnPhotoBlob(w, b, u)
    case ResetClicked => OnResetUpload(w)
  }

  function Run(w: Widget, es: seq<WidgetEvent>): (w': Widget)
    decreases |es|
  {
    if es == [] then w else Run(Step(w, es[0]), es[1..])
  }

  lemma StepPreservesInv(w: Widget, e: WidgetEvent)
    requires Inv(w)
    ensures Inv(Step(w, e))
    ensures w.calls <= Step(w, e).calls && w.alerts <= Step(w, e).alerts
    ensures w.leakedStreams <= Step(w, e).leakedStreams
  {
  }

  /**
   * Under every sequence of events the invariant holds, calls to the parent
   * and alerts are only ever appended, and a leaked camera stream is never
   * released.
   */
  lemma {:induction false} RunPreservesInv(w: Widget, es: seq<WidgetEvent>)
    requires Inv(w)
    ensures Inv(Run(w, es))
    ensures w.calls <= Run(w, es).calls && w.alerts <= Run(w, es).alerts
    ensures w.leakedStreams <= Run(w, es).leakedStreams
    decreases |es|
  {
    if es != [] {
      StepPreservesInv(w, es[0]);
      RunPreservesInv(Step(w, es[0]), es[1..]);
    }
  }

  // ---- The component's state, updated in place ----

  class UploadWidget {
    var dragActive: bool
    var previewUrl: Option<ObjectUrl>
    var showCameraOverlay: bool
    var showResetIcon: bool
    var cameraStream: bool
    var leakedStreams: nat
    var pendingCaptures: nat
    var calls: seq<Callback>
    var alerts: seq<string>

    function State(): (w: Widget)
      reads this
    {
      Widget(dragActive, previewUrl, showCameraOverlay, showResetIcon, cameraStream,
             leakedStreams, pendingCaptures, calls, alerts)
    }

    constructor ()
      ensures State() == Mounted && Inv(State())
    {
      dragActive, previewUrl, showCameraOverlay, showResetIcon := false, None, false, false;
      cameraStream, leakedStreams, pendingCaptures := false, 0, 0;
      calls, alerts := [], [];
    }

    method HandleDrag(eventType: string)
      modifies this
      ensures State() == OnDrag(old(State()), eventType)
    {
      dragActive := eventType == DragEnter || eventType == DragOver;
    }

    method HandleDrop(files: Option<seq<File>>, url: ObjectUrl)
      modifies this
      ensures State() == OnDrop(old(State()), files, url)
    {
      dragActive := false;
      if files.Some? && |files.value| > 0 {
        HandleFile(files.value[0], url);
      }
    }

    method HandleChange(files: Option<seq<File>>, url: ObjectUrl)
      modifies this
      ensures State() == OnChange(old(State()), files, url)
    {
      if files.Some? && |files.value| > 0 {
        HandleFile(files.value[0], url);
      }
    }

    method HandleFile(file: File, url: ObjectUrl)
      modifies this
      ensures State() == OnFile(old(State()), file, url)
    {
      if !IsImageType(file.mimeType) {
        alerts := alerts + [NotAnImageAlert];
        return;
      }
      previewUrl := Some(url);
      calls := calls + [FileSelected(file)];
      showResetIcon := true;
    }

    method StartCamera(r: CameraResult)
      modifies this
      ensures State() == OnStartCamera(old(State()), r)
    {
      showCameraOverlay := true;
      if r == Denied {
        alerts := alerts + [NoCameraAlert];
        showCameraOverlay := false;
        return;
      }
      cameraStream := true;
      if r == PlayFailed {
        alerts := alerts + [NoCameraAlert];
        showCameraOverlay := false;
        // closing the overlay unmounts the video element while its stream still runs
        cameraStream := false;
        leakedStreams := leakedStreams + 1;
      }
    }

    method StopCamera()
      modifies this
      ensures State() == OnStopCamera(old(State()))
    {
      if cameraStream {
        cameraStream := false;
      }
      showCameraOverlay := false;
    }

    method CapturePhoto(hasContext: bool)
      modifies this
      ensures State() == OnCapture(old(State()), hasContext)
    {
      if !showCameraOverlay {
        return;
      }
      if hasContext {
        pendingCaptures := pendingCaptures + 1;
      }
      StopCamera();
    }

    method PhotoBlobReady(blob: Option<nat>, url: ObjectUrl)
      requires pendingCaptures > 0
      modifies this
      ensures State() == OnPhotoBlob(old(State()), blob, url)
    {
      pendingCaptures := pendingCaptures - 1;
      if blob.Some? {
        var file := File(PhotoName, JpegType, blob.value);
        HandleFile(file, url);
        calls := calls + [FileSelected(file)];
      }
    }

    method ResetUpload()
      modifies this
      ensures State() == OnResetUpload(old(State()))
    {
      previewUrl := None;
      showResetIcon := false;
      StopCamera();
      calls := calls + [ResetRequested];
    }
  }
}
