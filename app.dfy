/**
 * The page wiring: the upload widget's `onFileSelected` is the controller's
 * `handleFileSelected` and its `onReset` is `handleReset`.
 */
module App {
  import opened Wrappers
  import Home
  import FileUpload

  /** The controller events that a sequence of widget callbacks triggers. */
  function Forward(calls: seq<FileUpload.Callback>): (es: seq<Home.Event>)
    ensures |es| == |calls|
    ensures forall i :: 0 <= i < |calls| ==>
      es[i] == if calls[i].FileSelected? then Home.FileSelected else Home.ResetClicked
  {
    if calls == [] then []
    else [if calls[0].FileSelected? then Home.FileSelected else Home.ResetClicked] + Forward(calls[1..])
  }

  /**
   * A captured photo starts two requests back to back: the first is aborted at
   * once, the second is the stored one and the page shows loading.
   */
  lemma PhotoCaptureStartsTwoRequests(w: FileUpload.Widget, blob: nat, url: FileUpload.ObjectUrl, c: Home.Controller)
    requires w.pendingCaptures > 0 && Home.Inv(c)
    ensures var added := FileUpload.OnPhotoBlob(w, Some(blob), url).calls[|w.calls|..];
      var after := Home.Run(c, Forward(added));
      && after.issued == c.issued + 2
      && c.issued in after.aborted && c.issued + 1 !in after.aborted
      && after.stored == Some(c.issued + 1)
      && after.result.isLoading
  {
    FileUpload.PhotoSelectedTwice(w, blob, url);
    var f := FileUpload.File(FileUpload.PhotoName, FileUpload.JpegType, blob);
    var added := FileUpload.OnPhotoBlob(w, Some(blob), url).calls[|w.calls|..];
    assert added == [FileUpload.FileSelected(f), FileUpload.FileSelected(f)];
    var es := Forward(added);
    assert es == [Home.FileSelected, Home.FileSelected];
    var once := Home.Submit(c);
    assert es[1..] == [Home.FileSelected];
    assert Home.Run(c, es) == Home.Run(once, [Home.FileSelected]);
    assert Home.Run(once, [Home.FileSelected]) == Home.Run(Home.Submit(once), []);
    Home.DoubleSubmitAbortsFirst(c);
  }

  /** The widget's reset button resets the controller exactly once. */
  lemma ResetButtonResetsPage(w: FileUpload.Widget, c: Home.Controller)
    requires Home.Inv(c)
    ensures var added := FileUpload.OnResetUpload(w).calls[|w.calls|..];
      Home.Run(c, Forward(added)) == Home.Reset(c)
  {
    FileUpload.ResetUploadEffect(w);
    var added := FileUpload.OnResetUpload(w).calls[|w.calls|..];
    assert added == [FileUpload.ResetRequested];
    assert Forward(added) == [Home.ResetClicked];
    assert Home.Run(c, [Home.ResetClicked]) == Home.Run(Home.Reset(c), []);
  }
}
