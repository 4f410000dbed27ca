/**
 * The upload area (components/ImageUploader.tsx): a file-type filter in
 * front of the application's upload handler, and the `dragActive` flag that
 * highlights the drop zone while something is dragged over it.
 */
module Uploader {
  import opened Wrappers
  import opened Strings
  import opened AppHelpers
  import opened AppState

  /** The MIME-type prefix of the accepted files. */
  const ImagePrefix := "image/"

  /** Shown (as an alert) when the chosen file is not an image. */
  const NotAnImageMessage := "Vui lòng chỉ chọn " + "tệp hình ảnh."

  /** A file is accepted when its declared MIME type starts with `image/`. */
  predicate IsImageType(mimeType: string)
  {
    StartsWith(mimeType, ImagePrefix)
  }

  /**
   * The file a file list hands to the application: its first file, when
   * there is one and it is an image.
   */
  function AcceptedFile(files: Option<seq<File>>): Option<File>
  {
    if files.Some? && |files.value| > 0 && IsImageType(files.value[0].mimeType) then Some(files.value[0])
    else None
  }

  /** What dragging over the zone does to the highlight. */
  function DragTransition(active: bool, eventType: string): bool
  {
    if eventType == "dragenter" || eventType == "dragover" then true
    else if eventType == "dragleave" then false
    else active
  }

  /**
   * Only the first file of a list counts: the files after it change nothing,
   * and an empty or missing list hands over nothing.
   */
  lemma {:induction false} OnlyFirstFileCounts(first: File, rest: seq<File>)
    ensures AcceptedFile(Some([first] + rest)) == AcceptedFile(Some([first]))
    ensures AcceptedFile(Some([])) == None && AcceptedFile(None) == None
  {
    assert ([first] + rest)[0] == first;
  }

  /** A file is handed over exactly when it is the first one and an image. */
  lemma {:induction false} AcceptedFileIff(files: Option<seq<File>>, f: File)
    ensures AcceptedFile(files) == Some(f)
        <==> files.Some? && |files.value| > 0 && files.value[0] == f && StartsWith(f.mimeType, "image/")
  {
  }

  /**
   * The highlight follows the last enter, over or leave event: one such event
   * decides it, and any other event type keeps it.
   */
  lemma {:induction false} DragLastEventDecides(active: bool, first: string, second: string)
    ensures second in {"dragenter", "dragover", "dragleave"} ==>
              DragTransition(DragTransition(active, first), second) == DragTransition(active, second)
    ensures second !in {"dragenter", "dragover", "dragleave"} ==>
              DragTransition(DragTransition(active, first), second) == DragTransition(active, first)
  {
  }

  /** The state of the upload area. */
  class ImageUploader {
    var dragActive: bool

    /** Nothing is dragged over the zone. */
    constructor()
      ensures !dragActive
    {
      dragActive := false;
    }

    /**
     * `handleFiles`: hand the first file to the application's upload handler
     * when it is an image; a first file of another type raises the alert and
     * leaves the application as it is, and so does an empty list.
     */
    method HandleFiles(files: Option<seq<File>>, app: App) returns (uploaded: Option<File>, alert: Option<string>)
      modifies app`originalImage, app`processedImage, app`error
      ensures uploaded == AcceptedFile(files)
      ensures alert.Some? <==> files.Some? && |files.value| > 0 && uploaded.None?
      ensures alert.Some? ==> alert.value == NotAnImageMessage
      ensures uploaded.Some? ==> app.originalImage == uploaded && app.processedImage == None && app.error == None
      ensures uploaded.None? ==>
                app.originalImage == old(app.originalImage) && app.processedImage == old(app.processedImage)
                && app.error == old(app.error)
    {
      uploaded, alert := None, None;
      if files.Some? && |files.value| > 0 {
        var file := files.value[0];
        if StartsWith(file.mimeType, ImagePrefix) {
          app.HandleImageUpload(file);
          uploaded := Some(file);
        } else {
          alert := Some(NotAnImageMessage);
        }
      }
    }

    /** `handleDrag`: enter and over highlight the zone, leave clears it, other events keep it. */
    method HandleDrag(eventType: string)
      modifies this`dragActive
      ensures dragActive == DragTransition(old(dragActive), eventType)
      ensures eventType == "dragenter" || eventType == "dragover" ==> dragActive
      ensures eventType == "dragleave" ==> !dragActive
      ensures eventType !in {"dragenter", "dragover", "dragleave"} ==> dragActive == old(dragActive)
    {
      if eventType == "dragenter" || eventType == "dragover" {
        dragActive := true;
      } else if eventType == "dragleave" {
        dragActive := false;
      }
    }

    /** `handleDrop`: clear the highlight, then handle the dropped files. */
    method HandleDrop(files: Option<seq<File>>, app: App) returns (uploaded: Option<File>, alert: Option<string>)
      modifies this`dragActive, app`originalImage, app`processedImage, app`error
      ensures !dragActive
      ensures uploaded == AcceptedFile(files)
      ensures alert.Some? <==> files.Some? && |files.value| > 0 && uploaded.None?
      ensures alert.Some? ==> alert.value == NotAnImageMessage
      ensures uploaded.Some? ==> app.originalImage == uploaded && app.processedImage == None && app.error == None
      ensures uploaded.None? ==>
                app.originalImage == old(app.originalImage) && app.processedImage == old(app.processedImage)
                && app.error == old(app.error)
    {
      dragActive := false;
      uploaded, alert := HandleFiles(files, app);
    }
  }
}
