/**
 * The "New Chat" upload page: a list of files queued for upload, filled from
 * the file picker or drop zone (after validation) and from the recent-upload
 * cards, and emptied by the reset button. Uploading sends the first queued
 * file; `uploadPDF`'s result (a chat id or null) is a parameter.
 */
module UploadPdf {
  import opened Wrappers
  import opened Text
  import opened Ui

  /** A browser File as the picker or the drop zone hands it over. */
  datatype PickedFile = PickedFile(name: string, mimeType: string, size: nat)

  /** A card in the "Recent Uploads" column. */
  datatype RecentFile = RecentFile(id: nat, name: string, date: string, size: string)

  /** An entry of the upload list: a validated File, or the stub a recent-upload card adds. */
  datatype QueuedFile = Picked(file: PickedFile) | FromRecent(recentName: string, recentSize: string)
  {
    function Name(): string
    {
      match this
      case Picked(f) => f.name
      case FromRecent(n, _) => n
    }
  }

  const PdfType := "application/pdf"
  const MaxBytes: nat := 10 * 1024 * 1024
  const UploadingNotice := "Uploading PDF..."
  const UploadedNotice := "PDF uploaded successfully!"
  const UploadFailedNotice := "Failed to upload PDF."

  /**
   * Why a file is refused, if it is. The type is checked first, so a file that
   * is not a PDF is never also reported as too large; exactly 10 MiB passes.
   */
  function Rejection(f: PickedFile): (r: Option<string>)
    ensures f.mimeType != PdfType ==> r == Some(f.name + ": Not a PDF file")
    ensures f.mimeType == PdfType && f.size > MaxBytes ==> r == Some(f.name + ": File exceeds 10MB limit")
    ensures r.None? <==> f.mimeType == PdfType && f.size <= MaxBytes
  {
    if f.mimeType != PdfType then Some(f.name + ": Not a PDF file")
    else if f.size > MaxBytes then Some(f.name + ": File exceeds 10MB limit")
    else None
  }

  /** The files that pass validation, in selection order. */
  function Accepted(selected: seq<PickedFile>): (r: seq<PickedFile>)
    ensures |r| <= |selected|
    ensures forall i :: 0 <= i < |r| ==> r[i].mimeType == PdfType && r[i].size <= MaxBytes
    ensures forall f :: f in r <==> f in selected && Rejection(f).None?
  {
    if selected == [] then []
    else
      var init := selected[..|selected| - 1];
      var last := selected[|selected| - 1];
      assert selected == init + [last];
      Accepted(init) + (if Rejection(last).None? then [last] else [])
  }

  /** The rejection messages, in selection order. */
  function Rejections(selected: seq<PickedFile>): (r: seq<string>)
    ensures |r| <= |selected|
    ensures forall m :: m in r <==> exists f :: f in selected && Rejection(f) == Some(m)
  {
    if selected == [] then []
    else
      var init := selected[..|selected| - 1];
      var last := selected[|selected| - 1];
      assert selected == init + [last];
      Rejections(init) + (if Rejection(last).Some? then [Rejection(last).value] else [])
  }

  /** Every selected file is either accepted or rejected, never both. */
  lemma {:induction false} AcceptedOrRejected(selected: seq<PickedFile>)
    ensures |Accepted(selected)| + |Rejections(selected)| == |selected|
  {
    if selected != [] {
      AcceptedOrRejected(selected[..|selected| - 1]);
    }
  }

  /** Validating two batches one after the other accepts what validating them together would. */
  lemma {:induction false} AcceptedConcat(a: seq<PickedFile>, b: seq<PickedFile>)
    ensures Accepted(a + b) == Accepted(a) + Accepted(b)
    decreases |b|
  {
    if b == [] {
      assert a + b == a;
    } else {
      var b', x := b[..|b| - 1], b[|b| - 1];
      assert (a + b)[..|a + b| - 1] == a + b' && (a + b)[|a + b| - 1] == x;
      AcceptedConcat(a, b');
    }
  }

  /** Validating two batches one after the other rejects, in order, what validating them together would. */
  lemma {:induction false} RejectionsConcat(a: seq<PickedFile>, b: seq<PickedFile>)
    ensures Rejections(a + b) == Rejections(a) + Rejections(b)
    decreases |b|
  {
    if b == [] {
      assert a + b == a;
    } else {
      var b', x := b[..|b| - 1], b[|b| - 1];
      assert (a + b)[..|a + b| - 1] == a + b' && (a + b)[|a + b| - 1] == x;
      RejectionsConcat(a, b');
    }
  }

  /**
   * validateAndSetFiles' loop: one pass over the selection that pushes each
   * file onto `validFiles` or its message onto `errors`.
   */
  method Classify(selected: seq<PickedFile>) returns (validFiles: seq<PickedFile>, errors: seq<string>)
    ensures validFiles == Accepted(selected)
    ensures errors == Rejections(selected)
  {
    validFiles, errors := [], [];
    var i := 0;
    while i < |selected|
      invariant 0 <= i <= |selected|
      invariant validFiles == Accepted(selected[..i])
      invariant errors == Rejections(selected[..i])
    {
      var file := selected[i];
      assert selected[..i + 1][..i] == selected[..i];
      var rejection := Rejection(file);
      if rejection.Some? {
        errors := errors + [rejection.value];
      } else {
        validFiles := validFiles + [file];
      }
      i := i + 1;
    }
    assert selected[..|selected|] == selected;
  }

  /** Files as upload-list entries. */
  function Queued(fs: seq<PickedFile>): (r: seq<QueuedFile>)
    ensures |r| == |fs| && forall i :: 0 <= i < |fs| ==> r[i] == Picked(fs[i])
  {
    seq(|fs|, i requires 0 <= i < |fs| => Picked(fs[i]))
  }

  /** The list without the entries called `name`; the others keep their order. */
  function WithoutName(files: seq<QueuedFile>, name: string): (r: seq<QueuedFile>)
    ensures |r| <= |files|
    ensures forall f :: f in r <==> f in files && f.Name() != name
  {
    if files == [] then []
    else (if files[0].Name() == name then [] else [files[0]]) + WithoutName(files[1..], name)
  }

  /** Removing by name distributes over concatenation: the relative order of kept entries is unchanged. */
  lemma {:induction false} WithoutNameConcat(a: seq<QueuedFile>, b: seq<QueuedFile>, name: string)
    ensures WithoutName(a + b, name) == WithoutName(a, name) + WithoutName(b, name)
    decreases |a|
  {
    if a == [] {
      assert a + b == b;
    } else {
      assert (a + b)[0] == a[0] && (a + b)[1..] == a[1..] + b;
      WithoutNameConcat(a[1..], b, name);
    }
  }

  /** Removing a name nobody has changes nothing. */
  lemma {:induction false} WithoutAbsentName(files: seq<QueuedFile>, name: string)
    requires forall i :: 0 <= i < |files| ==> files[i].Name() != name
    ensures WithoutName(files, name) == files
    decreases |files|
  {
    if files != [] {
      WithoutAbsentName(files[1..], name);
      assert [files[0]] + files[1..] == files;
    }
  }

  predicate HasName(files: seq<QueuedFile>, name: string)
  {
    exists i :: 0 <= i < |files| && files[i].Name() == name
  }

  /** The size shown for a recent file added to the list: "Just now" becomes "5.0 MB". */
  function RecentSize(size: string): string
  {
    if size == "Just now" then "5.0 MB" else size
  }

  /** Adding a recent file that was not listed and then removing it by name restores the list. */
  lemma AddThenRemoveRecent(files: seq<QueuedFile>, recent: RecentFile)
    requires !HasName(files, recent.name)
    ensures WithoutName(files + [FromRecent(recent.name, RecentSize(recent.size))], recent.name) == files
  {
    var entry := FromRecent(recent.name, RecentSize(recent.size));
    WithoutNameConcat(files, [entry], recent.name);
    WithoutAbsentName(files, recent.name);
    assert WithoutName([entry], recent.name) == [];
  }

  class UploadPage {
    var files: seq<QueuedFile>
    var isUploading: bool
    var uploadProgress: map<string, nat>
    var error: Option<string>
    var recentFiles: seq<RecentFile>
    var toasts: seq<Toast>

    constructor ()
      ensures files == [] && !isUploading && uploadProgress == map[] && error == None && toasts == []
      ensures recentFiles == [RecentFile(1, "legal-brief-q2.pdf", "3 days ago", "2.1 MB"),
                              RecentFile(2, "contract-draft-v2.pdf", "1 week ago", "3.4 MB")]
    {
      files, isUploading, uploadProgress, error, toasts := [], false, map[], None, [];
      recentFiles := [RecentFile(1, "legal-brief-q2.pdf", "3 days ago", "2.1 MB"),
                      RecentFile(2, "contract-draft-v2.pdf", "1 week ago", "3.4 MB")];
    }

    /**
     * validateAndSetFiles. Accepted files are appended after the current list
     * in selection order (no de-duplication). The error is cleared, then set
     * to the rejection messages joined by ", " if there are any.
     */
    method ValidateAndSetFiles(selected: seq<PickedFile>)
      modifies this`files, this`error
      ensures files == old(files) + Queued(Accepted(selected))
      ensures error == if Rejections(selected) == [] then None else Some(Join(Rejections(selected), ", "))
    {
      error := None;
      var validFiles, errors := Classify(selected);
      if |errors| > 0 {
        error := Some(Join(errors, ", "));
      }
      if |validFiles| > 0 {
        files := files + Queued(validFiles);
      } else {
        assert Queued(validFiles) == [];
      }
    }

    /** handleFileChange and handleDrop: an empty selection is ignored (the error stays as it was). */
    method HandleFiles(selected: seq<PickedFile>)
      modifies this`files, this`error
      ensures selected == [] ==> files == old(files) && error == old(error)
      ensures selected != [] ==> files == old(files) + Queued(Accepted(selected))
      ensures selected != [] ==>
        error == if Rejections(selected) == [] then None else Some(Join(Rejections(selected), ", "))
    {
      if |selected| > 0 {
        ValidateAndSetFiles(selected);
      }
    }

    /** removeFile: drops every entry with that name. */
    method RemoveFile(fileName: string)
      modifies this`files
      ensures files == WithoutName(old(files), fileName)
    {
      files := WithoutName(files, fileName);
    }

    /** addRecentFile: a no-op when the name is already listed, else appends one stub entry. */
    method AddRecentFile(recentFile: RecentFile)
      modifies this`files
      ensures HasName(old(files), recentFile.name) ==> files == old(files)
      ensures !HasName(old(files), recentFile.name) ==>
        files == old(files) + [FromRecent(recentFile.name, RecentSize(recentFile.size))]
    {
      if !HasName(files, recentFile.name) {
        files := files + [FromRecent(recentFile.name, RecentSize(recentFile.size))];
      }
    }

    /** handleReset: empty list, no error, not uploading, no progress. */
    method HandleReset()
      modifies this`files, this`isUploading, this`uploadProgress, this`error
      ensures files == [] && !isUploading && uploadProgress == map[] && error == None
    {
      files := [];
      isUploading := false;
      uploadProgress := map[];
      error := None;
    }

    /**
     * handleUpload. With an empty list nothing happens. Otherwise the first
     * entry is sent (`sent`), the page enters the uploading state (it never
     * leaves it again on this page) and the error is cleared; a non-empty id
     * from `uploadPDF` navigates to "/chats/<id>", anything else raises an error.
     */
    method HandleUpload(uploadedId: Option<string>) returns (sent: Option<QueuedFile>, route: Option<string>)
      modifies this`isUploading, this`error, this`toasts
      ensures old(files) == [] ==>
        sent == None && route == None && isUploading == old(isUploading) && error == old(error) && toasts == old(toasts)
      ensures old(files) != [] ==> sent == Some(old(files)[0]) && isUploading && error == None
      ensures old(files) != [] && uploadedId.Some? && uploadedId.value != "" ==>
        route == Some("/chats/" + uploadedId.value)
        && toasts == old(toasts) + [Toast(Info, UploadingNotice), Toast(Success, UploadedNotice)]
      ensures old(files) != [] && (uploadedId.None? || uploadedId.value == "") ==>
        route == None && toasts == old(toasts) + [Toast(Info, UploadingNotice), Toast(Error, UploadFailedNotice)]
    {
      if |files| == 0 {
        return None, None;
      }
      isUploading := true;
      error := None;
      toasts := toasts + [Toast(Info, UploadingNotice)];
      sent := Some(files[0]);
      if uploadedId.Some? && uploadedId.value != "" {
        route := Some("/chats/" + uploadedId.value);
        toasts := toasts + [Toast(Success, UploadedNotice)];
      } else {
        route := None;
        toasts := toasts + [Toast(Error, UploadFailedNotice)];
      }
    }
  }
}
