/** The upload page (`frontend/js/upload.js`): `handleFiles` checks each
    chosen file in the browser and uploads the valid ones one at a time. The
    upload request is a parameter `upload` that succeeds or fails with a
    message; the toasts are kept as a list. */
module UploadClient {
  import opened Wrappers
  import opened Text
  import DocumentProcessor
  import Config

  /** A chosen file: its name and its size in bytes. */
  datatype File = File(name: string, size: int)

  /** A toast: its message and whether it is a success toast. */
  datatype Toast = Toast(message: string, success: bool)

  const ValidTypes: seq<string> := ["pdf", "docx", "txt"]
  const MaxSize: int := 10 * 1024 * 1024

  /** `file.name.split('.').pop().toLowerCase()`: the characters after the
      last '.', lower-cased, read from the end of the name. */
  function FileType(name: string): string
    decreases |name|
  {
    if name == [] || name[|name| - 1] == '.' then []
    else FileType(name[..|name| - 1]) + [AsciiLower(name[|name| - 1])]
  }

  /** The characters the extension is read from: the tail of the name after
      its last '.'. */
  function RawType(name: string): (r: string)
    ensures |r| <= |name|
    decreases |name|
  {
    if name == [] || name[|name| - 1] == '.' then []
    else RawType(name[..|name| - 1]) + [name[|name| - 1]]
  }

  lemma {:induction false} RawTypeSpec(name: string)
    ensures IsLastSegment(name, '.', RawType(name))
    decreases |name|
  {
    if name != [] && name[|name| - 1] != '.' {
      var n := |name|;
      var init := name[..n - 1];
      RawTypeSpec(init);
      var r0 := RawType(init);
      var r := RawType(name);
      assert r0 == init[|init| - |r0|..];
      assert r == name[n - |r|..];
      assert '.' !in r by {
        forall k | 0 <= k < |r| ensures r[k] != '.' {
          if k < |r0| {
            assert r[k] == r0[k];
          }
        }
      }
      if |r| < n {
        assert name[n - |r| - 1] == init[|init| - |r0| - 1];
      }
    }
  }

  lemma {:induction false} FileTypeLower(name: string)
    ensures FileType(name) == Lower(RawType(name))
    decreases |name|
  {
    if name != [] && name[|name| - 1] != '.' {
      var init := name[..|name| - 1];
      FileTypeLower(init);
      var c := name[|name| - 1];
      assert Lower(RawType(init) + [c]) == Lower(RawType(init)) + [AsciiLower(c)];
    }
  }

  lemma FileTypeIsLastSegment(name: string)
    ensures FileType(name) == Lower(LastSegment(name, '.'))
  {
    RawTypeSpec(name);
    FileTypeLower(name);
    LastSegmentUnique(name, '.', RawType(name), LastSegment(name, '.'));
  }

  /** A file the browser uploads: a valid type and at most 10 MB. */
  predicate Accepted(f: File) {
    FileType(f.name) in ValidTypes && f.size <= MaxSize
  }

  /** The toast for one file. */
  function ToastFor(f: File, upload: File -> Result<(), string>): Toast {
    if FileType(f.name) !in ValidTypes then Toast("Invalid file type: " + f.name, false)
    else if f.size > MaxSize then Toast("File too large: " + f.name, false)
    else if upload(f).Ok? then Toast("Document uploaded: " + f.name, true)
    else Toast("Failed to upload " + f.name + ": " + upload(f).error, false)
  }

  /** The accepted files, in input order. */
  function AcceptedFiles(files: seq<File>): (r: seq<File>)
    ensures |r| <= |files|
    decreases |files|
  {
    if files == [] then []
    else AcceptedFiles(files[..|files| - 1]) + (if Accepted(files[|files| - 1]) then [files[|files| - 1]] else [])
  }

  /** The toasts for the files, in input order. */
  function Toasts(files: seq<File>, upload: File -> Result<(), string>): (r: seq<Toast>)
    ensures |r| == |files|
    decreases |files|
  {
    if files == [] then []
    else Toasts(files[..|files| - 1], upload) + [ToastFor(files[|files| - 1], upload)]
  }

  /** One toast per file, in order. */
  lemma {:induction false} ToastsSpec(files: seq<File>, upload: File -> Result<(), string>)
    ensures forall k | 0 <= k < |files| :: Toasts(files, upload)[k] == ToastFor(files[k], upload)
    decreases |files|
  {
    if files != [] {
      var init := files[..|files| - 1];
      ToastsSpec(init, upload);
      assert forall k | 0 <= k < |init| :: files[k] == init[k];
    }
  }

  class UploadPage {
    /** `fileInput.value`. */
    var inputValue: string
    /** The upload requests sent, in order. */
    var uploads: seq<File>
    /** The toasts shown, in order. */
    var toasts: seq<Toast>

    constructor()
      ensures inputValue == [] && uploads == [] && toasts == []
    {
      inputValue := [];
      uploads := [];
      toasts := [];
    }

    /** `handleFiles`: every file gets one toast; exactly the accepted files
        are uploaded, in input order, a failure not stopping the rest; the
        file input is cleared at the end. */
    method HandleFiles(files: seq<File>, upload: File -> Result<(), string>)
      modifies this
      ensures uploads == old(uploads) + AcceptedFiles(files)
      ensures toasts == old(toasts) + Toasts(files, upload)
      ensures inputValue == []
    {
      var sent: seq<File> := [];
      var shown: seq<Toast> := [];
      var i := 0;
      while i < |files|
        invariant 0 <= i <= |files|
        invariant sent == AcceptedFiles(files[..i])
        invariant shown == Toasts(files[..i], upload)
        invariant uploads == old(uploads) && toasts == old(toasts)
      {
        HandleStep(files, i, upload);
        var toast, uploaded := HandleFile(files[i], upload);
        if uploaded {
          sent := sent + [files[i]];
        }
        shown := shown + [toast];
        i := i + 1;
      }
      assert files[..i] == files;
      uploads := uploads + sent;
      toasts := toasts + shown;
      inputValue := [];
    }
  }

  /** One pass of the loop: a file of another type or too large is skipped
      with an error toast; a valid one is uploaded and its outcome toasted. */
  method HandleFile(file: File, upload: File -> Result<(), string>) returns (toast: Toast, sent: bool)
    ensures sent == Accepted(file)
    ensures toast == ToastFor(file, upload)
  {
    var fileType := Lower(LastSegment(file.name, '.'));
    FileTypeIsLastSegment(file.name);
    if fileType !in ValidTypes {
      return Toast("Invalid file type: " + file.name, false), false;
    }
    if file.size > MaxSize {
      return Toast("File too large: " + file.name, false), false;
    }
    var result := upload(file);
    if result.Ok? {
      toast := Toast("Document uploaded: " + file.name, true);
    } else {
      toast := Toast("Failed to upload " + file.name + ": " + result.error, false);
    }
    sent := true;
  }

  /** One more file: one more toast, and one more upload if it is accepted. */
  lemma HandleStep(files: seq<File>, i: nat, upload: File -> Result<(), string>)
    requires i < |files|
    ensures AcceptedFiles(files[..i + 1]) == AcceptedFiles(files[..i]) + (if Accepted(files[i]) then [files[i]] else [])
    ensures Toasts(files[..i + 1], upload) == Toasts(files[..i], upload) + [ToastFor(files[i], upload)]
  {
    assert files[..i + 1][..i] == files[..i];
  }

  /** Exactly the accepted files are uploaded: a file is in the list iff it
      is in the input and accepted. */
  lemma {:induction false} AcceptedFilesSpec(files: seq<File>)
    ensures forall f :: f in AcceptedFiles(files) <==> f in files && Accepted(f)
    decreases |files|
  {
    if files != [] {
      var init := files[..|files| - 1];
      AcceptedFilesSpec(init);
      assert files == init + [files[|files| - 1]];
    }
  }

  /** The browser accepts a file exactly when the server's type and size
      checks would both pass. */
  lemma BrowserMatchesServer(f: File)
    ensures Accepted(f) <==>
      DocumentProcessor.GetFileType(f.name).Ok? && DocumentProcessor.ValidateFileSize(f.size).Ok?
  {
    LowerLastSegment(f.name);
    FileTypeIsLastSegment(f.name);
    if FileType(f.name) in ValidTypes {
      assert DocumentProcessor.GetFileType(f.name).Ok?;
    }
  }

  /** Exactly 10 MB is accepted, one byte more is not. */
  lemma SizeEdge(name: string)
    requires FileType(name) in ValidTypes
    ensures Accepted(File(name, 10 * 1024 * 1024)) && !Accepted(File(name, 10 * 1024 * 1024 + 1))
    ensures MaxSize == Config.MaxFileSize
  {
  }
}
