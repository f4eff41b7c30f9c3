/** File sharing: name search with a type filter, and the upload flow, in
    which a timer raises the progress bar by ten points per tick and, on the
    tick after it reaches 100, hands the file's metadata to the store. */
module FileSharing {
  import opened Wrappers
  import opened Text
  import opened Seqs
  import opened Types
  import opened Store

  // ---------------------------------------------------------------------
  // Search and type filter
  // ---------------------------------------------------------------------

  predicate FileMatches(f: File, query: string, filterType: string) {
    Includes(Lower(f.name), Lower(query)) && (filterType == "all" || f.fileType == filterType)
  }

  /** `filteredFiles`. */
  function FilterFiles(files: seq<File>, query: string, filterType: string): (r: seq<File>)
    ensures forall f :: f in r <==> f in files && FileMatches(f, query, filterType)
    ensures forall f :: multiset(r)[f] == if FileMatches(f, query, filterType) then multiset(files)[f] else 0
    ensures Subsequence(r, files)
  {
    var keep := (f: File) => FileMatches(f, query, filterType);
    FilterMembers(files, keep);
    FilterMultiset(files, keep);
    FilterSubsequence(files, keep);
    Filter(files, keep)
  }

  /** With an empty search, the type filter alone decides: "pdf" yields
      exactly the pdf files, in their original order. */
  lemma PdfFilterIsExactlyPdfs(files: seq<File>)
    ensures FilterFiles(files, "", "pdf") == Filter(files, (f: File) => f.fileType == "pdf")
  {
    assert Lower("") == "";
    forall i | 0 <= i < |files|
      ensures FileMatches(files[i], "", "pdf") == (files[i].fileType == "pdf")
    {
      IncludesEmpty(Lower(files[i].name));
    }
    FilterCongruent(files, (f: File) => FileMatches(f, "", "pdf"), (f: File) => f.fileType == "pdf");
  }

  // ---------------------------------------------------------------------
  // Extension: `name.split(".").pop() || "file"`
  // ---------------------------------------------------------------------

  /** The last piece of `name.split(".")`: what follows the last dot, or the
      whole name when there is none. */
  function LastSegment(name: string): (r: string)
    ensures |r| <= |name|
    decreases |name|
  {
    if name == [] then []
    else if name[|name| - 1] == '.' then []
    else LastSegment(name[..|name| - 1]) + [name[|name| - 1]]
  }

  /** The segment is a dot-free suffix of the name, and unless it is the
      whole name a dot comes right before it. */
  lemma {:induction false} LastSegmentSuffix(name: string)
    ensures var r := LastSegment(name);
            |r| <= |name| && r == name[|name| - |r|..] && '.' !in r
            && (|r| < |name| ==> name[|name| - |r| - 1] == '.')
    decreases |name|
  {
    if name != [] && name[|name| - 1] != '.' {
      var init := name[..|name| - 1];
      LastSegmentSuffix(init);
      var r := LastSegment(init);
      assert name[|name| - |r| - 1..] == init[|init| - |r|..] + [name[|name| - 1]];
    }
  }

  /** `name.split(".").pop() || "file"`: never empty. */
  function Extension(name: string): (r: string)
    ensures r != ""
  {
    var seg := LastSegment(name);
    if seg == "" then "file" else seg
  }

  /** The whole name when it has no dot; "file" for an empty name or one
      ending in a dot; otherwise exactly what follows the last dot. */
  lemma ExtensionShape(name: string)
    ensures '.' !in name && name != "" ==> Extension(name) == name
    ensures name == "" || name[|name| - 1] == '.' ==> Extension(name) == "file"
    ensures name != "" && name[|name| - 1] != '.' && '.' in name ==>
              exists k :: 0 <= k < |name| && name[k] == '.' && '.' !in name[k + 1..] && Extension(name) == name[k + 1..]
  {
    LastSegmentShape(name);
  }

  /** Without a dot the segment is the whole name; with one, it is exactly
      what follows the last dot. */
  lemma {:induction false} LastSegmentShape(name: string)
    ensures '.' !in name ==> LastSegment(name) == name
    ensures '.' in name ==>
              exists k :: 0 <= k < |name| && name[k] == '.' && '.' !in name[k + 1..] && LastSegment(name) == name[k + 1..]
  {
    LastSegmentSuffix(name);
    var seg := LastSegment(name);
    if |seg| < |name| {
      var k := |name| - |seg| - 1;
      assert name[k] == '.';
      assert name[k + 1..] == seg;
    } else {
      assert seg == name;
    }
  }

  /** Appending a character: a dot ends the segment, anything else extends it. */
  lemma LastSegmentSnoc(name: string, c: char)
    ensures LastSegment(name + [c]) == if c == '.' then [] else LastSegment(name) + [c]
  {
    assert (name + [c])[..|name|] == name;
  }

  lemma PdfExtension()
    ensures Extension("report.final.pdf") == "pdf"
  {
    LastSegmentSnoc("report.final", '.');
    LastSegmentSnoc("report.final.", 'p');
    LastSegmentSnoc("report.final.p", 'd');
    LastSegmentSnoc("report.final.pd", 'f');
    assert "report.final.pdf" == "report.final.pd" + ['f'];
    assert "report.final.pd" == "report.final.p" + ['d'];
    assert "report.final.p" == "report.final." + ['p'];
    assert "report.final." == "report.final" + ['.'];
  }

  lemma DotlessExtension()
    ensures Extension("README") == "README"
  {
    LastSegmentSuffix("README");
    LastSegmentShape("README");
  }

  lemma TrailingDotExtension()
    ensures Extension("draft.") == "file"
  {
    LastSegmentSnoc("draft", '.');
    assert "draft." == "draft" + ['.'];
  }

  // ---------------------------------------------------------------------
  // The metadata sent on completion
  // ---------------------------------------------------------------------

  /** What the upload passes to the store. `sizeLabel` is the formatted
      "<MB> MB" string and `today` the date part of the ISO timestamp. */
  function UploadedFile(name: string, sizeLabel: string, today: string): (r: FileInput)
    ensures r.name == name && r.fileType == Extension(name) && r.size == sizeLabel
    ensures r.uploaderId == "1" && r.uploadDate == today
    ensures r.projectId == Some("1") && r.version == Some(1) && r.url == Some("#")
  {
    FileInput(name, Extension(name), sizeLabel, "1", today, Some("1"), Some(1), Some("#"))
  }

  /** The stored record always has uploader "1", project "1", version 1 and url "#". */
  lemma UploadedFileStored(count: nat, name: string, sizeLabel: string, today: string)
    ensures var f := NewFile(count, UploadedFile(name, sizeLabel, today));
            f.uploaderId == "1" && f.projectId == "1" && f.version == 1 && f.url == "#"
            && f.fileType == Extension(name) && f.id == NatToString(count + 1)
  {
  }

  // ---------------------------------------------------------------------
  // Progress ticks
  // ---------------------------------------------------------------------

  datatype TickResult = TickResult(progress: int, uploads: bool)

  /** One interval callback: below 100 add ten; at 100 or more upload and
      reset to 0. */
  function Step(p: int): (r: TickResult)
    ensures r.uploads <==> p >= 100
    ensures r.uploads ==> r.progress == 0
    ensures !r.uploads ==> r.progress == p + 10
  {
    if p >= 100 then TickResult(0, true) else TickResult(p + 10, false)
  }

  /** `n` interval callbacks from progress `p`; the interval is cleared by the
      upload, so nothing runs after it. */
  function Run(p: int, n: nat): (r: TickResult)
    ensures r.uploads ==> r.progress == 0
    ensures !r.uploads ==> r.progress == p + 10 * n
    decreases n
  {
    if n == 0 then TickResult(p, false)
    else
      var t := Step(p);
      if t.uploads then t else Run(t.progress, n - 1)
  }

  /** While the bar has room for `n` more steps, `n` ticks only raise it. */
  lemma {:induction false} RunWithoutUpload(p: int, n: nat)
    requires p + 10 * n <= 100
    ensures Run(p, n) == TickResult(p + 10 * n, false)
    decreases n
  {
    if n > 0 {
      RunWithoutUpload(p + 10, n - 1);
    }
  }

  /** From 0 the bar reaches 100 after ten ticks, and the upload happens on
      the eleventh. */
  lemma UploadOnEleventhTick()
    ensures forall n :: 0 <= n <= 10 ==> Run(0, n) == TickResult(10 * n, false)
    ensures Run(0, 11) == TickResult(0, true)
  {
    forall n | 0 <= n <= 10 ensures Run(0, n) == TickResult(10 * n, false) {
      RunWithoutUpload(0, n);
    }
    RunWithoutUpload(0, 10);
    RunAfter(0, 10);
  }

  lemma {:induction false} RunAfter(p: int, n: nat)
    requires p + 10 * n == 100
    ensures Run(p, n + 1) == TickResult(0, true)
    decreases n
  {
    if n > 0 {
      RunAfter(p + 10, n - 1);
    }
  }

  /** The file picker's selection, as far as the upload uses it. */
  datatype PickedFile = PickedFile(name: string, sizeLabel: string)

  class FileSharingView {
    var searchQuery: string
    var filterType: string
    var isUploading: bool
    var uploadProgress: int
    /** The file the running interval closes over. */
    var uploading: Option<PickedFile>

    constructor ()
      ensures searchQuery == "" && filterType == "all"
      ensures !isUploading && uploadProgress == 0 && uploading == None
    {
      searchQuery := "";
      filterType := "all";
      isUploading := false;
      uploadProgress := 0;
      uploading := None;
    }

    function Visible(store: EntityStore): seq<File>
      reads this, store
    {
      FilterFiles(store.files, searchQuery, filterType)
    }

    /** `handleFileUpload` with a file picked: start the interval. */
    method StartUpload(file: PickedFile)
      modifies this
      ensures isUploading && uploadProgress == 0 && uploading == Some(file)
      ensures searchQuery == old(searchQuery) && filterType == old(filterType)
    {
      isUploading := true;
      uploadProgress := 0;
      uploading := Some(file);
    }

    /** One firing of the interval; once it has been cleared nothing happens. */
    method Tick(store: EntityStore, today: string)
      modifies this, store
      ensures old(uploading).None? ==>
                store.State() == old(store.State()) && uploadProgress == old(uploadProgress)
                && uploading == None && isUploading == old(isUploading)
      ensures old(uploading).Some? ==> uploadProgress == Step(old(uploadProgress)).progress
      ensures old(uploading).Some? && Step(old(uploadProgress)).uploads ==>
                store.State() == old(store.State()).(files := old(store.files) +
                  [NewFile(|old(store.files)|, UploadedFile(old(uploading).value.name, old(uploading).value.sizeLabel, today))])
                && !isUploading && uploading == None
      ensures old(uploading).Some? && !Step(old(uploadProgress)).uploads ==>
                store.State() == old(store.State()) && uploading == old(uploading) && isUploading == old(isUploading)
      ensures searchQuery == old(searchQuery) && filterType == old(filterType)
    {
      if uploading.Some? {
        var t := Step(uploadProgress);
        var picked := uploading.value;
        if t.uploads {
          store.UploadFile(UploadedFile(picked.name, picked.sizeLabel, today));
          isUploading := false;
          uploading := None;
        }
        uploadProgress := t.progress;
      }
    }

    method Delete(store: EntityStore, id: string)
      modifies store
      ensures store.State() == old(store.State()).(files := WithoutFile(old(store.files), id))
    {
      store.DeleteFile(id);
    }
  }
}
