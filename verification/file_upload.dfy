/** The File Upload page: which dropped or picked files are accepted, the
    entry each accepted file becomes, and the edits made to the list of
    uploaded files afterwards. */
module FileUpload {
  import opened Text
  import opened Seqs
  import opened Palette

  /** The editable metadata of an uploaded file. */
  datatype Metadata = Metadata(
    fileName: string,
    documentType: string,
    definition: string,
    intelligenceLevel: string)

  /** The metadata fields the page edits through `updateFileMetadata`. */
  datatype MetaField = FileName | DocumentType | Definition | IntelligenceLevel

  /** An entry of the uploaded-files list. `name`, `mime` and `size` are
      copied from the browser's file object and never edited. */
  datatype UploadedFile = UploadedFile(
    id: string,
    name: string,
    mime: string,
    size: int,
    icon: Icon,
    metadata: Metadata)

  /** What the browser reports about a dropped or picked file. */
  datatype RawFile = RawFile(name: string, mime: string, size: int)

  /** A file paired with the random id the page would draw for it. */
  datatype Incoming = Incoming(file: RawFile, drawnId: string)

  /** `fileName.split('.').pop()?.toLowerCase()`: the lowercased tail of
      the name after its last dot (the whole name when it has none). */
  function Extension(fileName: string): (r: string)
    ensures |r| <= |fileName| && r == Lower(fileName[|fileName| - |r|..])
    ensures |r| < |fileName| ==> fileName[|fileName| - |r| - 1] == '.'
    ensures '.' !in r
  {
    var seg := LastSegment(fileName, '.');
    assert forall i :: 0 <= i < |seg| ==> seg[i] != '.';
    Lower(seg)
  }

  /** The extension is the lowercased text after the last dot; a name with
      no dot is its own extension. */
  lemma ExtensionOf(base: string, ext: string)
    requires '.' !in ext
    ensures Extension(base + "." + ext) == Lower(ext)
    ensures '.' !in base ==> Extension(base) == Lower(base)
  {
    LastSegmentOfJoin(base, '.', ext);
    if '.' !in base {
      LastSegmentWithoutSep(base, '.');
    }
  }

  const TextExtensions: set<string> := {"pdf", "docx", "doc"}
  const SheetExtensions: set<string> := {"xlsx", "xls"}

  /** The `switch` of `getFileIcon`: a text icon for PDF and Word
      extensions, a spreadsheet icon for Excel extensions, a generic file
      icon for anything else. */
  function IconForExtension(ext: string): (r: Icon)
    ensures r == FileTextIcon <==> ext in TextExtensions
    ensures r == FileSpreadsheetIcon <==> ext in SheetExtensions
    ensures r == GenericFileIcon <==> ext !in TextExtensions + SheetExtensions
  {
    if ext == "pdf" || ext == "docx" || ext == "doc" then FileTextIcon
    else if ext == "xlsx" || ext == "xls" then FileSpreadsheetIcon
    else GenericFileIcon
  }

  /** `getFileIcon`: the icon of a file name's extension. */
  function FileIcon(fileName: string): (r: Icon)
    ensures r == FileTextIcon <==> Extension(fileName) in TextExtensions
    ensures r == FileSpreadsheetIcon <==> Extension(fileName) in SheetExtensions
    ensures r == GenericFileIcon <==> Extension(fileName) !in TextExtensions + SheetExtensions
  {
    IconForExtension(Extension(fileName))
  }

  /** Upper-casing commutes with taking the last dot-separated segment,
      because the dot itself has no case. */
  lemma {:induction false} UpperLastSegment(s: string)
    ensures LastSegment(Upper(s), '.') == Upper(LastSegment(s, '.'))
  {
    if s != [] {
      var init, c := s[..|s| - 1], s[|s| - 1];
      var u := Upper(s);
      UpperPrefix(s);
      if c != '.' {
        assert u[|u| - 1] != '.';
        UpperLastSegment(init);
        UpperSnoc(LastSegment(init, '.'), c);
      }
    }
  }

  /** The icon ignores the case of the file name (unlike acceptance). */
  lemma FileIconIgnoresCase(fileName: string)
    ensures FileIcon(Upper(fileName)) == FileIcon(fileName)
  {
    UpperLastSegment(fileName);
    LowerForgetsCase(LastSegment(fileName, '.'));
  }

  /** The MIME types the page accepts: PDF, Word (docx) and Excel (xlsx). */
  const ValidTypes: seq<string> := [
    "application/pdf",
    "application/vnd.openxmlformats-officedocument.wordprocessingml.document",
    "application/vnd.openxmlformats-officedocument.spreadsheetml.sheet"
  ]

  /** The acceptance test of `handleFiles`: a listed MIME type, or a name
      ending (case-sensitively) in `.pdf`, `.docx` or `.xlsx`. */
  predicate IsAccepted(f: RawFile) {
    f.mime in ValidTypes || EndsWith(f.name, ".pdf") || EndsWith(f.name, ".docx") || EndsWith(f.name, ".xlsx")
  }

  /** The entry an accepted file becomes: the drawn id, the browser's name,
      type and size, the icon of its extension, and metadata that starts from
      the file name with the defaults "Evidence", "" and "Medium". */
  function NewEntry(inc: Incoming): (e: UploadedFile)
    ensures e.id == inc.drawnId && RawFile(e.name, e.mime, e.size) == inc.file
    ensures e.icon == FileIcon(e.name)
    ensures e.metadata.fileName == e.name
    ensures e.metadata.documentType == "Evidence" && e.metadata.definition == "" && e.metadata.intelligenceLevel == "Medium"
  {
    UploadedFile(inc.drawnId, inc.file.name, inc.file.mime, inc.file.size, FileIcon(inc.file.name),
      Metadata(inc.file.name, "Evidence", "", "Medium"))
  }

  /** The files of a batch that pass the acceptance test, in batch order. */
  function AcceptedOf(batch: seq<Incoming>): seq<Incoming> {
    Filter(batch, (inc: Incoming) => IsAccepted(inc.file))
  }

  /** The entries a batch contributes: one per accepted file, in batch order. */
  function EntriesOf(batch: seq<Incoming>): (r: seq<UploadedFile>)
    ensures |r| == |AcceptedOf(batch)|
    ensures forall j :: 0 <= j < |r| ==> r[j] == NewEntry(AcceptedOf(batch)[j])
  {
    var accepted := AcceptedOf(batch);
    seq(|accepted|, j requires 0 <= j < |accepted| => NewEntry(accepted[j]))
  }

  /** Adding one file to the end of a batch adds its entry, if it is
      accepted, to the end of the batch's entries. */
  lemma EntriesOfSnoc(batch: seq<Incoming>, inc: Incoming)
    ensures EntriesOf(batch + [inc]) == EntriesOf(batch) + (if IsAccepted(inc.file) then [NewEntry(inc)] else [])
  {
    var accept := (inc: Incoming) => IsAccepted(inc.file);
    FilterAppend(batch, [inc], accept);
    assert Filter([inc], accept) == if accept(inc) then [inc] else [];
    assert AcceptedOf(batch + [inc]) == AcceptedOf(batch) + (if accept(inc) then [inc] else []);
  }

  /** The step of the `handleFiles` loop: the entries of the first
      `i + 1` files. */
  lemma EntriesOfStep(batch: seq<Incoming>, i: int)
    requires 0 <= i < |batch|
    ensures EntriesOf(batch[..i + 1]) == EntriesOf(batch[..i]) + (if IsAccepted(batch[i].file) then [NewEntry(batch[i])] else [])
  {
    assert batch[..i + 1] == batch[..i] + [batch[i]];
    EntriesOfSnoc(batch[..i], batch[i]);
  }

  /** `handleFiles`: walks the batch in order, appending an entry for each
      accepted file and skipping each rejected one. */
  method HandleFiles(existing: seq<UploadedFile>, batch: seq<Incoming>) returns (r: seq<UploadedFile>)
    ensures r == existing + EntriesOf(batch)
  {
    r := existing;
    var i := 0;
    while i < |batch|
      invariant 0 <= i <= |batch|
      invariant r == existing + EntriesOf(batch[..i])
    {
      EntriesOfStep(batch, i);
      if IsAccepted(batch[i].file) {
        AppendAssoc(existing, EntriesOf(batch[..i]), [NewEntry(batch[i])]);
        r := r + [NewEntry(batch[i])];
      }
      i := i + 1;
    }
    assert batch[..i] == batch;
  }

  /** Every entry a batch contributes is an accepted file, starts with the
      default metadata under its own name, and shows the icon of its name. */
  lemma NewEntriesAreAccepted(batch: seq<Incoming>)
    ensures forall e :: e in EntriesOf(batch) ==>
      && IsAccepted(RawFile(e.name, e.mime, e.size))
      && e.metadata == Metadata(e.name, "Evidence", "", "Medium")
      && e.icon == FileIcon(e.name)
  {
    var entries := EntriesOf(batch);
    forall e | e in entries
      ensures IsAccepted(RawFile(e.name, e.mime, e.size))
    {
      var j :| 0 <= j < |entries| && entries[j] == e;
      assert IsAccepted(AcceptedOf(batch)[j].file);
    }
  }

  /** A batch in which every file is rejected leaves the list unchanged. */
  lemma RejectedBatchChangesNothing(batch: seq<Incoming>)
    requires forall i :: 0 <= i < |batch| ==> !IsAccepted(batch[i].file)
    ensures EntriesOf(batch) == []
  {
    FilterKeepsNone(batch, (inc: Incoming) => IsAccepted(inc.file));
  }

  /** A file accepted by its name alone, whatever its MIME type, ends in one
      of the three document extensions and so gets a document or spreadsheet
      icon, never the generic one. */
  lemma AcceptedByNameGetsDocumentIcon(f: RawFile)
    requires IsAccepted(f) && f.mime !in ValidTypes
    ensures FileIcon(f.name) in {FileTextIcon, FileSpreadsheetIcon}
  {
    DocumentSuffixIcon(f.name);
  }

  /** The three suffixes the acceptance test looks for carry the extensions
      "pdf", "docx" and "xlsx". */
  lemma DocumentSuffixIcon(n: string)
    requires EndsWith(n, ".pdf") || EndsWith(n, ".docx") || EndsWith(n, ".xlsx")
    ensures FileIcon(n) in {FileTextIcon, FileSpreadsheetIcon}
  {
    if EndsWith(n, ".pdf") {
      KnownSuffixIcon(n, "pdf");
    } else if EndsWith(n, ".docx") {
      KnownSuffixIcon(n, "docx");
    } else {
      KnownSuffixIcon(n, "xlsx");
    }
  }

  /** A name ending in one of the three accepted suffixes gets the icon of
      that suffix's extension. */
  lemma KnownSuffixIcon(n: string, ext: string)
    requires ext in {"pdf", "docx", "xlsx"}
    requires EndsWith(n, "." + ext)
    ensures FileIcon(n) in {FileTextIcon, FileSpreadsheetIcon}
  {
    SuffixExtension(n, ext);
  }

  /** A name ending in a dot and a dot-free, lower-case `ext` has extension
      `ext`. */
  lemma SuffixExtension(n: string, ext: string)
    requires '.' !in ext && forall i :: 0 <= i < |ext| ==> 'a' <= ext[i] <= 'z'
    requires EndsWith(n, "." + ext)
    ensures Extension(n) == ext
  {
    var base := n[..|n| - |ext| - 1];
    assert n == base + "." + ext;
    ExtensionOf(base, ext);
  }

  /** Reads one metadata field. */
  function GetField(m: Metadata, field: MetaField): string {
    match field
    case FileName => m.fileName
    case DocumentType => m.documentType
    case Definition => m.definition
    case IntelligenceLevel => m.intelligenceLevel
  }

  /** `{ ...metadata, [field]: value }`: the named field now reads `value`,
      every other field reads as before. */
  function SetField(m: Metadata, field: MetaField, value: string): (r: Metadata)
    ensures GetField(r, field) == value
    ensures forall g :: g != field ==> GetField(r, g) == GetField(m, g)
  {
    match field
    case FileName => m.(fileName := value)
    case DocumentType => m.(documentType := value)
    case Definition => m.(definition := value)
    case IntelligenceLevel => m.(intelligenceLevel := value)
  }

  /** Writing back the value a field already holds changes nothing, and a
      second write to the same field overrides the first. */
  lemma SetFieldLaws(m: Metadata, field: MetaField, v1: string, v2: string)
    ensures SetField(m, field, GetField(m, field)) == m
    ensures SetField(SetField(m, field, v1), field, v2) == SetField(m, field, v2)
  {
  }

  /** `updateFileMetadata`: sets one metadata field on the entries with the
      given id. Length, order, ids, the top-level name, type, size and icon,
      every other entry and every other field stay as they were. */
  function UpdateMetadata(files: seq<UploadedFile>, id: string, field: MetaField, value: string): (r: seq<UploadedFile>)
    ensures |r| == |files|
    ensures forall i :: 0 <= i < |r| ==>
      && r[i].id == files[i].id && r[i].name == files[i].name && r[i].mime == files[i].mime
      && r[i].size == files[i].size && r[i].icon == files[i].icon
    ensures forall i :: 0 <= i < |r| && files[i].id == id ==> GetField(r[i].metadata, field) == value
    ensures forall i, g :: 0 <= i < |r| && (files[i].id != id || g != field) ==>
      GetField(r[i].metadata, g) == GetField(files[i].metadata, g)
  {
    seq(|files|, i requires 0 <= i < |files| =>
      if files[i].id == id then files[i].(metadata := SetField(files[i].metadata, field, value)) else files[i])
  }

  /** The metadata fields determine the metadata record. */
  lemma MetadataByFields(m1: Metadata, m2: Metadata)
    requires forall g :: GetField(m1, g) == GetField(m2, g)
    ensures m1 == m2
  {
    assert GetField(m1, FileName) == GetField(m2, FileName);
    assert GetField(m1, DocumentType) == GetField(m2, DocumentType);
    assert GetField(m1, Definition) == GetField(m2, Definition);
    assert GetField(m1, IntelligenceLevel) == GetField(m2, IntelligenceLevel);
  }

  /** An id no entry carries makes the update a no-op. */
  lemma UpdateAbsentIdIsNoOp(files: seq<UploadedFile>, id: string, field: MetaField, value: string)
    requires forall i :: 0 <= i < |files| ==> files[i].id != id
    ensures UpdateMetadata(files, id, field, value) == files
  {
    var r := UpdateMetadata(files, id, field, value);
    forall i | 0 <= i < |files| ensures r[i] == files[i] {
      MetadataByFields(r[i].metadata, files[i].metadata);
    }
  }

  /** Repeating an edit changes nothing more. */
  lemma UpdateIdempotent(files: seq<UploadedFile>, id: string, field: MetaField, value: string)
    ensures UpdateMetadata(UpdateMetadata(files, id, field, value), id, field, value)
         == UpdateMetadata(files, id, field, value)
  {
    var once := UpdateMetadata(files, id, field, value);
    var twice := UpdateMetadata(once, id, field, value);
    forall i | 0 <= i < |files| ensures twice[i] == once[i] {
      MetadataByFields(twice[i].metadata, once[i].metadata);
    }
  }

  /** `removeFile`: drops exactly the entries with the given id and keeps
      the others, each as often as before and in their original order. */
  function RemoveFile(files: seq<UploadedFile>, id: string): (r: seq<UploadedFile>)
    ensures IsSubsequence(r, files)
    ensures forall i :: 0 <= i < |r| ==> r[i].id != id
    ensures forall f: UploadedFile :: f.id != id ==> multiset(r)[f] == multiset(files)[f]
  {
    var keep := (f: UploadedFile) => f.id != id;
    forall f: UploadedFile | f.id != id ensures multiset(Filter(files, keep))[f] == multiset(files)[f] {
      FilterCount(files, keep, f);
    }
    Filter(files, keep)
  }

  /** Removing an id no entry carries is a no-op. */
  lemma RemoveAbsentIdIsNoOp(files: seq<UploadedFile>, id: string)
    requires forall i :: 0 <= i < |files| ==> files[i].id != id
    ensures RemoveFile(files, id) == files
  {
    FilterKeepsAll(files, (f: UploadedFile) => f.id != id);
  }

  /** Editing an entry and then removing it is the same as removing it. */
  lemma {:induction false} UpdateThenRemove(files: seq<UploadedFile>, id: string, field: MetaField, value: string)
    ensures RemoveFile(UpdateMetadata(files, id, field, value), id) == RemoveFile(files, id)
  {
    if files != [] {
      var updated := UpdateMetadata(files, id, field, value);
      assert updated[1..] == UpdateMetadata(files[1..], id, field, value);
      UpdateThenRemove(files[1..], id, field, value);
      if files[0].id != id {
        MetadataByFields(updated[0].metadata, files[0].metadata);
      }
    }
  }
}
