/**
 * The attachment page (src/pages/FileUpload.tsx): a list of uploaded-file records that an
 * upload extends and a delete shrinks, the currently selected file type, and the
 * grouping of the list by type for display.
 *
 * The clock is passed in. The source reads it once per picked file, inside the `map`
 * callback, so an upload takes two functions of the file's position: `clock(i)` is what
 * `Date.now()` returns for file `i`, and `today(i)` is the ISO date `new Date()` gives
 * there. Only the names of the picked files matter, so a batch is the list of their
 * names, or `None` for a null `FileList`.
 */
module FileUpload {
  import opened Wrappers
  import Seqs

  datatype FileType = Image | Video | Sketchup | Receipt

  datatype UploadedFile = UploadedFile(
    id: string, name: string, fileType: FileType, url: string, uploadedAt: string)

  /** The order of the types in the page's configuration table, which is the section order. */
  function TypeOrder(): seq<FileType> {
    [Image, Video, Sketchup, Receipt]
  }

  /** The two files the page starts with. */
  function MockFiles(): seq<UploadedFile> {
    [ UploadedFile("1", "IMG_001.jpg", Image, "#", "2024-01-15"),
      UploadedFile("2", "VIDEO_001.mp4", Video, "#", "2024-01-16") ]
  }

  // ---- ids of uploaded files: `new-${Date.now()}-${index}` ----

  function DigitChar(d: nat): char
    requires d < 10
  {
    (48 + d) as char
  }

  /** The decimal string of a natural number, as template-literal interpolation prints it. */
  function Decimal(n: nat): (r: string)
    ensures |r| >= 1
    ensures forall k :: 0 <= k < |r| ==> '0' <= r[k] <= '9'
  {
    if n < 10 then [DigitChar(n)] else Decimal(n / 10) + [DigitChar(n % 10)]
  }

  /** Reads a string of decimal digits back. */
  function ParseDecimal(s: string): int {
    if s == [] then 0 else ParseDecimal(s[..|s| - 1]) * 10 + (s[|s| - 1] as int - 48)
  }

  lemma {:induction false} DecimalRoundTrip(n: nat)
    ensures ParseDecimal(Decimal(n)) == n
  {
    if n >= 10 {
      var d := Decimal(n);
      assert d[..|d| - 1] == Decimal(n / 10);
      DecimalRoundTrip(n / 10);
    }
  }

  lemma DecimalInjective(m: nat, n: nat)
    requires Decimal(m) == Decimal(n)
    ensures m == n
  {
    DecimalRoundTrip(m);
    DecimalRoundTrip(n);
  }

  /** The id given to the file at position `index` of a batch when the clock reads `stamp`. */
  function BatchId(stamp: nat, index: nat): string {
    "new-" + Decimal(stamp) + "-" + Decimal(index)
  }

  /** The part of a string before its first `-`. */
  function UpToDash(s: string): string {
    if s == [] || s[0] == '-' then [] else [s[0]] + UpToDash(s[1..])
  }

  /** A field without `-`, followed by `-`, is recovered by `UpToDash`. */
  lemma {:induction false} UpToDashOfField(x: string, y: string)
    requires forall k :: 0 <= k < |x| ==> x[k] != '-'
    ensures UpToDash(x + "-" + y) == x
  {
    if x != [] {
      assert (x + "-" + y)[0] == x[0];
      assert (x + "-" + y)[1..] == x[1..] + "-" + y;
      UpToDashOfField(x[1..], y);
    }
  }

  /** An id determines both the clock reading and the position it was made from. */
  lemma BatchIdInjective(stamp: nat, i: nat, stamp': nat, j: nat)
    requires BatchId(stamp, i) == BatchId(stamp', j)
    ensures stamp == stamp' && i == j
  {
    var id, a, b := BatchId(stamp, i), Decimal(stamp), Decimal(stamp');
    assert id[4..] == a + "-" + Decimal(i);
    assert id[4..] == b + "-" + Decimal(j);
    UpToDashOfField(a, Decimal(i));
    UpToDashOfField(b, Decimal(j));
    DecimalInjective(stamp, stamp');
    assert id[4 + |a| + 1..] == Decimal(i);
    assert id[4 + |a| + 1..] == Decimal(j);
    DecimalInjective(i, j);
  }

  /**
   * The records an upload creates: one per picked file, in order. File `i` gets the id made
   * from the clock reading `clock(i)` and its own position, and the date `today(i)`.
   */
  function NewFiles(names: seq<string>, fileType: FileType, clock: nat -> nat, today: nat -> string): (r: seq<UploadedFile>)
    ensures |r| == |names|
    ensures forall i :: 0 <= i < |r| ==>
      r[i].id == BatchId(clock(i), i) && r[i].name == names[i] && r[i].fileType == fileType &&
      r[i].url == "#" && r[i].uploadedAt == today(i)
  {
    seq(|names|, i requires 0 <= i < |names| => UploadedFile(BatchId(clock(i), i), names[i], fileType, "#", today(i)))
  }

  /** The ids of one batch are pairwise distinct, whatever the clock reads for each file. */
  lemma BatchIdsDistinct(names: seq<string>, fileType: FileType, clock: nat -> nat, today: nat -> string)
    ensures forall i, j :: 0 <= i < j < |names| ==>
      NewFiles(names, fileType, clock, today)[i].id != NewFiles(names, fileType, clock, today)[j].id
  {
    var r := NewFiles(names, fileType, clock, today);
    forall i, j | 0 <= i < j < |names| ensures r[i].id != r[j].id {
      if r[i].id == r[j].id {
        BatchIdInjective(clock(i), i, clock(j), j);
      }
    }
  }

  /**
   * The list after an upload: the existing records unchanged, then, for each picked file in
   * order, its record; a null list adds nothing.
   */
  function Uploaded(files: seq<UploadedFile>, batch: Option<seq<string>>, fileType: FileType, clock: nat -> nat, today: nat -> string): (r: seq<UploadedFile>)
    ensures |r| >= |files| && r[..|files|] == files
    ensures batch.None? ==> r == files
    ensures batch.Some? ==> |r| == |files| + |batch.value|
    ensures batch.Some? ==> forall i :: 0 <= i < |batch.value| ==>
      r[|files| + i].id == BatchId(clock(i), i) && r[|files| + i].name == batch.value[i] &&
      r[|files| + i].fileType == fileType && r[|files| + i].url == "#" && r[|files| + i].uploadedAt == today(i)
  {
    match batch
    case None => files
    case Some(names) => files + NewFiles(names, fileType, clock, today)
  }

  // ---- delete ----

  function IdIsNot(id: string): UploadedFile -> bool {
    (f: UploadedFile) => f.id != id
  }

  /** `handleDelete`: every file with the given id is removed, the others keep their order. */
  function WithoutId(files: seq<UploadedFile>, id: string): (r: seq<UploadedFile>)
    ensures forall i :: 0 <= i < |r| ==> r[i].id != id && r[i] in files
    ensures forall i :: 0 <= i < |files| && files[i].id != id ==> files[i] in r
  {
    Seqs.Filter(IdIsNot(id), files)
  }

  /** Delete keeps the other files as an order-preserving subsequence, every copy of each. */
  lemma WithoutIdKeepsOthersInOrder(files: seq<UploadedFile>, id: string, f: UploadedFile)
    ensures Seqs.IsSubsequence(WithoutId(files, id), files)
    ensures multiset(WithoutId(files, id))[f] == if f.id == id then 0 else multiset(files)[f]
  {
    Seqs.FilterIsSubsequence(IdIsNot(id), files);
    Seqs.FilterMultiplicity(IdIsNot(id), files, f);
  }

  /** Deleting an id no file has leaves the list as it was; it is not an error. */
  lemma DeleteUnknownIdIsNoOp(files: seq<UploadedFile>, id: string)
    requires forall i :: 0 <= i < |files| ==> files[i].id != id
    ensures WithoutId(files, id) == files
  {
    Seqs.FilterKeepsAll(IdIsNot(id), files);
  }

  // ---- grouping: `filesByType` ----

  function TypeIs(t: FileType): UploadedFile -> bool {
    (f: UploadedFile) => f.fileType == t
  }

  /** The files of one type, in list order. */
  function OfType(files: seq<UploadedFile>, t: FileType): (r: seq<UploadedFile>)
    ensures forall i :: 0 <= i < |r| ==> r[i].fileType == t && r[i] in files
    ensures forall i :: 0 <= i < |files| && files[i].fileType == t ==> files[i] in r
  {
    Seqs.Filter(TypeIs(t), files)
  }

  /** The grouping the reduce builds: a key for each type that has files, holding those files. */
  function GroupsOf(files: seq<UploadedFile>): map<FileType, seq<UploadedFile>> {
    map t | t in {Image, Video, Sketchup, Receipt} && OfType(files, t) != [] :: OfType(files, t)
  }

  /**
   * The `reduce` of `filesByType`: walk the list, creating a type's entry on its first
   * file and pushing each file onto its type's entry.
   */
  method GroupByType(files: seq<UploadedFile>) returns (groups: map<FileType, seq<UploadedFile>>)
    ensures groups == GroupsOf(files)
  {
    groups := map[];
    var i := 0;
    assert files[..0] == [];
    GroupsOfCharacterised(groups, []);
    while i < |files|
      invariant 0 <= i <= |files|
      invariant groups == GroupsOf(files[..i])
    {
      var f := files[i];
      GroupsOfStep(files, i);
      ghost var before := groups;
      if f.fileType !in groups {
        groups := groups[f.fileType := []];
      }
      assert groups[f.fileType] == if f.fileType in before then before[f.fileType] else [];
      groups := groups[f.fileType := groups[f.fileType] + [f]];
      assert groups == before[f.fileType := groups[f.fileType]];
      i := i + 1;
    }
    assert files[..i] == files;
  }

  /** One more file extends the group of its own type by that file and no other group. */
  lemma OfTypeStep(files: seq<UploadedFile>, i: nat)
    requires i < |files|
    ensures forall t :: OfType(files[..i + 1], t) ==
                        OfType(files[..i], t) + (if t == files[i].fileType then [files[i]] else [])
  {
    assert files[..i + 1] == files[..i] + [files[i]];
    forall t ensures OfType(files[..i + 1], t) ==
                     OfType(files[..i], t) + (if t == files[i].fileType then [files[i]] else [])
    {
      Seqs.FilterConcat(TypeIs(t), files[..i], [files[i]]);
    }
  }

  /** The grouping of one more file: its type's entry, created if missing, gains the file. */
  lemma GroupsOfStep(files: seq<UploadedFile>, i: nat)
    requires i < |files|
    ensures var g := GroupsOf(files[..i]); var t := files[i].fileType;
      GroupsOf(files[..i + 1]) == g[t := (if t in g then g[t] else []) + [files[i]]]
  {
    var g := GroupsOf(files[..i]);
    var t := files[i].fileType;
    OfTypeStep(files, i);
    GroupsOfCharacterised(g[t := (if t in g then g[t] else []) + [files[i]]], files[..i + 1]);
  }

  lemma TypeIsListed(t: FileType)
    ensures t in {Image, Video, Sketchup, Receipt}
  {
    match t
    case Image =>
    case Video =>
    case Sketchup =>
    case Receipt =>
  }

  /** A map keyed by exactly the non-empty types, each holding its type's files, is `GroupsOf`. */
  lemma GroupsOfCharacterised(groups: map<FileType, seq<UploadedFile>>, files: seq<UploadedFile>)
    requires forall t :: t in groups <==> OfType(files, t) != []
    requires forall t :: t in groups ==> groups[t] == OfType(files, t)
    ensures groups == GroupsOf(files)
  {
    var g := GroupsOf(files);
    forall t ensures t in groups <==> t in g {
      TypeIsListed(t);
    }
    assert groups.Keys == g.Keys;
  }

  /** Each file is in the group of its own type and in no other group. */
  lemma EachFileInItsOwnGroup(files: seq<UploadedFile>, i: nat, t: FileType)
    requires i < |files|
    ensures files[i] in OfType(files, t) <==> t == files[i].fileType
  {
  }

  /** Within a group the files keep their list order. */
  lemma GroupKeepsOrder(files: seq<UploadedFile>, t: FileType)
    ensures Seqs.IsSubsequence(OfType(files, t), files)
  {
    Seqs.FilterIsSubsequence(TypeIs(t), files);
  }

  /** The group sizes add up to the number of files. */
  lemma {:induction false} GroupSizesSum(files: seq<UploadedFile>)
    ensures |OfType(files, Image)| + |OfType(files, Video)| + |OfType(files, Sketchup)| +
      |OfType(files, Receipt)| == |files|
  {
    if files != [] {
      GroupSizesSum(files[1..]);
    }
  }

  /** After deleting an id, no group holds a file with that id. */
  lemma DeletedIdInNoGroup(files: seq<UploadedFile>, id: string, t: FileType)
    ensures forall i :: 0 <= i < |OfType(WithoutId(files, id), t)| ==>
      OfType(WithoutId(files, id), t)[i].id != id
  {
    var kept := WithoutId(files, id);
    forall i | 0 <= i < |OfType(kept, t)| ensures OfType(kept, t)[i].id != id {
      var f := OfType(kept, t)[i];
      assert f in kept;
    }
  }

  predicate HasSection(groups: map<FileType, seq<UploadedFile>>, t: FileType) {
    t in groups && |groups[t]| > 0
  }

  function SectionFilter(groups: map<FileType, seq<UploadedFile>>): FileType -> bool {
    t => HasSection(groups, t)
  }

  /** The sections rendered, in table order: a type whose `filesByType[type] || []` is empty renders none. */
  function Sections(groups: map<FileType, seq<UploadedFile>>): seq<FileType> {
    Seqs.Filter(SectionFilter(groups), TypeOrder())
  }

  /** Every type has a row in the section table. */
  lemma TypeInTableOrder(t: FileType)
    ensures t in TypeOrder()
  {
    match t
    case Image => assert TypeOrder()[0] == t;
    case Video => assert TypeOrder()[1] == t;
    case Sketchup => assert TypeOrder()[2] == t;
    case Receipt => assert TypeOrder()[3] == t;
  }

  /** A type gets a section exactly when some file has that type. */
  lemma SectionIffFilesOfType(files: seq<UploadedFile>, t: FileType)
    ensures t in Sections(GroupsOf(files)) <==> exists i :: 0 <= i < |files| && files[i].fileType == t
  {
    var groups := GroupsOf(files);
    TypeInTableOrder(t);
    if exists i :: 0 <= i < |files| && files[i].fileType == t {
      var i :| 0 <= i < |files| && files[i].fileType == t;
      assert files[i] in OfType(files, t);
      assert HasSection(groups, t);
    }
    if t in Sections(groups) {
      var g := OfType(files, t);
      assert g != [];
      assert g[0] in files;
      var i :| 0 <= i < |files| && files[i] == g[0];
      assert files[i].fileType == t;
    }
  }

  /** The page's state: the file list and the type chosen for the next upload. */
  class FileBoard {
    var files: seq<UploadedFile>
    var selectedType: FileType

    constructor ()
      ensures files == MockFiles() && selectedType == Image
    {
      files := MockFiles();
      selectedType := Image;
    }

    /** A type button: select the type for the next upload. */
    method SelectType(t: FileType)
      modifies this
      ensures selectedType == t && files == old(files)
    {
      selectedType := t;
    }

    /** `handleFileUpload`: append the batch, typed with the selected type and dated today. */
    method Upload(batch: Option<seq<string>>, clock: nat -> nat, today: nat -> string)
      modifies this
      ensures selectedType == old(selectedType)
      ensures files == Uploaded(old(files), batch, old(selectedType), clock, today)
    {
      files := Uploaded(files, batch, selectedType, clock, today);
    }

    /** `handleDelete`: drop every file with the given id. */
    method Delete(id: string)
      modifies this
      ensures selectedType == old(selectedType)
      ensures files == WithoutId(old(files), id)
    {
      files := WithoutId(files, id);
    }
  }
}
