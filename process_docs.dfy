// The batch correlation job of legacy/process_docs.py.
//
// Reference ("JDE") PDFs carry a shipment identifier in their file name; the
// job indexes them by identifier, gives every identifier a group folder under
// the output directory, copies the reference file into it as JDE_<id>.pdf,
// then walks the Forwarder A tree, extracts each scanned PDF's text (OCR is
// an uninterpreted function here) and copies the PDF into the group of the
// first indexed identifier that occurs in that text, as NEU_<id>.pdf or, if
// that name is taken, NEU_<id>_2.pdf.
//
// The file system is a map from folder to the set of names in it; every copy
// is also recorded in a log so that "copied, never moved" can be stated.

module ProcessDocs {
  import opened Wrappers
  import opened Text

  /** The folders the job touches. Group(id) is OUTPUT_DIR/<id>. */
  datatype Folder = Jde | ForwarderA(root: string) | ForwarderB | Output | Group(id: string)

  predicate IsSource(f: Folder) { !f.Output? && !f.Group? }

  type FileSystem = map<Folder, set<string>>

  /** One file yielded by os.walk over the Forwarder A tree. */
  datatype ScannedFile = ScannedFile(root: string, name: string)

  /** shutil.copy2(src, dst): the source stays where it is. */
  datatype Copy = Copy(from: Folder, name: string, to: Folder, target: string)

  /** Python dict with insertion order: overwriting a key keeps its position. */
  type Index = seq<(string, string)>

  datatype Job = Job(fs: FileSystem, index: Index, copies: seq<Copy>, unmatched: seq<ScannedFile>)

  function Names(fs: FileSystem, f: Folder): set<string> {
    if f in fs then fs[f] else {}
  }

  // ---------------------------------------------------------------------
  // Identifier extraction: re.search(r"_(\d+)_PDF", name).group(1)

  /** The regex matches s[i..j+4]: '_' at i, digits in (i, j), "_PDF" at j. */
  predicate RegexMatch(s: string, i: int, j: int) {
    0 <= i && i + 1 < j && j + 4 <= |s| && s[i] == '_' && AllDigits(s[i + 1..j]) && s[j..j + 4] == "_PDF"
  }

  /** Length of the run of digits that starts at k. */
  function DigitRun(s: string, k: nat): (n: nat)
    requires k <= |s|
    ensures k + n <= |s|
    ensures forall m :: k <= m < k + n ==> IsDigit(s[m])
    ensures k + n == |s| || !IsDigit(s[k + n])
    decreases |s| - k
  {
    if k < |s| && IsDigit(s[k]) then 1 + DigitRun(s, k + 1) else 0
  }

  /** The match attempt at position i: `\d+` takes the longest digit run. */
  function MatchAt(s: string, i: nat): Option<string>
    requires i <= |s|
  {
    if i < |s| && s[i] == '_' then
      var n := DigitRun(s, i + 1);
      if n > 0 && StartsWith(s[i + 1 + n..], "_PDF") then Some(s[i + 1..i + 1 + n]) else None
    else None
  }

  function SearchFrom(s: string, i: nat): Option<string>
    requires i <= |s|
    decreases |s| - i
  {
    if i == |s| then None
    else if MatchAt(s, i).Some? then MatchAt(s, i)
    else SearchFrom(s, i + 1)
  }

  function ExtractId(name: string): Option<string> {
    SearchFrom(name, 0)
  }

  /** A match attempt at i succeeds exactly when the regex matches there,
      and then the capture is the whole digit run (backtracking never helps,
      because '_' is not a digit). */
  lemma {:induction false} MatchAtIsRegex(s: string, i: nat, j: int)
    requires i <= |s|
    ensures RegexMatch(s, i, j) ==> MatchAt(s, i) == Some(s[i + 1..j])
    ensures MatchAt(s, i).Some? ==> RegexMatch(s, i, i + 1 + |MatchAt(s, i).value|)
  {
    if RegexMatch(s, i, j) {
      var n := DigitRun(s, i + 1);
      assert forall m :: i + 1 <= m < j ==> IsDigit(s[m]) by {
        forall m | i + 1 <= m < j ensures IsDigit(s[m]) {
          assert s[i + 1..j][m - i - 1] == s[m];
        }
      }
      assert s[j] == '_';
      assert i + 1 + n == j;
      assert s[i + 1 + n..][..4] == s[j..j + 4];
    }
    if MatchAt(s, i).Some? {
      var n := DigitRun(s, i + 1);
      assert s[i + 1 + n..][..4] == s[i + 1 + n..i + 1 + n + 4];
      var run := s[i + 1..i + 1 + n];
      assert AllDigits(run) by {
        forall m | 0 <= m < |run| ensures IsDigit(run[m]) {
          assert run[m] == s[i + 1 + m];
        }
      }
    }
  }

  lemma {:induction false} SearchFromSound(s: string, i: nat)
    requires i <= |s|
    ensures SearchFrom(s, i).Some? ==>
      exists k :: i <= k < |s| && MatchAt(s, k) == SearchFrom(s, i) && forall m :: i <= m < k ==> MatchAt(s, m).None?
    ensures SearchFrom(s, i).None? ==> forall m :: i <= m <= |s| ==> MatchAt(s, m).None?
  {
    if SearchFrom(s, i).Some? {
      SearchFromFound(s, i);
    } else {
      SearchFromMissed(s, i);
    }
  }

  /** A found identifier comes from the first position that matches. */
  lemma {:induction false} SearchFromFound(s: string, i: nat)
    requires i <= |s| && SearchFrom(s, i).Some?
    ensures exists k :: i <= k < |s| && MatchAt(s, k) == SearchFrom(s, i) && forall m :: i <= m < k ==> MatchAt(s, m).None?
    decreases |s| - i
  {
    if MatchAt(s, i).None? {
      SearchFromFound(s, i + 1);
      var k :| i + 1 <= k < |s| && MatchAt(s, k) == SearchFrom(s, i + 1) && forall m :: i + 1 <= m < k ==> MatchAt(s, m).None?;
      assert forall m :: i <= m < k ==> MatchAt(s, m).None?;
    }
  }

  /** When nothing is found, no position matches. */
  lemma {:induction false} SearchFromMissed(s: string, i: nat)
    requires i <= |s| && SearchFrom(s, i).None?
    ensures forall m :: i <= m <= |s| ==> MatchAt(s, m).None?
    decreases |s| - i
  {
    if i < |s| {
      SearchFromMissed(s, i + 1);
    }
  }

  /** ExtractId yields the capture of the leftmost regex match, and None
      exactly when the regex matches nowhere. */
  lemma {:induction false} ExtractIdIsLeftmostMatch(name: string)
    ensures ExtractId(name).Some? ==>
      exists i, j :: RegexMatch(name, i, j) && ExtractId(name) == Some(name[i + 1..j]) &&
        forall i', j' :: 0 <= i' < i ==> !RegexMatch(name, i', j')
    ensures ExtractId(name).None? <==> forall i, j :: !RegexMatch(name, i, j)
  {
    SearchFromSound(name, 0);
    if ExtractId(name).Some? {
      var k :| 0 <= k < |name| && MatchAt(name, k) == ExtractId(name) && forall m :: 0 <= m < k ==> MatchAt(name, m).None?;
      var j := k + 1 + |MatchAt(name, k).value|;
      MatchAtIsRegex(name, k, j);
      forall i', j' | 0 <= i' < k ensures !RegexMatch(name, i', j') {
        MatchAtIsRegex(name, i', j');
      }
      assert RegexMatch(name, k, j) && ExtractId(name) == Some(name[k + 1..j]);
    } else {
      forall i, j ensures !RegexMatch(name, i, j) {
        if 0 <= i <= |name| { MatchAtIsRegex(name, i, j); }
      }
    }
  }

  /** The file name from the comment at legacy/process_docs.py:71. */
  const ExampleName := "R5542305_REF0001_15801341_PDF.pdf"

  lemma {:induction false} ExtractIdExample()
    ensures ExtractId(ExampleName) == Some("15801341")
  {
    ExampleMatch();
    ExampleMisses();
  }

  lemma {:induction false} ExampleMatch()
    ensures MatchAt(ExampleName, 16) == Some("15801341")
  {
    var s := ExampleName;
    ExampleRun();
    assert s[25..][..4] == "_PDF";
    assert s[17..25] == "15801341";
  }

  lemma {:induction false} ExampleRun()
    ensures DigitRun(ExampleName, 17) == 8
  {
    var s := ExampleName;
    assert DigitRun(s, 25) == 0;
    assert DigitRun(s, 24) == 1;
    assert DigitRun(s, 23) == 2;
    assert DigitRun(s, 22) == 3;
    assert DigitRun(s, 21) == 4;
    assert DigitRun(s, 20) == 5;
    assert DigitRun(s, 19) == 6;
    assert DigitRun(s, 18) == 7;
    assert DigitRun(s, 17) == 8;
  }

  lemma {:induction false} ExampleMisses()
    requires MatchAt(ExampleName, 16) == Some("15801341")
    ensures SearchFrom(ExampleName, 0) == MatchAt(ExampleName, 16)
  {
    ExampleSkipA();
    ExampleSkipB();
  }

  /** No match attempt succeeds before the '_' at position 8 ... */
  lemma {:induction false} ExampleSkipA()
    ensures SearchFrom(ExampleName, 0) == SearchFrom(ExampleName, 8)
  {
    var s := ExampleName;
    assert s[0..8] == "R5542305";
    SkipPlain(s, 0, 8);
  }

  /** ... nor from there up to the '_' at position 16. */
  lemma {:induction false} ExampleSkipB()
    ensures SearchFrom(ExampleName, 8) == SearchFrom(ExampleName, 16)
  {
    ExampleMiss8();
    SkipMiss(ExampleName, 8);
    ExampleSkipC();
  }

  lemma {:induction false} ExampleSkipC()
    ensures SearchFrom(ExampleName, 9) == SearchFrom(ExampleName, 16)
  {
    var s := ExampleName;
    assert s[9..] == "REF0001_15801341_PDF.pdf";
    assert s[9..16] == s[9..][..7];
    SkipPlain(s, 9, 16);
  }

  /** The '_' at position 8 is followed by a letter. */
  lemma {:induction false} ExampleMiss8()
    ensures MatchAt(ExampleName, 8).None?
  {
    assert ExampleName[9] == 'R';
    assert DigitRun(ExampleName, 9) == 0;
  }

  lemma {:induction false} SkipMiss(s: string, k: nat)
    requires k < |s| && MatchAt(s, k).None?
    ensures SearchFrom(s, k) == SearchFrom(s, k + 1)
  {
  }

  /** Positions that do not hold '_' cannot start a match. */
  lemma {:induction false} SkipPlain(s: string, i: nat, k: nat)
    requires i <= k <= |s| && '_' !in s[i..k]
    ensures SearchFrom(s, i) == SearchFrom(s, k)
    decreases k - i
  {
    if i < k {
      assert s[i] == s[i..k][0];
      assert s[i + 1..k] == s[i..k][1..];
      SkipPlain(s, i + 1, k);
    }
  }

  lemma {:induction false} SearchFromAfterMisses(s: string, i: nat, k: nat)
    requires i <= k < |s| && MatchAt(s, k).Some?
    requires forall m :: i <= m < k ==> MatchAt(s, m).None?
    ensures SearchFrom(s, i) == MatchAt(s, k)
    decreases k - i
  {
    if i < k { SearchFromAfterMisses(s, i + 1, k); }
  }

  // ---------------------------------------------------------------------
  // The insertion-ordered id -> filename dictionary

  function Keys(idx: Index): (ks: seq<string>)
    ensures |ks| == |idx|
    ensures forall i :: 0 <= i < |idx| ==> ks[i] == idx[i].0
  {
    if idx == [] then [] else [idx[0].0] + Keys(idx[1..])
  }

  function Lookup(idx: Index, k: string): Option<string> {
    if idx == [] then None else if idx[0].0 == k then Some(idx[0].1) else Lookup(idx[1..], k)
  }

  /** jde_map[k] = v */
  function Put(idx: Index, k: string, v: string): Index {
    if idx == [] then [(k, v)]
    else if idx[0].0 == k then [(k, v)] + idx[1..]
    else [idx[0]] + Put(idx[1..], k, v)
  }

  /** Assignment replaces the value of an existing key in place and appends a
      new key at the end; lookups of other keys are unaffected. */
  lemma {:induction false} PutSpec(idx: Index, k: string, v: string, k': string)
    ensures Lookup(Put(idx, k, v), k) == Some(v)
    ensures k' != k ==> Lookup(Put(idx, k, v), k') == Lookup(idx, k')
    ensures Keys(Put(idx, k, v)) == if k in Keys(idx) then Keys(idx) else Keys(idx) + [k]
  {
    if idx != [] && idx[0].0 != k {
      PutSpec(idx[1..], k, v, k');
      assert Keys(idx) == [idx[0].0] + Keys(idx[1..]);
    }
  }

  // ---------------------------------------------------------------------
  // Step 1: reference files (legacy/process_docs.py:66-86)

  /** os.listdir(JDE_DIR) filtered on the case-sensitive ".pdf" suffix. */
  function RefFiles(listing: seq<string>): (r: seq<string>)
    ensures forall f :: f in r <==> f in listing && EndsWith(f, ".pdf")
    ensures |r| <= |listing|
  {
    if listing == [] then []
    else if EndsWith(listing[0], ".pdf") then [listing[0]] + RefFiles(listing[1..])
    else RefFiles(listing[1..])
  }

  function JdeName(id: string): string { "JDE_" + id + ".pdf" }

  function NeuName(id: string): string { "NEU_" + id + ".pdf" }

  /** os.path.splitext("…/NEU_<id>.pdf") with "_2" spliced before ".pdf". */
  function NeuRetryName(id: string): string { "NEU_" + id + "_2.pdf" }

  /** os.makedirs(OUTPUT_DIR/<id>) when the folder does not exist yet. */
  function EnsureGroup(fs: FileSystem, id: string): FileSystem {
    if Group(id) in fs then fs else fs[Group(id) := {}][Output := Names(fs, Output) + {id}]
  }

  /** One iteration of the reference loop. */
  function RefStep(job: Job, f: string): Job {
    match ExtractId(f)
    case None => job
    case Some(id) =>
      var fs := EnsureGroup(job.fs, id);
      var dst := JdeName(id);
      if dst in Names(fs, Group(id)) then job.(fs := fs, index := Put(job.index, id, f))
      else job.(fs := fs[Group(id) := Names(fs, Group(id)) + {dst}],
                index := Put(job.index, id, f),
                copies := job.copies + [Copy(Jde, f, Group(id), dst)])
  }

  function RunRefs(job: Job, files: seq<string>): Job
    decreases |files|
  {
    if files == [] then job else RefStep(RunRefs(job, files[..|files| - 1]), files[|files| - 1])
  }

  // ---------------------------------------------------------------------
  // Step 2: scanned files (legacy/process_docs.py:93-122)

  predicate IsPdfName(name: string) { EndsWith(Lower(name), ".pdf") }

  /** The first id, in dictionary order, that occurs in the text. */
  function FirstMatch(keys: seq<string>, text: string): Option<string> {
    if keys == [] then None
    else if Contains(text, keys[0]) then Some(keys[0])
    else FirstMatch(keys[1..], text)
  }

  /** The destination name chosen for a scanned file of group id. */
  function ScanTarget(names: set<string>, id: string): string {
    if NeuName(id) in names then NeuRetryName(id) else NeuName(id)
  }

  function ScanStep(job: Job, sf: ScannedFile, text: ScannedFile -> string): Job {
    if !IsPdfName(sf.name) then job
    else match FirstMatch(Keys(job.index), text(sf))
      case None => job.(unmatched := job.unmatched + [sf])
      case Some(id) =>
        var dst := ScanTarget(Names(job.fs, Group(id)), id);
        job.(fs := job.fs[Group(id) := Names(job.fs, Group(id)) + {dst}],
             copies := job.copies + [Copy(ForwarderA(sf.root), sf.name, Group(id), dst)])
  }

  function RunScans(job: Job, walk: seq<ScannedFile>, text: ScannedFile -> string): Job
    decreases |walk|
  {
    if walk == [] then job else ScanStep(RunScans(job, walk[..|walk| - 1], text), walk[|walk| - 1], text)
  }

  function Start(fs: FileSystem): Job {
    Job(if Output in fs then fs else fs[Output := {}], [], [], [])
  }

  /** The whole job as a function of the file system, the order in which
      os.listdir lists the reference folder, the os.walk order of the
      Forwarder A tree, and the text extracted from each scanned file. */
  function Process(fs: FileSystem, listing: seq<string>, walk: seq<ScannedFile>, text: ScannedFile -> string): Job {
    RunScans(RunRefs(Start(fs), RefFiles(listing)), walk, text)
  }

  // ---------------------------------------------------------------------
  // The job itself, as the Python code runs it

  method ProcessDocuments(fs0: FileSystem, listing: seq<string>, walk: seq<ScannedFile>, text: ScannedFile -> string)
    returns (fs: FileSystem, jdeMap: Index, copies: seq<Copy>, unmatched: seq<ScannedFile>)
    ensures Job(fs, jdeMap, copies, unmatched) == Process(fs0, listing, walk, text)
  {
    var jdeFiles := RefFiles(listing);
    fs, jdeMap, copies := CopyReferences(fs0, jdeFiles);
    fs, copies, unmatched := ScanForwarderA(Job(fs, jdeMap, copies, []), walk, text);
  }

  /** Step 1: the output folder, then one pass over the reference files. */
  method CopyReferences(fs0: FileSystem, jdeFiles: seq<string>) returns (fs: FileSystem, jdeMap: Index, copies: seq<Copy>)
    ensures Job(fs, jdeMap, copies, []) == RunRefs(Start(fs0), jdeFiles)
  {
    fs := fs0;
    if Output !in fs {
      fs := fs[Output := {}];
    }
    jdeMap, copies := [], [];
    var i := 0;
    while i < |jdeFiles|
      invariant 0 <= i <= |jdeFiles|
      invariant Job(fs, jdeMap, copies, []) == RunRefs(Start(fs0), jdeFiles[..i])
    {
      var f := jdeFiles[i];
      assert jdeFiles[..i + 1][..i] == jdeFiles[..i];
      var m := ExtractId(f);
      if m.Some? {
        var id := m.value;
        jdeMap := Put(jdeMap, id, f);
        if Group(id) !in fs {
          fs := fs[Group(id) := {}][Output := Names(fs, Output) + {id}];
        }
        var dst := JdeName(id);
        if dst !in Names(fs, Group(id)) {
          fs := fs[Group(id) := Names(fs, Group(id)) + {dst}];
          copies := copies + [Copy(Jde, f, Group(id), dst)];
        }
      }
      i := i + 1;
    }
    assert jdeFiles[..i] == jdeFiles;
  }

  /** Step 2: the walk of the Forwarder A tree. */
  method ScanForwarderA(job: Job, walk: seq<ScannedFile>, text: ScannedFile -> string)
    returns (fs: FileSystem, copies: seq<Copy>, unmatched: seq<ScannedFile>)
    ensures Job(fs, job.index, copies, unmatched) == RunScans(job, walk, text)
  {
    fs, copies, unmatched := job.fs, job.copies, job.unmatched;
    var w := 0;
    while w < |walk|
      invariant 0 <= w <= |walk|
      invariant Job(fs, job.index, copies, unmatched) == RunScans(job, walk[..w], text)
    {
      assert walk[..w + 1][..w] == walk[..w];
      fs, copies, unmatched := ScanFile(Job(fs, job.index, copies, unmatched), walk[w], text);
      w := w + 1;
    }
    assert walk[..w] == walk;
  }

  /** One scanned file: copied into the group of the first id its text
      contains, or recorded as unmatched. */
  method ScanFile(job: Job, sf: ScannedFile, text: ScannedFile -> string)
    returns (fs: FileSystem, copies: seq<Copy>, unmatched: seq<ScannedFile>)
    ensures Job(fs, job.index, copies, unmatched) == ScanStep(job, sf, text)
  {
    fs, copies, unmatched := job.fs, job.copies, job.unmatched;
    if IsPdfName(sf.name) {
      var t := text(sf);
      var keys := Keys(job.index);
      var matched := false;
      var k := 0;
      while k < |keys|
        invariant 0 <= k <= |keys|
        invariant FirstMatch(keys, t) == FirstMatch(keys[k..], t)
        invariant fs == job.fs && copies == job.copies && !matched
      {
        var id := keys[k];
        assert keys[k..] == [id] + keys[k + 1..];
        if Contains(t, id) {
          var dst := NeuName(id);
          if dst in Names(fs, Group(id)) {
            dst := NeuRetryName(id);
          }
          fs := fs[Group(id) := Names(fs, Group(id)) + {dst}];
          copies := copies + [Copy(ForwarderA(sf.root), sf.name, Group(id), dst)];
          matched := true;
          break;
        }
        k := k + 1;
      }
      if !matched {
        unmatched := unmatched + [sf];
      }
    }
  }

  // ---------------------------------------------------------------------
  // Properties of the job

  /** A reference name must end in lower-case ".pdf" (RefFiles' contract),
      while a scanned name is tested after lower-casing, so ".PDF" is
      dropped from the reference folder but scanned in Forwarder A. */
  lemma {:induction false} PdfSuffixCase(stem: string)
    ensures IsPdfName(stem + ".PDF") && IsPdfName(stem + ".pdf")
    ensures !EndsWith(stem + ".PDF", ".pdf") && EndsWith(stem + ".pdf", ".pdf")
    ensures RefFiles([stem + ".PDF"]) == []
  {
    LowerConcat(stem, ".PDF");
    LowerConcat(stem, ".pdf");
    assert Lower(".PDF") == ".pdf";
    assert Lower(".pdf") == ".pdf";
    assert (stem + ".PDF")[|stem| + 1] == 'P';
    assert (Lower(stem) + ".pdf")[|stem|..] == ".pdf";
    assert (stem + ".pdf")[|stem|..] == ".pdf";
  }

  lemma {:induction false} LowerConcat(a: string, b: string)
    ensures Lower(a + b) == Lower(a) + Lower(b)
  {
  }

  /** The reference file with no identifier changes nothing: no entry, no
      folder, no copy. */
  lemma {:induction false} RefsWithoutIdIgnored(job: Job, files: seq<string>, f: string)
    requires ExtractId(f).None?
    ensures RunRefs(job, files + [f]) == RunRefs(job, files)
  {
    assert (files + [f])[..|files|] == files;
  }

  /** The last reference file for an identifier, or None. */
  function LastWithId(files: seq<string>, id: string): Option<string>
    decreases |files|
  {
    if files == [] then None
    else if ExtractId(files[|files| - 1]) == Some(id) then Some(files[|files| - 1])
    else LastWithId(files[..|files| - 1], id)
  }

  /** Last write wins: after the reference loop the dictionary maps each id to
      the last file that carried it, and keeps earlier entries otherwise. */
  lemma {:induction false} IndexIsLastWriteWins(job: Job, files: seq<string>, id: string)
    ensures Lookup(RunRefs(job, files).index, id) ==
      if LastWithId(files, id).Some? then LastWithId(files, id) else Lookup(job.index, id)
    decreases |files|
  {
    if files != [] {
      var pre := files[..|files| - 1];
      var f := files[|files| - 1];
      IndexIsLastWriteWins(job, pre, id);
      var m := ExtractId(f);
      if m.Some? {
        PutSpec(RunRefs(job, pre).index, m.value, f, id);
      }
    }
  }

  /** Folders only gain names while the job runs. */
  predicate Grows(fs: FileSystem, fs': FileSystem) {
    forall f :: f in fs ==> f in fs' && fs[f] <= fs'[f]
  }

  /** Every reference file with an identifier has its group folder and a
      JDE_<id>.pdf copy in it. */
  predicate RefsPlaced(fs: FileSystem, files: seq<string>) {
    forall f :: f in files && ExtractId(f).Some? ==>
      Group(ExtractId(f).value) in fs && JdeName(ExtractId(f).value) in fs[Group(ExtractId(f).value)]
  }

  lemma {:induction false} RunRefsPlaces(job: Job, files: seq<string>)
    ensures Grows(job.fs, RunRefs(job, files).fs)
    ensures RefsPlaced(RunRefs(job, files).fs, files)
    decreases |files|
  {
    if files != [] {
      var pre := files[..|files| - 1];
      RunRefsPlaces(job, pre);
      var f := files[|files| - 1];
      assert forall g :: g in files ==> g in pre || g == f;
    }
  }

  /** Once every reference file is placed, running the reference loop again
      copies nothing and leaves every folder as it is. */
  lemma {:induction false} RunRefsWhenPlaced(job: Job, files: seq<string>, more: seq<string>)
    requires RefsPlaced(job.fs, more)
    requires forall f :: f in files ==> f in more
    ensures RunRefs(job, files).fs == job.fs
    ensures RunRefs(job, files).copies == job.copies
    decreases |files|
  {
    if files != [] {
      RunRefsWhenPlaced(job, files[..|files| - 1], more);
      assert files[|files| - 1] in more;
    }
  }

  /** Reference placement is idempotent (legacy/process_docs.py:83-86). */
  lemma {:induction false} ReferencePlacementIdempotent(job: Job, files: seq<string>)
    ensures RunRefs(RunRefs(job, files), files).fs == RunRefs(job, files).fs
    ensures RunRefs(RunRefs(job, files), files).copies == RunRefs(job, files).copies
  {
    RunRefsPlaces(job, files);
    RunRefsWhenPlaced(RunRefs(job, files), files, files);
  }

  /** The chosen id occurs in the text, is a dictionary key, and no earlier
      key occurs; None means that no key occurs at all. */
  lemma {:induction false} FirstMatchSpec(keys: seq<string>, text: string)
    ensures FirstMatch(keys, text).Some? ==>
      exists k :: 0 <= k < |keys| && FirstMatch(keys, text) == Some(keys[k]) && Contains(text, keys[k]) &&
        forall j :: 0 <= j < k ==> !Contains(text, keys[j])
    ensures FirstMatch(keys, text).None? <==> forall j :: 0 <= j < |keys| ==> !Contains(text, keys[j])
  {
    if keys != [] && !Contains(text, keys[0]) {
      FirstMatchSpec(keys[1..], text);
      if FirstMatch(keys, text).Some? {
        var k :| 0 <= k < |keys[1..]| && FirstMatch(keys[1..], text) == Some(keys[1..][k]) &&
          Contains(text, keys[1..][k]) && forall j :: 0 <= j < k ==> !Contains(text, keys[1..][j]);
        assert forall j :: 0 <= j < k + 1 ==> !Contains(text, keys[j]) by {
          forall j | 0 <= j < k + 1 ensures !Contains(text, keys[j]) {
            if j > 0 { assert keys[j] == keys[1..][j - 1]; }
          }
        }
        assert FirstMatch(keys, text) == Some(keys[k + 1]);
      } else {
        forall j | 0 <= j < |keys| ensures !Contains(text, keys[j]) {
          if j > 0 { assert keys[j] == keys[1..][j - 1]; }
        }
      }
    }
  }

  /** Three scanned files matched to the same id, whose group held neither
      NEU name: the copies go to NEU_<id>.pdf, NEU_<id>_2.pdf and again
      NEU_<id>_2.pdf, which the third copy overwrites; no _3 is tried. */
  lemma {:induction false} ThirdMatchOverwritesRetry(job: Job, a: ScannedFile, b: ScannedFile, c: ScannedFile,
                                   text: ScannedFile -> string, id: string)
    requires IsPdfName(a.name) && IsPdfName(b.name) && IsPdfName(c.name)
    requires FirstMatch(Keys(job.index), text(a)) == Some(id)
    requires FirstMatch(Keys(job.index), text(b)) == Some(id)
    requires FirstMatch(Keys(job.index), text(c)) == Some(id)
    requires NeuName(id) !in Names(job.fs, Group(id)) && NeuRetryName(id) !in Names(job.fs, Group(id))
    ensures var after := ScanStep(ScanStep(ScanStep(job, a, text), b, text), c, text);
      after.copies[|job.copies|..] == [Copy(ForwarderA(a.root), a.name, Group(id), NeuName(id)),
                                       Copy(ForwarderA(b.root), b.name, Group(id), NeuRetryName(id)),
                                       Copy(ForwarderA(c.root), c.name, Group(id), NeuRetryName(id))] &&
      after.fs[Group(id)] == Names(job.fs, Group(id)) + {NeuName(id), NeuRetryName(id)}
  {
    var j1 := ScanStep(job, a, text);
    assert Names(j1.fs, Group(id)) == Names(job.fs, Group(id)) + {NeuName(id)};
    var j2 := ScanStep(j1, b, text);
    assert Names(j2.fs, Group(id)) == Names(job.fs, Group(id)) + {NeuName(id), NeuRetryName(id)};
  }

  /** The scan loop adds exactly one copy per matched PDF and one report per
      unmatched PDF; files of other types produce neither; every copy's
      source is a file of the Forwarder A tree, copied into a group folder;
      the dictionary is not touched. */
  lemma {:induction false} ScanAccounting(job: Job, walk: seq<ScannedFile>, text: ScannedFile -> string)
    ensures var after := RunScans(job, walk, text);
      after.index == job.index &&
      |job.copies| <= |after.copies| && |job.unmatched| <= |after.unmatched| &&
      |after.copies| + |after.unmatched| == |job.copies| + |job.unmatched| + PdfCount(walk) &&
      after.copies[..|job.copies|] == job.copies &&
      (forall c :: c in after.copies[|job.copies|..] ==> c.from.ForwarderA? && c.to.Group?) &&
      after.unmatched[..|job.unmatched|] == job.unmatched
    decreases |walk|
  {
    if walk != [] {
      var pre := walk[..|walk| - 1];
      ScanAccounting(job, pre, text);
      var mid := RunScans(job, pre, text);
      var after := RunScans(job, walk, text);
      assert pre + [walk[|walk| - 1]] == walk;
      PdfCountSnoc(pre, walk[|walk| - 1]);
      assert after.copies[|job.copies|..] == mid.copies[|job.copies|..] + after.copies[|mid.copies|..];
    }
  }

  function PdfCount(walk: seq<ScannedFile>): nat {
    if walk == [] then 0 else (if IsPdfName(walk[0].name) then 1 else 0) + PdfCount(walk[1..])
  }

  lemma {:induction false} PdfCountSnoc(walk: seq<ScannedFile>, sf: ScannedFile)
    ensures PdfCount(walk + [sf]) == PdfCount(walk) + if IsPdfName(sf.name) then 1 else 0
  {
    if walk != [] {
      assert (walk + [sf])[1..] == walk[1..] + [sf];
      PdfCountSnoc(walk[1..], sf);
    }
  }

  /** Sources are only copied: every folder keeps all its names, the source
      folders are unchanged, and new names appear only in the output tree. */
  lemma {:induction false} SourcesNeverMoved(fs: FileSystem, listing: seq<string>, walk: seq<ScannedFile>, text: ScannedFile -> string)
    ensures var after := Process(fs, listing, walk, text).fs;
      Grows(fs, after) && forall f :: f in fs && IsSource(f) ==> after[f] == fs[f]
  {
    var start := Start(fs);
    RefsKeepSources(start, RefFiles(listing));
    ScansKeepSources(RunRefs(start, RefFiles(listing)), walk, text);
  }

  predicate SameSources(fs: FileSystem, fs': FileSystem) {
    Grows(fs, fs') && forall f :: f in fs && IsSource(f) ==> fs'[f] == fs[f]
  }

  lemma {:induction false} RefsKeepSources(job: Job, files: seq<string>)
    ensures SameSources(job.fs, RunRefs(job, files).fs)
    decreases |files|
  {
    if files != [] { RefsKeepSources(job, files[..|files| - 1]); }
  }

  lemma {:induction false} ScansKeepSources(job: Job, walk: seq<ScannedFile>, text: ScannedFile -> string)
    ensures SameSources(job.fs, RunScans(job, walk, text).fs)
    decreases |walk|
  {
    if walk != [] { ScansKeepSources(job, walk[..|walk| - 1], text); }
  }

  /** Two reference files with ids "15801341" and "99999999", then three
      scanned PDFs whose texts name the first id, no id, and the first id
      again: the first group ends with its reference copy and two scanned
      copies (the second one suffixed _2), the second group holds only its
      reference copy, and the middle scan is reported unmatched. */
  lemma {:induction false} EndToEndScenario(r1: string, r2: string, s1: ScannedFile, s2: ScannedFile, s3: ScannedFile,
                         text: ScannedFile -> string)
    requires ExtractId(r1) == Some("15801341") && ExtractId(r2) == Some("99999999")
    requires EndsWith(r1, ".pdf") && EndsWith(r2, ".pdf")
    requires IsPdfName(s1.name) && IsPdfName(s2.name) && IsPdfName(s3.name)
    requires Contains(text(s1), "15801341") && Contains(text(s3), "15801341")
    requires !Contains(text(s2), "15801341") && !Contains(text(s2), "99999999")
    ensures var job := Process(map[Jde := {r1, r2}], [r1, r2], [s1, s2, s3], text);
      Names(job.fs, Group("15801341")) == {JdeName("15801341"), NeuName("15801341"), NeuRetryName("15801341")} &&
      Names(job.fs, Group("99999999")) == {JdeName("99999999")} &&
      job.unmatched == [s2]
  {
    var refs := RunRefs(Start(map[Jde := {r1, r2}]), RefFiles([r1, r2]));
    ScenarioRefs(r1, r2);
    var walk := [s1, s2, s3];
    assert walk[..2][..1] == [s1] && walk[..2] == [s1, s2];
    var j1 := RunScans(refs, [s1], text);
    ScenarioFirstScan(refs, s1, text);
    var j2 := RunScans(refs, [s1, s2], text);
    assert ["15801341", "99999999"][1..] == ["99999999"] && ["99999999"][1..] == [];
    assert FirstMatch(["99999999"], text(s2)) == None;
    assert FirstMatch(Keys(refs.index), text(s2)) == None;
    assert j2 == j1.(unmatched := [s2]);
    assert |NeuName("15801341")| != |NeuRetryName("15801341")|;
  }

  lemma {:induction false} ScenarioRefs(r1: string, r2: string)
    requires ExtractId(r1) == Some("15801341") && ExtractId(r2) == Some("99999999")
    requires EndsWith(r1, ".pdf") && EndsWith(r2, ".pdf")
    ensures var refs := RunRefs(Start(map[Jde := {r1, r2}]), RefFiles([r1, r2]));
      Names(refs.fs, Group("15801341")) == {JdeName("15801341")} &&
      Names(refs.fs, Group("99999999")) == {JdeName("99999999")} &&
      Keys(refs.index) == ["15801341", "99999999"] && refs.unmatched == []
  {
    var start := Start(map[Jde := {r1, r2}]);
    assert RefFiles([r1, r2]) == [r1, r2];
    assert [r1, r2][..1] == [r1];
    var a := RefStep(start, r1);
    assert RunRefs(start, [r1]) == a;
    assert Names(a.fs, Group("15801341")) == {JdeName("15801341")} && a.index == [("15801341", r1)];
    var refs := RefStep(a, r2);
    assert RunRefs(start, [r1, r2]) == refs;
    assert "15801341"[0] != "99999999"[0];
    assert Put(a.index, "99999999", r2) == [a.index[0]] + Put([], "99999999", r2);
    assert refs.index == [("15801341", r1), ("99999999", r2)];
  }

  lemma {:induction false} ScenarioFirstScan(refs: Job, s1: ScannedFile, text: ScannedFile -> string)
    requires Names(refs.fs, Group("15801341")) == {JdeName("15801341")}
    requires Keys(refs.index) == ["15801341", "99999999"]
    requires IsPdfName(s1.name) && Contains(text(s1), "15801341")
    ensures var j1 := RunScans(refs, [s1], text);
      Names(j1.fs, Group("15801341")) == {JdeName("15801341"), NeuName("15801341")} &&
      Names(j1.fs, Group("99999999")) == Names(refs.fs, Group("99999999")) &&
      j1.index == refs.index && j1.unmatched == refs.unmatched
  {
    assert [s1][..0] == [];
    assert RunScans(refs, [], text) == refs;
    assert JdeName("15801341")[0] != NeuName("15801341")[0];
    assert FirstMatch(Keys(refs.index), text(s1)) == Some("15801341");
  }
}
