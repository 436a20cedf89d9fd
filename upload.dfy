// The upload route of apps/api/src/routes/upload.js: the ZIP limits of
// `checkZip`, ZIP detection and the choice of the job to enqueue. Reading
// the archive, the signature check, storage and the queue are parameters.

module Upload {
  import opened Wrappers
  import opened Text

  /** One archive entry: its name and its uncompressed size. */
  datatype Entry = Entry(name: string, size: nat)

  const MaxTotalSize: nat := 300 * 1024 * 1024
  const MaxEntries: nat := 100

  const ErrorPrefix := "Invalid ZIP: "
  const TooManyFiles := "Too many files in ZIP (max 100)"
  const TooLarge := "ZIP contents exceed size limit"
  const ZipSlip := "Malicious zip entry (Zip Slip)"

  /** The sizes of the first n entries added up. */
  function SizeSum(entries: seq<Entry>, n: nat): nat
    requires n <= |entries|
  {
    if n == 0 then 0 else SizeSum(entries, n - 1) + entries[n - 1].size
  }

  /** The entry loop from entry i on: each entry first adds its size to the
      running total, then has its name checked. */
  function EntriesVerdict(entries: seq<Entry>, i: nat): Result<bool, string>
    requires i <= |entries|
    decreases |entries| - i
  {
    if i == |entries| then Ok(true)
    else if SizeSum(entries, i + 1) > MaxTotalSize then Err(ErrorPrefix + TooLarge)
    else if Contains(entries[i].name, "..") then Err(ErrorPrefix + ZipSlip)
    else EntriesVerdict(entries, i + 1)
  }

  /** What `checkZip` returns or throws for an archive that could be read
      (a read failure is re-thrown with the same prefix). */
  function ZipVerdict(archive: Result<seq<Entry>, string>): Result<bool, string> {
    match archive
    case Err(message) => Err(ErrorPrefix + message)
    case Ok(entries) =>
      if |entries| > MaxEntries then Err(ErrorPrefix + TooManyFiles) else EntriesVerdict(entries, 0)
  }

  /** `checkZip` */
  method CheckZip(archive: Result<seq<Entry>, string>) returns (r: Result<bool, string>)
    ensures r == ZipVerdict(archive)
  {
    if archive.Err? {
      return Err(ErrorPrefix + archive.error);
    }
    var entries := archive.value;
    if |entries| > MaxEntries {
      return Err(ErrorPrefix + TooManyFiles);
    }
    var totalSize := 0;
    var i := 0;
    while i < |entries|
      invariant 0 <= i <= |entries|
      invariant totalSize == SizeSum(entries, i)
      invariant EntriesVerdict(entries, 0) == EntriesVerdict(entries, i)
    {
      var entry := entries[i];
      totalSize := totalSize + entry.size;
      if totalSize > MaxTotalSize {
        return Err(ErrorPrefix + TooLarge);
      }
      if Contains(entry.name, "..") {
        return Err(ErrorPrefix + ZipSlip);
      }
      i := i + 1;
    }
    return Ok(true);
  }

  /** Running totals only grow. */
  lemma {:induction false} SizeSumMonotone(entries: seq<Entry>, m: nat, n: nat)
    requires m <= n <= |entries|
    ensures SizeSum(entries, m) <= SizeSum(entries, n)
    decreases n - m
  {
    if m < n {
      SizeSumMonotone(entries, m, n - 1);
    }
  }

  /** The loop from entry i on accepts exactly when the whole archive fits
      in the size limit and no entry from i on has ".." in its name. */
  lemma {:induction false} EntriesVerdictSpec(entries: seq<Entry>, i: nat)
    requires i <= |entries| && SizeSum(entries, i) <= MaxTotalSize
    ensures EntriesVerdict(entries, i).Ok? <==>
      SizeSum(entries, |entries|) <= MaxTotalSize && forall k :: i <= k < |entries| ==> !Contains(entries[k].name, "..")
    decreases |entries| - i
  {
    if i < |entries| {
      SizeSumMonotone(entries, i + 1, |entries|);
      if SizeSum(entries, i + 1) <= MaxTotalSize {
        EntriesVerdictSpec(entries, i + 1);
      }
    }
  }

  /** An archive passes exactly when it has at most 100 entries, at most
      300 MB in all, and no entry name containing "..". */
  lemma {:induction false} ZipAccepted(entries: seq<Entry>)
    ensures ZipVerdict(Ok(entries)).Ok? <==>
      |entries| <= MaxEntries && SizeSum(entries, |entries|) <= MaxTotalSize
      && forall k :: 0 <= k < |entries| ==> !Contains(entries[k].name, "..")
    ensures ZipVerdict(Ok(entries)).Ok? ==> ZipVerdict(Ok(entries)).value
  {
    if |entries| <= MaxEntries {
      EntriesVerdictSpec(entries, 0);
      EntriesVerdictTrue(entries, 0);
    }
  }

  lemma {:induction false} EntriesVerdictTrue(entries: seq<Entry>, i: nat)
    requires i <= |entries|
    ensures EntriesVerdict(entries, i).Ok? ==> EntriesVerdict(entries, i).value
    ensures EntriesVerdict(entries, i).Err? ==> EntriesVerdict(entries, i).error in {ErrorPrefix + TooLarge, ErrorPrefix + ZipSlip}
    decreases |entries| - i
  {
    if i < |entries| {
      EntriesVerdictTrue(entries, i + 1);
    }
  }

  /** Every failure carries the "Invalid ZIP: " prefix. */
  lemma {:induction false} ZipErrorPrefixed(archive: Result<seq<Entry>, string>)
    ensures ZipVerdict(archive).Err? ==> StartsWith(ZipVerdict(archive).error, ErrorPrefix)
  {
    if archive.Ok? && |archive.value| <= MaxEntries {
      EntriesVerdictTrue(archive.value, 0);
    }
  }

  /** An entry climbing out of the extraction folder is refused
      (apps/api/tests/upload_security.test.js:83-100). */
  lemma {:induction false} ZipSlipRejected(entries: seq<Entry>)
    requires entries == [Entry("../../etc/passwd", 100)]
    ensures ZipVerdict(Ok(entries)) == Err(ErrorPrefix + ZipSlip)
  {
    assert SizeSum(entries, 1) == 100;
    assert entries[0].name[0..2] == "..";
    ContainsAt(entries[0].name, "..", 0);
  }

  /** The upload of apps/api/tests/upload_security.test.js:102-117 passes. */
  lemma {:induction false} SafeZipAccepted(entries: seq<Entry>, name: string)
    requires name == "safe.txt" && entries == [Entry(name, 100)]
    ensures ZipVerdict(Ok(entries)) == Ok(true)
  {
    assert SizeSum(entries, 1) == 100;
    assert !Contains(name, "..") by {
      assert name[4] == '.' && name[5] == 't' && name[3] == 'e';
      NoDoubleDot(name);
    }
    assert EntriesVerdict(entries, 1) == Ok(true);
  }

  /** A name without two dots in a row does not contain "..". */
  lemma {:induction false} NoDoubleDot(s: string)
    requires forall k :: 0 <= k < |s| - 1 ==> !(s[k] == '.' && s[k + 1] == '.')
    ensures !Contains(s, "..")
    decreases |s|
  {
    if s != [] {
      if |s| >= 2 {
        assert !(s[0] == '.' && s[1] == '.');
        assert s[..2] != "..";
      }
      var t := s[1..];
      assert forall k :: 0 <= k < |t| ==> t[k] == s[k + 1];
      NoDoubleDot(s[1..]);
    }
  }

  /** The uploaded file as multer describes it. */
  datatype UploadedFile = UploadedFile(mimetype: string, originalname: string)

  /** `isZip` */
  predicate IsZip(file: UploadedFile) {
    file.mimetype == "application/zip" || file.mimetype == "application/x-zip-compressed"
    || EndsWith(Lower(file.originalname), ".zip")
  }

  const ProcessUpload := "PROCESS_UPLOAD"
  const ProcessSingleFile := "PROCESS_SINGLE_FILE"

  /** The route's answer: 400 with a message, or 202 with the job that was
      enqueued. */
  datatype UploadResponse = BadRequest(error: string) | Accepted(jobName: string)

  /** The POST handler; `signature` is the outcome of validateFileSignature
      and `archive` what reading the file as a ZIP gives. */
  function HandleUpload(file: Option<UploadedFile>, signature: Result<(), string>,
                        archive: Result<seq<Entry>, string>): UploadResponse
  {
    match file
    case None => BadRequest("No file uploaded")
    case Some(f) =>
      if signature.Err? then BadRequest(signature.error)
      else if IsZip(f) && ZipVerdict(archive).Err? then BadRequest(ZipVerdict(archive).error)
      else Accepted(if IsZip(f) then ProcessUpload else ProcessSingleFile)
  }

  /** A ZIP is enqueued only after checkZip passed, and always as
      PROCESS_UPLOAD; any other file goes to PROCESS_SINGLE_FILE without
      looking inside it. */
  lemma {:induction false} UploadJob(f: UploadedFile, signature: Result<(), string>, archive: Result<seq<Entry>, string>)
    requires signature.Ok?
    ensures HandleUpload(Some(f), signature, archive).Accepted? <==> !IsZip(f) || ZipVerdict(archive).Ok?
    ensures HandleUpload(Some(f), signature, archive).Accepted? ==>
      (HandleUpload(Some(f), signature, archive).jobName == ProcessUpload <==> IsZip(f))
  {
  }

  /** A name ending in ".zip" in any case marks a ZIP whatever its type. */
  lemma {:induction false} ZipByName(mimetype: string, name: string)
    requires name == "Batch.ZIP"
    ensures IsZip(UploadedFile(mimetype, name))
  {
    var l := Lower(name);
    assert l[5] == '.' && l[6] == 'z' && l[7] == 'i' && l[8] == 'p';
    assert l[5..] == ".zip";
  }
}
