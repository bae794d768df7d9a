/** Sanitising a fetched pull request under a cumulative patch budget
    (app/services/pull_request_reviews.py, `sanitize_github_pull_request`). */
module PatchBudget {
  import opened Basics
  import ContextPacking

  type Sanitizer = ContextPacking.Sanitizer

  datatype FetchedFile = FetchedFile(filename: string, previous: Option<string>, changes: nat, patch: string)

  datatype FileSnapshot = FileSnapshot(
    filename: string, previous: Option<string>, changes: nat, patch: string,
    redacted: bool, suspicious: bool, truncated: bool)

  datatype Fetched = Fetched(
    title: string, body: string, author: string, baseRef: string, headRef: string,
    files: seq<FetchedFile>, filesTruncated: bool)

  datatype Snapshot = Snapshot(
    title: string, body: string, author: string, baseRef: string, headRef: string,
    files: seq<FileSnapshot>, redacted: bool, suspicious: bool, truncated: bool)

  datatype Error = PatchLimitNotPositive | IdentityEmpty | RefsEmpty | FilenameEmpty

  datatype Result<+T> = Ok(value: T) | Err(error: Error)

  function CleanPatch(clean: Sanitizer, file: FetchedFile): string {
    clean(file.patch).content
  }

  /** `text[:n]`. */
  function Take(text: string, n: nat): (r: string)
    ensures r <= text && |r| <= n
    ensures |text| <= n ==> r == text
    ensures |text| > n ==> |r| == n
  {
    if |text| <= n then text else text[..n]
  }

  predicate PatchMissing(clean: Sanitizer, file: FetchedFile) {
    CleanPatch(clean, file) == "" && file.changes > 0
  }

  predicate FileFlag(clean: Sanitizer, file: FetchedFile, flag: ContextPacking.Clean -> bool) {
    flag(clean(file.filename)) || flag(clean(file.patch)) || (file.previous.Some? && flag(clean(file.previous.value)))
  }

  predicate IsRedacted(c: ContextPacking.Clean) { c.redacted }

  predicate IsSuspicious(c: ContextPacking.Clean) { c.suspicious }

  predicate HeaderFlag(clean: Sanitizer, fetched: Fetched, flag: ContextPacking.Clean -> bool) {
    flag(clean(fetched.title)) || flag(clean(fetched.body)) || flag(clean(fetched.author))
  }

  function Concat(parts: seq<string>): string {
    if parts == [] then "" else Concat(parts[..|parts| - 1]) + parts[|parts| - 1]
  }

  function Patches(files: seq<FileSnapshot>): (r: seq<string>)
    ensures |r| == |files|
  {
    seq(|files|, k requires 0 <= k < |files| => files[k].patch)
  }

  function CleanPatches(clean: Sanitizer, files: seq<FetchedFile>): (r: seq<string>)
    ensures |r| == |files|
  {
    seq(|files|, k requires 0 <= k < |files| => CleanPatch(clean, files[k]))
  }

  lemma TakeMore(done: string, more: string, budget: nat)
    ensures |Take(done, budget)| <= budget
    ensures Take(done + more, budget) == Take(done, budget) + Take(more, budget - |Take(done, budget)|)
  {
  }

  /** The stored file of one fetched file, given what is left of the budget. */
  function FileOf(clean: Sanitizer, file: FetchedFile, remaining: nat): FileSnapshot {
    FileSnapshot(
      clean(file.filename).content,
      if file.previous.Some? then Some(clean(file.previous.value).content) else None,
      file.changes,
      Take(CleanPatch(clean, file), remaining),
      FileFlag(clean, file, IsRedacted),
      FileFlag(clean, file, IsSuspicious),
      |CleanPatch(clean, file)| > remaining || PatchMissing(clean, file))
  }

  predicate Exists(files: seq<FetchedFile>, p: FetchedFile -> bool) {
    exists k :: 0 <= k < |files| && p(files[k])
  }

  lemma ExistsOneMore(files: seq<FetchedFile>, k: nat, p: FetchedFile -> bool)
    requires k < |files|
    ensures Exists(files[..k + 1], p) <==> Exists(files[..k], p) || p(files[k])
  {
    assert files[..k + 1] == files[..k] + [files[k]];
    assert forall i :: 0 <= i < k ==> files[..k + 1][i] == files[..k][i];
    assert files[..k + 1][k] == files[k];
  }

  /** What one stored file says of the fetched one. */
  predicate FileFaithful(clean: Sanitizer, file: FetchedFile, stored: FileSnapshot) {
    && stored.filename == clean(file.filename).content != ""
    && stored.changes == file.changes
    && stored.previous == (if file.previous.Some? then Some(clean(file.previous.value).content) else None)
    && stored.patch <= CleanPatch(clean, file)
    && (stored.truncated <==> stored.patch != CleanPatch(clean, file) || PatchMissing(clean, file))
    && (stored.redacted <==> FileFlag(clean, file, IsRedacted))
    && (stored.suspicious <==> FileFlag(clean, file, IsSuspicious))
  }

  lemma FileOfFaithful(clean: Sanitizer, file: FetchedFile, remaining: nat)
    requires clean(file.filename).content != ""
    ensures FileFaithful(clean, file, FileOf(clean, file, remaining))
  {
  }

  /** What the stored files are worth: the stored patches in a row are exactly the
      first characters of the sanitized patches in a row; the flags say when
      something was redacted, suspicious or lost, and where. */
  predicate Faithful(clean: Sanitizer, files: seq<FetchedFile>, stored: seq<FileSnapshot>, budget: nat) {
    && |stored| == |files|
    && Concat(Patches(stored)) == Take(Concat(CleanPatches(clean, files)), budget)
    && forall k :: 0 <= k < |files| ==> FileFaithful(clean, files[k], stored[k])
  }

  lemma FaithfulOneMore(clean: Sanitizer, files: seq<FetchedFile>, stored: seq<FileSnapshot>, budget: nat, k: nat,
                        remaining: nat)
    requires k < |files| && Faithful(clean, files[..k], stored, budget)
    requires remaining == budget - |Concat(Patches(stored))|
    requires clean(files[k].filename).content != ""
    ensures Faithful(clean, files[..k + 1], stored + [FileOf(clean, files[k], remaining)], budget)
    ensures Concat(Patches(stored + [FileOf(clean, files[k], remaining)]))
         == Concat(Patches(stored)) + Take(CleanPatch(clean, files[k]), remaining)
  {
    hide FileFaithful, CleanPatch, Take;
    FileOfFaithful(clean, files[k], remaining);
    var next := FileOf(clean, files[k], remaining);
    var more := stored + [next];
    assert Patches(more)[..k] == Patches(stored) && Patches(more)[k] == next.patch;
    assert CleanPatches(clean, files[..k + 1])[..k] == CleanPatches(clean, files[..k]);
    TakeMore(Concat(CleanPatches(clean, files[..k])), CleanPatch(clean, files[k]), budget);
  }

  /** Some patch does not fit, or was empty although the file changed. */
  predicate Lossy(clean: Sanitizer, files: seq<FetchedFile>, budget: nat) {
    |Concat(CleanPatches(clean, files))| > budget || Exists(files, (file: FetchedFile) => PatchMissing(clean, file))
  }

  lemma LossyOneMore(clean: Sanitizer, files: seq<FetchedFile>, budget: nat, k: nat, remaining: nat)
    requires k < |files|
    requires remaining == budget - |Take(Concat(CleanPatches(clean, files[..k])), budget)|
    ensures Lossy(clean, files[..k + 1], budget)
      <==> Lossy(clean, files[..k], budget) || FileOf(clean, files[k], remaining).truncated
  {
    ExistsOneMore(files, k, (file: FetchedFile) => PatchMissing(clean, file));
    assert CleanPatches(clean, files[..k + 1])[..k] == CleanPatches(clean, files[..k]);
  }

  function PatchLength(): FileSnapshot -> int {
    (file: FileSnapshot) => |file.patch|
  }

  /** What a stored file says of the fetched one when `spent` characters of the budget
      are used up before it. */
  predicate FileSays(clean: Sanitizer, file: FetchedFile, stored: FileSnapshot, budget: nat, spent: int) {
    var name, patch := clean(file.filename), clean(file.patch);
    && stored.filename == name.content != "" && stored.changes == file.changes
    && (stored.previous.Some? <==> file.previous.Some?)
    && (file.previous.Some? ==> stored.previous.value == clean(file.previous.value).content)
    && spent <= budget
    && stored.patch == (if |patch.content| <= budget - spent then patch.content else patch.content[..budget - spent])
    && (stored.truncated <==> |patch.content| > budget - spent || (patch.content == "" && file.changes > 0))
    && (stored.redacted <==>
          name.redacted || patch.redacted || (file.previous.Some? && clean(file.previous.value).redacted))
    && (stored.suspicious <==>
          name.suspicious || patch.suspicious || (file.previous.Some? && clean(file.previous.value).suspicious))
  }

  predicate FilesSay(clean: Sanitizer, files: seq<FetchedFile>, stored: seq<FileSnapshot>, budget: nat) {
    && |stored| == |files|
    && forall k :: 0 <= k < |files| ==> FileSays(clean, files[k], stored[k], budget, Sum(stored[..k], PatchLength()))
  }

  /** The flags of the whole: those of its header and those of any of its files. */
  predicate FlagsSay(stored: seq<FileSnapshot>, header: (bool, bool, bool), flags: (bool, bool, bool)) {
    && (flags.0 <==> header.0 || exists f :: f in stored && f.redacted)
    && (flags.1 <==> header.1 || exists f :: f in stored && f.suspicious)
    && (flags.2 <==> header.2 || exists f :: f in stored && f.truncated)
  }

  lemma FlagsSayOneMore(stored: seq<FileSnapshot>, next: FileSnapshot, header: (bool, bool, bool),
                        flags: (bool, bool, bool))
    requires FlagsSay(stored, header, flags)
    ensures FlagsSay(stored + [next], header,
                     (flags.0 || next.redacted, flags.1 || next.suspicious, flags.2 || next.truncated))
  {
    assert forall f :: f in stored + [next] <==> f in stored || f == next;
  }

  lemma FilesSayOneMore(clean: Sanitizer, files: seq<FetchedFile>, stored: seq<FileSnapshot>, budget: nat, k: nat,
                        remaining: nat)
    requires k < |files| && FilesSay(clean, files[..k], stored, budget)
    requires remaining == budget - Sum(stored, PatchLength()) && clean(files[k].filename).content != ""
    ensures var next := FileOf(clean, files[k], remaining);
      && FilesSay(clean, files[..k + 1], stored + [next], budget)
      && Sum(stored + [next], PatchLength()) == Sum(stored, PatchLength()) + |next.patch|
  {
    var next := FileOf(clean, files[k], remaining);
    var more := stored + [next];
    SumAppend(stored, [next], PatchLength());
    SumSingle(next, PatchLength());
    assert FileSays(clean, files[k], next, budget, Sum(stored, PatchLength()));
    hide FileSays, FileOf;
    assert more[..k] == stored && more[k] == next;
    forall j | 0 <= j < k
      ensures FileSays(clean, files[j], more[j], budget, Sum(more[..j], PatchLength()))
    {
      assert more[..j] == stored[..j] && more[j] == stored[j] && files[..k][j] == files[j];
    }
  }

  /** The loop over the files, with the budget carried from one to the next. */
  method SanitizeFiles(clean: Sanitizer, files: seq<FetchedFile>, budget: nat, header: (bool, bool, bool))
    returns (r: Result<seq<FileSnapshot>>, redacted: bool, suspicious: bool, truncated: bool)
    ensures r.Err? <==> Exists(files, (file: FetchedFile) => clean(file.filename).content == "")
    ensures r.Err? ==> r.error == FilenameEmpty
    ensures r.Ok? ==> Faithful(clean, files, r.value, budget) && FilesSay(clean, files, r.value, budget)
    ensures r.Ok? ==> FlagsSay(r.value, header, (redacted, suspicious, truncated))
    ensures r.Ok? ==>
      (redacted <==> header.0 || Exists(files, (file: FetchedFile) => FileFlag(clean, file, IsRedacted)))
    ensures r.Ok? ==>
      (suspicious <==> header.1 || Exists(files, (file: FetchedFile) => FileFlag(clean, file, IsSuspicious)))
    ensures r.Ok? ==> (truncated <==> header.2 || Lossy(clean, files, budget))
  {
    hide FileFlag, PatchMissing, Faithful, Lossy, CleanPatch, Take, Concat, Patches, CleanPatches, FilesSay, FlagsSay;
    hide FileSays;
    ghost var isRedacted := (file: FetchedFile) => FileFlag(clean, file, IsRedacted);
    ghost var isSuspicious := (file: FetchedFile) => FileFlag(clean, file, IsSuspicious);
    var remaining: nat := budget;
    var stored: seq<FileSnapshot> := [];
    redacted, suspicious, truncated := header.0, header.1, header.2;
    NothingYet(clean, budget);
    assert files[..0] == [];
    for k := 0 to |files|
      invariant Faithful(clean, files[..k], stored, budget)
      invariant remaining == budget - |Concat(Patches(stored))| == budget - Sum(stored, PatchLength())
      invariant FilesSay(clean, files[..k], stored, budget)
      invariant FlagsSay(stored, header, (redacted, suspicious, truncated))
      invariant forall l :: 0 <= l < k ==> clean(files[l].filename).content != ""
      invariant redacted <==> header.0 || Exists(files[..k], isRedacted)
      invariant suspicious <==> header.1 || Exists(files[..k], isSuspicious)
      invariant truncated <==> header.2 || Lossy(clean, files[..k], budget)
    {
      var file := files[k];
      if clean(file.filename).content == "" {
        return Err(FilenameEmpty), redacted, suspicious, truncated;
      }
      var next := FileOf(clean, file, remaining);
      FaithfulOneMore(clean, files, stored, budget, k, remaining);
      FilesSayOneMore(clean, files, stored, budget, k, remaining);
      FlagsSayOneMore(stored, next, header, (redacted, suspicious, truncated));
      TakenSoFar(clean, files[..k], stored, budget);
      LossyOneMore(clean, files, budget, k, remaining);
      ExistsOneMore(files, k, isRedacted);
      ExistsOneMore(files, k, isSuspicious);
      remaining := remaining - |next.patch|;
      stored := stored + [next];
      redacted := redacted || next.redacted;
      suspicious := suspicious || next.suspicious;
      truncated := truncated || next.truncated;
    }
    assert files[..|files|] == files;
    r := Ok(stored);
  }

  lemma NothingYet(clean: Sanitizer, budget: nat)
    ensures Faithful(clean, [], [], budget) && !Lossy(clean, [], budget) && |Concat(Patches([]))| == 0
    ensures forall p :: !Exists([], p)
    ensures FilesSay(clean, [], [], budget) && Sum([], PatchLength()) == 0
    ensures forall flags :: FlagsSay([], flags, flags)
  {
  }

  lemma TakenSoFar(clean: Sanitizer, files: seq<FetchedFile>, stored: seq<FileSnapshot>, budget: nat)
    requires Faithful(clean, files, stored, budget)
    ensures Concat(Patches(stored)) == Take(Concat(CleanPatches(clean, files)), budget)
  {
  }

  /** `sanitize_github_pull_request`. */
  method Sanitize(clean: Sanitizer, fetched: Fetched, maxPatchCharacters: int) returns (r: Result<Snapshot>)
    ensures r.Err? && r.error == PatchLimitNotPositive <==> maxPatchCharacters < 1
    ensures r.Err? && r.error == IdentityEmpty <==>
      maxPatchCharacters >= 1 && (clean(fetched.title).content == "" || clean(fetched.author).content == "")
    ensures r.Err? && r.error == RefsEmpty <==>
      && maxPatchCharacters >= 1 && clean(fetched.title).content != "" && clean(fetched.author).content != ""
      && (clean(fetched.baseRef).content == "" || clean(fetched.headRef).content == "")
    ensures r.Err? && r.error == FilenameEmpty <==>
      && maxPatchCharacters >= 1 && clean(fetched.title).content != "" && clean(fetched.author).content != ""
      && clean(fetched.baseRef).content != "" && clean(fetched.headRef).content != ""
      && Exists(fetched.files, (file: FetchedFile) => clean(file.filename).content == "")
    ensures r.Ok? ==>
      && Faithful(clean, fetched.files, r.value.files, maxPatchCharacters)
      && r.value.title == clean(fetched.title).content != "" && r.value.body == clean(fetched.body).content
      && r.value.author == clean(fetched.author).content != ""
      && r.value.baseRef == clean(fetched.baseRef).content != ""
      && r.value.headRef == clean(fetched.headRef).content != ""
    ensures r.Ok? ==>
      var title, body, author := clean(fetched.title), clean(fetched.body), clean(fetched.author);
      && FilesSay(clean, fetched.files, r.value.files, maxPatchCharacters)
      && FlagsSay(r.value.files,
                  (title.redacted || body.redacted || author.redacted,
                   title.suspicious || body.suspicious || author.suspicious, fetched.filesTruncated),
                  (r.value.redacted, r.value.suspicious, r.value.truncated))
    ensures r.Ok? ==> (r.value.truncated <==> fetched.filesTruncated || Lossy(clean, fetched.files, maxPatchCharacters))
    ensures r.Ok? ==> (r.value.redacted <==>
      HeaderFlag(clean, fetched, IsRedacted)
      || Exists(fetched.files, (file: FetchedFile) => FileFlag(clean, file, IsRedacted)))
    ensures r.Ok? ==> (r.value.suspicious <==>
      HeaderFlag(clean, fetched, IsSuspicious)
      || Exists(fetched.files, (file: FetchedFile) => FileFlag(clean, file, IsSuspicious)))
  {
    hide FileFlag, PatchMissing, Faithful, Lossy, Exists, FilesSay, FlagsSay;
    if maxPatchCharacters < 1 {
      return Err(PatchLimitNotPositive);
    }
    var title, body, author := clean(fetched.title), clean(fetched.body), clean(fetched.author);
    var baseRef, headRef := clean(fetched.baseRef), clean(fetched.headRef);
    if title.content == "" || author.content == "" {
      return Err(IdentityEmpty);
    }
    if baseRef.content == "" || headRef.content == "" {
      return Err(RefsEmpty);
    }
    var redacted := title.redacted || body.redacted || author.redacted;
    var suspicious := title.suspicious || body.suspicious || author.suspicious;
    var truncated := fetched.filesTruncated;
    var files;
    files, redacted, suspicious, truncated :=
      SanitizeFiles(clean, fetched.files, maxPatchCharacters, (redacted, suspicious, truncated));
    if files.Err? {
      return Err(files.error);
    }
    r := Ok(Snapshot(title.content, body.content, author.content, baseRef.content, headRef.content,
                     files.value, redacted, suspicious, truncated));
  }

  /** Nothing is lost exactly when every stored patch is the whole sanitized one and
      none is missing. */
  lemma LossyMeansSomeFileTruncated(clean: Sanitizer, files: seq<FetchedFile>, stored: seq<FileSnapshot>, budget: nat)
    requires Faithful(clean, files, stored, budget)
    ensures Lossy(clean, files, budget) <==> exists k :: 0 <= k < |stored| && stored[k].truncated
  {
    if !(exists k :: 0 <= k < |stored| && stored[k].truncated) {
      assert forall k :: 0 <= k < |files| ==> Patches(stored)[k] == CleanPatches(clean, files)[k];
      assert Patches(stored) == CleanPatches(clean, files);
    }
    if !Lossy(clean, files, budget) {
      PiecesOfEqualConcat(Patches(stored), CleanPatches(clean, files));
      forall k | 0 <= k < |stored|
        ensures !stored[k].truncated
      {
        assert Patches(stored)[k] == CleanPatches(clean, files)[k];
        assert !PatchMissing(clean, files[k]) by {
          var missing := (file: FetchedFile) => PatchMissing(clean, file);
          assert missing(files[k]) ==> Exists(files, missing);
        }
      }
    }
  }

  /** Prefixes piece by piece that make up the same text are the pieces themselves. */
  lemma {:induction false} PiecesOfEqualConcat(parts: seq<string>, whole: seq<string>)
    requires |parts| == |whole|
    requires forall k :: 0 <= k < |parts| ==> parts[k] <= whole[k]
    ensures |Concat(parts)| <= |Concat(whole)|
    ensures |Concat(parts)| == |Concat(whole)| ==> parts == whole
  {
    if parts != [] {
      var last := |parts| - 1;
      PiecesOfEqualConcat(parts[..last], whole[..last]);
      assert parts == parts[..last] + [parts[last]] && whole == whole[..last] + [whole[last]];
      assert |parts[last]| == |whole[last]| ==> parts[last] == whole[last];
    }
  }
}
