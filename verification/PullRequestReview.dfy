/** Pull request review (app/agents/pull_request_review.py): the findings the code
    computes itself, their merge with whatever a model proposes, and the safeguards
    laid over the model's risk and recommendation.

    `fold` stands for `str.casefold`. The descriptions and recommendations inside a
    finding and the prose of a review are carried along unread, so they are not
    modelled (the prose is one opaque text). */
module PullRequestReview {
  import opened Basics

  datatype Risk = LowRisk | MediumRisk | HighRisk | CriticalRisk

  datatype Category = Architecture | Contract | Documentation | Quality | Security | Testing

  datatype Recommendation = ReadyForHumanReview | ChangesRequired | Block

  datatype Finding = Finding(severity: Risk, category: Category, title: string, filePath: Option<string>)

  /** What a review says it is about. */
  datatype Source = Source(repository: string, pullNumber: int, contentHash: string)

  datatype PullRequest = PullRequest(
    source: Source, paths: seq<string>, redacted: bool, suspicious: bool, truncated: bool)

  datatype Context = Context(bundleHash: string, truncated: bool)

  datatype Review = Review(
    source: Source, bundleHash: string, findings: seq<Finding>,
    risk: Risk, recommendation: Recommendation, prose: string)

  type Folding = string -> string

  const MAX_FINDINGS := 100

  function Order(risk: Risk): nat {
    match risk
    case LowRisk => 0
    case MediumRisk => 1
    case HighRisk => 2
    case CriticalRisk => 3
  }

  /** LOW below MEDIUM below HIGH below CRITICAL. */
  lemma OrderSpelled()
    ensures Order(LowRisk) < Order(MediumRisk) < Order(HighRisk) < Order(CriticalRisk)
  {
  }

  // ---------------------------------------------------------------- paths

  function Slashes(path: string): (r: string)
    ensures |r| == |path|
  {
    seq(|path|, k requires 0 <= k < |path| => if path[k] == '\\' then '/' else path[k])
  }

  predicate StartsWith(s: string, prefix: string) {
    |prefix| <= |s| && s[..|prefix|] == prefix
  }

  predicate EndsWith(s: string, suffix: string) {
    |suffix| <= |s| && s[|s| - |suffix|..] == suffix
  }

  predicate Contains(s: string, part: string) {
    StartsWith(s, part) || (s != "" && Contains(s[1..], part))
  }

  /** The part after the last slash. */
  function BaseName(s: string): (r: string)
    ensures '/' !in r && EndsWith(s, r)
    ensures |r| < |s| ==> s[|s| - |r| - 1] == '/'
  {
    if '/' in s then
      var r := BaseName(s[1..]);
      var tail, n := s[1..], |s| - 1 - |r|;
      assert s[n + 1..] == tail[n..] && (n > 0 ==> s[n] == tail[n - 1]);
      r
    else s
  }

  ghost predicate Within(s: string, part: string) {
    exists a: string, b: string :: s == a + part + b
  }

  lemma WithinSpelled(s: string, part: string)
    ensures s == "" ==> (Within(s, part) <==> part == "")
    ensures s != "" ==> (Within(s, part) <==> StartsWith(s, part) || Within(s[1..], part))
  {
    if StartsWith(s, part) {
      assert s == "" + part + s[|part|..];
    }
    if s != "" && Within(s[1..], part) {
      var a: string, b: string :| s[1..] == a + part + b;
      assert s == ([s[0]] + a) + part + b;
    }
    if Within(s, part) {
      var a: string, b: string :| s == a + part + b;
      if a != "" {
        assert s[1..] == a[1..] + part + b;
      } else {
        assert s[..|part|] == part;
      }
    }
  }

  lemma {:induction false} ContainsSpelled(s: string, part: string)
    ensures Contains(s, part) <==> Within(s, part)
  {
    hide Within;
    WithinSpelled(s, part);
    if s != "" {
      ContainsSpelled(s[1..], part);
    }
  }

  ghost predicate Begins(s: string, part: string) {
    exists b: string :: s == part + b
  }

  ghost predicate Ends(s: string, part: string) {
    exists a: string :: s == a + part
  }

  lemma AffixesSpelled(s: string, part: string)
    ensures StartsWith(s, part) <==> Begins(s, part)
    ensures EndsWith(s, part) <==> Ends(s, part)
  {
    if StartsWith(s, part) {
      assert s == part + s[|part|..];
    }
    if EndsWith(s, part) {
      assert s == s[..|s| - |part|] + part;
    }
    if Begins(s, part) {
      var b: string :| s == part + b;
      assert s[..|part|] == part;
    }
    if Ends(s, part) {
      var a: string :| s == a + part;
      assert s[|s| - |part|..] == part;
    }
  }

  predicate IsTestFile(fold: Folding, path: string) {
    var normalized := Slashes(fold(path));
    var name := BaseName(normalized);
    || StartsWith(normalized, "tests/") || Contains(normalized, "/tests/")
    || StartsWith(name, "test_") || Contains(name, ".test.") || Contains(name, ".spec.")
  }

  const CODE_SUFFIXES := [
    ".c", ".cpp", ".cs", ".go", ".java", ".js", ".kt", ".php", ".py", ".rb", ".rs", ".ts", ".tsx"]

  predicate IsCodeFile(fold: Folding, path: string) {
    exists k :: 0 <= k < |CODE_SUFFIXES| && EndsWith(fold(path), CODE_SUFFIXES[k])
  }

  predicate IsSensitive(fold: Folding, path: string) {
    var normalized := Slashes(fold(path));
    || StartsWith(normalized, ".github/workflows/") || StartsWith(normalized, "migrations/")
    || StartsWith(normalized, "policies/")
    || normalized == "dockerfile" || normalized == "scanner.dockerfile"
    || Contains(normalized, "/auth") || Contains(normalized, "/security")
  }

  /** The path tests, on the folded path with its backslashes turned. */
  lemma PathsSpelled(fold: Folding, path: string)
    ensures var raw, n := fold(path), Slashes(fold(path));
      var name := BaseName(n);
      && |n| == |raw| && (forall k :: 0 <= k < |n| ==> n[k] == if raw[k] == '\\' then '/' else raw[k])
      && (IsTestFile(fold, path) <==>
            || Begins(n, "tests/") || Within(n, "/tests/")
            || Begins(name, "test_") || Within(name, ".test.") || Within(name, ".spec."))
      && (IsSensitive(fold, path) <==>
            || Begins(n, ".github/workflows/") || Begins(n, "migrations/") || Begins(n, "policies/")
            || n == "dockerfile" || n == "scanner.dockerfile" || Within(n, "/auth") || Within(n, "/security"))
      && (IsCodeFile(fold, path) <==>
            || Ends(raw, ".c") || Ends(raw, ".cpp") || Ends(raw, ".cs") || Ends(raw, ".go") || Ends(raw, ".java")
            || Ends(raw, ".js") || Ends(raw, ".kt") || Ends(raw, ".php") || Ends(raw, ".py") || Ends(raw, ".rb")
            || Ends(raw, ".rs") || Ends(raw, ".ts") || Ends(raw, ".tsx"))
  {
    var raw, n := fold(path), Slashes(fold(path));
    TestPathSpelled(n);
    SensitivePathSpelled(n);
    CodePathSpelled(raw);
    hide StartsWith, EndsWith, Contains, Begins, Ends, Within;
  }

  lemma TestPathSpelled(n: string)
    ensures StartsWith(n, "tests/") <==> Begins(n, "tests/")
    ensures Contains(n, "/tests/") <==> Within(n, "/tests/")
    ensures var name := BaseName(n);
      && (StartsWith(name, "test_") <==> Begins(name, "test_"))
      && (Contains(name, ".test.") <==> Within(name, ".test."))
      && (Contains(name, ".spec.") <==> Within(name, ".spec."))
  {
    hide StartsWith, EndsWith, Contains, Begins, Ends, Within;
    AffixesSpelled(n, "tests/");
    ContainsSpelled(n, "/tests/");
    AffixesSpelled(BaseName(n), "test_");
    ContainsSpelled(BaseName(n), ".test.");
    ContainsSpelled(BaseName(n), ".spec.");
  }

  lemma SensitivePathSpelled(n: string)
    ensures StartsWith(n, ".github/workflows/") <==> Begins(n, ".github/workflows/")
    ensures StartsWith(n, "migrations/") <==> Begins(n, "migrations/")
    ensures StartsWith(n, "policies/") <==> Begins(n, "policies/")
    ensures Contains(n, "/auth") <==> Within(n, "/auth")
    ensures Contains(n, "/security") <==> Within(n, "/security")
  {
    hide StartsWith, EndsWith, Contains, Begins, Ends, Within;
    AffixesSpelled(n, ".github/workflows/");
    AffixesSpelled(n, "migrations/");
    AffixesSpelled(n, "policies/");
    ContainsSpelled(n, "/auth");
    ContainsSpelled(n, "/security");
  }

  lemma CodePathSpelled(raw: string)
    ensures (exists k :: 0 <= k < |CODE_SUFFIXES| && EndsWith(raw, CODE_SUFFIXES[k])) <==>
      || Ends(raw, ".c") || Ends(raw, ".cpp") || Ends(raw, ".cs") || Ends(raw, ".go") || Ends(raw, ".java")
      || Ends(raw, ".js") || Ends(raw, ".kt") || Ends(raw, ".php") || Ends(raw, ".py") || Ends(raw, ".rb")
      || Ends(raw, ".rs") || Ends(raw, ".ts") || Ends(raw, ".tsx")
  {
    hide EndsWith, Ends;
    forall k | 0 <= k < |CODE_SUFFIXES|
      ensures EndsWith(raw, CODE_SUFFIXES[k]) <==> Ends(raw, CODE_SUFFIXES[k])
    {
      AffixesSpelled(raw, CODE_SUFFIXES[k]);
    }
    assert CODE_SUFFIXES[0] == ".c" && CODE_SUFFIXES[1] == ".cpp" && CODE_SUFFIXES[2] == ".cs";
    assert CODE_SUFFIXES[3] == ".go" && CODE_SUFFIXES[4] == ".java" && CODE_SUFFIXES[5] == ".js";
    assert CODE_SUFFIXES[6] == ".kt" && CODE_SUFFIXES[7] == ".php" && CODE_SUFFIXES[8] == ".py";
    assert CODE_SUFFIXES[9] == ".rb" && CODE_SUFFIXES[10] == ".rs" && CODE_SUFFIXES[11] == ".ts";
    assert CODE_SUFFIXES[12] == ".tsx" && |CODE_SUFFIXES| == 13;
  }

  function Where(paths: seq<string>, p: string -> bool): (r: seq<string>)
    ensures forall x :: x in r <==> x in paths && p(x)
  {
    if paths == [] then [] else (if p(paths[0]) then [paths[0]] else []) + Where(paths[1..], p)
  }

  function First(paths: seq<string>): Option<string> {
    if paths == [] then None else Some(paths[0])
  }

  // ---------------------------------------------- the findings of the code

  const TITLES := [
    "Potential secret present in pull request content",
    "Instruction-like content detected in untrusted diff",
    "Pull request diff coverage is incomplete",
    "Code changes have no corresponding test changes",
    "Security-sensitive surface changed",
    "Pull request review context is incomplete"]

  function Production(fold: Folding, pr: PullRequest): seq<string> {
    Where(pr.paths, path => IsCodeFile(fold, path) && !IsTestFile(fold, path))
  }

  function Tests(fold: Folding, pr: PullRequest): seq<string> {
    Where(pr.paths, path => IsTestFile(fold, path))
  }

  function SensitivePaths(fold: Folding, pr: PullRequest): seq<string> {
    Where(pr.paths, path => IsSensitive(fold, path))
  }

  predicate CodeWithoutTests(fold: Folding, pr: PullRequest) {
    Production(fold, pr) != [] && Tests(fold, pr) == []
  }

  function Add(findings: seq<Finding>, applies: bool, finding: Finding): seq<Finding> {
    if applies then findings + [finding] else findings
  }

  /** The finding for rule `k` of `TITLES`. */
  function RuleFinding(fold: Folding, pr: PullRequest, k: nat): Finding
    requires k < |TITLES|
  {
    if k == 0 then Finding(CriticalRisk, Security, TITLES[0], None)
    else if k == 1 then Finding(HighRisk, Security, TITLES[1], None)
    else if k == 2 then Finding(HighRisk, Quality, TITLES[2], None)
    else if k == 3 then Finding(MediumRisk, Testing, TITLES[3], First(Production(fold, pr)))
    else if k == 4 then Finding(MediumRisk, Security, TITLES[4], First(SensitivePaths(fold, pr)))
    else Finding(HighRisk, Quality, TITLES[5], None)
  }

  predicate RuleApplies(fold: Folding, pr: PullRequest, context: Context, k: nat)
    requires k < |TITLES|
  {
    if k == 0 then pr.redacted
    else if k == 1 then pr.suspicious
    else if k == 2 then pr.truncated
    else if k == 3 then CodeWithoutTests(fold, pr)
    else if k == 4 then SensitivePaths(fold, pr) != []
    else context.truncated
  }

  /** The findings of the first `n` rules, in rule order. */
  function Required(fold: Folding, pr: PullRequest, context: Context, n: nat): seq<Finding>
    requires n <= |TITLES|
  {
    if n == 0 then []
    else Add(Required(fold, pr, context, n - 1), RuleApplies(fold, pr, context, n - 1), RuleFinding(fold, pr, n - 1))
  }

  function AllRequired(fold: Folding, pr: PullRequest, context: Context): seq<Finding> {
    Required(fold, pr, context, |TITLES|)
  }

  /** `_deterministic_findings`, and the context finding that `run` appends. */
  method CollectFindings(fold: Folding, pr: PullRequest, context: Context) returns (findings: seq<Finding>)
    ensures findings == AllRequired(fold, pr, context)
  {
    findings := [];
    if pr.redacted {
      findings := findings + [Finding(CriticalRisk, Security, TITLES[0], None)];
    }
    assert findings == Required(fold, pr, context, 1);
    if pr.suspicious {
      findings := findings + [Finding(HighRisk, Security, TITLES[1], None)];
    }
    assert findings == Required(fold, pr, context, 2);
    if pr.truncated {
      findings := findings + [Finding(HighRisk, Quality, TITLES[2], None)];
    }
    assert findings == Required(fold, pr, context, 3);
    var production, tests := Production(fold, pr), Tests(fold, pr);
    if production != [] && tests == [] {
      findings := findings + [Finding(MediumRisk, Testing, TITLES[3], Some(production[0]))];
    }
    assert findings == Required(fold, pr, context, 4);
    var sensitive := SensitivePaths(fold, pr);
    if sensitive != [] {
      findings := findings + [Finding(MediumRisk, Security, TITLES[4], Some(sensitive[0]))];
    }
    assert findings == Required(fold, pr, context, 5);
    if context.truncated {
      findings := findings + [Finding(HighRisk, Quality, TITLES[5], None)];
    }
  }

  /** A rule's finding is present exactly when the rule applies; nothing else is. */
  lemma {:induction false} RequiredExactly(fold: Folding, pr: PullRequest, context: Context, n: nat)
    requires n <= |TITLES|
    ensures forall f :: f in Required(fold, pr, context, n) <==>
      exists k :: 0 <= k < n && RuleApplies(fold, pr, context, k) && f == RuleFinding(fold, pr, k)
    ensures |Required(fold, pr, context, n)| <= n
  {
    hide RuleApplies, RuleFinding;
    if n > 0 {
      RequiredExactly(fold, pr, context, n - 1);
    }
  }

  // ---------------------------------------------------------------- merge

  datatype Identity = Identity(category: Category, title: string, filePath: Option<string>)

  function IdentityOf(fold: Folding, f: Finding): Identity {
    Identity(f.category, fold(f.title), f.filePath)
  }

  function Identities(fold: Folding, findings: seq<Finding>): (r: seq<Identity>)
    ensures |r| == |findings|
  {
    seq(|findings|, k requires 0 <= k < |findings| => IdentityOf(fold, findings[k]))
  }

  /** The first finding of each identity, in order. */
  function Deduplicated(fold: Folding, items: seq<Finding>): seq<Finding> {
    if items == [] then []
    else
      var init, last := Deduplicated(fold, items[..|items| - 1]), items[|items| - 1];
      if IdentityOf(fold, last) in Identities(fold, init) then init else init + [last]
  }

  function Merged(fold: Folding, required: seq<Finding>, proposed: seq<Finding>): seq<Finding> {
    var all := Deduplicated(fold, required + proposed);
    if |all| <= MAX_FINDINGS then all else all[..MAX_FINDINGS]
  }

  /** `_merge_findings`. */
  method MergeFindings(fold: Folding, required: seq<Finding>, proposed: seq<Finding>) returns (merged: seq<Finding>)
    ensures merged == Merged(fold, required, proposed)
    ensures Merges(fold, required + proposed, merged)
  {
    hide Merges;
    MergesSpelled(fold, required, proposed);
    var all := required + proposed;
    merged := [];
    var seen: set<Identity> := {};
    for k := 0 to |all|
      invariant merged == Deduplicated(fold, all[..k])
      invariant seen == Elements(Identities(fold, merged))
    {
      assert all[..k + 1][..k] == all[..k];
      var identity := IdentityOf(fold, all[k]);
      if identity !in seen {
        assert Identities(fold, merged + [all[k]]) == Identities(fold, merged) + [identity];
        seen := seen + {identity};
        merged := merged + [all[k]];
      }
    }
    assert all[..|all|] == all;
    if |merged| > MAX_FINDINGS {
      merged := merged[..MAX_FINDINGS];
    }
  }

  /** Findings the merge takes for the same: category, folded title and path. */
  predicate SameFinding(fold: Folding, a: Finding, b: Finding) {
    a.category == b.category && fold(a.title) == fold(b.title) && a.filePath == b.filePath
  }

  /** What a merge keeps, said of the findings themselves. */
  predicate Merges(fold: Folding, items: seq<Finding>, merged: seq<Finding>) {
    && |merged| <= 100
    && (forall f :: f in merged ==> f in items)
    && (forall j, k :: 0 <= j < k < |merged| ==> !SameFinding(fold, merged[j], merged[k]))
    && (|merged| < 100 ==>
          forall f :: f in items ==> exists k :: 0 <= k < |merged| && SameFinding(fold, merged[k], f))
  }

  lemma MergesSpelled(fold: Folding, required: seq<Finding>, proposed: seq<Finding>)
    ensures Merges(fold, required + proposed, Merged(fold, required, proposed))
  {
    var items, merged := required + proposed, Merged(fold, required, proposed);
    var all := Deduplicated(fold, items);
    LosesNothing(fold, items);
    KeptFromItems(fold, items);
    hide Deduplicated;
    forall j, k | 0 <= j < k < |merged|
      ensures !SameFinding(fold, merged[j], merged[k])
    {
      assert Identities(fold, all)[j] != Identities(fold, all)[k];
    }
    if |merged| < 100 {
      forall f | f in items
        ensures exists k :: 0 <= k < |merged| && SameFinding(fold, merged[k], f)
      {
        IdentitiesMembers(fold, items);
        assert IdentityOf(fold, f) in Elements(Identities(fold, all));
        var k :| 0 <= k < |all| && Identities(fold, all)[k] == IdentityOf(fold, f);
        assert SameFinding(fold, merged[k], f);
      }
    }
  }

  predicate FirstAt(fold: Folding, items: seq<Finding>, k: nat) {
    k < |items| && forall j :: 0 <= j < k ==> IdentityOf(fold, items[j]) != IdentityOf(fold, items[k])
  }

  lemma IdentitiesMembers(fold: Folding, findings: seq<Finding>)
    ensures forall i :: i in Identities(fold, findings) <==> exists f :: f in findings && IdentityOf(fold, f) == i
  {
    forall f | f in findings
      ensures IdentityOf(fold, f) in Identities(fold, findings)
    {
      var k :| 0 <= k < |findings| && findings[k] == f;
      assert Identities(fold, findings)[k] == IdentityOf(fold, f);
    }
  }

  /** Exactly the first finding of each identity is kept. */
  lemma {:induction false} KeepsTheFirst(fold: Folding, items: seq<Finding>)
    ensures forall f :: f in Deduplicated(fold, items) <==> exists k: nat :: FirstAt(fold, items, k) && items[k] == f
  {
    if items != [] {
      var n := |items| - 1;
      var init, last := items[..n], items[n];
      KeepsTheFirst(fold, init);
      LosesNothing(fold, init);
      LastIsFirst(fold, items);
      hide IdentityOf, Identities, FirstAt;
      forall k: nat
        ensures FirstAt(fold, items, k) <==> (k < n && FirstAt(fold, init, k)) || (k == n && FirstAt(fold, items, n))
        ensures FirstAt(fold, items, k) && k < n ==> items[k] == init[k]
      {
        FirstAtPrefix(fold, items, k);
      }
    }
  }

  lemma FirstAtPrefix(fold: Folding, items: seq<Finding>, k: nat)
    requires items != []
    ensures FirstAt(fold, items, k) ==> k < |items|
    ensures var init := items[..|items| - 1];
      && (FirstAt(fold, init, k) ==> k < |init|)
      && (k < |init| ==> (FirstAt(fold, init, k) <==> FirstAt(fold, items, k)))
  {
    var init := items[..|items| - 1];
    assert forall j :: 0 <= j < |init| ==> init[j] == items[j];
  }

  /** No identity is lost and none is kept twice. */
  lemma {:induction false} LosesNothing(fold: Folding, items: seq<Finding>)
    ensures NoRepeats(Identities(fold, Deduplicated(fold, items)))
    ensures Elements(Identities(fold, Deduplicated(fold, items))) == Elements(Identities(fold, items))
  {
    if items != [] {
      var n := |items| - 1;
      var init, last := items[..n], items[n];
      assert items == init + [last];
      LosesNothing(fold, init);
      IdentitiesExtend(fold, init, last);
      IdentitiesExtend(fold, Deduplicated(fold, init), last);
      ElementsExtend(Identities(fold, init), IdentityOf(fold, last));
      ElementsExtend(Identities(fold, Deduplicated(fold, init)), IdentityOf(fold, last));
    }
  }

  lemma IdentitiesExtend(fold: Folding, findings: seq<Finding>, f: Finding)
    ensures Identities(fold, findings + [f]) == Identities(fold, findings) + [IdentityOf(fold, f)]
  {
  }

  lemma LastIsFirst(fold: Folding, items: seq<Finding>)
    requires items != []
    ensures FirstAt(fold, items, |items| - 1) <==>
      IdentityOf(fold, items[|items| - 1]) !in Elements(Identities(fold, items[..|items| - 1]))
  {
    var n := |items| - 1;
    forall j | 0 <= j < n
      ensures Identities(fold, items[..n])[j] == IdentityOf(fold, items[j])
      ensures IdentityOf(fold, items[j]) in Elements(Identities(fold, items[..n]))
    {
    }
  }

  lemma {:induction false} DistinctUnchanged(fold: Folding, items: seq<Finding>)
    requires NoRepeats(Identities(fold, items))
    ensures Deduplicated(fold, items) == items
  {
    if items != [] {
      var n := |items| - 1;
      assert items == items[..n] + [items[n]];
      IdentitiesExtend(fold, items[..n], items[n]);
      ElementsExtend(Identities(fold, items[..n]), IdentityOf(fold, items[n]));
      DistinctUnchanged(fold, items[..n]);
    }
  }

  /** Later findings never displace earlier ones. */
  lemma {:induction false} OnlyGrows(fold: Folding, items: seq<Finding>, more: seq<Finding>)
    ensures var before, after := Deduplicated(fold, items), Deduplicated(fold, items + more);
            |before| <= |after| && after[..|before|] == before
  {
    if more == [] {
      assert items + more == items;
    } else {
      var n := |more| - 1;
      OnlyGrows(fold, items, more[..n]);
      assert (items + more)[..|items| + n] == items + more[..n];
    }
  }

  // ------------------------------------------------------------ distinctness

  function FoldedTitles(fold: Folding): (r: seq<string>)
    ensures |r| == |TITLES|
  {
    seq(|TITLES|, k requires 0 <= k < |TITLES| => fold(TITLES[k]))
  }

  /** The only thing asked of case folding. */
  predicate KeepsTitlesApart(fold: Folding) {
    NoRepeats(FoldedTitles(fold))
  }

  function Lower(s: string): (r: string)
    ensures |r| == |s|
  {
    seq(|s|, k requires 0 <= k < |s| => if 'A' <= s[k] <= 'Z' then s[k] + 32 as char else s[k])
  }

  /** Lower-casing, which is what `casefold` does to these ASCII titles, keeps them
      apart. */
  lemma LoweringKeepsTitlesApart()
    ensures KeepsTitlesApart(Lower)
  {
    forall i, j | 0 <= i < j < |TITLES|
      ensures Lower(TITLES[i]) != Lower(TITLES[j])
    {
      var a, b := Lower(TITLES[i]), Lower(TITLES[j]);
      assert a[0] != b[0] || a[1] != b[1] || |a| != |b|;
    }
  }

  lemma RuleTitle(fold: Folding, pr: PullRequest, k: nat)
    requires k < |TITLES|
    ensures fold(RuleFinding(fold, pr, k).title) == FoldedTitles(fold)[k]
  {
  }

  lemma {:induction false} RequiredDistinct(fold: Folding, pr: PullRequest, context: Context, n: nat)
    requires KeepsTitlesApart(fold) && n <= |TITLES|
    ensures forall i :: i in Elements(Identities(fold, Required(fold, pr, context, n))) ==>
      exists k :: 0 <= k < n && i.title == FoldedTitles(fold)[k]
    ensures NoRepeats(Identities(fold, Required(fold, pr, context, n)))
  {
    hide RuleApplies, RuleFinding, FoldedTitles, Identities;
    if n > 0 {
      RequiredDistinct(fold, pr, context, n - 1);
      var init, last := Required(fold, pr, context, n - 1), RuleFinding(fold, pr, n - 1);
      RuleTitle(fold, pr, n - 1);
      IdentitiesExtend(fold, init, last);
      ElementsExtend(Identities(fold, init), IdentityOf(fold, last));
    } else {
      assert Identities(fold, Required(fold, pr, context, 0)) == [];
    }
  }

  // --------------------------------------------------------------- the review

  function Higher(a: Risk, b: Risk): Risk {
    if Order(b) > Order(a) then b else a
  }

  /** `_highest_risk`: no severity is above it, and it is one of them unless there is
      none. */
  function HighestRisk(findings: seq<Finding>): (r: Risk)
    ensures forall f :: f in findings ==> Order(f.severity) <= Order(r)
    ensures r == LowRisk || exists f :: f in findings && f.severity == r
  {
    if findings == [] then LowRisk
    else
      var last := findings[|findings| - 1];
      assert findings == findings[..|findings| - 1] + [last];
      Higher(HighestRisk(findings[..|findings| - 1]), last.severity)
  }

  predicate HasTesting(findings: seq<Finding>) {
    exists f :: f in findings && f.category == Testing
  }

  /** The recommendation after the safeguards. */
  function Safeguarded(pr: PullRequest, context: Context, codeWithoutTests: bool,
                       proposed: Recommendation): Recommendation
  {
    if pr.redacted then Block
    else if pr.suspicious || pr.truncated || context.truncated then ChangesRequired
    else if codeWithoutTests then ChangesRequired
    else proposed
  }

  /** What `PullRequestReviewAgent.run` returns when the model answers `review`. */
  function Outcome(fold: Folding, pr: PullRequest, context: Context, review: Review): Review {
    var required := AllRequired(fold, pr, context);
    var findings := Merged(fold, required, review.findings);
    Review(pr.source, context.bundleHash, findings,
           Higher(review.risk, HighestRisk(findings)),
           Safeguarded(pr, context, HasTesting(required), review.recommendation),
           review.prose)
  }

  /** `PullRequestReviewAgent.run` from the model's answer on. */
  method PostProcess(fold: Folding, pr: PullRequest, context: Context, review: Review) returns (r: Review)
    ensures r == Outcome(fold, pr, context, review)
  {
    var required := CollectFindings(fold, pr, context);
    var findings := MergeFindings(fold, required, review.findings);
    var risk := Higher(review.risk, HighestRisk(findings));
    var recommendation := review.recommendation;
    if pr.redacted {
      recommendation := Block;
    } else if pr.suspicious || pr.truncated || context.truncated {
      recommendation := ChangesRequired;
    } else if exists f :: f in required && f.category == Testing {
      recommendation := ChangesRequired;
    }
    r := review.(source := pr.source, bundleHash := context.bundleHash, findings := findings,
                 risk := risk, recommendation := recommendation);
  }

  /** The TESTING finding is there exactly when code changed and no test did. */
  lemma TestingFindingMeans(fold: Folding, pr: PullRequest, context: Context)
    ensures HasTesting(AllRequired(fold, pr, context)) <==> CodeWithoutTests(fold, pr)
    ensures CodeWithoutTests(fold, pr) <==>
      && (exists path :: path in pr.paths && IsCodeFile(fold, path))
      && !exists path :: path in pr.paths && IsTestFile(fold, path)
  {
    RequiredExactly(fold, pr, context, |TITLES|);
    if CodeWithoutTests(fold, pr) {
      assert RuleApplies(fold, pr, context, 3);
      assert RuleFinding(fold, pr, 3) in AllRequired(fold, pr, context);
    }
    CodeAndTests(fold, pr);
  }

  lemma CodeAndTests(fold: Folding, pr: PullRequest)
    ensures CodeWithoutTests(fold, pr) <==>
      && (exists path :: path in pr.paths && IsCodeFile(fold, path))
      && !exists path :: path in pr.paths && IsTestFile(fold, path)
  {
    hide IsCodeFile, IsTestFile;
    var production, tests := Production(fold, pr), Tests(fold, pr);
    assert production != [] ==> production[0] in production;
    assert tests != [] ==> tests[0] in tests;
    if tests == [] {
      assert forall path :: path in pr.paths && IsTestFile(fold, path) ==> path in tests;
      assert forall path :: path in pr.paths && IsCodeFile(fold, path) ==> path in production;
    }
  }

  /** Findings, for any model review: all of the code's own findings come first and
      unchanged, the rest are the model's, no identity occurs twice, and a proposed
      finding disappears only behind one of the same identity or behind the cap. */
  lemma FindingsSurvive(fold: Folding, pr: PullRequest, context: Context, review: Review)
    requires KeepsTitlesApart(fold)
    ensures var required, findings := AllRequired(fold, pr, context), Outcome(fold, pr, context, review).findings;
      && |required| <= |findings| <= MAX_FINDINGS && findings[..|required|] == required
      && (forall f :: f in findings ==> f in required || f in review.findings)
      && NoRepeats(Identities(fold, findings))
      && (forall f :: f in review.findings ==>
            IdentityOf(fold, f) in Identities(fold, findings) || |findings| == MAX_FINDINGS)
  {
    var required := AllRequired(fold, pr, context);
    RequiredExactly(fold, pr, context, |TITLES|);
    RequiredDistinct(fold, pr, context, |TITLES|);
    hide Required, RuleApplies, RuleFinding, Safeguarded, HighestRisk, Merged, Identities, IdentityOf;
    MergedKeeps(fold, required, review.findings);
  }

  lemma MergedKeeps(fold: Folding, required: seq<Finding>, proposed: seq<Finding>)
    requires NoRepeats(Identities(fold, required)) && |required| <= MAX_FINDINGS
    ensures var findings := Merged(fold, required, proposed);
      && |required| <= |findings| <= MAX_FINDINGS && findings[..|required|] == required
      && (forall f :: f in findings ==> f in required || f in proposed)
      && NoRepeats(Identities(fold, findings))
      && (forall f :: f in proposed ==>
            IdentityOf(fold, f) in Identities(fold, findings) || |findings| == MAX_FINDINGS)
  {
    var items := required + proposed;
    var all := Deduplicated(fold, items);
    DistinctUnchanged(fold, required);
    OnlyGrows(fold, required, proposed);
    KeptFromItems(fold, items);
    LosesNothing(fold, items);
    hide Deduplicated, IdentityOf, FirstAt;
    if |all| <= MAX_FINDINGS {
      forall f | f in proposed
        ensures IdentityOf(fold, f) in Identities(fold, all)
      {
        IdentitiesMembers(fold, items);
        assert f in items;
        assert IdentityOf(fold, f) in Elements(Identities(fold, items));
      }
    } else {
      assert forall f :: f in all[..MAX_FINDINGS] ==> f in all && f in items;
      assert Identities(fold, all[..MAX_FINDINGS]) == Identities(fold, all)[..MAX_FINDINGS];
    }
  }

  lemma KeptFromItems(fold: Folding, items: seq<Finding>)
    ensures forall f :: f in Deduplicated(fold, items) ==> f in items
  {
    KeepsTheFirst(fold, items);
  }

  /** Risk, for any model review: at least the model's, at least that of every finding
      kept, and equal to one of them. */
  lemma RiskIsAFloor(fold: Folding, pr: PullRequest, context: Context, review: Review)
    requires KeepsTitlesApart(fold)
    ensures var r := Outcome(fold, pr, context, review);
      && Order(review.risk) <= Order(r.risk)
      && (forall f :: f in r.findings ==> Order(f.severity) <= Order(r.risk))
      && (r.risk == review.risk || exists f :: f in r.findings && f.severity == r.risk)
      && (pr.redacted ==> r.risk == CriticalRisk)
      && (pr.suspicious || pr.truncated || context.truncated ==> Order(r.risk) >= Order(HighRisk))
      && (CodeWithoutTests(fold, pr) || SensitivePaths(fold, pr) != [] ==> Order(r.risk) >= Order(MediumRisk))
  {
    var r := Outcome(fold, pr, context, review);
    FindingsSurvive(fold, pr, context, review);
    RequiredExactly(fold, pr, context, |TITLES|);
    forall k | 0 <= k < |TITLES| && RuleApplies(fold, pr, context, k)
      ensures Order(RuleFinding(fold, pr, k).severity) <= Order(r.risk)
    {
      var f := RuleFinding(fold, pr, k);
      assert f in AllRequired(fold, pr, context);
      assert f in r.findings;
    }
    assert RuleApplies(fold, pr, context, 0) ==> Order(RuleFinding(fold, pr, 0).severity) <= Order(r.risk);
    assert RuleApplies(fold, pr, context, 1) ==> Order(RuleFinding(fold, pr, 1).severity) <= Order(r.risk);
    assert RuleApplies(fold, pr, context, 2) ==> Order(RuleFinding(fold, pr, 2).severity) <= Order(r.risk);
    assert RuleApplies(fold, pr, context, 3) ==> Order(RuleFinding(fold, pr, 3).severity) <= Order(r.risk);
    assert RuleApplies(fold, pr, context, 4) ==> Order(RuleFinding(fold, pr, 4).severity) <= Order(r.risk);
    assert RuleApplies(fold, pr, context, 5) ==> Order(RuleFinding(fold, pr, 5).severity) <= Order(r.risk);
  }

  predicate Guarded(fold: Folding, pr: PullRequest, context: Context) {
    pr.redacted || pr.suspicious || pr.truncated || context.truncated || CodeWithoutTests(fold, pr)
  }

  /** The recommendation, for any model review: readiness needs the model's word and
      no safeguard; redaction always blocks; the model's own BLOCK survives exactly
      when content was redacted or no safeguard applies. The review is always about
      this pull request. */
  lemma SafeguardsDecide(fold: Folding, pr: PullRequest, context: Context, review: Review)
    ensures var r := Outcome(fold, pr, context, review);
      && (r.recommendation == ReadyForHumanReview <==>
            review.recommendation == ReadyForHumanReview && !Guarded(fold, pr, context))
      && (r.recommendation == Block <==>
            pr.redacted || (review.recommendation == Block && !Guarded(fold, pr, context)))
      && r.source == pr.source && r.bundleHash == context.bundleHash
  {
    TestingFindingMeans(fold, pr, context);
  }

  // ------------------------------------------------------------------- stub

  /** `_run_stub`; `prose` stands for the texts it composes. */
  function StubReview(fold: Folding, pr: PullRequest, context: Context, prose: string): Review {
    var findings := AllRequired(fold, pr, context);
    var codeChanged := exists path :: path in pr.paths && IsCodeFile(fold, path);
    var testsChanged := exists path :: path in pr.paths && IsTestFile(fold, path);
    Review(pr.source, context.bundleHash, findings, HighestRisk(findings),
           Safeguarded(pr, context, codeChanged && !testsChanged, ReadyForHumanReview), prose)
  }

  /** What the stub recommends, and that it speaks of this pull request with exactly the
      code's own findings and their highest severity. */
  lemma StubSpelled(fold: Folding, pr: PullRequest, context: Context, prose: string)
    ensures var stub := StubReview(fold, pr, context, prose);
      var codeWithoutTests := (exists path :: path in pr.paths && IsCodeFile(fold, path))
        && !exists path :: path in pr.paths && IsTestFile(fold, path);
      && stub.recommendation == (if pr.redacted then Block
                                 else if pr.suspicious || pr.truncated || context.truncated || codeWithoutTests
                                 then ChangesRequired else ReadyForHumanReview)
      && stub.findings == AllRequired(fold, pr, context) && stub.risk == HighestRisk(stub.findings)
      && stub.source == pr.source && stub.bundleHash == context.bundleHash && stub.prose == prose
  {
    hide IsCodeFile, IsTestFile, Required;
  }

  /** Post-processing changes nothing in the stub's review. */
  lemma StubUnchanged(fold: Folding, pr: PullRequest, context: Context, prose: string)
    requires KeepsTitlesApart(fold)
    ensures var stub := StubReview(fold, pr, context, prose); Outcome(fold, pr, context, stub) == stub
  {
    hide IsCodeFile, IsTestFile;
    var required := AllRequired(fold, pr, context);
    TestingFindingMeans(fold, pr, context);
    RequiredDistinct(fold, pr, context, |TITLES|);
    RequiredExactly(fold, pr, context, |TITLES|);
    AlreadyThere(fold, required, required);
  }

  /** Repeating findings already in the list adds nothing. */
  lemma {:induction false} AlreadyThere(fold: Folding, required: seq<Finding>, again: seq<Finding>)
    requires NoRepeats(Identities(fold, required))
    requires forall f :: f in again ==> f in required
    ensures Deduplicated(fold, required + again) == required
  {
    if again == [] {
      DistinctUnchanged(fold, required);
      assert required + again == required;
    } else {
      var n := |again| - 1;
      AlreadyThere(fold, required, again[..n]);
      assert (required + again)[..|required| + n] == required + again[..n];
      IdentitiesMembers(fold, required);
      assert again[n] in again;
    }
  }
}
