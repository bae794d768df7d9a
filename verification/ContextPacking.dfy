/** The context engine (app/services/context.py): sources sorted by a total key and
    packed, in that order, into a token budget.

    Sanitisation is a function of the text; hashes, kinds and metadata ride along
    and are not modelled. */
module ContextPacking {
  import opened Basics

  datatype Source = Source(id: string, version: string, priority: int, content: string)

  datatype Clean = Clean(content: string, redacted: bool, suspicious: bool)

  type Sanitizer = string -> Clean

  datatype Limits = Limits(maxSources: nat, maxTokens: nat, maxSourceTokens: nat)

  datatype Snapshot = Snapshot(
    id: string, version: string, priority: int, content: string,
    tokens: nat, truncated: bool, redacted: bool, suspicious: bool)

  datatype Bundle = Bundle(sources: seq<Snapshot>, tokenEstimate: int, maxTokens: nat, truncated: bool)

  datatype Error = DuplicateIdentity | EmptySource(id: string)

  datatype Result<+T> = Ok(value: T) | Err(error: Error)

  /** `ContextEngine.__init__`; `None` stands for the ValueError. */
  function Engine(maxSources: int, maxTokens: int, maxSourceTokens: int): (r: Option<Limits>)
    ensures r.Some? ==> 1 <= r.value.maxSourceTokens <= r.value.maxTokens && 1 <= r.value.maxSources
    ensures r.None? <==> maxSources < 1 || maxTokens < 1 || maxSourceTokens < 1
  {
    if maxSources < 1 || maxTokens < 1 || maxSourceTokens < 1 then None
    else Some(Limits(maxSources, maxTokens, if maxSourceTokens < maxTokens then maxSourceTokens else maxTokens))
  }

  // ------------------------------------------------------------- sorting

  /** Python's order on strings. */
  predicate AtMost(a: string, b: string) {
    a == "" || (b != "" && (a[0] < b[0] || (a[0] == b[0] && AtMost(a[1..], b[1..]))))
  }

  lemma {:induction false} AtMostTotal(a: string, b: string)
    ensures AtMost(a, b) || AtMost(b, a)
    ensures AtMost(a, b) && AtMost(b, a) ==> a == b
  {
    if a != "" && b != "" && a[0] == b[0] {
      AtMostTotal(a[1..], b[1..]);
      if AtMost(a, b) && AtMost(b, a) {
        assert a == [a[0]] + a[1..] && b == [b[0]] + b[1..];
      }
    }
  }

  lemma {:induction false} AtMostTransitive(a: string, b: string, c: string)
    requires AtMost(a, b) && AtMost(b, c)
    ensures AtMost(a, c)
  {
    if a != "" && a[0] == b[0] && b[0] == c[0] {
      AtMostTransitive(a[1..], b[1..], c[1..]);
    }
  }

  /** The sort key (-priority, source_id, version). */
  predicate Before(a: Source, b: Source) {
    || a.priority > b.priority
    || (a.priority == b.priority && a.id != b.id && AtMost(a.id, b.id))
    || (a.priority == b.priority && a.id == b.id && AtMost(a.version, b.version))
  }

  lemma BeforeTotal(a: Source, b: Source)
    ensures Before(a, b) || Before(b, a)
    ensures Before(a, b) && Before(b, a) ==> a.id == b.id && a.version == b.version
  {
    AtMostTotal(a.id, b.id);
    AtMostTotal(a.version, b.version);
  }

  lemma BeforeTransitive(a: Source, b: Source, c: Source)
    requires Before(a, b) && Before(b, c)
    ensures Before(a, c)
  {
    if a.priority == b.priority == c.priority {
      if a.id != b.id && b.id != c.id {
        AtMostTransitive(a.id, b.id, c.id);
        AtMostTotal(a.id, b.id);
      } else if a.id == b.id == c.id {
        AtMostTransitive(a.version, b.version, c.version);
      }
    }
  }

  predicate Sorted(s: seq<Source>) {
    forall i, j :: 0 <= i < j < |s| ==> Before(s[i], s[j])
  }

  function Insert(x: Source, s: seq<Source>): (r: seq<Source>)
    ensures multiset(r) == multiset(s) + multiset{x}
  {
    if s == [] then [x]
    else if Before(x, s[0]) then [x] + s
    else
      assert s == [s[0]] + s[1..];
      [s[0]] + Insert(x, s[1..])
  }

  /** `sorted(inputs, key=...)`. */
  function Sort(s: seq<Source>): (r: seq<Source>)
    ensures multiset(r) == multiset(s)
    ensures |r| == |s|
  {
    if s == [] then []
    else
      assert s == [s[0]] + s[1..];
      var r := Insert(s[0], Sort(s[1..]));
      assert |multiset(r)| == |r| && |multiset(s)| == |s|;
      r
  }

  lemma {:induction false} InsertSorted(x: Source, s: seq<Source>)
    requires Sorted(s)
    ensures Sorted(Insert(x, s))
  {
    if s != [] {
      if Before(x, s[0]) {
        forall j | 0 <= j < |s|
          ensures Before(x, s[j])
        {
          if j > 0 {
            BeforeTransitive(x, s[0], s[j]);
          }
        }
      } else {
        BeforeTotal(x, s[0]);
        InsertSorted(x, s[1..]);
        var rest := Insert(x, s[1..]);
        forall j | 0 <= j < |rest|
          ensures Before(s[0], rest[j])
        {
          assert rest[j] in multiset(rest);
          assert rest[j] == x || rest[j] in multiset(s[1..]);
          if rest[j] != x {
            var k :| 0 <= k < |s[1..]| && s[1..][k] == rest[j];
            assert s[k + 1] == rest[j];
          }
        }
      }
    }
  }

  lemma {:induction false} SortSorted(s: seq<Source>)
    ensures Sorted(Sort(s))
  {
    if s != [] {
      SortSorted(s[1..]);
      InsertSorted(s[0], Sort(s[1..]));
    }
  }

  function Identities(s: seq<Source>): (r: seq<(string, string)>)
    ensures |r| == |s|
  {
    seq(|s|, k requires 0 <= k < |s| => (s[k].id, s[k].version))
  }

  /** `len(identities) == len(set(identities))`. */
  predicate Distinct(s: seq<Source>) {
    |Elements(Identities(s))| == |Identities(s)|
  }

  lemma SameIdentities(s: seq<Source>, t: seq<Source>)
    requires multiset(s) == multiset(t)
    ensures Elements(Identities(s)) == Elements(Identities(t)) && |s| == |t|
  {
    assert |multiset(s)| == |s| && |multiset(t)| == |t|;
    IdentitiesWithin(s, t);
    IdentitiesWithin(t, s);
  }

  lemma IdentitiesWithin(s: seq<Source>, t: seq<Source>)
    requires multiset(s) == multiset(t)
    ensures Elements(Identities(s)) <= Elements(Identities(t))
  {
    forall x | x in Elements(Identities(s))
      ensures x in Elements(Identities(t))
    {
      var k :| 0 <= k < |s| && Identities(s)[k] == x;
      SameElements(s, t, s[k]);
      var l :| 0 <= l < |t| && t[l] == s[k];
      assert Identities(t)[l] == x;
    }
  }

  lemma SmallestFirst(s: seq<Source>, t: seq<Source>)
    requires multiset(s) == multiset(t) && s != [] && t != []
    requires Sorted(s) && Sorted(t) && NoRepeats(Identities(s))
    ensures s[0] == t[0]
  {
    SameElements(s, t, s[0]);
    SameElements(t, s, t[0]);
    var i :| 0 <= i < |t| && t[i] == s[0];
    var j :| 0 <= j < |s| && s[j] == t[0];
    BeforeTotal(s[0], t[0]);
    assert j > 0 ==> Identities(s)[0] != Identities(s)[j];
    assert j > 0 ==> Before(s[0], s[j]);
    assert i > 0 ==> Before(t[0], t[i]);
  }

  lemma TailSorted(s: seq<Source>)
    requires s != [] && Sorted(s) && NoRepeats(Identities(s))
    ensures Sorted(s[1..]) && NoRepeats(Identities(s[1..]))
  {
    assert forall k :: 0 <= k < |s[1..]| ==> Identities(s[1..])[k] == Identities(s)[k + 1];
  }

  lemma TailMultiset(s: seq<Source>, t: seq<Source>)
    requires s != [] && t != [] && s[0] == t[0] && multiset(s) == multiset(t)
    ensures multiset(s[1..]) == multiset(t[1..])
  {
    assert s == [s[0]] + s[1..] && t == [t[0]] + t[1..];
    assert multiset(s[1..]) == multiset(s) - multiset{s[0]};
    assert multiset(t[1..]) == multiset(t) - multiset{t[0]};
  }

  /** With distinct identities the key is total, so there is only one sorted order. */
  lemma {:induction false} OneSortedOrder(s: seq<Source>, t: seq<Source>)
    requires multiset(s) == multiset(t)
    requires Sorted(s) && Sorted(t) && NoRepeats(Identities(s))
    ensures s == t
  {
    hide Sorted, NoRepeats, Identities;
    SameIdentities(s, t);
    if s != [] {
      SmallestFirst(s, t);
      SmallestIdentities(s, t);
      TailSorted(s);
      TailSorted(t);
      TailMultiset(s, t);
      OneSortedOrder(s[1..], t[1..]);
      assert s == [s[0]] + s[1..] && t == [t[0]] + t[1..];
    }
  }

  lemma SmallestIdentities(s: seq<Source>, t: seq<Source>)
    requires multiset(s) == multiset(t) && NoRepeats(Identities(s))
    ensures NoRepeats(Identities(t))
  {
    SameIdentities(s, t);
    CountingFindsRepeats(Identities(s));
    CountingFindsRepeats(Identities(t));
  }

  // ------------------------------------------------------------- packing

  function Estimate(text: string): nat {
    (|text| + 3) / 4
  }

  function Min(a: int, b: int): int {
    if a < b then a else b
  }

  function Prefix(text: string, n: nat): string {
    if |text| <= n then text else text[..n]
  }

  function Pack(limits: Limits, clean: Sanitizer, source: Source, remaining: nat): Snapshot {
    var c := clean(source.content);
    var allowed := 4 * Min(limits.maxSourceTokens, remaining);
    var content := Prefix(c.content, allowed);
    Snapshot(source.id, source.version, source.priority, content, Estimate(content),
             |c.content| > allowed, c.redacted, c.suspicious)
  }

  lemma PackFits(limits: Limits, clean: Sanitizer, source: Source, remaining: nat)
    ensures var snapshot := Pack(limits, clean, source, remaining);
            && snapshot.tokens == Min(Min(Estimate(clean(source.content).content), limits.maxSourceTokens), remaining)
            && snapshot.tokens <= remaining
  {
  }

  /** What the loop collects from a list of sources and a budget: the sources it
      takes in, unless it meets an empty one first. */
  function PackAll(limits: Limits, clean: Sanitizer, selected: seq<Source>, remaining: nat): Result<seq<Snapshot>> {
    if selected == [] || remaining == 0 then Ok([])
    else if clean(selected[0].content).content == "" then Err(EmptySource(selected[0].id))
    else
      PackFits(limits, clean, selected[0], remaining);
      var snapshot := Pack(limits, clean, selected[0], remaining);
      Prepend([snapshot], PackAll(limits, clean, selected[1..], remaining - snapshot.tokens))
  }

  function TokensOf(): Snapshot -> int {
    (snapshot: Snapshot) => snapshot.tokens
  }

  function Selected(limits: Limits, inputs: seq<Source>): seq<Source> {
    var ordered := Sort(inputs);
    if limits.maxSources < |ordered| then ordered[..limits.maxSources] else ordered
  }

  predicate Cut(snapshots: seq<Snapshot>) {
    exists k :: 0 <= k < |snapshots| && snapshots[k].truncated
  }

  function BuildResult(limits: Limits, clean: Sanitizer, inputs: seq<Source>): Result<Bundle> {
    if !Distinct(inputs) then Err(DuplicateIdentity)
    else
      match PackAll(limits, clean, Selected(limits, inputs), limits.maxTokens)
      case Err(e) => Err(e)
      case Ok(snapshots) =>
        Ok(Bundle(snapshots, Sum(snapshots, TokensOf()), limits.maxTokens, |snapshots| < |inputs| || Cut(snapshots)))
  }

  function Prepend(snapshots: seq<Snapshot>, rest: Result<seq<Snapshot>>): Result<seq<Snapshot>> {
    if rest.Err? then rest else Ok(snapshots + rest.value)
  }

  lemma PrependOneMore(snapshots: seq<Snapshot>, snapshot: Snapshot, rest: Result<seq<Snapshot>>)
    ensures Prepend(snapshots, Prepend([snapshot], rest)) == Prepend(snapshots + [snapshot], rest)
  {
    if rest.Ok? {
      assert snapshots + ([snapshot] + rest.value) == (snapshots + [snapshot]) + rest.value;
    }
  }

  /** The loop of `ContextEngine.build`. It stops when the budget is used up; what
      was left out or cut is recorded. */
  method PackSelected(limits: Limits, clean: Sanitizer, selected: seq<Source>, omitted: bool)
    returns (r: Result<seq<Snapshot>>, truncated: bool)
    ensures r == PackAll(limits, clean, selected, limits.maxTokens)
    ensures r.Ok? ==> (truncated <==> omitted || |r.value| < |selected| || Cut(r.value))
  {
    hide Pack;
    var snapshots: seq<Snapshot> := [];
    var remaining: nat := limits.maxTokens;
    truncated := omitted;
    ghost var whole := PackAll(limits, clean, selected, limits.maxTokens);
    var k := 0;
    assert selected[0..] == selected && (whole.Ok? ==> [] + whole.value == whole.value);
    while k < |selected|
      invariant 0 <= k <= |selected| && |snapshots| == k
      invariant truncated <==> omitted || Cut(snapshots)
      invariant whole == Prepend(snapshots, PackAll(limits, clean, selected[k..], remaining))
    {
      if remaining == 0 {
        truncated := true;
        break;
      }
      var source := selected[k];
      assert selected[k..][1..] == selected[k + 1..];
      if clean(source.content).content == "" {
        return Err(EmptySource(source.id)), truncated;
      }
      PackFits(limits, clean, source, remaining);
      var snapshot := Pack(limits, clean, source, remaining);
      CutOneMore(snapshots, snapshot);
      PrependOneMore(snapshots, snapshot, PackAll(limits, clean, selected[k + 1..], remaining - snapshot.tokens));
      remaining := remaining - snapshot.tokens;
      truncated := truncated || snapshot.truncated;
      snapshots := snapshots + [snapshot];
      k := k + 1;
    }
    assert snapshots + [] == snapshots;
    r := Ok(snapshots);
  }

  /** `ContextEngine.build`. A bundle is marked truncated exactly when a source was
      left out or cut. */
  method Build(limits: Limits, clean: Sanitizer, inputs: seq<Source>) returns (r: Result<Bundle>)
    ensures r == BuildResult(limits, clean, inputs)
    ensures r.Ok? <==> Distinct(inputs) && ReachedHaveText(limits, clean, Selected(limits, inputs), limits.maxTokens)
    ensures r == Err(DuplicateIdentity) <==> !Distinct(inputs)
    ensures r.Ok? && limits.maxSourceTokens > 0 ==> BestFirst(limits, clean, inputs, r.value)
    ensures r.Ok? ==>
      (r.value.truncated <==> |r.value.sources| < |inputs| || exists s :: s in r.value.sources && s.truncated)
  {
    BuildsExactly(limits, clean, inputs);
    if |Elements(Identities(inputs))| != |Identities(inputs)| {
      return Err(DuplicateIdentity);
    }
    var ordered := Sort(inputs);
    var selected := if limits.maxSources < |ordered| then ordered[..limits.maxSources] else ordered;
    var packed, truncated := PackSelected(limits, clean, selected, |selected| < |ordered|);
    if packed.Err? {
      return Err(packed.error);
    }
    PackedWithin(limits, clean, selected, limits.maxTokens);
    if limits.maxSourceTokens > 0 {
      BundleIsBestFirst(limits, clean, inputs);
    }
    r := Ok(Bundle(packed.value, Sum(packed.value, TokensOf()), limits.maxTokens, truncated));
  }

  lemma {:induction false} PackedWithin(limits: Limits, clean: Sanitizer, selected: seq<Source>, remaining: nat)
    ensures var r := PackAll(limits, clean, selected, remaining);
            r.Ok? ==> |r.value| <= |selected|
  {
    if selected != [] && remaining != 0 {
      PackFits(limits, clean, selected[0], remaining);
      PackedWithin(limits, clean, selected[1..], remaining - Pack(limits, clean, selected[0], remaining).tokens);
    }
  }

  lemma CutOneMore(snapshots: seq<Snapshot>, snapshot: Snapshot)
    ensures Cut(snapshots + [snapshot]) <==> Cut(snapshots) || snapshot.truncated
  {
    var more := snapshots + [snapshot];
    assert forall k :: 0 <= k < |snapshots| ==> more[k] == snapshots[k];
    assert more[|snapshots|] == snapshot;
  }

  // ------------------------------------------------- what a bundle holds

  predicate DiffersAt(a: string, b: string, n: nat) {
    && n <= |a| && n <= |b| && a[..n] == b[..n]
    && ((n == |a| && n < |b|) || (n < |a| && n < |b| && a[n] < b[n]))
  }

  /** Python's `a < b` on strings: at the first difference a has the smaller character,
      or there is none and a is shorter. */
  ghost predicate StringBefore(a: string, b: string) {
    exists n: nat :: DiffersAt(a, b, n)
  }

  /** Higher priority first, then the smaller identifier, then the smaller version. */
  ghost predicate Outranks(priority: int, id: string, version: string, priority': int, id': string, version': string) {
    || priority > priority'
    || (priority == priority' && StringBefore(id, id'))
    || (priority == priority' && id == id' && (StringBefore(version, version') || version == version'))
  }

  /** What a snapshot keeps of its source when `used` tokens are spent before it. */
  predicate TakenFrom(limits: Limits, clean: Sanitizer, source: Source, used: int, snapshot: Snapshot) {
    var text := clean(source.content);
    var left := limits.maxTokens - used;
    var tokens := if left < limits.maxSourceTokens then left else limits.maxSourceTokens;
    && snapshot.id == source.id && snapshot.version == source.version && snapshot.priority == source.priority
    && snapshot.redacted == text.redacted && snapshot.suspicious == text.suspicious
    && tokens > 0
    && snapshot.content == (if |text.content| <= 4 * tokens then text.content else text.content[..4 * tokens])
    && (snapshot.truncated <==> |text.content| > 4 * tokens)
    && snapshot.content != "" && 4 * (snapshot.tokens - 1) < |snapshot.content| <= 4 * snapshot.tokens
  }

  predicate TakenFromSome(limits: Limits, clean: Sanitizer, inputs: seq<Source>, used: int, snapshot: Snapshot) {
    exists x :: x in inputs && TakenFrom(limits, clean, x, used, snapshot)
  }

  /** Each snapshot is taken from an input, with the tokens spent before it. */
  predicate AllTaken(limits: Limits, clean: Sanitizer, inputs: seq<Source>, s: seq<Snapshot>) {
    forall k :: 0 <= k < |s| ==> TakenFromSome(limits, clean, inputs, Sum(s[..k], TokensOf()), s[k])
  }

  ghost predicate Ranked(s: seq<Snapshot>) {
    forall j, k :: 0 <= j < k < |s| ==>
      Outranks(s[j].priority, s[j].id, s[j].version, s[k].priority, s[k].id, s[k].version)
  }

  /** An input is shown, or everything shown outranks it. */
  ghost predicate RestRanksBelow(inputs: seq<Source>, s: seq<Snapshot>) {
    forall x :: x in inputs ==>
      || (exists k :: 0 <= k < |s| && s[k].id == x.id && s[k].version == x.version)
      || (forall k :: 0 <= k < |s| ==>
            Outranks(s[k].priority, s[k].id, s[k].version, x.priority, x.id, x.version))
  }

  /** The bundle holds the best sources, best first, each cut to what the limits leave;
      what is left out is outranked by everything included; and something is left out
      only at the limit on sources or on tokens. */
  ghost predicate BestFirst(limits: Limits, clean: Sanitizer, inputs: seq<Source>, bundle: Bundle) {
    var s := bundle.sources;
    && |s| <= limits.maxSources && |s| <= |inputs|
    && bundle.tokenEstimate == Sum(s, TokensOf()) && bundle.maxTokens == limits.maxTokens
    && AllTaken(limits, clean, inputs, s) && Ranked(s) && RestRanksBelow(inputs, s)
    && (|s| < |inputs| ==> |s| == limits.maxSources || bundle.tokenEstimate == limits.maxTokens)
  }

  lemma DiffersLater(a: string, b: string, n: nat)
    requires a != "" && b != "" && a[0] == b[0] && n > 0
    ensures DiffersAt(a, b, n) <==> DiffersAt(a[1..], b[1..], n - 1)
  {
    if n <= |a| && n <= |b| {
      assert a[..n] == [a[0]] + a[1..][..n - 1] && b[..n] == [b[0]] + b[1..][..n - 1];
      assert a[..n][1..] == a[1..][..n - 1] && b[..n][1..] == b[1..][..n - 1];
    }
  }

  lemma DiffersFirst(a: string, b: string, n: nat)
    requires a == "" || b == "" || a[0] != b[0]
    ensures DiffersAt(a, b, n) ==> n == 0
    ensures DiffersAt(a, b, 0) <==> b != "" && (a == "" || a[0] < b[0])
  {
    if n > 0 && n <= |a| && n <= |b| {
      assert a[..n][0] == a[0] && b[..n][0] == b[0];
    }
  }

  lemma {:induction false} AtMostSpelled(a: string, b: string)
    ensures AtMost(a, b) <==> a == b || StringBefore(a, b)
  {
    hide DiffersAt;
    if a != "" && b != "" && a[0] == b[0] {
      AtMostSpelled(a[1..], b[1..]);
      assert a == [a[0]] + a[1..] && b == [b[0]] + b[1..];
      NotAtTheStart(a, b);
      if n: nat :| DiffersAt(a, b, n) {
        DiffersLater(a, b, n);
      }
      if n: nat :| DiffersAt(a[1..], b[1..], n) {
        DiffersLater(a, b, n + 1);
      }
    } else {
      DiffersFirst(a, b, 0);
      if n: nat :| DiffersAt(a, b, n) {
        DiffersFirst(a, b, n);
      }
    }
  }

  lemma NotAtTheStart(a: string, b: string)
    requires a != "" && b != "" && a[0] == b[0]
    ensures !DiffersAt(a, b, 0)
  {
  }

  lemma BeforeMeansOutranks(a: Source, b: Source)
    requires Before(a, b)
    ensures Outranks(a.priority, a.id, a.version, b.priority, b.id, b.version)
  {
    AtMostSpelled(a.id, b.id);
    AtMostSpelled(a.version, b.version);
  }

  lemma TokensBefore(first: Snapshot, rest: seq<Snapshot>, k: nat)
    requires 1 <= k <= |rest| + 1
    ensures Sum(([first] + rest)[..k], TokensOf()) == first.tokens + Sum(rest[..k - 1], TokensOf())
  {
    assert ([first] + rest)[..k] == [first] + rest[..k - 1];
    assert ([first] + rest[..k - 1])[1..] == rest[..k - 1];
  }

  lemma PackTakes(limits: Limits, clean: Sanitizer, source: Source, remaining: nat)
    requires 0 < remaining <= limits.maxTokens && limits.maxSourceTokens > 0 && clean(source.content).content != ""
    ensures TakenFrom(limits, clean, source, limits.maxTokens - remaining, Pack(limits, clean, source, remaining))
  {
  }

  /** Each snapshot of a packing is taken from its own source, with the tokens spent
      before it; the packing goes on while there are sources and tokens. */
  predicate TakenInOrder(limits: Limits, clean: Sanitizer, selected: seq<Source>, remaining: nat, s: seq<Snapshot>) {
    && |s| <= |selected|
    && (forall k :: 0 <= k < |s| ==>
          TakenFrom(limits, clean, selected[k], limits.maxTokens - remaining + Sum(s[..k], TokensOf()), s[k]))
    && (|s| < |selected| ==> Sum(s, TokensOf()) == remaining)
  }

  lemma TakenStep(limits: Limits, clean: Sanitizer, selected: seq<Source>, remaining: nat, first: Snapshot,
                  rest: seq<Snapshot>)
    requires selected != [] && first.tokens <= remaining
    requires TakenFrom(limits, clean, selected[0], limits.maxTokens - remaining, first)
    requires TakenInOrder(limits, clean, selected[1..], remaining - first.tokens, rest)
    ensures TakenInOrder(limits, clean, selected, remaining, [first] + rest)
  {
    hide TakenFrom;
    var s := [first] + rest;
    TokensBefore(first, rest, |s|);
    assert s[..|s|] == s && rest[..|rest|] == rest && s[..0] == [];
    forall k | 0 <= k < |s|
      ensures TakenFrom(limits, clean, selected[k], limits.maxTokens - remaining + Sum(s[..k], TokensOf()), s[k])
    {
      if k > 0 {
        TokensBefore(first, rest, k);
        assert selected[k] == selected[1..][k - 1] && s[k] == rest[k - 1];
      }
    }
  }

  lemma PackAllStep(limits: Limits, clean: Sanitizer, selected: seq<Source>, remaining: nat)
    requires selected != [] && remaining > 0 && PackAll(limits, clean, selected, remaining).Ok?
    ensures var first := Pack(limits, clean, selected[0], remaining);
      && first.tokens <= remaining && clean(selected[0].content).content != ""
      && var rest := PackAll(limits, clean, selected[1..], remaining - first.tokens);
         rest.Ok? && PackAll(limits, clean, selected, remaining).value == [first] + rest.value
  {
    PackFits(limits, clean, selected[0], remaining);
    hide Pack;
  }

  lemma NothingPacked(limits: Limits, clean: Sanitizer, selected: seq<Source>, remaining: nat)
    requires selected == [] || remaining == 0
    ensures PackAll(limits, clean, selected, remaining) == Ok([])
    ensures TakenInOrder(limits, clean, selected, remaining, PackAll(limits, clean, selected, remaining).value)
  {
  }

  lemma {:induction false} PackedInOrder(limits: Limits, clean: Sanitizer, selected: seq<Source>, remaining: nat)
    requires remaining <= limits.maxTokens && limits.maxSourceTokens > 0
    requires PackAll(limits, clean, selected, remaining).Ok?
    ensures TakenInOrder(limits, clean, selected, remaining, PackAll(limits, clean, selected, remaining).value)
  {
    if selected != [] && remaining != 0 {
      hide TakenInOrder, TakenFrom, Pack, PackAll;
      var first := Pack(limits, clean, selected[0], remaining);
      PackAllStep(limits, clean, selected, remaining);
      PackFits(limits, clean, selected[0], remaining);
      PackTakes(limits, clean, selected[0], remaining);
      PackedInOrder(limits, clean, selected[1..], remaining - first.tokens);
      TakenStep(limits, clean, selected, remaining, first,
                PackAll(limits, clean, selected[1..], remaining - first.tokens).value);
    } else {
      NothingPacked(limits, clean, selected, remaining);
    }
  }

  lemma InSorted(inputs: seq<Source>, x: Source) returns (m: nat)
    requires x in inputs
    ensures m < |Sort(inputs)| && Sort(inputs)[m] == x
  {
    SameElements(inputs, Sort(inputs), x);
    m :| m < |Sort(inputs)| && Sort(inputs)[m] == x;
  }

  ghost predicate RanksAbove(a: Source, b: Source) {
    Outranks(a.priority, a.id, a.version, b.priority, b.id, b.version)
  }

  lemma SortedByRank(inputs: seq<Source>)
    ensures forall j, k :: 0 <= j < k < |inputs| ==> RanksAbove(Sort(inputs)[j], Sort(inputs)[k])
    ensures forall k :: 0 <= k < |inputs| ==> Sort(inputs)[k] in inputs
  {
    SortSorted(inputs);
    var ordered := Sort(inputs);
    forall k | 0 <= k < |ordered|
      ensures ordered[k] in inputs
    {
      SameElements(ordered, inputs, ordered[k]);
    }
    hide Sort, Before, Outranks;
    forall j, k | 0 <= j < k < |ordered|
      ensures RanksAbove(ordered[j], ordered[k])
    {
      BeforeMeansOutranks(ordered[j], ordered[k]);
    }
  }

  lemma PackedSnapshots(limits: Limits, clean: Sanitizer, inputs: seq<Source>)
    requires limits.maxSourceTokens > 0 && BuildResult(limits, clean, inputs).Ok?
    ensures var b := BuildResult(limits, clean, inputs).value;
      var s := b.sources;
      && |s| <= limits.maxSources && |s| <= |inputs|
      && b.tokenEstimate == Sum(s, TokensOf()) && b.maxTokens == limits.maxTokens
      && (forall k :: 0 <= k < |s| ==> TakenFrom(limits, clean, Sort(inputs)[k], Sum(s[..k], TokensOf()), s[k]))
      && (|s| < |inputs| ==> |s| == limits.maxSources || b.tokenEstimate == limits.maxTokens)
  {
    var selected := Selected(limits, inputs);
    PackedInOrder(limits, clean, selected, limits.maxTokens);
    hide PackAll, Sort, TakenFrom;
    assert forall k :: 0 <= k < |selected| ==> selected[k] == Sort(inputs)[k];
  }

  /** The snapshots show the first sources of the sorted order. */
  predicate ShowsFirst(ordered: seq<Source>, s: seq<Snapshot>) {
    |s| <= |ordered| && forall k :: 0 <= k < |s| ==>
      s[k].id == ordered[k].id && s[k].version == ordered[k].version && s[k].priority == ordered[k].priority
  }

  lemma FirstOutrankTheRest(inputs: seq<Source>, s: seq<Snapshot>)
    requires ShowsFirst(Sort(inputs), s)
    ensures Ranked(s) && RestRanksBelow(inputs, s)
  {
    SortedByRank(inputs);
    hide Sort, Outranks;
    var ordered := Sort(inputs);
    forall j, k | 0 <= j < k < |s|
      ensures Outranks(s[j].priority, s[j].id, s[j].version, s[k].priority, s[k].id, s[k].version)
    {
      assert RanksAbove(ordered[j], ordered[k]);
    }
    forall x | x in inputs
      ensures (exists k :: 0 <= k < |s| && s[k].id == x.id && s[k].version == x.version)
        || (forall k :: 0 <= k < |s| ==>
              Outranks(s[k].priority, s[k].id, s[k].version, x.priority, x.id, x.version))
    {
      var m := InSorted(inputs, x);
      if m < |s| {
        assert s[m].id == x.id && s[m].version == x.version;
      } else {
        assert forall k :: 0 <= k < |s| ==> RanksAbove(ordered[k], ordered[m]);
      }
    }
  }

  lemma ShowsWhatItTakes(limits: Limits, clean: Sanitizer, ordered: seq<Source>, s: seq<Snapshot>)
    requires |s| <= |ordered|
    requires forall k :: 0 <= k < |s| ==> TakenFrom(limits, clean, ordered[k], Sum(s[..k], TokensOf()), s[k])
    ensures ShowsFirst(ordered, s)
  {
  }

  lemma TakenFromOne(limits: Limits, clean: Sanitizer, inputs: seq<Source>, x: Source, used: int, snapshot: Snapshot)
    requires x in inputs && TakenFrom(limits, clean, x, used, snapshot)
    ensures TakenFromSome(limits, clean, inputs, used, snapshot)
  {
    hide TakenFrom;
  }

  lemma TakenFromInputs(limits: Limits, clean: Sanitizer, inputs: seq<Source>, s: seq<Snapshot>)
    requires |s| <= |inputs|
    requires forall k :: 0 <= k < |s| ==>
      TakenFrom(limits, clean, Sort(inputs)[k], Sum(s[..k], TokensOf()), s[k])
    ensures AllTaken(limits, clean, inputs, s) && ShowsFirst(Sort(inputs), s)
  {
    SortedByRank(inputs);
    ShowsWhatItTakes(limits, clean, Sort(inputs), s);
    hide Sort, RanksAbove, TakenFrom, TakenFromSome, ShowsFirst;
    forall k | 0 <= k < |s|
      ensures TakenFromSome(limits, clean, inputs, Sum(s[..k], TokensOf()), s[k])
    {
      TakenFromOne(limits, clean, inputs, Sort(inputs)[k], Sum(s[..k], TokensOf()), s[k]);
    }
  }

  lemma BundleIsBestFirst(limits: Limits, clean: Sanitizer, inputs: seq<Source>)
    requires limits.maxSourceTokens > 0 && BuildResult(limits, clean, inputs).Ok?
    ensures BestFirst(limits, clean, inputs, BuildResult(limits, clean, inputs).value)
  {
    hide BuildResult, Sort, TakenFrom, AllTaken, ShowsFirst, Ranked, RestRanksBelow;
    var s := BuildResult(limits, clean, inputs).value.sources;
    PackedSnapshots(limits, clean, inputs);
    TakenFromInputs(limits, clean, inputs, s);
    FirstOutrankTheRest(inputs, s);
  }

  // -------------------------------------------------------- closed forms

  /** What a source would take if it had the budget to itself. */
  function ShareOf(limits: Limits, clean: Sanitizer, source: Source): nat {
    Min(Estimate(clean(source.content).content), limits.maxSourceTokens)
  }

  function Share(limits: Limits, clean: Sanitizer): Source -> int {
    (source: Source) => ShareOf(limits, clean, source)
  }

  /** Closed form of the loop: a bundle's tokens are the budget or the sum of all
      shares, whichever is less. */
  lemma {:induction false} TokensClosedForm(limits: Limits, clean: Sanitizer, selected: seq<Source>, remaining: nat)
    requires PackAll(limits, clean, selected, remaining).Ok?
    ensures Sum(PackAll(limits, clean, selected, remaining).value, TokensOf())
         == Min(remaining, Sum(selected, Share(limits, clean)))
  {
    SumOfShares(limits, clean, selected);
    if selected != [] && remaining != 0 {
      var snapshot := Pack(limits, clean, selected[0], remaining);
      PackFits(limits, clean, selected[0], remaining);
      TokensClosedForm(limits, clean, selected[1..], remaining - snapshot.tokens);
      SumOfShares(limits, clean, selected[1..]);
      var rest := PackAll(limits, clean, selected[1..], remaining - snapshot.tokens).value;
      assert ([snapshot] + rest)[1..] == rest;
    }
  }

  lemma {:induction false} SumOfShares(limits: Limits, clean: Sanitizer, s: seq<Source>)
    ensures Sum(s, Share(limits, clean)) >= 0
  {
    if s != [] {
      assert Share(limits, clean)(s[0]) >= 0;
      SumOfShares(limits, clean, s[1..]);
    }
  }

  /** The bundle holds a prefix of the sorted sources, each with a prefix of its
      sanitized text; a source is marked cut exactly when text is missing. */
  lemma {:induction false} PrefixOfOrder(limits: Limits, clean: Sanitizer, selected: seq<Source>, remaining: nat)
    requires PackAll(limits, clean, selected, remaining).Ok?
    ensures var snapshots := PackAll(limits, clean, selected, remaining).value;
            && |snapshots| <= |selected|
            && forall k :: 0 <= k < |snapshots| ==>
                 var text := clean(selected[k].content).content;
                 && snapshots[k].id == selected[k].id && snapshots[k].version == selected[k].version
                 && snapshots[k].content <= text
                 && (snapshots[k].truncated <==> snapshots[k].content != text)
                 && snapshots[k].tokens <= limits.maxSourceTokens
  {
    if selected != [] && remaining != 0 {
      var snapshot := Pack(limits, clean, selected[0], remaining);
      PackFits(limits, clean, selected[0], remaining);
      PrefixOfOrder(limits, clean, selected[1..], remaining - snapshot.tokens);
    }
  }

  /** The whole build: within budget, and equal to the closed form. */
  lemma BundleClosedForm(limits: Limits, clean: Sanitizer, inputs: seq<Source>)
    requires BuildResult(limits, clean, inputs).Ok?
    ensures var bundle := BuildResult(limits, clean, inputs).value;
            && bundle.tokenEstimate == Min(limits.maxTokens, Sum(Selected(limits, inputs), Share(limits, clean)))
            && bundle.tokenEstimate <= bundle.maxTokens
            && |bundle.sources| <= limits.maxSources
  {
    TokensClosedForm(limits, clean, Selected(limits, inputs), limits.maxTokens);
    PrefixOfOrder(limits, clean, Selected(limits, inputs), limits.maxTokens);
  }

  predicate HasText(clean: Sanitizer, source: Source) {
    clean(source.content).content != ""
  }

  /** Every source the packing gets to has text: one is reached when the sources before
      it leave budget over. */
  predicate ReachedHaveText(limits: Limits, clean: Sanitizer, selected: seq<Source>, remaining: nat) {
    forall k :: 0 <= k < |selected| && Sum(selected[..k], Share(limits, clean)) < remaining ==>
      HasText(clean, selected[k])
  }

  lemma SharesFrom(limits: Limits, clean: Sanitizer, selected: seq<Source>, k: nat)
    requires k < |selected|
    ensures Sum(selected[..k], Share(limits, clean)) >= 0
    ensures k > 0 ==>
      var later := Sum(selected[1..][..k - 1], Share(limits, clean));
      later >= 0 && Sum(selected[..k], Share(limits, clean)) == ShareOf(limits, clean, selected[0]) + later
  {
    SumOfShares(limits, clean, selected[..k]);
    if k > 0 {
      SumOfShares(limits, clean, selected[1..][..k - 1]);
      assert selected[..k][1..] == selected[1..][..k - 1] && selected[..k][0] == selected[0];
    }
  }

  lemma ReachedFrom(limits: Limits, clean: Sanitizer, selected: seq<Source>, remaining: nat)
    ensures selected == [] || remaining == 0 ==> ReachedHaveText(limits, clean, selected, remaining)
    ensures selected != [] && remaining > 0 ==>
      var left := remaining - Min(ShareOf(limits, clean, selected[0]), remaining);
      (ReachedHaveText(limits, clean, selected, remaining) <==>
         HasText(clean, selected[0]) && ReachedHaveText(limits, clean, selected[1..], left))
  {
    hide ShareOf, HasText;
    forall k | 0 <= k < |selected|
      ensures Sum(selected[..k], Share(limits, clean)) >= 0
    {
      SharesFrom(limits, clean, selected, k);
    }
    if selected != [] && remaining > 0 {
      var rest := selected[1..];
      var left := remaining - Min(ShareOf(limits, clean, selected[0]), remaining);
      assert Sum(selected[..0], Share(limits, clean)) == 0;
      forall k | 0 <= k < |rest|
        ensures rest[k] == selected[k + 1]
        ensures Sum(rest[..k], Share(limits, clean)) < left
           <==> Sum(selected[..k + 1], Share(limits, clean)) < remaining
      {
        SharesFrom(limits, clean, selected, k + 1);
      }
      if ReachedHaveText(limits, clean, selected, remaining) {
        assert HasText(clean, selected[0]);
      } else {
        var k :| 0 <= k < |selected| && Sum(selected[..k], Share(limits, clean)) < remaining
              && !HasText(clean, selected[k]);
        assert k > 0 ==> rest[k - 1] == selected[k] && Sum(rest[..k - 1], Share(limits, clean)) < left;
      }
    }
  }

  /** The packing goes through exactly when every source it reaches has text. */
  lemma {:induction false} PacksExactly(limits: Limits, clean: Sanitizer, selected: seq<Source>, remaining: nat)
    ensures PackAll(limits, clean, selected, remaining).Ok? <==> ReachedHaveText(limits, clean, selected, remaining)
  {
    ReachedFrom(limits, clean, selected, remaining);
    if selected != [] && remaining != 0 {
      PackFits(limits, clean, selected[0], remaining);
      var left := remaining - Pack(limits, clean, selected[0], remaining).tokens;
      PacksExactly(limits, clean, selected[1..], left);
      hide ReachedHaveText, Pack;
    }
  }

  /** When a bundle is built at all. */
  lemma BuildsExactly(limits: Limits, clean: Sanitizer, inputs: seq<Source>)
    ensures BuildResult(limits, clean, inputs).Ok? <==>
      Distinct(inputs) && ReachedHaveText(limits, clean, Selected(limits, inputs), limits.maxTokens)
    ensures BuildResult(limits, clean, inputs) == Err(DuplicateIdentity) <==> !Distinct(inputs)
  {
    PacksExactly(limits, clean, Selected(limits, inputs), limits.maxTokens);
    OnlyEmptySources(limits, clean, Selected(limits, inputs), limits.maxTokens);
    hide PackAll, ReachedHaveText;
  }

  lemma {:induction false} OnlyEmptySources(limits: Limits, clean: Sanitizer, selected: seq<Source>, remaining: nat)
    ensures var r := PackAll(limits, clean, selected, remaining); r.Err? ==> r.error.EmptySource?
  {
    if selected != [] && remaining != 0 {
      PackFits(limits, clean, selected[0], remaining);
      OnlyEmptySources(limits, clean, selected[1..], remaining - Pack(limits, clean, selected[0], remaining).tokens);
    }
  }

  predicate Extends(small: seq<Snapshot>, big: seq<Snapshot>) {
    && |small| <= |big|
    && forall k :: 0 <= k < |small| ==>
         small[k].id == big[k].id && small[k].version == big[k].version && small[k].content <= big[k].content
  }

  /** The per-source cap is either the same, or the smaller budget is itself the
      smaller cap and so never below what is left of it. */
  predicate CapsAgree(small: Limits, big: Limits, remaining: nat) {
    small.maxSourceTokens == big.maxSourceTokens
    || remaining <= small.maxSourceTokens < big.maxSourceTokens
  }

  lemma OneSourceExtends(small: Limits, big: Limits, clean: Sanitizer, source: Source, r: nat, q: nat)
    requires CapsAgree(small, big, r) && r <= q
    ensures var a, b := Pack(small, clean, source, r), Pack(big, clean, source, q);
            && a.content <= b.content
            && a.tokens <= r && b.tokens <= q && r - a.tokens <= q - b.tokens
            && CapsAgree(small, big, r - a.tokens)
  {
    PackFits(small, clean, source, r);
    PackFits(big, clean, source, q);
  }

  lemma {:induction false} MoreBudgetExtends(small: Limits, big: Limits, clean: Sanitizer, selected: seq<Source>,
                                             r: nat, q: nat)
    requires CapsAgree(small, big, r) && r <= q
    requires PackAll(big, clean, selected, q).Ok?
    ensures PackAll(small, clean, selected, r).Ok?
    ensures Extends(PackAll(small, clean, selected, r).value, PackAll(big, clean, selected, q).value)
  {
    hide Pack, CapsAgree;
    if selected != [] && r != 0 {
      var a, b := Pack(small, clean, selected[0], r), Pack(big, clean, selected[0], q);
      OneSourceExtends(small, big, clean, selected[0], r, q);
      SameSource(small, big, clean, selected[0], r, q);
      MoreBudgetExtends(small, big, clean, selected[1..], r - a.tokens, q - b.tokens);
    }
  }

  lemma SameSource(small: Limits, big: Limits, clean: Sanitizer, source: Source, r: nat, q: nat)
    ensures var a, b := Pack(small, clean, source, r), Pack(big, clean, source, q);
            a.id == b.id && a.version == b.version
  {
  }

  function TwoSources(): seq<Source> {
    [Source("a", "1", 0, "12345678"), Source("b", "1", 0, "")]
  }

  function Unchanged(): Sanitizer {
    (text: string) => Clean(text, false, false)
  }

  lemma TwoSourcesSorted()
    ensures Sort(TwoSources()) == TwoSources() && Distinct(TwoSources())
  {
    var inputs := TwoSources();
    assert AtMost("a", "b") && Sort(inputs[1..]) == [inputs[1]] && Sort(inputs) == inputs;
    assert Identities(inputs) == [("a", "1"), ("b", "1")];
    CountingFindsRepeats(Identities(inputs));
  }

  lemma TwoSourcesPacked()
    ensures PackAll(Limits(2, 2, 2), Unchanged(), TwoSources(), 2).Ok?
    ensures PackAll(Limits(2, 3, 3), Unchanged(), TwoSources(), 3) == Err(EmptySource("b"))
  {
    var inputs, clean := TwoSources(), Unchanged();
    assert inputs[1..] == [inputs[1]] && clean(inputs[0].content).content == "12345678";
    var small, big := Limits(2, 2, 2), Limits(2, 3, 3);
    assert Pack(small, clean, inputs[0], 2).tokens == 2 && Pack(big, clean, inputs[0], 3).tokens == 2;
    assert PackAll(small, clean, inputs[1..], 0) == Ok([]);
    assert PackAll(big, clean, inputs[1..], 1) == Err(EmptySource("b"));
  }

  /** More budget can lose a bundle: two tokens are used up by the first source, with
      three the empty second one is reached. */
  lemma MoreBudgetCanFail()
    ensures BuildResult(Limits(2, 2, 2), Unchanged(), TwoSources()).Ok?
    ensures BuildResult(Limits(2, 3, 3), Unchanged(), TwoSources()) == Err(EmptySource("b"))
    ensures Engine(2, 2, 9) == Some(Limits(2, 2, 2)) && Engine(2, 3, 9) == Some(Limits(2, 3, 3))
  {
    TwoSourcesSorted();
    TwoSourcesPacked();
    hide PackAll, Sort, Distinct, Unchanged;
  }

  /** Which larger budgets still build, given one that does: those with which every
      source then reached has text. */
  lemma LargerBudgetBuildsIff(maxSources: int, tokens: int, more: int, sourceTokens: int, clean: Sanitizer,
                              inputs: seq<Source>)
    requires tokens <= more && Engine(maxSources, tokens, sourceTokens).Some?
    requires BuildResult(Engine(maxSources, tokens, sourceTokens).value, clean, inputs).Ok?
    ensures var big := Engine(maxSources, more, sourceTokens).value;
      BuildResult(big, clean, inputs).Ok? <==> ReachedHaveText(big, clean, Selected(big, inputs), more)
  {
    BuildsExactly(Engine(maxSources, tokens, sourceTokens).value, clean, inputs);
    BuildsExactly(Engine(maxSources, more, sourceTokens).value, clean, inputs);
    hide BuildResult, ReachedHaveText;
  }

  /** A larger max_tokens only adds: whenever the larger engine builds a bundle the
      smaller one does too, and every content it includes is a prefix of the larger
      bundle's content for the same source. */
  lemma LargerBudgetExtends(maxSources: int, tokens: int, more: int, sourceTokens: int, clean: Sanitizer,
                            inputs: seq<Source>)
    requires tokens <= more
    requires Engine(maxSources, tokens, sourceTokens).Some?
    requires BuildResult(Engine(maxSources, more, sourceTokens).value, clean, inputs).Ok?
    ensures var small := BuildResult(Engine(maxSources, tokens, sourceTokens).value, clean, inputs);
            var big := BuildResult(Engine(maxSources, more, sourceTokens).value, clean, inputs);
            small.Ok? && Extends(small.value.sources, big.value.sources)
  {
    var small, big := Engine(maxSources, tokens, sourceTokens).value, Engine(maxSources, more, sourceTokens).value;
    assert Selected(small, inputs) == Selected(big, inputs);
    MoreBudgetExtends(small, big, clean, Selected(big, inputs), tokens, more);
  }

  lemma SameSort(inputs: seq<Source>, permuted: seq<Source>)
    requires multiset(inputs) == multiset(permuted) && Distinct(inputs)
    ensures Sort(inputs) == Sort(permuted)
  {
    SortSorted(inputs);
    SortSorted(permuted);
    SameIdentities(inputs, Sort(inputs));
    CountingFindsRepeats(Identities(inputs));
    CountingFindsRepeats(Identities(Sort(inputs)));
    hide Sort, Sorted;
    OneSortedOrder(Sort(inputs), Sort(permuted));
  }

  lemma SameDistinct(inputs: seq<Source>, permuted: seq<Source>)
    requires multiset(inputs) == multiset(permuted)
    ensures Distinct(inputs) <==> Distinct(permuted)
    ensures |inputs| == |permuted|
  {
    SameIdentities(inputs, permuted);
  }

  /** The order in which the sources are submitted does not matter: the same bundle,
      or the same error, comes out. */
  lemma OrderIndependent(limits: Limits, clean: Sanitizer, inputs: seq<Source>, permuted: seq<Source>)
    requires multiset(inputs) == multiset(permuted)
    ensures BuildResult(limits, clean, inputs) == BuildResult(limits, clean, permuted)
  {
    hide Distinct, Sort, PackAll, Cut;
    SameDistinct(inputs, permuted);
    if Distinct(inputs) {
      SameSort(inputs, permuted);
    }
  }
}
