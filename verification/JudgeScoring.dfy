/** Scoring of a judge proposal (app/services/judge.py, `compile_judge_evaluation`)
    under the rubric's own conditions (app/models/judge.py).

    Floating point is modelled over the reals with rounding to nearest, ties to
    even. The texts of a proposal are sanitized on the side and not modelled. */
module JudgeScoring {
  import opened Basics

  datatype Dimension =
    | RequirementsDim | SpecificationDim | ArchitectureDim | SecurityDim
    | TestingDim | ImplementationDim | ValidationDim

  const DIMENSIONS := [RequirementsDim, SpecificationDim, ArchitectureDim, SecurityDim, TestingDim, ImplementationDim,
                       ValidationDim]

  datatype Criterion = Criterion(id: string, dimension: Dimension, weight: real)

  datatype Rubric = Rubric(passScore: int, concernScore: int, criteria: seq<Criterion>)

  datatype Proposed = Proposed(id: string, score: int)

  datatype Scored = Scored(id: string, dimension: Dimension, score: int, weight: real, weighted: real)

  datatype Verdict = Fail | Concerns | Pass

  datatype Evaluation = Evaluation(
    criteria: seq<Scored>, overall: int, verdict: Verdict, dimensions: map<Dimension, int>)

  datatype Error = DuplicateCriterion | WrongCoverage

  datatype Result<+T> = Ok(value: T) | Err(error: Error)

  // ------------------------------------------------------------ rounding

  /** Python's `round(x)`. */
  function RoundInt(x: real): int {
    var down := x.Floor;
    var rest := x - down as real;
    if rest < 0.5 then down
    else if rest > 0.5 then down + 1
    else if down % 2 == 0 then down
    else down + 1
  }

  /** Python's `round(x, 4)`. */
  function Round4(x: real): real {
    RoundInt(x * 10000.0) as real / 10000.0
  }

  lemma RoundIntNear(x: real)
    ensures -0.5 <= RoundInt(x) as real - x <= 0.5
  {
  }

  lemma RoundIntMonotone(x: real, y: real)
    requires x <= y
    ensures RoundInt(x) <= RoundInt(y)
  {
    RoundIntNear(x);
    RoundIntNear(y);
    assert x.Floor <= y.Floor;
  }

  lemma RoundIntClose(x: real, n: int)
    requires -0.5 < x - n as real < 0.5
    ensures RoundInt(x) == n
  {
    RoundIntNear(x);
  }

  /** A tie goes to the even neighbour. */
  lemma TiesToEven(x: real)
    requires x - x.Floor as real == 0.5
    ensures RoundInt(x) % 2 == 0 && (RoundInt(x) == x.Floor || RoundInt(x) == x.Floor + 1)
  {
  }

  /** Four decimals and no more. */
  lemma Round4Whole(x: real)
    ensures Round4(x) * 10000.0 == RoundInt(x * 10000.0) as real
  {
  }

  lemma Round4Near(x: real)
    ensures -0.00005 <= Round4(x) - x <= 0.00005
  {
    RoundIntNear(x * 10000.0);
  }

  lemma Round4Monotone(x: real, y: real)
    requires x <= y
    ensures Round4(x) <= Round4(y)
  {
    RoundIntMonotone(x * 10000.0, y * 10000.0);
  }

  // ------------------------------------------------------------- sums

  function Total(s: seq<real>): real {
    if s == [] then 0.0 else Total(s[..|s| - 1]) + s[|s| - 1]
  }

  function Product(score: int, weight: real): real {
    score as real * weight
  }

  function Weights(items: seq<Scored>): (r: seq<real>)
    ensures |r| == |items|
  {
    seq(|items|, k requires 0 <= k < |items| => items[k].weight)
  }

  function Products(items: seq<Scored>): (r: seq<real>)
    ensures |r| == |items|
  {
    seq(|items|, k requires 0 <= k < |items| => Product(items[k].score, items[k].weight))
  }

  function Weighted(items: seq<Scored>): (r: seq<real>)
    ensures |r| == |items|
  {
    seq(|items|, k requires 0 <= k < |items| => items[k].weighted)
  }

  /** `Total` is the sum: it has the value of a single term and adds over parts. */
  lemma TotalSingle(x: real)
    ensures Total([x]) == x && Total([]) == 0.0
  {
    assert [x][..0] == [];
  }

  lemma {:induction false} TotalAppend(s: seq<real>, t: seq<real>)
    ensures Total(s + t) == Total(s) + Total(t)
  {
    if t == [] {
      assert s + t == s;
    } else {
      var n := |t| - 1;
      TotalAppend(s, t[..n]);
      assert (s + t)[..|s| + n] == s + t[..n];
    }
  }

  lemma {:induction false} TotalMonotone(s: seq<real>, t: seq<real>)
    requires |s| == |t|
    requires forall k :: 0 <= k < |s| ==> s[k] <= t[k]
    ensures Total(s) <= Total(t)
  {
    if s != [] {
      TotalMonotone(s[..|s| - 1], t[..|t| - 1]);
    }
  }

  lemma OneMore(n: nat, each: real)
    ensures Product(n + 1, each) == Product(n, each) + each
  {
  }

  /** Sums of terms that are close one by one are close. */
  lemma {:induction false} TotalNear(s: seq<real>, t: seq<real>, each: real)
    requires |s| == |t|
    requires forall k :: 0 <= k < |s| ==> -each <= s[k] - t[k] <= each
    ensures -Product(|s|, each) <= Total(s) - Total(t) <= Product(|s|, each)
  {
    if s != [] {
      var n := |s| - 1;
      TotalNear(s[..n], t[..n], each);
      OneMore(n, each);
      hide Product;
    }
  }

  // ------------------------------------------------------------- rubric

  function CriterionWeights(criteria: seq<Criterion>): (r: seq<real>)
    ensures |r| == |criteria|
  {
    seq(|criteria|, k requires 0 <= k < |criteria| => criteria[k].weight)
  }

  function CriterionIds(criteria: seq<Criterion>): (r: seq<string>)
    ensures |r| == |criteria|
  {
    seq(|criteria|, k requires 0 <= k < |criteria| => criteria[k].id)
  }

  /** `JudgeRubric` and its field bounds. */
  predicate ValidRubric(rubric: Rubric) {
    && 0 <= rubric.concernScore < rubric.passScore <= 100
    && 1 <= |rubric.criteria| <= 50
    && (forall k :: 0 <= k < |rubric.criteria| ==> 0.0 < rubric.criteria[k].weight <= 1.0)
    && NoRepeats(CriterionIds(rubric.criteria))
    && -0.000001 <= Total(CriterionWeights(rubric.criteria)) - 1.0 <= 0.000001
  }

  // --------------------------------------------------------- compilation

  function ProposedIds(items: seq<Proposed>): (r: seq<string>)
    ensures |r| == |items|
  {
    seq(|items|, k requires 0 <= k < |items| => items[k].id)
  }

  predicate ScoresInRange(items: seq<Proposed>) {
    forall k :: 0 <= k < |items| ==> 0 <= items[k].score <= 100
  }

  /** `proposal_by_id[id].score`; like the dictionary, the last entry wins. */
  function ScoreFor(items: seq<Proposed>, id: string): int {
    if items == [] then 0
    else if items[|items| - 1].id == id then items[|items| - 1].score
    else ScoreFor(items[..|items| - 1], id)
  }

  function Score(criterion: Criterion, items: seq<Proposed>): Scored {
    var score := ScoreFor(items, criterion.id);
    Scored(criterion.id, criterion.dimension, score, criterion.weight, Round4(Product(score, criterion.weight)))
  }

  function ScoreAll(criteria: seq<Criterion>, items: seq<Proposed>): (r: seq<Scored>)
    ensures |r| == |criteria|
  {
    seq(|criteria|, k requires 0 <= k < |criteria| => Score(criteria[k], items))
  }

  function Overall(scored: seq<Scored>): int {
    RoundInt(Total(Weighted(scored)))
  }

  function VerdictFor(rubric: Rubric, overall: int): Verdict {
    if overall >= rubric.passScore then Pass
    else if overall >= rubric.concernScore then Concerns
    else Fail
  }

  function InDimension(scored: seq<Scored>, dimension: Dimension): seq<Scored> {
    if scored == [] then []
    else
      var last := scored[|scored| - 1];
      InDimension(scored[..|scored| - 1], dimension) + (if last.dimension == dimension then [last] else [])
  }

  predicate PositiveWeights(scored: seq<Scored>) {
    forall k :: 0 <= k < |scored| ==> scored[k].weight > 0.0
  }

  lemma {:induction false} PositiveTotal(scored: seq<Scored>)
    requires PositiveWeights(scored)
    ensures Total(Weights(scored)) >= 0.0
    ensures scored != [] ==> Total(Weights(scored)) > 0.0
  {
    if scored != [] {
      var init := scored[..|scored| - 1];
      PositiveTotal(init);
      assert Weights(scored)[..|scored| - 1] == Weights(init);
    }
  }

  lemma {:induction false} DimensionPart(scored: seq<Scored>, dimension: Dimension)
    ensures forall x :: x in InDimension(scored, dimension) <==> x in scored && x.dimension == dimension
    ensures PositiveWeights(scored) ==> PositiveWeights(InDimension(scored, dimension))
  {
    if scored != [] {
      var init, last := scored[..|scored| - 1], scored[|scored| - 1];
      assert scored == init + [last];
      DimensionPart(init, dimension);
    }
  }

  function DimensionScore(scored: seq<Scored>): int
    requires scored != [] && PositiveWeights(scored)
  {
    PositiveTotal(scored);
    RoundInt(Total(Products(scored)) / Total(Weights(scored)))
  }

  /** The dimensions that have criteria, each with its score. */
  predicate DimensionsOf(scored: seq<Scored>, dimensions: map<Dimension, int>)
    requires PositiveWeights(scored)
  {
    forall d: Dimension ::
      && (d in dimensions <==> InDimension(scored, d) != [])
      && (d in dimensions ==> (DimensionPart(scored, d); dimensions[d] == DimensionScore(InDimension(scored, d))))
  }

  /** `compile_judge_evaluation`: exact coverage or an error, one scored entry per
      criterion in rubric order, and the three figures derived from them. */
  method Compile(rubric: Rubric, items: seq<Proposed>) returns (r: Result<Evaluation>)
    requires ValidRubric(rubric)
    ensures r.Err? && r.error == DuplicateCriterion <==> !NoRepeats(ProposedIds(items))
    ensures r.Err? && r.error == WrongCoverage <==>
      NoRepeats(ProposedIds(items)) && Elements(ProposedIds(items)) != Elements(CriterionIds(rubric.criteria))
    ensures r.Ok? ==>
      && r.value.criteria == ScoreAll(rubric.criteria, items)
      && |r.value.criteria| == |rubric.criteria|
      && (forall k :: 0 <= k < |rubric.criteria| ==>
            && ScoredAs(rubric.criteria[k], r.value.criteria[k])
            && Proposed(rubric.criteria[k].id, r.value.criteria[k].score) in items)
      && r.value.overall == Overall(r.value.criteria)
      && (r.value.verdict == Pass <==> r.value.overall >= rubric.passScore)
      && (r.value.verdict == Fail <==> r.value.overall < rubric.concernScore)
      && (r.value.verdict == Concerns <==> rubric.concernScore <= r.value.overall < rubric.passScore)
      && PositiveWeights(r.value.criteria) && DimensionsOf(r.value.criteria, r.value.dimensions)
  {
    var proposed, expected := ProposedIds(items), CriterionIds(rubric.criteria);
    CountingFindsRepeats(proposed);
    if |Elements(proposed)| != |proposed| {
      return Err(DuplicateCriterion);
    }
    if Elements(proposed) != Elements(expected) {
      return Err(WrongCoverage);
    }
    var scored: seq<Scored> := [];
    for k := 0 to |rubric.criteria|
      invariant scored == ScoreAll(rubric.criteria[..k], items)
    {
      scored := scored + [Score(rubric.criteria[k], items)];
    }
    assert rubric.criteria[..|rubric.criteria|] == rubric.criteria;
    AllScored(rubric.criteria, items);
    var overall := RoundInt(Total(Weighted(scored)));
    var dimensions := DimensionScores(scored);
    r := Ok(Evaluation(scored, overall, VerdictFor(rubric, overall), dimensions));
  }

  /** A scored entry: the criterion's own name, dimension and weight, and the weighted
      score to four decimals. */
  predicate ScoredAs(criterion: Criterion, scored: Scored) {
    && scored.id == criterion.id && scored.dimension == criterion.dimension && scored.weight == criterion.weight
    && -0.00005 <= scored.weighted - scored.score as real * criterion.weight <= 0.00005
    && (scored.weighted * 10000.0).Floor as real == scored.weighted * 10000.0
  }

  lemma Round4Spelled(x: real)
    ensures -0.00005 <= Round4(x) - x <= 0.00005
    ensures (Round4(x) * 10000.0).Floor as real == Round4(x) * 10000.0
  {
    Round4Near(x);
    Round4Whole(x);
    hide Round4;
    assert (RoundInt(x * 10000.0) as real).Floor == RoundInt(x * 10000.0);
  }

  lemma ScoreSpelled(criterion: Criterion, items: seq<Proposed>)
    ensures ScoredAs(criterion, Score(criterion, items))
  {
    Round4Spelled(Product(ScoreFor(items, criterion.id), criterion.weight));
    hide Round4, RoundInt;
  }

  lemma AllScored(criteria: seq<Criterion>, items: seq<Proposed>)
    requires NoRepeats(ProposedIds(items)) && Elements(ProposedIds(items)) == Elements(CriterionIds(criteria))
    ensures forall k :: 0 <= k < |criteria| ==>
      && ScoredAs(criteria[k], ScoreAll(criteria, items)[k])
      && Proposed(criteria[k].id, ScoreAll(criteria, items)[k].score) in items
  {
    hide ScoredAs;
    forall k | 0 <= k < |criteria|
      ensures ScoredAs(criteria[k], ScoreAll(criteria, items)[k])
      ensures Proposed(criteria[k].id, ScoreAll(criteria, items)[k].score) in items
    {
      ScoreSpelled(criteria[k], items);
      assert CriterionIds(criteria)[k] == criteria[k].id;
      assert criteria[k].id in Elements(ProposedIds(items));
      var i :| 0 <= i < |items| && ProposedIds(items)[i] == criteria[k].id;
      ScoreForMember(items, i);
      assert items[i] == Proposed(criteria[k].id, ScoreAll(criteria, items)[k].score);
    }
  }

  method DimensionScores(scored: seq<Scored>) returns (dimensions: map<Dimension, int>)
    requires PositiveWeights(scored)
    ensures DimensionsOf(scored, dimensions)
  {
    dimensions := map[];
    for k := 0 to |DIMENSIONS|
      invariant forall d :: d in dimensions <==> d in DIMENSIONS[..k] && InDimension(scored, d) != []
      invariant forall d :: d in dimensions ==>
        PositiveWeights(InDimension(scored, d)) && dimensions[d] == DimensionScore(InDimension(scored, d))
    {
      var part := InDimension(scored, DIMENSIONS[k]);
      DimensionPart(scored, DIMENSIONS[k]);
      assert DIMENSIONS[..k + 1] == DIMENSIONS[..k] + [DIMENSIONS[k]];
      if part != [] {
        dimensions := dimensions[DIMENSIONS[k] := DimensionScore(part)];
      }
    }
    AllDimensions();
  }

  lemma AllDimensions()
    ensures forall d: Dimension :: d in DIMENSIONS[..|DIMENSIONS|]
  {
    assert DIMENSIONS[..|DIMENSIONS|] == DIMENSIONS;
    forall d: Dimension
      ensures d in DIMENSIONS
    {
      match d
      case RequirementsDim => assert DIMENSIONS[0] == d;
      case SpecificationDim => assert DIMENSIONS[1] == d;
      case ArchitectureDim => assert DIMENSIONS[2] == d;
      case SecurityDim => assert DIMENSIONS[3] == d;
      case TestingDim => assert DIMENSIONS[4] == d;
      case ImplementationDim => assert DIMENSIONS[5] == d;
      case ValidationDim => assert DIMENSIONS[6] == d;
    }
  }

  // ------------------------------------------------------------- bounds

  lemma {:induction false} ScoreForInRange(items: seq<Proposed>, id: string)
    requires ScoresInRange(items)
    ensures 0 <= ScoreFor(items, id) <= 100
  {
    if items != [] {
      ScoreForInRange(items[..|items| - 1], id);
    }
  }

  lemma ScaleWeight(score: int, lo: int, hi: int, weight: real)
    requires lo <= score <= hi && weight >= 0.0
    ensures Product(lo, weight) <= Product(score, weight) <= Product(hi, weight)
  {
  }

  lemma Combine(c: int, x: real, y: real)
    ensures Product(c, x + y) == Product(c, x) + Product(c, y)
  {
  }

  lemma LastWeight(scored: seq<Scored>)
    requires scored != []
    ensures var init, last := scored[..|scored| - 1], scored[|scored| - 1];
      && Total(Weights(scored)) == Total(Weights(init)) + last.weight
      && Total(Products(scored)) == Total(Products(init)) + Product(last.score, last.weight)
  {
    hide Product;
    var n := |scored| - 1;
    assert Weights(scored)[..n] == Weights(scored[..n]) && Products(scored)[..n] == Products(scored[..n]);
  }

  /** A weighted sum lies between the least and the greatest score, times the total
      weight. */
  lemma {:induction false} ProductsBetween(scored: seq<Scored>, lo: int, hi: int)
    requires PositiveWeights(scored)
    requires forall k :: 0 <= k < |scored| ==> lo <= scored[k].score <= hi
    ensures Product(lo, Total(Weights(scored))) <= Total(Products(scored)) <= Product(hi, Total(Weights(scored)))
  {
    if scored != [] {
      var init, last := scored[..|scored| - 1], scored[|scored| - 1];
      ProductsBetween(init, lo, hi);
      LastWeight(scored);
      ScaleWeight(last.score, lo, hi, last.weight);
      hide Total, Weights, Products, Product;
      Combine(lo, Total(Weights(init)), last.weight);
      Combine(hi, Total(Weights(init)), last.weight);
    }
  }

  /** What `Compile` knows about its list of scored criteria. */
  predicate FromRubric(rubric: Rubric, items: seq<Proposed>, scored: seq<Scored>) {
    ValidRubric(rubric) && ScoresInRange(items) && scored == ScoreAll(rubric.criteria, items)
  }

  lemma FromRubricWeights(rubric: Rubric, items: seq<Proposed>, scored: seq<Scored>)
    requires FromRubric(rubric, items, scored)
    ensures PositiveWeights(scored) && 1 <= |scored| <= 50
    ensures Weights(scored) == CriterionWeights(rubric.criteria)
    ensures -0.000001 <= Total(Weights(scored)) - 1.0 <= 0.000001
    ensures Total(Weights(scored)) > 0.0
  {
    hide Round4, Total, RoundInt;
    assert Weights(scored) == CriterionWeights(rubric.criteria);
  }

  lemma FromRubricScores(rubric: Rubric, items: seq<Proposed>, scored: seq<Scored>)
    requires FromRubric(rubric, items, scored)
    ensures forall k :: 0 <= k < |scored| ==> 0 <= scored[k].score <= 100
  {
    hide Round4, Total, RoundInt;
    forall k | 0 <= k < |scored|
      ensures 0 <= scored[k].score <= 100
    {
      ScoreForInRange(items, rubric.criteria[k].id);
    }
  }

  lemma EachRounded(rubric: Rubric, items: seq<Proposed>, scored: seq<Scored>)
    requires FromRubric(rubric, items, scored)
    ensures forall k :: 0 <= k < |scored| ==> -0.00005 <= Weighted(scored)[k] - Products(scored)[k] <= 0.00005
  {
    hide Total, RoundInt, Round4, Product;
    forall k | 0 <= k < |scored|
      ensures -0.00005 <= Weighted(scored)[k] - Products(scored)[k] <= 0.00005
    {
      Round4Near(Product(scored[k].score, scored[k].weight));
    }
  }

  lemma RoundedSumNear(rubric: Rubric, items: seq<Proposed>, scored: seq<Scored>)
    requires FromRubric(rubric, items, scored)
    ensures -0.0025 <= Total(Weighted(scored)) - Total(Products(scored)) <= 0.0025
  {
    FromRubricWeights(rubric, items, scored);
    EachRounded(rubric, items, scored);
    hide FromRubric, Total, RoundInt, Round4, Products, Weighted;
    TotalNear(Weighted(scored), Products(scored), 0.00005);
    assert Product(|scored|, 0.00005) <= 0.0025;
  }

  lemma Nonnegative(x: real, y: real)
    requires x >= 0.0 && y >= 0.0
    ensures x * y >= 0.0
  {
  }

  lemma ScaleSmall(x: real, small: real, bound: real)
    requires 0.0 <= x <= 100.0 && -bound <= small <= bound
    ensures -(bound * 100.0) <= x * small <= bound * 100.0
  {
    Nonnegative(x, bound - small);
    Nonnegative(x, bound + small);
    Nonnegative(100.0 - x, bound);
  }

  lemma AlmostUnit(x: real, weight: real)
    requires 0.0 <= x <= 100.0 && -0.000001 <= weight - 1.0 <= 0.000001
    ensures -0.0001 <= x * weight - x <= 0.0001
  {
    assert x * weight - x == x * (weight - 1.0);
    ScaleSmall(x, weight - 1.0, 0.000001);
  }

  lemma Average(product: real, weight: real, lo: real, hi: real)
    requires weight > 0.0 && lo * weight <= product <= hi * weight
    ensures lo <= product / weight <= hi
    ensures product == (product / weight) * weight
  {
    var q := product / weight;
    assert q * weight == product;
    Cancel(lo, q, weight);
    Cancel(q, hi, weight);
  }

  lemma Cancel(x: real, y: real, weight: real)
    requires weight > 0.0 && x * weight <= y * weight
    ensures x <= y
  {
    assert (y - x) * weight >= 0.0;
  }

  /** The overall score is within 0.5026 of the exact weighted average, and between 0
      and 100. */
  lemma OverallError(rubric: Rubric, items: seq<Proposed>, scored: seq<Scored>)
    requires FromRubric(rubric, items, scored)
    ensures Total(Weights(scored)) > 0.0
    ensures var exact := Total(Products(scored)) / Total(Weights(scored));
            -0.5026 <= Overall(scored) as real - exact <= 0.5026
    ensures 0 <= Overall(scored) <= 100
  {
    RoundedSumNear(rubric, items, scored);
    FromRubricWeights(rubric, items, scored);
    FromRubricScores(rubric, items, scored);
    ProductsBetween(scored, 0, 100);
    hide FromRubric, Total, Round4, Products, Weighted, Weights, RoundInt, Product;
    NearAverage(Total(Weighted(scored)), Total(Products(scored)), Total(Weights(scored)), 0, 100);
    WithinScale(Total(Weighted(scored)));
  }

  lemma NearAverage(sum: real, product: real, weight: real, lo: int, hi: int)
    requires 0 <= lo <= hi <= 100 && 0.0 < weight && -0.000001 <= weight - 1.0 <= 0.000001
    requires Product(lo, weight) <= product <= Product(hi, weight)
    requires -0.0025 <= sum - product <= 0.0025
    ensures lo as real <= product / weight <= hi as real
    ensures -0.0026 <= sum - product / weight <= 0.0026
    ensures -0.5026 <= RoundInt(sum) as real - product / weight <= 0.5026
  {
    var q := product / weight;
    Average(product, weight, lo as real, hi as real);
    AlmostUnit(q, weight);
    RoundIntNear(sum);
  }

  lemma WithinScale(x: real)
    requires -0.4 <= x <= 100.4
    ensures 0 <= RoundInt(x) <= 100
  {
    RoundIntMonotone(-0.4, x);
    RoundIntMonotone(x, 100.4);
    RoundIntClose(-0.4, 0);
    RoundIntClose(100.4, 100);
  }

  /** Equal scores come out as themselves. */
  lemma EqualScores(rubric: Rubric, items: seq<Proposed>, scored: seq<Scored>, s: int)
    requires FromRubric(rubric, items, scored)
    requires forall k :: 0 <= k < |scored| ==> scored[k].score == s
    ensures Overall(scored) == s
  {
    RoundedSumNear(rubric, items, scored);
    FromRubricWeights(rubric, items, scored);
    FromRubricScores(rubric, items, scored);
    ProductsBetween(scored, s, s);
    hide FromRubric, Total, Round4, Products, Weighted, Weights, RoundInt, Product;
    assert scored[0].score == s;
    NearAverage(Total(Weighted(scored)), Total(Products(scored)), Total(Weights(scored)), s, s);
    RoundIntClose(Total(Weighted(scored)), s);
  }

  function VerdictRank(verdict: Verdict): int {
    match verdict
    case Fail => 0
    case Concerns => 1
    case Pass => 2
  }

  /** Raising proposed scores never lowers the overall score or the verdict. */
  lemma RaisingScoresHelps(rubric: Rubric, low: seq<Proposed>, high: seq<Proposed>)
    requires ValidRubric(rubric)
    requires forall k :: 0 <= k < |rubric.criteria| ==>
      ScoreFor(low, rubric.criteria[k].id) <= ScoreFor(high, rubric.criteria[k].id)
    ensures var before, after := Overall(ScoreAll(rubric.criteria, low)), Overall(ScoreAll(rubric.criteria, high));
      before <= after && VerdictRank(VerdictFor(rubric, before)) <= VerdictRank(VerdictFor(rubric, after))
  {
    hide Round4, Product, Total, RoundInt;
    var before, after := ScoreAll(rubric.criteria, low), ScoreAll(rubric.criteria, high);
    forall k | 0 <= k < |before|
      ensures Weighted(before)[k] <= Weighted(after)[k]
    {
      var c := rubric.criteria[k];
      ScaleWeight(ScoreFor(low, c.id), ScoreFor(low, c.id), ScoreFor(high, c.id), c.weight);
      Round4Monotone(Product(ScoreFor(low, c.id), c.weight), Product(ScoreFor(high, c.id), c.weight));
    }
    TotalMonotone(Weighted(before), Weighted(after));
    RoundIntMonotone(Total(Weighted(before)), Total(Weighted(after)));
  }

  /** A dimension's score lies between the least and the greatest score of its
      criteria. */
  lemma DimensionBetween(part: seq<Scored>, lo: int, hi: int)
    requires part != [] && PositiveWeights(part)
    requires forall k :: 0 <= k < |part| ==> lo <= part[k].score <= hi
    ensures lo <= DimensionScore(part) <= hi
  {
    PositiveTotal(part);
    ProductsBetween(part, lo, hi);
    Average(Total(Products(part)), Total(Weights(part)), lo as real, hi as real);
    var q := Total(Products(part)) / Total(Weights(part));
    RoundIntMonotone(lo as real, q);
    RoundIntMonotone(q, hi as real);
    RoundIntClose(lo as real, lo);
    RoundIntClose(hi as real, hi);
  }

  /** A dimension's score is the weighted average of its criteria, rounded. */
  lemma DimensionError(part: seq<Scored>)
    requires part != [] && PositiveWeights(part)
    ensures Total(Weights(part)) > 0.0
    ensures -0.5 <= DimensionScore(part) as real - Total(Products(part)) / Total(Weights(part)) <= 0.5
  {
    PositiveTotal(part);
    RoundIntNear(Total(Products(part)) / Total(Weights(part)));
    hide Total, RoundInt;
  }

  // ------------------------------------------------------ proposal order

  lemma {:induction false} ScoreForMember(items: seq<Proposed>, k: nat)
    requires k < |items| && NoRepeats(ProposedIds(items))
    ensures ScoreFor(items, items[k].id) == items[k].score
  {
    var last := |items| - 1;
    assert ProposedIds(items)[k] == items[k].id && ProposedIds(items)[last] == items[last].id;
    if k < last {
      assert items[last].id != items[k].id;
      assert ProposedIds(items[..last]) == ProposedIds(items)[..last];
      ScoreForMember(items[..last], k);
    }
  }

  /** The order of the proposal does not matter: the same criteria are covered and
      every criterion gets the same score, so the compiled evaluation is the same. */
  lemma ProposalOrderIrrelevant(rubric: Rubric, items: seq<Proposed>, permuted: seq<Proposed>)
    requires multiset(items) == multiset(permuted)
    ensures Elements(ProposedIds(items)) == Elements(ProposedIds(permuted))
    ensures NoRepeats(ProposedIds(items)) <==> NoRepeats(ProposedIds(permuted))
    ensures NoRepeats(ProposedIds(items)) && Elements(ProposedIds(items)) == Elements(CriterionIds(rubric.criteria))
      ==> ScoreAll(rubric.criteria, items) == ScoreAll(rubric.criteria, permuted)
  {
    assert |multiset(items)| == |items| && |multiset(permuted)| == |permuted|;
    IdsWithin(items, permuted);
    IdsWithin(permuted, items);
    CountingFindsRepeats(ProposedIds(items));
    CountingFindsRepeats(ProposedIds(permuted));
    if NoRepeats(ProposedIds(items)) && Elements(ProposedIds(items)) == Elements(CriterionIds(rubric.criteria)) {
      forall k | 0 <= k < |rubric.criteria|
        ensures ScoreFor(items, rubric.criteria[k].id) == ScoreFor(permuted, rubric.criteria[k].id)
      {
        var id := rubric.criteria[k].id;
        assert CriterionIds(rubric.criteria)[k] == id;
        assert id in Elements(ProposedIds(items));
        var i :| 0 <= i < |items| && ProposedIds(items)[i] == id;
        SameElements(items, permuted, items[i]);
        var j :| 0 <= j < |permuted| && permuted[j] == items[i];
        ScoreForMember(items, i);
        ScoreForMember(permuted, j);
      }
      forall k | 0 <= k < |rubric.criteria|
        ensures ScoreAll(rubric.criteria, items)[k] == ScoreAll(rubric.criteria, permuted)[k]
      {
        SameScore(rubric.criteria[k], items, permuted);
      }
    }
  }

  lemma SameScore(criterion: Criterion, items: seq<Proposed>, permuted: seq<Proposed>)
    requires ScoreFor(items, criterion.id) == ScoreFor(permuted, criterion.id)
    ensures Score(criterion, items) == Score(criterion, permuted)
  {
    hide Round4, Product;
    var score := ScoreFor(items, criterion.id);
    assert Score(criterion, permuted).weighted == Round4(Product(score, criterion.weight));
  }

  lemma IdsWithin(items: seq<Proposed>, permuted: seq<Proposed>)
    requires multiset(items) == multiset(permuted)
    ensures Elements(ProposedIds(items)) <= Elements(ProposedIds(permuted))
  {
    forall id | id in Elements(ProposedIds(items))
      ensures id in Elements(ProposedIds(permuted))
    {
      var i :| 0 <= i < |items| && ProposedIds(items)[i] == id;
      SameElements(items, permuted, items[i]);
      var j :| 0 <= j < |permuted| && permuted[j] == items[i];
      assert ProposedIds(permuted)[j] == id;
    }
  }
}
