/** The nutrition consensus: each estimator's answer is caught at its
    boundary (any failure becomes the empty result `{}`), and two results
    are merged by averaging the four numeric fields over both estimators,
    with 0 for a missing value, and by uniting the vitamin and mineral
    lists. Numbers are exact reals. */
module Nutrition {
  import opened Wrappers

  datatype Macronutrients = Macronutrients(protein: Option<real>, carbohydrates: Option<real>, fat: Option<real>)

  datatype Micronutrients = Micronutrients(vitamins: Option<seq<string>>, minerals: Option<seq<string>>)

  /** One estimator's result; every field may be missing. */
  datatype Estimate = Estimate(
    calories: Option<real>,
    macronutrients: Option<Macronutrients>,
    micronutrients: Option<Micronutrients>)

  /** `{}`, the result of a failed estimator. */
  const Empty: Estimate := Estimate(None, None, None)

  /** The merged result: `calories`, the three `macronutrients` and the two
      `micronutrients` lists. */
  datatype Aggregate = Aggregate(
    calories: real,
    protein: real,
    carbohydrates: real,
    fat: real,
    vitamins: seq<string>,
    minerals: seq<string>)

  /** The four averaged fields. */
  datatype Scalar = Calories | Protein | Carbohydrates | Fat

  /** `e.get("calories", 0)`, or `e.get("macronutrients", {}).get(k, 0)`. */
  function ScalarOf(e: Estimate, k: Scalar): real
  {
    match k
    case Calories => e.calories.GetOr(0.0)
    case Protein => if e.macronutrients.Some? then e.macronutrients.value.protein.GetOr(0.0) else 0.0
    case Carbohydrates => if e.macronutrients.Some? then e.macronutrients.value.carbohydrates.GetOr(0.0) else 0.0
    case Fat => if e.macronutrients.Some? then e.macronutrients.value.fat.GetOr(0.0) else 0.0
  }

  /** `e.get("micronutrients", {}).get("vitamins", [])` */
  function VitaminsOf(e: Estimate): seq<string>
  {
    if e.micronutrients.Some? then e.micronutrients.value.vitamins.GetOr([]) else []
  }

  /** `e.get("micronutrients", {}).get("minerals", [])` */
  function MineralsOf(e: Estimate): seq<string>
  {
    if e.micronutrients.Some? then e.micronutrients.value.minerals.GetOr([]) else []
  }

  function AggregateScalar(a: Aggregate, k: Scalar): real
  {
    match k
    case Calories => a.calories
    case Protein => a.protein
    case Carbohydrates => a.carbohydrates
    case Fat => a.fat
  }

  function Elements(xs: seq<string>): set<string>
  {
    set x | x in xs
  }

  predicate NoDuplicates(xs: seq<string>)
  {
    forall i, j :: 0 <= i < j < |xs| ==> xs[i] != xs[j]
  }

  /** `list(set(xs))`. The order Python gives is unspecified; this one keeps
      first occurrences, and nothing here depends on it. */
  function Distinct(xs: seq<string>): (r: seq<string>)
    decreases |xs|
    ensures Elements(r) == Elements(xs)
    ensures NoDuplicates(r)
  {
    if xs == [] then []
    else
      var init := xs[..|xs| - 1];
      var last := xs[|xs| - 1];
      var d := Distinct(init);
      assert Elements(xs) == Elements(init) + {last} by {
        assert xs == init + [last];
      }
      assert Elements(d + [last]) == Elements(d) + {last};
      if last in d then d else d + [last]
  }

  /** The aggregation of two results, as the analysis of one dish computes it. */
  function MergeTwo(a: Estimate, b: Estimate): (r: Aggregate)
    ensures forall k :: AggregateScalar(r, k) == (ScalarOf(a, k) + ScalarOf(b, k)) / 2.0
    ensures Elements(r.vitamins) == Elements(VitaminsOf(a)) + Elements(VitaminsOf(b))
    ensures Elements(r.minerals) == Elements(MineralsOf(a)) + Elements(MineralsOf(b))
    ensures NoDuplicates(r.vitamins) && NoDuplicates(r.minerals)
  {
    assert Elements(VitaminsOf(a) + VitaminsOf(b)) == Elements(VitaminsOf(a)) + Elements(VitaminsOf(b));
    assert Elements(MineralsOf(a) + MineralsOf(b)) == Elements(MineralsOf(a)) + Elements(MineralsOf(b));
    Aggregate(
      (ScalarOf(a, Calories) + ScalarOf(b, Calories)) / 2.0,
      (ScalarOf(a, Protein) + ScalarOf(b, Protein)) / 2.0,
      (ScalarOf(a, Carbohydrates) + ScalarOf(b, Carbohydrates)) / 2.0,
      (ScalarOf(a, Fat) + ScalarOf(b, Fat)) / 2.0,
      Distinct(VitaminsOf(a) + VitaminsOf(b)),
      Distinct(MineralsOf(a) + MineralsOf(b)))
  }

  // ---------------------------------------------------------------------
  // The same rule over any number of estimators
  // ---------------------------------------------------------------------

  function Sum(rs: seq<Estimate>, k: Scalar): real
    decreases |rs|
  {
    if rs == [] then 0.0 else Sum(rs[..|rs| - 1], k) + ScalarOf(rs[|rs| - 1], k)
  }

  function AllVitamins(rs: seq<Estimate>): seq<string>
    decreases |rs|
  {
    if rs == [] then [] else AllVitamins(rs[..|rs| - 1]) + VitaminsOf(rs[|rs| - 1])
  }

  function AllMinerals(rs: seq<Estimate>): seq<string>
    decreases |rs|
  {
    if rs == [] then [] else AllMinerals(rs[..|rs| - 1]) + MineralsOf(rs[|rs| - 1])
  }

  /** The mean over all `|rs|` estimators, a missing value counting as 0, and
      the union of all lists. */
  function MergeAll(rs: seq<Estimate>): Aggregate
    requires |rs| > 0
  {
    var n := |rs| as real;
    Aggregate(
      Sum(rs, Calories) / n, Sum(rs, Protein) / n, Sum(rs, Carbohydrates) / n, Sum(rs, Fat) / n,
      Distinct(AllVitamins(rs)), Distinct(AllMinerals(rs)))
  }

  /** The two-estimator aggregation is the mean and union over exactly its
      two results: the divisor is 2 whatever the results hold. */
  lemma MergeTwoIsMergeAll(a: Estimate, b: Estimate)
    ensures MergeTwo(a, b) == MergeAll([a, b])
  {
    var rs := [a, b];
    assert rs[..1] == [a] && [a][..0] == [];
    assert AllVitamins([a]) == [] + VitaminsOf(a) == VitaminsOf(a);
    assert AllMinerals([a]) == [] + MineralsOf(a) == MineralsOf(a);
    assert AllVitamins(rs) == VitaminsOf(a) + VitaminsOf(b);
    assert AllMinerals(rs) == MineralsOf(a) + MineralsOf(b);
    forall k ensures Sum(rs, k) == ScalarOf(a, k) + ScalarOf(b, k) {
      assert Sum([a], k) == 0.0 + ScalarOf(a, k);
    }
    assert |rs| as real == 2.0;
  }

  /** The results of `n` failed estimators. */
  function Failures(n: nat): (r: seq<Estimate>)
    ensures |r| == n
  {
    if n == 0 then [] else Failures(n - 1) + [Empty]
  }

  /** Failed estimators add 0 to every sum. */
  lemma {:induction false} SumWithFailures(rs: seq<Estimate>, n: nat, k: Scalar)
    ensures Sum(rs + Failures(n), k) == Sum(rs, k)
    decreases n
  {
    if n > 0 {
      var all := rs + Failures(n);
      assert all[..|all| - 1] == rs + Failures(n - 1);
      assert all[|all| - 1] == Empty;
      SumWithFailures(rs, n - 1, k);
    } else {
      assert rs + Failures(n) == rs;
    }
  }

  /** A failed estimator is not left out of the mean: each of `n` empty
      results stays in the divisor and pulls the value towards 0. */
  lemma FailuresCountInDivisor(rs: seq<Estimate>, n: nat, k: Scalar)
    requires |rs| > 0
    ensures AggregateScalar(MergeAll(rs + Failures(n)), k) == Sum(rs, k) / ((|rs| + n) as real)
  {
    var all := rs + Failures(n);
    SumWithFailures(rs, n, k);
    var total, count := Sum(all, k), |all| as real;
    assert total == Sum(rs, k) && count == (|rs| + n) as real;
    assert AggregateScalar(MergeAll(all), k) == total / count;
  }

  /** The merge is symmetric: swapping the two results gives the same
      numbers and the same sets of vitamins and minerals. */
  lemma MergeSymmetric(a: Estimate, b: Estimate)
    ensures forall k :: AggregateScalar(MergeTwo(a, b), k) == AggregateScalar(MergeTwo(b, a), k)
    ensures Elements(MergeTwo(a, b).vitamins) == Elements(MergeTwo(b, a).vitamins)
    ensures Elements(MergeTwo(a, b).minerals) == Elements(MergeTwo(b, a).minerals)
  {
  }

  /** Two empty results merge to zeros and empty lists. */
  lemma MergeOfEmpties()
    ensures MergeTwo(Empty, Empty) == Aggregate(0.0, 0.0, 0.0, 0.0, [], [])
  {
  }

  /** With one estimator failed, the other's values are halved and its
      lists are kept as they are (as sets). */
  lemma OneFailureHalves(a: Estimate)
    ensures forall k :: AggregateScalar(MergeTwo(a, Empty), k) == ScalarOf(a, k) / 2.0
    ensures forall k :: AggregateScalar(MergeTwo(Empty, a), k) == ScalarOf(a, k) / 2.0
    ensures Elements(MergeTwo(a, Empty).vitamins) == Elements(VitaminsOf(a))
    ensures Elements(MergeTwo(a, Empty).minerals) == Elements(MineralsOf(a))
  {
  }

  /** `{calories: 100}` and `{calories: 200}` average to 150, and vitamin
      lists `[c, d]` and `[d, e]` unite to `{c, d, e}`. */
  lemma MergeExample(c: string, d: string, e: string)
    ensures var a := Estimate(Some(100.0), None, Some(Micronutrients(Some([c, d]), None)));
      var b := Estimate(Some(200.0), None, Some(Micronutrients(Some([d, e]), None)));
      var r := MergeTwo(a, b);
      r.calories == 150.0 && r.protein == 0.0
      && Elements(r.vitamins) == {c, d, e} && NoDuplicates(r.vitamins) && Elements(r.minerals) == {}
  {
    var a := Estimate(Some(100.0), None, Some(Micronutrients(Some([c, d]), None)));
    var b := Estimate(Some(200.0), None, Some(Micronutrients(Some([d, e]), None)));
    assert VitaminsOf(a) == [c, d] && VitaminsOf(b) == [d, e];
    assert MineralsOf(a) == [] && MineralsOf(b) == [];
    assert Elements([c, d]) == {c, d};
    assert Elements([d, e]) == {d, e};
  }

  // ---------------------------------------------------------------------
  // Estimators and the analysis of one dish
  // ---------------------------------------------------------------------

  /** A compressed JPEG image. */
  type Image = seq<bv8>

  /** What a call to a provider comes to: a parsed result, or any exception
      (transport, response shape, JSON decoding). */
  datatype Reply = Answered(estimate: Estimate) | Failed

  /** The `try`/`except Exception` around each provider call: a failure of
      any kind becomes `{}`, an answer is passed on as it is. */
  function Guard(reply: Reply): (e: Estimate)
    ensures reply.Failed? ==> e == Empty
    ensures reply.Answered? ==> e == reply.estimate
  {
    match reply
    case Answered(estimate) => estimate
    case Failed => Empty
  }

  /** Analyse one dish: compress the image (`None` when that raises, which is
      not caught), ask both estimators, merge. */
  function AnalyzeDish(description: string, image: Option<Image>,
                       claude: (Image, string) -> Reply, gpt: (Image, string) -> Reply): (r: Option<Aggregate>)
    ensures r.Some? <==> image.Some?
    ensures image.Some? ==>
      r.value == MergeTwo(Guard(claude(image.value, description)), Guard(gpt(image.value, description)))
  {
    match image
    case None => None
    case Some(compressed) =>
      var claudeResult := Guard(claude(compressed, description));
      var gptResult := Guard(gpt(compressed, description));
      Some(MergeTwo(claudeResult, gptResult))
  }

  /** An estimator that fails does not stop the analysis: it still yields a
      result, with the other estimator's values halved. */
  lemma FailedEstimatorIsHalved(description: string, image: Image,
                                claude: (Image, string) -> Reply, gpt: (Image, string) -> Reply)
    requires claude(image, description).Failed?
    ensures AnalyzeDish(description, Some(image), claude, gpt).Some?
    ensures forall k :: AggregateScalar(AnalyzeDish(description, Some(image), claude, gpt).value, k)
                        == ScalarOf(Guard(gpt(image, description)), k) / 2.0
  {
    OneFailureHalves(Guard(gpt(image, description)));
  }
}
