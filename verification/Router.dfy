/** Full-softmax top-k routing of each position of a layer input, over exact reals. */
module Router {
  import opened Wrappers
  import opened Ranking
  import opened RealArithmetic
  import opened ExpertReduction

  /** The exponential is any positive function; monotonicity is asked for only where it matters. */
  ghost predicate Positive(exp: real -> real) {
    forall x :: exp(x) > 0.0
  }

  ghost predicate Increasing(exp: real -> real) {
    forall x, y | x < y :: exp(x) < exp(y)
  }

  datatype MoeLayerConfig = MoeLayerConfig(
    hiddenSize: nat,
    intermediateSize: nat,
    numExperts: nat,
    topK: nat,
    normalizeTopK: bool)
  {
    predicate Valid() {
      && hiddenSize > 0 && intermediateSize > 0
      && 0 < topK <= numExperts < 0x1_0000_0000
      && 3 * hiddenSize * intermediateSize < 0x1_0000_0000_0000_0000
    }
  }

  function Sum(values: seq<real>): real {
    if values == [] then 0.0 else Sum(values[..|values| - 1]) + values[|values| - 1]
  }

  function Maximum(values: seq<real>): (maximum: real)
    requires values != []
    ensures maximum in values
    ensures forall i | 0 <= i < |values| :: values[i] <= maximum
  {
    if |values| == 1 then values[0]
    else
      var rest := Maximum(values[..|values| - 1]);
      if rest < values[|values| - 1] then values[|values| - 1] else rest
  }

  lemma {:induction false} PositiveSum(values: seq<real>)
    requires forall i | 0 <= i < |values| :: values[i] > 0.0
    ensures values != [] ==> Sum(values) > 0.0
  {
    if values == [] {
    } else {
      PositiveSum(values[..|values| - 1]);
    }
  }

  lemma {:induction false} ScaledSum(values: seq<real>, scaled: seq<real>, divisor: real)
    requires divisor > 0.0 && |scaled| == |values|
    requires forall i | 0 <= i < |values| :: scaled[i] == values[i] / divisor
    ensures Sum(scaled) == Sum(values) / divisor
  {
    if values == [] {
    } else {
      ScaledSum(values[..|values| - 1], scaled[..|values| - 1], divisor);
    }
  }

  function Exponentials(exp: real -> real, logits: seq<real>): (weights: seq<real>)
    requires logits != []
    ensures |weights| == |logits|
  {
    var maximum := Maximum(logits);
    seq(|logits|, i requires 0 <= i < |logits| => exp(logits[i] - maximum))
  }

  /** Softmax with the maximum subtracted first; None stands for a non-positive normalization. */
  function StableSoftmax(exp: real -> real, logits: seq<real>): (probabilities: Option<seq<real>>)
    requires logits != []
    ensures probabilities.Some? ==> |probabilities.value| == |logits|
  {
    var weights := Exponentials(exp, logits);
    var sum := Sum(weights);
    if sum <= 0.0 then None
    else Some(seq(|weights|, i requires 0 <= i < |weights| => weights[i] / sum))
  }

  lemma {:induction false} SoftmaxIsDistribution(exp: real -> real, logits: seq<real>)
    requires logits != [] && Positive(exp)
    ensures StableSoftmax(exp, logits).Some?
    ensures Sum(StableSoftmax(exp, logits).value) == 1.0
    ensures forall i | 0 <= i < |logits| :: StableSoftmax(exp, logits).value[i] > 0.0
  {
    var weights := Exponentials(exp, logits);
    PositiveSum(weights);
    var sum := Sum(weights);
    ScaledSum(weights, StableSoftmax(exp, logits).value, sum);
    SelfRatio(sum);
  }

  /** exp of each number. */
  function Exps(exp: real -> real, xs: seq<real>): (exps: seq<real>)
    ensures |exps| == |xs|
  {
    seq(|xs|, i requires 0 <= i < |xs| => exp(xs[i]))
  }

  lemma {:induction false} ShiftedSum(exp: real -> real, xs: seq<real>, shift: real, weights: seq<real>)
    requires Exponential(exp) && |weights| == |xs|
    requires forall i | 0 <= i < |xs| :: weights[i] == exp(xs[i] - shift)
    ensures Times(Sum(weights), exp(shift)) == Sum(Exps(exp, xs))
    decreases |xs|
  {
    if xs == [] {
    } else {
      hide Times, Exponential;
      var last := |xs| - 1;
      assert Exps(exp, xs)[..last] == Exps(exp, xs[..last]);
      ShiftedSum(exp, xs[..last], shift, weights[..last]);
      ShiftedTerm(exp, xs[last], shift);
      ScaledTogether(weights, exp(shift), Exps(exp, xs));
    }
  }

  lemma {:induction false} ShiftedTerm(exp: real -> real, x: real, shift: real)
    requires Exponential(exp)
    ensures Times(exp(x - shift), exp(shift)) == exp(x)
  {
    ExponentialOfDifference(exp, x, shift);
  }

  lemma {:induction false} ScaledTogether(values: seq<real>, factor: real, scaled: seq<real>)
    requires values != [] && |scaled| == |values|
    requires Times(Sum(values[..|values| - 1]), factor) == Sum(scaled[..|values| - 1])
    requires Times(values[|values| - 1], factor) == scaled[|values| - 1]
    ensures Times(Sum(values), factor) == Sum(scaled)
  {
    Distributed(Sum(values[..|values| - 1]), values[|values| - 1], factor);
  }

  lemma {:induction false} Distributed(a: real, b: real, factor: real)
    ensures (a + b) * factor == a * factor + b * factor
  {
  }

  /** Subtracting a shift from every number before the exponential changes no share. */
  lemma {:induction false} ShiftCancels(exp: real -> real, xs: seq<real>, shift: real, weights: seq<real>, i: nat)
    requires Exponential(exp) && |weights| == |xs| && i < |xs|
    requires forall k | 0 <= k < |xs| :: weights[k] == exp(xs[k] - shift)
    ensures Sum(weights) > 0.0 && Sum(Exps(exp, xs)) > 0.0
    ensures weights[i] / Sum(weights) == exp(xs[i]) / Sum(Exps(exp, xs))
  {
    PositiveSum(weights);
    PositiveSum(Exps(exp, xs));
    ShiftedSum(exp, xs, shift, weights);
    ExponentialOfDifference(exp, xs[i], shift);
    assert exp(shift) > 0.0;
    hide Exponential, Exps, Sum;
    CommonFactor(weights[i], Sum(weights), exp(shift), exp(xs[i]), Sum(Exps(exp, xs)));
  }

  lemma {:induction false} CommonFactor(part: real, whole: real, factor: real, scaledPart: real, scaledWhole: real)
    requires whole > 0.0 && factor > 0.0 && scaledWhole > 0.0
    requires scaledPart == part * factor && scaledWhole == whole * factor
    ensures part / whole == scaledPart / scaledWhole
  {
    var share := part / whole;
    assert share * whole == part;
    Regrouped(share, whole, factor);
    QuotientOf(share, scaledPart, scaledWhole);
  }

  /** The probabilities are exp(logit) over the sum of all of them: the maximum that is subtracted cancels. */
  lemma {:induction false} ProbabilitiesAreSoftmax(exp: real -> real, logits: seq<real>, i: nat)
    requires logits != [] && Exponential(exp) && i < |logits|
    ensures StableSoftmax(exp, logits).Some? && Sum(Exps(exp, logits)) > 0.0
    ensures StableSoftmax(exp, logits).value[i] == exp(logits[i]) / Sum(Exps(exp, logits))
  {
    ShiftCancels(exp, logits, Maximum(logits), Exponentials(exp, logits), i);
    hide Exponential;
  }

  lemma {:induction false} SelfRatio(x: real)
    requires x != 0.0
    ensures x / x == 1.0
  {
  }

  /** Ranking by probability is ranking by logit, ties included. */
  lemma {:induction false} ProbabilitiesRankLikeLogits(exp: real -> real, logits: seq<real>)
    requires logits != [] && Positive(exp) && Increasing(exp)
    ensures StableSoftmax(exp, logits).Some?
    ensures Rank(StableSoftmax(exp, logits).value) == Rank(logits)
  {
    SoftmaxIsDistribution(exp, logits);
    var weights := Exponentials(exp, logits);
    var probabilities, sum := StableSoftmax(exp, logits).value, Sum(weights);
    PositiveSum(weights);
    var order, maximum := Rank(logits), Maximum(logits);
    forall a, b | 0 <= a < b < |order|
      ensures Before(probabilities, order[a], order[b])
    {
      var x, y := logits[order[a]], logits[order[b]];
      if x > y {
        assert exp(x - maximum) > exp(y - maximum);
        DividedOrder(weights[order[a]], weights[order[b]], sum);
      }
    }
    RankIsUnique(probabilities, order);
  }

  lemma {:induction false} DividedOrder(x: real, y: real, divisor: real)
    requires divisor > 0.0 && x > y
    ensures x / divisor > y / divisor
  {
  }

  // ----- one position -----

  function Weights(probabilities: seq<real>, indices: seq<nat>): seq<real>
    requires forall i | 0 <= i < |indices| :: indices[i] < |probabilities|
  {
    seq(|indices|, i requires 0 <= i < |indices| => probabilities[indices[i]])
  }

  function Normalization(config: MoeLayerConfig, chosen: seq<real>): real {
    if config.normalizeTopK then Sum(chosen) else 1.0
  }

  /** The selection of one position, or None when a normalization fails. */
  function SelectRow(exp: real -> real, config: MoeLayerConfig, logits: seq<real>): Option<Selection>
    requires config.Valid() && |logits| == config.numExperts
  {
    match StableSoftmax(exp, logits)
    case None => None
    case Some(probabilities) =>
      var indices := Rank(probabilities)[..config.topK];
      var normalization := Normalization(config, Weights(probabilities, indices));
      if normalization <= 0.0 then None
      else Some(seq(|indices|, i requires 0 <= i < |indices| =>
                    RoutedExpert(indices[i], probabilities[indices[i]] / normalization)))
  }

  function Chosen(selection: Selection): seq<nat> {
    seq(|selection|, i requires 0 <= i < |selection| => selection[i].expert)
  }

  function RouteWeights(selection: Selection): seq<real> {
    seq(|selection|, i requires 0 <= i < |selection| => selection[i].weight)
  }

  /** A position always gets a selection: its probabilities and the normalization are positive. */
  lemma {:induction false} RowIsSelected(exp: real -> real, config: MoeLayerConfig, logits: seq<real>)
    requires config.Valid() && |logits| == config.numExperts && Positive(exp)
    ensures SelectRow(exp, config, logits).Some?
    ensures
      var selection, probabilities := SelectRow(exp, config, logits).value, StableSoftmax(exp, logits).value;
      && Chosen(selection) == Rank(probabilities)[..config.topK]
      && Normalization(config, Weights(probabilities, Chosen(selection))) > 0.0
      && forall i | 0 <= i < |selection| ::
           selection[i].weight == probabilities[selection[i].expert] / Normalization(config,
             Weights(probabilities, Chosen(selection)))
  {
    SoftmaxIsDistribution(exp, logits);
    var probabilities := StableSoftmax(exp, logits).value;
    var indices := Rank(probabilities)[..config.topK];
    PositiveSum(Weights(probabilities, indices));
    assert Chosen(SelectRow(exp, config, logits).value) == indices;
  }

  /** The selected experts are the top-k by probability, and no other list is. */
  lemma {:induction false} RowSelectsTop(exp: real -> real, config: MoeLayerConfig, logits: seq<real>)
    requires config.Valid() && |logits| == config.numExperts && Positive(exp)
    ensures SelectRow(exp, config, logits).Some?
    ensures
      var selection, probabilities := SelectRow(exp, config, logits).value, StableSoftmax(exp, logits).value;
      && ValidSelection(selection, config.numExperts)
      && IsTop(probabilities, Chosen(selection), config.topK)
      && forall other | IsTop(probabilities, other, config.topK) :: other == Chosen(selection)
  {
    RowIsSelected(exp, config, logits);
    var selection, probabilities := SelectRow(exp, config, logits).value, StableSoftmax(exp, logits).value;
    RankPrefixIsTop(probabilities, config.topK);
    forall other | IsTop(probabilities, other, config.topK)
      ensures other == Chosen(selection)
    {
      TopIsUnique(probabilities, other, config.topK);
    }
    OrderedIsValid(probabilities, selection, config.numExperts);
  }

  lemma {:induction false} OrderedIsValid(probabilities: seq<real>, selection: Selection, numExperts: nat)
    requires |probabilities| == numExperts && Ordered(probabilities, Chosen(selection))
    ensures ValidSelection(selection, numExperts)
  {
    forall i | 0 <= i < |selection|
      ensures selection[i].expert < numExperts
    {
      assert Chosen(selection)[i] < |probabilities|;
    }
    forall i, j | 0 <= i < j < |selection|
      ensures selection[i].expert != selection[j].expert
    {
      assert Before(probabilities, Chosen(selection)[i], Chosen(selection)[j]);
    }
  }

  /** Route weights are the selected probabilities themselves, or their shares of the selected total. */
  lemma {:induction false} RowWeights(exp: real -> real, config: MoeLayerConfig, logits: seq<real>)
    requires config.Valid() && |logits| == config.numExperts && Positive(exp)
    ensures SelectRow(exp, config, logits).Some?
    ensures
      var selection, probabilities := SelectRow(exp, config, logits).value, StableSoftmax(exp, logits).value;
      && (forall i | 0 <= i < |selection| :: selection[i].expert < |probabilities|)
      && (config.normalizeTopK ==> Sum(RouteWeights(selection)) == 1.0)
      && (!config.normalizeTopK ==>
          forall i | 0 <= i < |selection| :: selection[i].weight == probabilities[selection[i].expert])
  {
    RowIsSelected(exp, config, logits);
    RowSelectsTop(exp, config, logits);
    var selection, probabilities := SelectRow(exp, config, logits).value, StableSoftmax(exp, logits).value;
    var chosen := Weights(probabilities, Chosen(selection));
    if config.normalizeTopK {
      ScaledSum(chosen, RouteWeights(selection), Sum(chosen));
      SelfRatio(Sum(chosen));
    }
  }

  /** A normalized weight is the probability's share of the selected total. */
  lemma {:induction false} NormalizedWeights(exp: real -> real, config: MoeLayerConfig, logits: seq<real>, i: nat)
    requires config.Valid() && |logits| == config.numExperts && Positive(exp)
    requires config.normalizeTopK && i < config.topK
    ensures SelectRow(exp, config, logits).Some?
    ensures
      var selection, probabilities := SelectRow(exp, config, logits).value, StableSoftmax(exp, logits).value;
      && |selection| == config.topK && selection[i].expert < |probabilities|
      && (forall j | 0 <= j < |selection| :: selection[j].expert < |probabilities|)
      && Times(selection[i].weight, Sum(Weights(probabilities, Chosen(selection))))
         == probabilities[selection[i].expert]
  {
    RowIsSelected(exp, config, logits);
    RowSelectsTop(exp, config, logits);
    var selection, probabilities := SelectRow(exp, config, logits).value, StableSoftmax(exp, logits).value;
    assert |Chosen(selection)| == config.topK;
    hide SelectRow, StableSoftmax, Rank, Weights, Sum;
    ProductOfQuotient(probabilities[selection[i].expert], Sum(Weights(probabilities, Chosen(selection))));
  }

  // ----- a layer input -----

  predicate WellShaped(config: MoeLayerConfig, logits: seq<seq<real>>) {
    forall position | 0 <= position < |logits| :: |logits[position]| == config.numExperts
  }

  /** Routes every position; the normalization errors cannot occur over exact reals. */
  method SelectRoutes(exp: real -> real, config: MoeLayerConfig, logits: seq<seq<real>>)
    returns (result: Result<RoutedExpertBatch>)
    requires Positive(exp)
    ensures !config.Valid() ==> result == Err(InvalidConfig)
    ensures config.Valid() && !WellShaped(config, logits) ==> result == Err(InvalidTensor)
    ensures config.Valid() && WellShaped(config, logits) ==>
      && result.Ok?
      && result.value.numExperts == config.numExperts && result.value.Valid()
      && |result.value.selections| == |logits|
      && forall position | 0 <= position < |logits| ::
         SelectRow(exp, config, logits[position]) == Some(result.value.selections[position])
  {
    if !config.Valid() {
      return Err(InvalidConfig);
    }
    if !WellShaped(config, logits) {
      return Err(InvalidTensor);
    }
    var selections: seq<Selection> := [];
    for position := 0 to |logits|
      invariant |selections| == position
      invariant forall p | 0 <= p < position ::
                SelectRow(exp, config, logits[p]) == Some(selections[p]) &&
                  ValidSelection(selections[p], config.numExperts)
    {
      RowIsSelected(exp, config, logits[position]);
      RowSelectsTop(exp, config, logits[position]);
      var probabilities := StableSoftmax(exp, logits[position]);
      if probabilities.None? {
        return Err(Inference);
      }
      var indices := Rank(probabilities.value);
      indices := indices[..config.topK];
      var normalization := 1.0;
      if config.normalizeTopK {
        normalization := Sum(Weights(probabilities.value, indices));
        if normalization <= 0.0 {
          return Err(Inference);
        }
      }
      var selection := seq(|indices|, i requires 0 <= i < |indices| =>
                           RoutedExpert(indices[i], probabilities.value[indices[i]] / normalization));
      selections := selections + [selection];
    }
    result := Ok(RoutedExpertBatch(selections, config.numExperts));
  }
}
