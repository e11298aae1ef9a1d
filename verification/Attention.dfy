/**
 Cached causal attention. Keys and values of earlier positions are kept per layer; a chunk of new
 positions is attended in one go under an additive mask. Each position must see exactly its own
 window, whatever the chunking, and single-token steps may skip the mask when there is no window.
 */
module Attention {
  import opened Wrappers
  import opened RealArithmetic

  /** An attention score; NegInf is what masking leaves. */
  datatype Score = NegInf | Finite(x: real)

  /** The weight arithmetic is over reals, the vector arithmetic is arbitrary apart from Laws. */
  datatype AttentionOps<!V> = AttentionOps(
    query: (V, nat) -> V,
    key: (V, nat) -> V,
    value: V -> V,
    score: (V, V) -> real,
    exp: real -> real,
    scale: (real, V) -> V,
    add: (V, V) -> V,
    zero: V,
    finish: (V, V) -> V,
    window: Option<nat>)

  /** What the arithmetic must satisfy: a zero weight contributes nothing, and a window is never empty. */
  ghost predicate Laws<V(!new)>(ops: AttentionOps<V>) {
    && (forall v :: ops.scale(0.0, v) == ops.zero)
    && (forall v :: ops.add(v, ops.zero) == v)
    && (ops.window.Some? ==> ops.window.value > 0)
  }

  // ----- one row of scores -----

  function Plus(a: Score, b: Score): Score {
    if a.NegInf? || b.NegInf? then NegInf else Finite(a.x + b.x)
  }

  function Larger(a: Score, b: Score): Score {
    if a.NegInf? then b else if b.NegInf? then a else if a.x < b.x then b else a
  }

  function RowMaximum(scores: seq<Score>): Score {
    if scores == [] then NegInf else Larger(RowMaximum(scores[..|scores| - 1]), scores[|scores| - 1])
  }

  /** exp(score - maximum), with exp of minus infinity zero. */
  function Weight(exp: real -> real, score: Score, maximum: Score): real {
    if score.NegInf? || maximum.NegInf? then 0.0 else exp(score.x - maximum.x)
  }

  function Total(exp: real -> real, scores: seq<Score>, maximum: Score): real {
    if scores == [] then 0.0
    else Total(exp, scores[..|scores| - 1], maximum) + Weight(exp, scores[|scores| - 1], maximum)
  }

  function Share(weight: real, total: real): real {
    if total == 0.0 then 0.0 else weight / total
  }

  /** The value rows weighted by their shares, added from zero in key order. */
  function Mix<V>(ops: AttentionOps<V>, scores: seq<Score>, values: seq<V>, maximum: Score, total: real): V
    requires |scores| == |values|
  {
    if scores == [] then ops.zero
    else
      var last := |scores| - 1;
      ops.add(Mix(ops, scores[..last], values[..last], maximum, total),
              ops.scale(Share(Weight(ops.exp, scores[last], maximum), total), values[last]))
  }

  /** Softmax over a row of scores, applied to the values. */
  function Attend<V>(ops: AttentionOps<V>, scores: seq<Score>, values: seq<V>): V
    requires |scores| == |values|
  {
    var maximum := RowMaximum(scores);
    Mix(ops, scores, values, maximum, Total(ops.exp, scores, maximum))
  }

  function Scores<V>(ops: AttentionOps<V>, query: V, keys: seq<V>): (scores: seq<Score>)
    ensures |scores| == |keys|
  {
    seq(|keys|, i requires 0 <= i < |keys| => Finite(ops.score(query, keys[i])))
  }

  function Masked(scores: seq<Score>, mask: seq<Score>): (masked: seq<Score>)
    requires |scores| == |mask|
    ensures |masked| == |scores|
  {
    seq(|scores|, i requires 0 <= i < |scores| => Plus(scores[i], mask[i]))
  }

  /** A mask row that admits exactly the keys from `low` up to `high`. */
  predicate Admits(mask: seq<Score>, low: nat, high: nat) {
    && low < high <= |mask|
    && forall key | 0 <= key < |mask| :: mask[key] == if low <= key < high then Finite(0.0) else NegInf
  }

  function Clip(n: nat, low: nat, high: nat): nat
    requires low <= high
  {
    if n <= low then low else if n <= high then n else high
  }

  /** A masked score is the score itself or minus infinity. */
  lemma {:induction false} MaskedAt(scores: seq<Score>, mask: seq<Score>, low: nat, high: nat, i: nat)
    requires |scores| == |mask| && Admits(mask, low, high) && i < |scores| && scores[i].Finite?
    ensures low < high <= |scores|
    ensures Masked(scores, mask)[i] == if low <= i < high then scores[i] else NegInf
  {
  }

  lemma {:induction false} Grown<T>(row: seq<T>, low: nat, n: nat)
    requires low <= n < |row|
    ensures row[low..n + 1] == row[low..n] + [row[n]]
  {
  }

  lemma {:induction false} MaximumSnoc(scores: seq<Score>, score: Score)
    ensures RowMaximum(scores + [score]) == Larger(RowMaximum(scores), score)
  {
    assert (scores + [score])[..|scores|] == scores;
  }

  lemma {:induction false} MaskedMaximum(scores: seq<Score>, mask: seq<Score>, low: nat, high: nat, n: nat)
    requires |scores| == |mask| && Admits(mask, low, high) && n <= |scores|
    requires forall i | 0 <= i < |scores| :: scores[i].Finite?
    ensures RowMaximum(Masked(scores, mask)[..n]) == RowMaximum(scores[low..Clip(n, low, high)])
    decreases n
  {
    var masked := Masked(scores, mask);
    if n == 0 {
    } else {
      hide RowMaximum, Masked;
      var last := n - 1;
      MaskedMaximum(scores, mask, low, high, last);
      MaskedAt(scores, mask, low, high, last);
      Grown(masked, 0, last);
      MaximumSnoc(masked[..last], masked[last]);
      if low <= last < high {
        Grown(scores, low, last);
        MaximumSnoc(scores[low..last], scores[last]);
      }
    }
  }

  lemma {:induction false} TotalSnoc(exp: real -> real, scores: seq<Score>, score: Score, maximum: Score)
    ensures Total(exp, scores + [score], maximum) == Total(exp, scores, maximum) + Weight(exp, score, maximum)
  {
    assert (scores + [score])[..|scores|] == scores;
  }

  lemma {:induction false} MaskedTotal(exp: real -> real, scores: seq<Score>, mask: seq<Score>, low: nat, high: nat,
                                       maximum: Score, n: nat)
    requires |scores| == |mask| && Admits(mask, low, high) && n <= |scores|
    requires forall i | 0 <= i < |scores| :: scores[i].Finite?
    ensures Total(exp, Masked(scores, mask)[..n], maximum) == Total(exp, scores[low..Clip(n, low, high)], maximum)
    decreases n
  {
    var masked := Masked(scores, mask);
    if n == 0 {
    } else {
      assert Weight(exp, NegInf, maximum) == 0.0;
      hide Total, Masked, Weight, Admits;
      var last := n - 1;
      MaskedTotal(exp, scores, mask, low, high, maximum, last);
      MaskedAt(scores, mask, low, high, last);
      Grown(masked, 0, last);
      TotalSnoc(exp, masked[..last], masked[last], maximum);
      if low <= last < high {
        Grown(scores, low, last);
        TotalSnoc(exp, scores[low..last], scores[last], maximum);
      }
    }
  }

  lemma {:induction false} MixSnoc<V>(ops: AttentionOps<V>, scores: seq<Score>, values: seq<V>, score: Score, value: V,
                                      maximum: Score, total: real)
    requires |scores| == |values|
    ensures Mix(ops, scores + [score], values + [value], maximum, total)
         == ops.add(Mix(ops, scores, values, maximum, total),
                    ops.scale(Share(Weight(ops.exp, score, maximum), total), value))
  {
    assert (scores + [score])[..|scores|] == scores && (values + [value])[..|scores|] == values;
  }

  lemma {:induction false} HiddenKeyAddsNothing<V(!new)>(ops: AttentionOps<V>, sum: V, value: V, maximum: Score,
                                                         total: real)
    requires Laws(ops)
    ensures ops.add(sum, ops.scale(Share(Weight(ops.exp, NegInf, maximum), total), value)) == sum
  {
    assert Share(0.0, total) == 0.0;
  }

  lemma {:induction false} MaskedMix<V(!new)>(ops: AttentionOps<V>, scores: seq<Score>, mask: seq<Score>,
                                              values: seq<V>, low: nat, high: nat, maximum: Score, total: real, n: nat)
    requires |scores| == |mask| == |values| && Admits(mask, low, high) && n <= |scores| && Laws(ops)
    requires forall i | 0 <= i < |scores| :: scores[i].Finite?
    ensures Mix(ops, Masked(scores, mask)[..n], values[..n], maximum, total)
         == Mix(ops, scores[low..Clip(n, low, high)], values[low..Clip(n, low, high)], maximum, total)
    decreases n
  {
    var masked := Masked(scores, mask);
    if n == 0 {
    } else {
      hide Mix, Masked, Laws, Weight, Share;
      var last := n - 1;
      MaskedMix(ops, scores, mask, values, low, high, maximum, total, last);
      MaskedAt(scores, mask, low, high, last);
      Grown(masked, 0, last);
      Grown(values, 0, last);
      MixSnoc(ops, masked[..last], values[..last], masked[last], values[last], maximum, total);
      if low <= last < high {
        Grown(scores, low, last);
        Grown(values, low, last);
        MixSnoc(ops, scores[low..last], values[low..last], scores[last], values[last], maximum, total);
      } else {
        HiddenKeyAddsNothing(ops, Mix(ops, masked[..last], values[..last], maximum, total), values[last], maximum,
                             total);
      }
    }
  }

  /** Masking keys away is the same as not having them. */
  lemma {:induction false} MaskedAttentionSeesWindow<V(!new)>(ops: AttentionOps<V>, scores: seq<Score>,
                                                              mask: seq<Score>, values: seq<V>, low: nat, high: nat)
    requires |scores| == |mask| == |values| && Admits(mask, low, high) && Laws(ops)
    requires forall i | 0 <= i < |scores| :: scores[i].Finite?
    ensures Attend(ops, Masked(scores, mask), values) == Attend(ops, scores[low..high], values[low..high])
  {
    var masked, n := Masked(scores, mask), |scores|;
    assert masked[..n] == masked && values[..n] == values;
    MaskedMaximum(scores, mask, low, high, n);
    var maximum := RowMaximum(masked);
    MaskedTotal(ops.exp, scores, mask, low, high, maximum, n);
    MaskedMix(ops, scores, mask, values, low, high, maximum, Total(ops.exp, masked, maximum), n);
  }

  // ----- what attention computes -----

  /** The arithmetic of numbers. */
  ghost predicate OverReals(ops: AttentionOps<real>) {
    && ops.zero == 0.0 && Exponential(ops.exp)
    && (forall a, b {:trigger ops.add(a, b)} :: ops.add(a, b) == a + b)
    && (forall weight, v {:trigger ops.scale(weight, v)} :: ops.scale(weight, v) == weight * v)
  }

  /** The row maximum bounds every score of the row and is one of them. */
  lemma {:induction false} MaximumIsLargest(scores: seq<Score>)
    requires forall i | 0 <= i < |scores| :: scores[i].Finite?
    ensures scores != [] ==> RowMaximum(scores).Finite? && RowMaximum(scores) in scores
    ensures forall i | 0 <= i < |scores| :: RowMaximum(scores).Finite? && scores[i].x <= RowMaximum(scores).x
    decreases scores
  {
    if scores == [] {
    } else {
      var last := |scores| - 1;
      MaximumIsLargest(scores[..last]);
      assert forall i | 0 <= i < last :: scores[..last][i] == scores[i];
    }
  }

  /** The sum of exp(score) over a row. */
  function Normalizer(exp: real -> real, scores: seq<Score>): real
    requires forall i | 0 <= i < |scores| :: scores[i].Finite?
  {
    if scores == [] then 0.0
    else Normalizer(exp, scores[..|scores| - 1]) + exp(scores[|scores| - 1].x)
  }

  /** The sum of exp(score) times value over a row. */
  function WeightedValues(exp: real -> real, scores: seq<Score>, values: seq<real>): real
    requires |scores| == |values| && forall i | 0 <= i < |scores| :: scores[i].Finite?
  {
    if scores == [] then 0.0
    else WeightedValues(exp, scores[..|scores| - 1], values[..|scores| - 1])
         + exp(scores[|scores| - 1].x) * values[|scores| - 1]
  }

  lemma {:induction false} NormalizerIsPositive(exp: real -> real, scores: seq<Score>)
    requires (forall x :: exp(x) > 0.0) && forall i | 0 <= i < |scores| :: scores[i].Finite?
    ensures Normalizer(exp, scores) >= 0.0 && (scores != [] ==> Normalizer(exp, scores) > 0.0)
    decreases scores
  {
    if scores == [] {
    } else {
      NormalizerIsPositive(exp, scores[..|scores| - 1]);
    }
  }

  lemma {:induction false} ShiftedWeight(exp: real -> real, score: real, maximum: real)
    requires Exponential(exp)
    ensures Weight(exp, Finite(score), Finite(maximum)) == exp(score) * exp(-maximum)
  {
    assert Multiplies(exp, score, -maximum);
    assert score + (-maximum) == score - maximum;
  }

  /** Subtracting the maximum scales every weight, and so their total, by the same factor. */
  lemma {:induction false} ShiftedTotal(exp: real -> real, scores: seq<Score>, maximum: real)
    requires Exponential(exp) && forall i | 0 <= i < |scores| :: scores[i].Finite?
    ensures Total(exp, scores, Finite(maximum)) == Normalizer(exp, scores) * exp(-maximum)
    decreases scores
  {
    if scores == [] {
    } else {
      var last := |scores| - 1;
      ShiftedTotal(exp, scores[..last], maximum);
      ShiftedWeight(exp, scores[last].x, maximum);
      hide Exponential, Weight, Normalizer, Total;
      Distribute(Normalizer(exp, scores[..last]), exp(scores[last].x), exp(-maximum));
    }
  }

  lemma {:induction false} Distribute(a: real, b: real, factor: real)
    ensures a * factor + b * factor == (a + b) * factor
  {
  }

  /** The shift cancels: a share is exp(score) over the sum of them. */
  lemma {:induction false} ShareIsUnshifted(weight: real, normalizer: real, factor: real, shifted: real, total: real)
    requires normalizer > 0.0 && factor > 0.0 && shifted == weight * factor && total == normalizer * factor
    ensures Share(shifted, total) == weight / normalizer
  {
    assert total > 0.0;
    var share := weight / normalizer;
    assert share * normalizer == weight;
    Regrouped(share, normalizer, factor);
    QuotientOf(share, shifted, total);
  }

  lemma {:induction false} MixIsWeightedMean(ops: AttentionOps<real>, scores: seq<Score>, values: seq<real>,
                                             maximum: real, normalizer: real, total: real)
    requires OverReals(ops) && |scores| == |values| && normalizer > 0.0 && total == normalizer * ops.exp(-maximum)
    requires forall i | 0 <= i < |scores| :: scores[i].Finite?
    ensures Mix(ops, scores, values, Finite(maximum), total)
         == WeightedValues(ops.exp, scores, values) / normalizer
    decreases scores
  {
    if scores == [] {
    } else {
      hide Exponential, Share, Weight;
      var last := |scores| - 1;
      MixIsWeightedMean(ops, scores[..last], values[..last], maximum, normalizer, total);
      MixNext(ops, scores, values, maximum, total);
      hide Mix, OverReals;
      ScaledByShare(ops, scores[last].x, values[last], maximum, normalizer, total);
      QuotientSum(WeightedValues(ops.exp, scores[..last], values[..last]), ops.exp(scores[last].x), values[last],
                  normalizer);
    }
  }

  lemma {:induction false} MixNext(ops: AttentionOps<real>, scores: seq<Score>, values: seq<real>, maximum: real,
                                   total: real)
    requires OverReals(ops) && |scores| == |values| && scores != []
    ensures
      var last := |scores| - 1;
      Mix(ops, scores, values, Finite(maximum), total)
      == Mix(ops, scores[..last], values[..last], Finite(maximum), total)
         + ops.scale(Share(Weight(ops.exp, scores[last], Finite(maximum)), total), values[last])
  {
    hide Exponential, Share, Weight;
  }

  lemma {:induction false} ScaledByShare(ops: AttentionOps<real>, score: real, value: real, maximum: real,
                                         normalizer: real, total: real)
    requires OverReals(ops) && normalizer > 0.0 && total == normalizer * ops.exp(-maximum)
    ensures ops.scale(Share(Weight(ops.exp, Finite(score), Finite(maximum)), total), value)
         == ops.exp(score) / normalizer * value
  {
    ShiftedWeight(ops.exp, score, maximum);
    assert ops.exp(-maximum) > 0.0;
    ShareIsUnshifted(ops.exp(score), normalizer, ops.exp(-maximum), Weight(ops.exp, Finite(score), Finite(maximum)),
                     total);
    hide Share, Weight;
  }

  lemma {:induction false} QuotientSum(sum: real, weight: real, value: real, normalizer: real)
    requires normalizer > 0.0
    ensures sum / normalizer + weight / normalizer * value == (sum + weight * value) / normalizer
  {
  }

  /**
   Over numbers, with finite scores, attention is softmax: the mean of the values weighted by the
   exponentials of their scores. The maximum that is subtracted first cancels.
   */
  lemma {:induction false} AttentionIsSoftmax(ops: AttentionOps<real>, scores: seq<Score>, values: seq<real>)
    requires OverReals(ops) && scores != [] && |scores| == |values|
    requires forall i | 0 <= i < |scores| :: scores[i].Finite?
    ensures Normalizer(ops.exp, scores) > 0.0
    ensures Attend(ops, scores, values) == WeightedValues(ops.exp, scores, values) / Normalizer(ops.exp, scores)
  {
    hide Mix, Total, Normalizer, WeightedValues;
    MaximumIsLargest(scores);
    NormalizerIsPositive(ops.exp, scores);
    var maximum := RowMaximum(scores).x;
    ShiftedTotal(ops.exp, scores, maximum);
    MixIsWeightedMean(ops, scores, values, maximum, Normalizer(ops.exp, scores),
                      Total(ops.exp, scores, Finite(maximum)));
  }

  /** The scores of position `i` of a sequence against the positions from `first` up to its own. */
  function WindowScores<V>(ops: AttentionOps<V>, xs: seq<V>, i: nat, first: nat): (scores: seq<Score>)
    requires first <= i < |xs|
    ensures |scores| == i + 1 - first
  {
    seq(i + 1 - first, d requires 0 <= d < i + 1 - first =>
        Finite(ops.score(ops.query(xs[i], i), ops.key(xs[first + d], first + d))))
  }

  /**
   A whole sequence over numbers: position `i` ends with the softmax mean of the values of the last
   `window` positions up to its own, or of all of them. Every key and query carries its own position.
   */
  lemma {:induction false} SequenceIsSoftmax(ops: AttentionOps<real>, xs: seq<real>, i: nat)
    requires OverReals(ops) && i < |xs| && (ops.window.Some? ==> ops.window.value > 0)
    ensures
      var first := if ops.window.Some? && i + 1 > ops.window.value then i + 1 - ops.window.value else 0;
      var scores, values := WindowScores(ops, xs, i, first), NewValues(ops, xs)[first..i + 1];
      var chunk := KvChunk(ops, KvCache(None, None), 0, xs);
      && Normalizer(ops.exp, scores) > 0.0 && chunk.Some?
      && chunk.value.1[i] == ops.finish(xs[i], WeightedValues(ops.exp, scores, values) / Normalizer(ops.exp, scores))
  {
    hide OverReals, Attend, Normalizer, WeightedValues;
    var first := if ops.window.Some? && i + 1 > ops.window.value then i + 1 - ops.window.value else 0;
    var keys, values := NewKeys(ops, 0, xs), NewValues(ops, xs);
    var next := Extended(ops, KvCache(None, None), 0, xs);
    assert next.key.value == keys && next.value.value == values;
    assert FirstKey(ops.window, i) == first;
    assert KvChunk(ops, KvCache(None, None), 0, xs).value.1[i] == Seen(ops, keys, values, 0 + i, xs[i]);
    assert Scores(ops, ops.query(xs[i], i), keys[first..i + 1]) == WindowScores(ops, xs, i, first);
    AttentionIsSoftmax(ops, WindowScores(ops, xs, i, first), values[first..i + 1]);
  }

  // ----- the mask -----

  /** The first key that a query at an absolute position sees: position + 1 - window, not below zero. */
  function FirstKey(window: Option<nat>, position: nat): nat {
    match window
    case None => 0
    case Some(width) => if position + 1 <= width then 0 else position + 1 - width
  }

  /** A mask row over `total` keys that admits the window of one absolute position. */
  predicate IsCausalRow(row: seq<Score>, total: nat, first: nat, absolute: nat) {
    |row| == total && forall key | 0 <= key < total ::
      row[key] == if first <= key <= absolute then Finite(0.0) else NegInf
  }

  /** One row per query of the chunk, one column per cached or new key. */
  method CausalMask(sequenceLength: nat, totalLength: nat, position: nat, window: Option<nat>)
    returns (result: Result<seq<seq<Score>>>)
    ensures result.Ok? <==> sequenceLength > 0 && totalLength > 0
    ensures result.Err? ==> result.error == InvalidTensor
    ensures result.Ok? ==> |result.value| == sequenceLength
    ensures result.Ok? ==> forall query | 0 <= query < sequenceLength ::
              IsCausalRow(result.value[query], totalLength, FirstKey(window, position + query), position + query)
  {
    if sequenceLength == 0 || totalLength == 0 {
      return Err(InvalidTensor);
    }
    var rows: seq<seq<Score>> := [];
    for query := 0 to sequenceLength
      invariant |rows| == query
      invariant forall q | 0 <= q < query ::
                IsCausalRow(rows[q], totalLength, FirstKey(window, position + q), position + q)
    {
      var absolute := position + query;
      var first := 0;
      if window.Some? {
        first := if absolute + 1 <= window.value then 0 else absolute + 1 - window.value;
      }
      var row: seq<Score> := [];
      for key := 0 to totalLength
        invariant IsCausalRow(row, key, first, absolute)
      {
        row := row + [if first <= key && key <= absolute then Finite(0.0) else NegInf];
      }
      rows := rows + [row];
    }
    result := Ok(rows);
  }

  // ----- the cache -----

  datatype KvCache<V> = KvCache(key: Option<seq<V>>, value: Option<seq<V>>)

  /** The cache of a layer that has seen exactly the positions below `position`. */
  predicate Holds<V>(cache: KvCache<V>, position: nat) {
    match (cache.key, cache.value)
    case (None, None) => position == 0
    case (Some(keys), Some(values)) => |keys| == position && |values| == position
    case _ => false
  }

  function Cached<V>(rows: Option<seq<V>>): seq<V> {
    if rows.Some? then rows.value else []
  }

  /** Appends the new keys and values; every inconsistent cache is refused and left as it was. */
  method AppendCache<V>(cache: KvCache<V>, keys: seq<V>, values: seq<V>, position: nat)
    returns (result: Result<()>, next: KvCache<V>)
    requires |keys| == |values|
    ensures result.Ok? <==> Holds(cache, position)
    ensures result.Ok? ==> next == KvCache(Some(Cached(cache.key) + keys), Some(Cached(cache.value) + values))
    ensures result.Err? ==> result.error == InvalidTensor && next == cache
  {
    next := cache;
    match (cache.key, cache.value) {
      case (None, None) =>
        if position != 0 {
          return Err(InvalidTensor), cache;
        }
        assert [] + keys == keys && [] + values == values;
        next := KvCache(Some(keys), Some(values));
      case (Some(cachedKeys), Some(cachedValues)) =>
        if |cachedKeys| != position || |cachedValues| != position {
          return Err(InvalidTensor), cache;
        }
        next := KvCache(Some(cachedKeys + keys), Some(cachedValues + values));
      case _ =>
        return Err(InvalidTensor), cache;
    }
    result := Ok(());
  }

  // ----- one position at a time -----

  /** What the position `position` with input `x` attends to, from keys and values that reach at least that far. */
  function Seen<V>(ops: AttentionOps<V>, keys: seq<V>, values: seq<V>, position: nat, x: V): V
    requires |keys| == |values| && position < |keys|
    requires ops.window.Some? ==> ops.window.value > 0
  {
    var first := FirstKey(ops.window, position);
    ops.finish(x, Attend(ops, Scores(ops, ops.query(x, position), keys[first..position + 1]),
                         values[first..position + 1]))
  }

  /** What each position of a chunk attends to. */
  function SeenAll<V>(ops: AttentionOps<V>, keys: seq<V>, values: seq<V>, position: nat, xs: seq<V>): (ys: seq<V>)
    requires |keys| == |values| && position + |xs| <= |keys|
    requires ops.window.Some? ==> ops.window.value > 0
    ensures |ys| == |xs|
  {
    seq(|xs|, i requires 0 <= i < |xs| => Seen(ops, keys, values, position + i, xs[i]))
  }

  function NewKeys<V>(ops: AttentionOps<V>, position: nat, xs: seq<V>): (keys: seq<V>)
    ensures |keys| == |xs|
  {
    seq(|xs|, i requires 0 <= i < |xs| => ops.key(xs[i], position + i))
  }

  function NewValues<V>(ops: AttentionOps<V>, xs: seq<V>): (values: seq<V>)
    ensures |values| == |xs|
  {
    seq(|xs|, i requires 0 <= i < |xs| => ops.value(xs[i]))
  }

  function Extended<V>(ops: AttentionOps<V>, cache: KvCache<V>, position: nat, xs: seq<V>): (next: KvCache<V>)
    ensures next.key.Some? && next.value.Some?
  {
    KvCache(Some(Cached(cache.key) + NewKeys(ops, position, xs)), Some(Cached(cache.value) + NewValues(ops, xs)))
  }

  /** A chunk in one go, or None for a cache that does not hold the positions before it. */
  function KvChunk<V>(ops: AttentionOps<V>, cache: KvCache<V>, position: nat, xs: seq<V>): Option<(KvCache<V>, seq<V>)>
    requires ops.window.Some? ==> ops.window.value > 0
  {
    if !Holds(cache, position) then None
    else
      var next := Extended(ops, cache, position, xs);
      Some((next, SeenAll(ops, next.key.value, next.value.value, position, xs)))
  }

  /** The same positions one at a time, each seeing only what is cached before it and itself. */
  function KvScan<V>(ops: AttentionOps<V>, cache: KvCache<V>, position: nat, xs: seq<V>): Option<(KvCache<V>, seq<V>)>
    requires ops.window.Some? ==> ops.window.value > 0
    decreases |xs|
  {
    if xs == [] then Some((cache, []))
    else
      match KvChunk(ops, cache, position, [xs[0]])
      case None => None
      case Some((next, ys)) =>
        match KvScan(ops, next, position + 1, xs[1..])
        case None => None
        case Some((last, rest)) => Some((last, ys + rest))
  }

  /** Later keys do not matter to an earlier position. */
  lemma {:induction false} SeenIgnoresLaterKeys<V>(ops: AttentionOps<V>, keys: seq<V>, values: seq<V>,
                                                   moreKeys: seq<V>, moreValues: seq<V>, position: nat, x: V)
    requires |keys| == |values| <= |moreKeys| == |moreValues| && position < |keys|
    requires keys <= moreKeys && values <= moreValues
    requires ops.window.Some? ==> ops.window.value > 0
    ensures Seen(ops, keys, values, position, x) == Seen(ops, moreKeys, moreValues, position, x)
  {
    var first := FirstKey(ops.window, position);
    assert keys[first..position + 1] == moreKeys[first..position + 1];
    assert values[first..position + 1] == moreValues[first..position + 1];
  }

  lemma {:induction false} ExtendedInTwo<V>(ops: AttentionOps<V>, cache: KvCache<V>, position: nat, xs: seq<V>)
    requires xs != []
    ensures Extended(ops, Extended(ops, cache, position, [xs[0]]), position + 1, xs[1..])
            == Extended(ops, cache, position, xs)
  {
    var next := Extended(ops, cache, position, [xs[0]]);
    var twice, once := Extended(ops, next, position + 1, xs[1..]), Extended(ops, cache, position, xs);
    assert twice.key.value == once.key.value;
    assert twice.value.value == once.value.value;
  }

  lemma {:induction false} KvChunkIsScan<V>(ops: AttentionOps<V>, cache: KvCache<V>, position: nat, xs: seq<V>)
    requires xs != []
    requires ops.window.Some? ==> ops.window.value > 0
    ensures KvChunk(ops, cache, position, xs) == KvScan(ops, cache, position, xs)
    decreases |xs|
  {
    var first := KvChunk(ops, cache, position, [xs[0]]);
    if |xs| == 1 {
      assert xs == [xs[0]];
      if first.Some? {
        assert first.value.1 + [] == first.value.1;
      }
    } else if Holds(cache, position) {
      KvChunkIsScan(ops, first.value.0, position + 1, xs[1..]);
      ExtendedInTwo(ops, cache, position, xs);
      var one, all := first.value.0, Extended(ops, cache, position, xs);
      assert one.key.value <= all.key.value && one.value.value <= all.value.value;
      SeenInTwo(ops, one.key.value, one.value.value, all.key.value, all.value.value, position, xs);
    }
  }

  lemma {:induction false} SeenInTwo<V>(ops: AttentionOps<V>, keys: seq<V>, values: seq<V>, allKeys: seq<V>,
                                        allValues: seq<V>, position: nat, xs: seq<V>)
    requires xs != [] && |keys| == |values| == position + 1 && |allKeys| == |allValues| == position + |xs|
    requires keys <= allKeys && values <= allValues
    requires ops.window.Some? ==> ops.window.value > 0
    ensures SeenAll(ops, allKeys, allValues, position, xs)
         == SeenAll(ops, keys, values, position, [xs[0]]) + SeenAll(ops, allKeys, allValues, position + 1, xs[1..])
  {
    hide Seen;
    SeenIgnoresLaterKeys(ops, keys, values, allKeys, allValues, position, xs[0]);
  }

  // ----- the forward step -----

  /**
   Attention over a chunk as it is executed: extend the cache, score every key, mask when there is
   more than one query or a window, softmax, and mix. The mask cannot be refused here: neither of
   its dimensions is zero.
   */
  method Forward<V(!new)>(ops: AttentionOps<V>, hidden: seq<V>, cache: KvCache<V>, position: nat)
    returns (result: Result<seq<V>>, next: KvCache<V>)
    requires hidden != [] && Laws(ops)
    ensures match KvChunk(ops, cache, position, hidden)
            case None => result == Err(InvalidTensor) && next == cache
            case Some((after, outputs)) => result == Ok(outputs) && next == after
  {
    assert ops.window.Some? ==> ops.window.value > 0;
    hide Attend, Laws, RowsReady, NewKeys, NewValues, SeenAll;
    var appended;
    appended, next := AppendCache(cache, NewKeys(ops, position, hidden), NewValues(ops, hidden), position);
    if appended.Err? {
      return Err(appended.error), next;
    }
    HoldsPositions(cache, position);
    var rows := ScoreRows(ops, hidden, next.key.value, position);
    RowsAreSeen(ops, hidden, next.key.value, next.value.value, position, rows);
    result := Ok(seq(|hidden|, i requires 0 <= i < |hidden| =>
                     ops.finish(hidden[i], Attend(ops, rows[i], next.value.value))));
  }

  lemma {:induction false} HoldsPositions<V>(cache: KvCache<V>, position: nat)
    requires Holds(cache, position)
    ensures |Cached(cache.key)| == |Cached(cache.value)| == position
  {
  }

  /** The scores of every query of a chunk, masked when there is more than one query or a window. */
  method ScoreRows<V>(ops: AttentionOps<V>, hidden: seq<V>, keys: seq<V>, position: nat) returns (rows: seq<seq<Score>>)
    requires hidden != [] && |keys| == position + |hidden| && (ops.window.Some? ==> ops.window.value > 0)
    ensures |rows| == |hidden| && RowsReady(ops, hidden, keys, position, rows)
  {
    hide RowsReady, Scores;
    rows := seq(|hidden|, i requires 0 <= i < |hidden| => Scores(ops, ops.query(hidden[i], position + i), keys));
    if |hidden| > 1 || ops.window.Some? {
      var mask := CausalMask(|hidden|, |keys|, position, ops.window);
      rows := AddMask(ops, hidden, keys, position, rows, mask.value);
    } else {
      OneRowIsReady(ops, hidden, keys, position, rows);
    }
  }

  lemma {:induction false} OneRowIsReady<V>(ops: AttentionOps<V>, hidden: seq<V>, keys: seq<V>, position: nat,
                                            rows: seq<seq<Score>>)
    requires |hidden| == |rows| == 1 && ops.window.None? && |keys| == position + 1
    requires rows[0] == Scores(ops, ops.query(hidden[0], position), keys)
    ensures RowsReady(ops, hidden, keys, position, rows)
  {
  }

  /** The rows of a chunk, either masked or the only row of a single-token step without a window. */
  ghost predicate RowsReady<V>(ops: AttentionOps<V>, hidden: seq<V>, keys: seq<V>, position: nat, rows: seq<seq<Score>>)
    requires |rows| == |hidden|
  {
    forall i | 0 <= i < |hidden| :: RowReady(ops, keys, position + i, hidden[i], rows[i])
  }

  ghost predicate RowReady<V>(ops: AttentionOps<V>, keys: seq<V>, position: nat, x: V, row: seq<Score>) {
    var scores := Scores(ops, ops.query(x, position), keys);
    || (row == scores && ops.window.None? && |keys| == position + 1)
    || exists mask :: IsCausalRow(mask, |keys|, FirstKey(ops.window, position), position) && row == Masked(scores, mask)
  }

  /** Adds one mask row to each row of scores. */
  method AddMask<V>(ops: AttentionOps<V>, ghost hidden: seq<V>, ghost keys: seq<V>, ghost position: nat,
                    scores: seq<seq<Score>>, mask: seq<seq<Score>>)
    returns (rows: seq<seq<Score>>)
    requires |scores| == |mask| == |hidden|
    requires forall i | 0 <= i < |hidden| :: scores[i] == Scores(ops, ops.query(hidden[i], position + i), keys)
    requires forall i | 0 <= i < |hidden| ::
             IsCausalRow(mask[i], |keys|, FirstKey(ops.window, position + i), position + i)
    ensures |rows| == |hidden| && RowsReady(ops, hidden, keys, position, rows)
  {
    rows := seq(|scores|, i requires 0 <= i < |scores| => Masked(scores[i], mask[i]));
    forall i | 0 <= i < |hidden|
      ensures RowReady(ops, keys, position + i, hidden[i], rows[i])
    {
      assert IsCausalRow(mask[i], |keys|, FirstKey(ops.window, position + i), position + i) &&
             rows[i] == Masked(scores[i], mask[i]);
    }
  }

  lemma {:induction false} RowsAreSeen<V(!new)>(ops: AttentionOps<V>, hidden: seq<V>, keys: seq<V>, values: seq<V>,
                                                position: nat, rows: seq<seq<Score>>)
    requires |keys| == |values| == position + |hidden| && |rows| == |hidden| && Laws(ops)
    requires RowsReady(ops, hidden, keys, position, rows)
    ensures forall i | 0 <= i < |hidden| :: |rows[i]| == |values|
    ensures seq(|hidden|, i requires 0 <= i < |hidden| => ops.finish(hidden[i], Attend(ops, rows[i], values)))
         == SeenAll(ops, keys, values, position, hidden)
  {
    assert ops.window.Some? ==> ops.window.value > 0;
    hide Seen, Attend, RowReady, Laws;
    forall i | 0 <= i < |hidden|
      ensures |rows[i]| == |values| &&
              ops.finish(hidden[i], Attend(ops, rows[i], values)) == Seen(ops, keys, values, position + i, hidden[i])
    {
      RowIsSeen(ops, keys, values, position + i, hidden[i], rows[i]);
    }
  }

  /** A masked row, or the only row of an unmasked single-token step, attends to the window of its position. */
  lemma {:induction false} RowIsSeen<V(!new)>(ops: AttentionOps<V>, keys: seq<V>, values: seq<V>, position: nat, x: V,
                                              row: seq<Score>)
    requires |keys| == |values| && position < |keys| && Laws(ops)
    requires RowReady(ops, keys, position, x, row)
    ensures |row| == |values|
    ensures ops.finish(x, Attend(ops, row, values)) == Seen(ops, keys, values, position, x)
  {
    var first := FirstKey(ops.window, position);
    var scores := Scores(ops, ops.query(x, position), keys);
    assert scores[first..position + 1] == Scores(ops, ops.query(x, position), keys[first..position + 1]);
    if row == scores && ops.window.None? && |keys| == position + 1 {
      assert keys[0..|keys|] == keys && values[0..|keys|] == values;
    } else {
      var mask :| IsCausalRow(mask, |keys|, first, position) && row == Masked(scores, mask);
      assert Admits(mask, first, position + 1);
      MaskedAttentionSeesWindow(ops, scores, mask, values, first, position + 1);
    }
  }
}
