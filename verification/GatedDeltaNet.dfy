/**
 Linear attention: a depthwise causal convolution with carried history feeds a gated delta-rule
 recurrence. A chunk of positions must give what the positions give one at a time.
 */
module GatedDeltaNet {
  import opened Wrappers
  import opened RealArithmetic

  /** Vector arithmetic is arbitrary; `R` is the recurrent matrix state. */
  datatype GdnOps<!V, !R> = GdnOps(
    kernel: nat,
    project: V -> V,
    zero: V,
    add: (V, V) -> V,
    tap: (nat, V) -> V,
    activate: V -> V,
    query: V -> V,
    key: V -> V,
    value: V -> V,
    initial: R,
    decay: (R, V) -> R,
    memory: (R, V) -> V,
    delta: (V, V, V) -> V,
    update: (R, V, V) -> R,
    read: (R, V) -> V,
    finish: (V, V) -> V)

  datatype LinearState<V, R> = LinearState(conv: Option<seq<V>>, recurrent: Option<R>)

  function Zeros<V>(zero: V, n: nat): (zeros: seq<V>)
    ensures |zeros| == n
  {
    seq(n, _ => zero)
  }

  // ----- the convolution -----

  /** The taps below `taps` at offset `start` of a window, added from zero in tap order. */
  function Taps<V, R>(ops: GdnOps<V, R>, window: seq<V>, start: nat, taps: nat): V
    requires start + taps <= |window|
  {
    if taps == 0 then ops.zero
    else ops.add(Taps(ops, window, start, taps - 1), ops.tap(taps - 1, window[start + taps - 1]))
  }

  /** The convolution of `count` positions over a window that starts kernel - 1 positions earlier. */
  function Convolved<V, R>(ops: GdnOps<V, R>, window: seq<V>, count: nat, taps: nat): (ys: seq<V>)
    requires taps <= ops.kernel && ops.kernel > 0 && |window| == ops.kernel - 1 + count
    ensures |ys| == count
  {
    seq(count, i requires 0 <= i < count => Taps(ops, window, i, taps))
  }

  /** The history a state stands for, or None when its length does not fit the kernel. */
  function History<V, R>(ops: GdnOps<V, R>, conv: Option<seq<V>>): (history: Option<seq<V>>)
    requires ops.kernel > 0
    ensures history.Some? ==> |history.value| == ops.kernel - 1
  {
    match conv
    case None => Some(Zeros(ops.zero, ops.kernel - 1))
    case Some(rows) => if |rows| == ops.kernel - 1 then Some(rows) else None
  }

  /** What is carried to the next chunk: the last kernel - 1 positions, and nothing for kernel 1. */
  function Carried<V, R>(ops: GdnOps<V, R>, window: seq<V>): Option<seq<V>>
    requires ops.kernel > 0 && |window| >= ops.kernel - 1
  {
    if ops.kernel == 1 then None else Some(window[|window| - (ops.kernel - 1)..])
  }

  /** One more tap for every position of the chunk. */
  function TapAdded<V, R>(ops: GdnOps<V, R>, output: seq<V>, tap: nat, source: seq<V>): (added: seq<V>)
    requires |source| == |output|
    ensures |added| == |output|
  {
    seq(|output|, i requires 0 <= i < |output| => ops.add(output[i], ops.tap(tap, source[i])))
  }

  lemma {:induction false} NextTap<V, R>(ops: GdnOps<V, R>, window: seq<V>, count: nat, tap: nat)
    requires tap < ops.kernel && |window| == ops.kernel - 1 + count
    ensures TapAdded(ops, Convolved(ops, window, count, tap), tap, window[tap..tap + count])
            == Convolved(ops, window, count, tap + 1)
  {
  }

  lemma {:induction false} ConvolvedAt<V, R>(ops: GdnOps<V, R>, window: seq<V>, count: nat)
    requires ops.kernel > 0 && |window| == ops.kernel - 1 + count
    ensures forall i | 0 <= i < count ::
            Convolved(ops, window, count, ops.kernel)[i] == Taps(ops, window, i, ops.kernel)
  {
    hide Taps;
  }

  /** The convolution tap by tap over a chunk, with the history taken and replaced. */
  method CausalConvolution<V, R>(ops: GdnOps<V, R>, mixed: seq<V>, conv: Option<seq<V>>)
    returns (result: Result<seq<V>>, next: Option<seq<V>>)
    requires ops.kernel > 0
    ensures match History(ops, conv)
            case None => result == Err(InvalidTensor) && next == None
            case Some(history) =>
              && next == Carried(ops, history + mixed)
              && result.Ok? && |result.value| == |mixed|
              && forall i | 0 <= i < |mixed| ::
                 result.value[i] == ops.activate(Taps(ops, history + mixed, i, ops.kernel))
  {
    hide Taps;
    var historyLength := ops.kernel - 1;
    var history := Zeros(ops.zero, historyLength);
    next := None;
    if conv.Some? {
      if |conv.value| != historyLength {
        return Err(InvalidTensor), None;
      }
      history := conv.value;
    }
    var window := history + mixed;
    var output := TapByTap(ops, window, |mixed|);
    if historyLength > 0 {
      next := Some(window[|mixed|..]);
    }
    result := Ok(seq(|mixed|, i requires 0 <= i < |mixed| => ops.activate(output[i])));
  }

  /** Every tap in turn, added for all positions at once. */
  method TapByTap<V, R>(ops: GdnOps<V, R>, window: seq<V>, count: nat) returns (output: seq<V>)
    requires ops.kernel > 0 && |window| == ops.kernel - 1 + count
    ensures |output| == count && forall i | 0 <= i < count :: output[i] == Taps(ops, window, i, ops.kernel)
  {
    output := Zeros(ops.zero, count);
    assert output == Convolved(ops, window, count, 0);
    hide Taps, Convolved, TapAdded;
    for tap := 0 to ops.kernel
      invariant output == Convolved(ops, window, count, tap)
    {
      NextTap(ops, window, count, tap);
      output := TapAdded(ops, output, tap, window[tap..tap + count]);
    }
    ConvolvedAt(ops, window, count);
  }

  // ----- the recurrence -----

  /** One token: decay, read the memory under the key, write the gated difference, read under the query. */
  function Recur<V, R>(ops: GdnOps<V, R>, state: R, feature: V, hidden: V): (R, V) {
    var decayed := ops.decay(state, hidden);
    var delta := ops.delta(ops.value(feature), ops.memory(decayed, ops.key(feature)), hidden);
    var updated := ops.update(decayed, ops.key(feature), delta);
    (updated, ops.finish(ops.read(updated, ops.query(feature)), hidden))
  }

  function RecurAll<V, R>(ops: GdnOps<V, R>, state: R, features: seq<V>, hidden: seq<V>): (result: (R, seq<V>))
    requires |features| == |hidden|
    ensures |result.1| == |hidden|
  {
    if hidden == [] then (state, [])
    else
      var last := |hidden| - 1;
      var (before, ys) := RecurAll(ops, state, features[..last], hidden[..last]);
      var (after, y) := Recur(ops, before, features[last], hidden[last]);
      (after, ys + [y])
  }

  lemma {:induction false} RecurSplit<V, R>(ops: GdnOps<V, R>, state: R, features: seq<V>, hidden: seq<V>, cut: nat)
    requires |features| == |hidden| && cut <= |hidden|
    ensures
      var (middle, ys) := RecurAll(ops, state, features[..cut], hidden[..cut]);
      var (after, zs) := RecurAll(ops, middle, features[cut..], hidden[cut..]);
      RecurAll(ops, state, features, hidden) == (after, ys + zs)
    decreases |hidden|
  {
    hide Recur;
    if cut == |hidden| {
      assert features[..cut] == features && hidden[..cut] == hidden;
      var ys := RecurAll(ops, state, features, hidden).1;
      assert ys + [] == ys;
    } else {
      var last := |hidden| - 1;
      RecurSplit(ops, state, features[..last], hidden[..last], cut);
      assert features[..last][..cut] == features[..cut] && hidden[..last][..cut] == hidden[..cut];
      assert features[cut..][..last - cut] == features[..last][cut..] &&
             hidden[cut..][..last - cut] == hidden[..last][cut..];
      var (middle, ys) := RecurAll(ops, state, features[..cut], hidden[..cut]);
      var (before, zs) := RecurAll(ops, middle, features[..last][cut..], hidden[..last][cut..]);
      var y := Recur(ops, before, features[last], hidden[last]).1;
      assert ys + zs + [y] == ys + (zs + [y]);
    }
  }

  // ----- a chunk and its positions one at a time -----

  function Projected<V, R>(ops: GdnOps<V, R>, hidden: seq<V>): (mixed: seq<V>)
    ensures |mixed| == |hidden|
  {
    seq(|hidden|, i requires 0 <= i < |hidden| => ops.project(hidden[i]))
  }

  function Activated<V, R>(ops: GdnOps<V, R>, window: seq<V>, count: nat): (features: seq<V>)
    requires ops.kernel > 0 && |window| == ops.kernel - 1 + count
    ensures |features| == count
  {
    seq(count, i requires 0 <= i < count => ops.activate(Taps(ops, window, i, ops.kernel)))
  }

  function Start<V, R>(ops: GdnOps<V, R>, recurrent: Option<R>): R {
    if recurrent.Some? then recurrent.value else ops.initial
  }

  function GdnChunk<V, R>(ops: GdnOps<V, R>, state: LinearState<V, R>,
                          hidden: seq<V>): Option<(LinearState<V, R>, seq<V>)>
    requires ops.kernel > 0
  {
    match History(ops, state.conv)
    case None => None
    case Some(history) =>
      var window := history + Projected(ops, hidden);
      var (after, ys) := RecurAll(ops, Start(ops, state.recurrent), Activated(ops, window, |hidden|), hidden);
      Some((LinearState(Carried(ops, window), Some(after)), ys))
  }

  function GdnScan<V, R>(ops: GdnOps<V, R>, state: LinearState<V, R>,
                         hidden: seq<V>): Option<(LinearState<V, R>, seq<V>)>
    requires ops.kernel > 0
    decreases |hidden|
  {
    if hidden == [] then Some((state, []))
    else
      match GdnChunk(ops, state, [hidden[0]])
      case None => None
      case Some((next, ys)) =>
        match GdnScan(ops, next, hidden[1..])
        case None => None
        case Some((last, rest)) => Some((last, ys + rest))
  }

  /** Taps look only at the positions from `start` on, so they are the same in a stretch of a longer window. */
  lemma {:induction false} TapsInStretch<V, R>(ops: GdnOps<V, R>, window: seq<V>, offset: nat, stretch: seq<V>,
                                               start: nat, taps: nat)
    requires offset <= |window| && stretch <= window[offset..] && start + taps <= |stretch|
    ensures Taps(ops, window, offset + start, taps) == Taps(ops, stretch, start, taps)
    decreases taps
  {
    if taps == 0 {
    } else {
      TapsInStretch(ops, window, offset, stretch, start, taps - 1);
      assert stretch[start + taps - 1] == window[offset..][start + taps - 1];
    }
  }

  /** A convolution over two chunks is the two convolutions side by side, the second over what the first carries. */
  lemma {:induction false} WindowInTwo<V, R>(ops: GdnOps<V, R>, history: seq<V>, chunk: seq<V>, rest: seq<V>)
    requires ops.kernel > 0 && |history| == ops.kernel - 1
    ensures
      var window := history + chunk;
      Activated(ops, history + (chunk + rest), |chunk + rest|)
      == Activated(ops, window, |chunk|) + Activated(ops, window[|chunk|..] + rest, |rest|)
  {
    hide Taps;
    var window, whole := history + chunk, history + (chunk + rest);
    var tail := window[|chunk|..] + rest;
    assert whole == window + rest && tail == whole[|chunk|..];
    forall i | 0 <= i < |chunk|
      ensures Taps(ops, whole, i, ops.kernel) == Taps(ops, window, i, ops.kernel)
    {
      TapsInStretch(ops, whole, 0, window, i, ops.kernel);
    }
    forall i | 0 <= i < |rest|
      ensures Taps(ops, whole, |chunk| + i, ops.kernel) == Taps(ops, tail, i, ops.kernel)
    {
      TapsInStretch(ops, whole, |chunk|, tail, i, ops.kernel);
    }
  }

  /** After the first position, the carried history and the remaining inputs are the tail of the window. */
  lemma {:induction false} CarriedWindow<V, R>(ops: GdnOps<V, R>, history: seq<V>, hidden: seq<V>)
    requires ops.kernel > 0 && |history| == ops.kernel - 1 && hidden != []
    ensures
      var window, first := history + Projected(ops, hidden), history + Projected(ops, [hidden[0]]);
      var next := History(ops, Carried(ops, first));
      && next.Some?
      && next.value + Projected(ops, hidden[1..]) == window[1..]
      && Carried(ops, window[1..]) == Carried(ops, window)
      && Activated(ops, window, |hidden|) == Activated(ops, first, 1) + Activated(ops, window[1..], |hidden| - 1)
  {
    hide Activated;
    var head, rest := Projected(ops, [hidden[0]]), Projected(ops, hidden[1..]);
    var window, first := history + Projected(ops, hidden), history + head;
    assert Projected(ops, hidden) == head + rest;
    var next := History(ops, Carried(ops, first)).value;
    assert next == first[1..];
    assert window == first + rest && window[1..] == first[1..] + rest;
    WindowInTwo(ops, history, head, rest);
    assert ops.kernel > 1 ==> window[1..][|window| - 1 - (ops.kernel - 1)..] == window[|window| - (ops.kernel - 1)..];
  }

  lemma {:induction false} GdnChunkIsScan<V, R>(ops: GdnOps<V, R>, state: LinearState<V, R>, hidden: seq<V>)
    requires ops.kernel > 0 && hidden != []
    ensures GdnChunk(ops, state, hidden) == GdnScan(ops, state, hidden)
    decreases |hidden|
  {
    var first := GdnChunk(ops, state, [hidden[0]]);
    if |hidden| == 1 {
      assert hidden == [hidden[0]];
      if first.Some? {
        assert first.value.1 + [] == first.value.1;
      }
    } else if first.Some? {
      GdnChunkIsScan(ops, first.value.0, hidden[1..]);
      GdnInTwo(ops, state, hidden);
    }
  }

  lemma {:induction false} GdnInTwo<V, R>(ops: GdnOps<V, R>, state: LinearState<V, R>, hidden: seq<V>)
    requires ops.kernel > 0 && |hidden| > 1 && History(ops, state.conv).Some?
    ensures
      var first := GdnChunk(ops, state, [hidden[0]]).value;
      var rest := GdnChunk(ops, first.0, hidden[1..]);
      rest.Some? && GdnChunk(ops, state, hidden) == Some((rest.value.0, first.1 + rest.value.1))
  {
    var history := History(ops, state.conv).value;
    var window := history + Projected(ops, hidden);
    var features := Activated(ops, window, |hidden|);
    CarriedWindow(ops, history, hidden);
    RecurSplit(ops, Start(ops, state.recurrent), features, hidden, 1);
    assert features[..1] == Activated(ops, history + Projected(ops, [hidden[0]]), 1);
    assert features[1..] == Activated(ops, window[1..], |hidden| - 1);
    assert hidden[..1] == [hidden[0]];
  }

  // ----- the forward step -----

  method Forward<V, R>(ops: GdnOps<V, R>, hidden: seq<V>, state: LinearState<V, R>)
    returns (result: Result<seq<V>>, next: LinearState<V, R>)
    requires ops.kernel > 0
    ensures match GdnChunk(ops, state, hidden)
            case None => result == Err(InvalidTensor) && next.conv == None
            case Some((after, outputs)) => result == Ok(outputs) && next == after
  {
    var features, conv := CausalConvolution(ops, Projected(ops, hidden), state.conv);
    next := LinearState(conv, state.recurrent);
    if features.Err? {
      return Err(features.error), next;
    }
    ghost var window := History(ops, state.conv).value + Projected(ops, hidden);
    assert features.value == Activated(ops, window, |hidden|);
    var recurrent := if state.recurrent.Some? then state.recurrent.value else ops.initial;
    var outputs: seq<V> := [];
    for token := 0 to |hidden|
      invariant (recurrent, outputs)
                == RecurAll(ops, Start(ops, state.recurrent), features.value[..token], hidden[..token])
    {
      var feature := features.value[token];
      assert features.value[..token + 1][..token] == features.value[..token] &&
             hidden[..token + 1][..token] == hidden[..token];
      recurrent := ops.decay(recurrent, hidden[token]);
      var memory := ops.memory(recurrent, ops.key(feature));
      var delta := ops.delta(ops.value(feature), memory, hidden[token]);
      recurrent := ops.update(recurrent, ops.key(feature), delta);
      outputs := outputs + [ops.finish(ops.read(recurrent, ops.query(feature)), hidden[token])];
    }
    assert features.value[..|hidden|] == features.value && hidden[..|hidden|] == hidden;
    next := LinearState(conv, Some(recurrent));
    result := Ok(outputs);
  }

  // ----- what a token computes -----

  /** Writing the difference to the memory makes the value readable under its key. */
  ghost predicate WritesReadBack<V(!new), R(!new)>(ops: GdnOps<V, R>) {
    forall state, key, value, hidden ::
      ops.read(ops.update(state, key, ops.delta(value, ops.memory(state, key), hidden)), key) == value
  }

  /**
   A token reads what it has just written: with its key as its query it gets back its own value, whatever came before.
   */
  lemma {:induction false} TokenReadsItsWrite<V(!new), R(!new)>(ops: GdnOps<V, R>, state: R, features: seq<V>,
                                                                hidden: seq<V>, i: nat)
    requires WritesReadBack(ops) && |features| == |hidden| && i < |hidden|
    requires ops.query(features[i]) == ops.key(features[i])
    ensures RecurAll(ops, state, features, hidden).1[i] == ops.finish(ops.value(features[i]), hidden[i])
    decreases |hidden|
  {
    var last := |hidden| - 1;
    if i < last {
      TokenReadsItsWrite(ops, state, features[..last], hidden[..last], i);
    } else {
      var decayed := ops.decay(RecurAll(ops, state, features[..last], hidden[..last]).0, hidden[i]);
      var (key, value) := (ops.key(features[i]), ops.value(features[i]));
      assert ops.read(ops.update(decayed, key, ops.delta(value, ops.memory(decayed, key), hidden[i])), key) == value;
    }
  }

  lemma {:induction false} ChunkReadsItsWrites<V(!new), R(!new)>(ops: GdnOps<V, R>, state: LinearState<V, R>,
        hidden: seq<V>, i: nat)
    requires ops.kernel > 0 && WritesReadBack(ops) && i < |hidden| && History(ops, state.conv).Some?
    ensures
      var window := History(ops, state.conv).value + Projected(ops, hidden);
      var feature := Activated(ops, window, |hidden|)[i];
      ops.query(feature) == ops.key(feature) ==>
        GdnChunk(ops, state, hidden).value.1[i] == ops.finish(ops.value(feature), hidden[i])
  {
    var features := Activated(ops, History(ops, state.conv).value + Projected(ops, hidden), |hidden|);
    if ops.query(features[i]) == ops.key(features[i]) {
      TokenReadsItsWrite(ops, Start(ops, state.recurrent), features, hidden, i);
    }
  }

  /** A head of one dimension, with its gate and write strength as functions of the hidden state. */
  ghost predicate OneDimensional(ops: GdnOps<real, real>, gate: real -> real, strength: real -> real) {
    && (forall state, hidden {:trigger ops.decay(state, hidden)} ::
          ops.decay(state, hidden) == Times(gate(hidden), state))
    && (forall state, key {:trigger ops.memory(state, key)} :: ops.memory(state, key) == Times(state, key))
    && (forall value, memory, hidden {:trigger ops.delta(value, memory, hidden)} ::
          ops.delta(value, memory, hidden) == Times(strength(hidden), value - memory))
    && (forall state, key, change {:trigger ops.update(state, key, change)} ::
          ops.update(state, key, change) == state + Times(key, change))
    && (forall state, query {:trigger ops.read(state, query)} :: ops.read(state, query) == Times(state, query))
    && (forall y, hidden {:trigger ops.finish(y, hidden)} :: ops.finish(y, hidden) == y)
  }

  /** One token of the gated delta rule in numbers: S' = gS + k(b(v - gSk)), read as S'q. */
  function DeltaToken(ops: GdnOps<real, real>, gate: real -> real, strength: real -> real, state: real, feature: real,
                      hidden: real): (real, real)
  {
    var (q, k, v) := (ops.query(feature), ops.key(feature), ops.value(feature));
    var decayed := Times(gate(hidden), state);
    var next := decayed + Times(k, Times(strength(hidden), v - Times(decayed, k)));
    (next, Times(next, q))
  }

  /** The gated delta rule, one token after another. */
  function DeltaRule(ops: GdnOps<real, real>, gate: real -> real, strength: real -> real, state: real,
                     features: seq<real>, hidden: seq<real>): (result: (real, seq<real>))
    requires |features| == |hidden|
    ensures |result.1| == |hidden|
    decreases |hidden|
  {
    if hidden == [] then (state, [])
    else
      var (next, y) := DeltaToken(ops, gate, strength, state, features[0], hidden[0]);
      var (last, rest) := DeltaRule(ops, gate, strength, next, features[1..], hidden[1..]);
      (last, [y] + rest)
  }

  /** In one dimension the recurrence is the gated delta rule. */
  lemma {:induction false} RecurrenceIsDeltaRule(ops: GdnOps<real, real>, gate: real -> real, strength: real -> real,
                                                 state: real, features: seq<real>, hidden: seq<real>)
    requires OneDimensional(ops, gate, strength) && |features| == |hidden|
    ensures RecurAll(ops, state, features, hidden) == DeltaRule(ops, gate, strength, state, features, hidden)
    decreases |hidden|
  {
    if hidden == [] {
    } else {
      hide Recur, RecurAll, OneDimensional, DeltaToken;
      RecurSplit(ops, state, features, hidden, 1);
      RecurOne(ops, gate, strength, state, features[0], hidden[0]);
      assert features[..1] == [features[0]] && hidden[..1] == [hidden[0]];
      OneToken(ops, state, features[0], hidden[0]);
      RecurrenceIsDeltaRule(ops, gate, strength, Recur(ops, state, features[0], hidden[0]).0, features[1..],
                            hidden[1..]);
    }
  }

  /**
   So a chunk is the gated delta rule over its activated convolution, from the stored state or from the initial one.
   */
  lemma {:induction false} ChunkIsDeltaRule(ops: GdnOps<real, real>, gate: real -> real, strength: real -> real,
                                            state: LinearState<real, real>, hidden: seq<real>)
    requires OneDimensional(ops, gate, strength) && ops.kernel > 0 && History(ops, state.conv).Some?
    ensures
      var features := Activated(ops, History(ops, state.conv).value + Projected(ops, hidden), |hidden|);
      var start := if state.recurrent.Some? then state.recurrent.value else ops.initial;
      var chunk, rule := GdnChunk(ops, state, hidden), DeltaRule(ops, gate, strength, start, features, hidden);
      chunk.Some? && chunk.value.1 == rule.1 && chunk.value.0.recurrent == Some(rule.0)
  {
    hide OneDimensional, RecurAll, DeltaRule;
    var features := Activated(ops, History(ops, state.conv).value + Projected(ops, hidden), |hidden|);
    RecurrenceIsDeltaRule(ops, gate, strength, Start(ops, state.recurrent), features, hidden);
  }

  lemma {:induction false} OneToken<V, R>(ops: GdnOps<V, R>, state: R, feature: V, hidden: V)
    ensures RecurAll(ops, state, [feature], [hidden]) ==
            (Recur(ops, state, feature, hidden).0, [Recur(ops, state, feature, hidden).1])
  {
    assert [feature][..0] == [] && [hidden][..0] == [];
    assert [] + [Recur(ops, state, feature, hidden).1] == [Recur(ops, state, feature, hidden).1];
  }

  lemma {:induction false} RecurOne(ops: GdnOps<real, real>, gate: real -> real, strength: real -> real, state: real,
                                    feature: real, hidden: real)
    requires OneDimensional(ops, gate, strength)
    ensures Recur(ops, state, feature, hidden) == DeltaToken(ops, gate, strength, state, feature, hidden)
  {
    hide Times;
    var (q, k, v) := (ops.query(feature), ops.key(feature), ops.value(feature));
    var decayed := ops.decay(state, hidden);
    var next := ops.update(decayed, k, ops.delta(v, ops.memory(decayed, k), hidden));
    assert ops.finish(ops.read(next, q), hidden) == Times(next, q);
  }

  // ----- the stream as a whole -----

  /** The input at a position of the stream, zero before its start. */
  function Padded<V>(zero: V, stream: seq<V>, position: int): V
    requires position < |stream|
  {
    if position < 0 then zero else stream[position]
  }

  function PaddedTaps<V, R>(ops: GdnOps<V, R>, stream: seq<V>, position: nat, taps: nat): V
    requires position < |stream| && taps <= ops.kernel
  {
    if taps == 0 then ops.zero
    else ops.add(PaddedTaps(ops, stream, position, taps - 1),
                 ops.tap(taps - 1, Padded(ops.zero, stream, position - (ops.kernel - taps))))
  }

  /** Pushes the stream through the convolution chunk by chunk, carrying the history. */
  function ConvolveChunks<V, R>(ops: GdnOps<V, R>, conv: Option<seq<V>>, chunks: seq<seq<V>>): Option<seq<V>>
    requires ops.kernel > 0
    decreases chunks
  {
    if chunks == [] then Some([])
    else
      match History(ops, conv)
      case None => None
      case Some(history) =>
        var window := history + chunks[0];
        match ConvolveChunks(ops, Carried(ops, window), chunks[1..])
        case None => None
        case Some(rest) => Some(Activated(ops, window, |chunks[0]|) + rest)
  }

  lemma {:induction false} ChunksShareWindow<V, R>(ops: GdnOps<V, R>, conv: Option<seq<V>>, history: seq<V>,
                                                   chunks: seq<seq<V>>)
    requires ops.kernel > 0 && History(ops, conv) == Some(history)
    ensures ConvolveChunks(ops, conv, chunks) == Some(Activated(ops, history + Flatten(chunks), |Flatten(chunks)|))
    decreases chunks
  {
    if chunks == [] {
    } else {
      var window := history + chunks[0];
      var next := History(ops, Carried(ops, window)).value;
      assert next == window[|chunks[0]|..];
      ChunksShareWindow(ops, Carried(ops, window), next, chunks[1..]);
      WindowInTwo(ops, history, chunks[0], Flatten(chunks[1..]));
    }
  }

  lemma {:induction false} WindowTapsArePadded<V, R>(ops: GdnOps<V, R>, stream: seq<V>, position: nat, taps: nat)
    requires position < |stream| && taps <= ops.kernel && ops.kernel > 0
    ensures Taps(ops, Zeros(ops.zero, ops.kernel - 1) + stream, position, taps)
            == PaddedTaps(ops, stream, position, taps)
  {
    if taps == 0 {
    } else {
      WindowTapsArePadded(ops, stream, position, taps - 1);
    }
  }

  /** Addition has a neutral element that taps keep. */
  ghost predicate Neutral<V(!new), R>(ops: GdnOps<V, R>) {
    && (forall v :: ops.add(ops.zero, v) == v && ops.add(v, ops.zero) == v)
    && (forall tap :: ops.tap(tap, ops.zero) == ops.zero)
  }

  /**
   A lone input is met by the last tap at its own position, by the one before at the next, and not at all after
   `kernel`.
   */
  lemma {:induction false} LoneInputMeetsItsTap<V(!new), R>(ops: GdnOps<V, R>, stream: seq<V>, position: nat,
                                                            input: nat, taps: nat)
    requires Neutral(ops) && position < |stream| && input < |stream| && taps <= ops.kernel
    requires forall i | 0 <= i < |stream| && i != input :: stream[i] == ops.zero
    ensures PaddedTaps(ops, stream, position, taps) ==
            var tap := input - position + ops.kernel - 1;
            if 0 <= tap < taps && input <= position then ops.tap(tap, stream[input]) else ops.zero
    decreases taps
  {
    if taps == 0 {
    } else {
      LoneInputMeetsItsTap(ops, stream, position, input, taps - 1);
    }
  }

  /**
   Whatever the chunking, the convolution of a fresh session is the convolution of the zero-padded
   stream: position p adds its taps over the inputs p - kernel + 1 up to p.
   */
  lemma {:induction false} CarriedConvolutionIsStreamConvolution<V, R>(ops: GdnOps<V, R>, chunks: seq<seq<V>>)
    requires ops.kernel > 0
    ensures
      var stream, outputs := Flatten(chunks), ConvolveChunks(ops, None, chunks);
      && outputs.Some? && |outputs.value| == |stream|
      && forall position | 0 <= position < |stream| ::
         outputs.value[position] == ops.activate(PaddedTaps(ops, stream, position, ops.kernel))
  {
    var stream := Flatten(chunks);
    ChunksShareWindow(ops, None, Zeros(ops.zero, ops.kernel - 1), chunks);
    forall position | 0 <= position < |stream| {
      WindowTapsArePadded(ops, stream, position, ops.kernel);
    }
  }
}
