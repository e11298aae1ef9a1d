/**
 A decoder stack over a session cache: every layer mixes tokens through its own state (linear or
 full attention) and then applies a position-wise feed-forward layer (dense, routed, or routed with
 a shared expert). The three model families are instances of this stack.
 */
module Decoder {
  import opened Wrappers
  import opened ExpertReduction
  import opened Router
  import opened Attention
  import opened GatedDeltaNet
  import opened RealArithmetic

  // ----- feed-forward layers -----

  datatype Moe<!V> = Moe(router: V -> seq<real>, config: MoeLayerConfig, exp: real -> real, experts: ExpertOps<V>)

  ghost predicate ValidMoe<V(!new)>(moe: Moe<V>) {
    && moe.config.Valid() && Positive(moe.exp)
    && forall x :: |moe.router(x)| == moe.config.numExperts
  }

  /** The router's view of one position: its logits and what it selected. */
  datatype RouterRow = RouterRow(logits: seq<real>, selection: Selection)

  function Routed<V>(moe: Moe<V>, x: V): RouterRow {
    var logits := moe.router(x);
    if moe.config.Valid() && |logits| == moe.config.numExperts then
      match SelectRow(moe.exp, moe.config, logits)
      case None => RouterRow(logits, [])
      case Some(selection) => RouterRow(logits, selection)
    else RouterRow(logits, [])
  }

  function MoeToken<V>(moe: Moe<V>, x: V): V {
    Partial(moe.experts, x, Routed(moe, x).selection, moe.config.numExperts)
  }

  datatype Mlp<!V> =
    | Dense(apply: V -> V)
    | Sparse(moe: Moe<V>)
    | SparseShared(moe: Moe<V>, shared: V -> V)

  datatype Mixer<!V, !R> =
    | Linear(gdn: GdnOps<V, R>)
    | Full(attention: AttentionOps<V>)

  datatype Layer<!V, !R> = Layer(inputNorm: V -> V, mixer: Mixer<V, R>, postNorm: V -> V, mlp: Mlp<V>, add: (V, V) -> V)

  ghost predicate ValidLayer<V(!new), R>(layer: Layer<V, R>) {
    && (layer.mixer.Linear? ==> layer.mixer.gdn.kernel > 0)
    && (layer.mixer.Full? ==> Laws(layer.mixer.attention))
    && (layer.mlp.Sparse? || layer.mlp.SparseShared? ==> ValidMoe(layer.mlp.moe))
  }

  function MlpToken<V, R>(layer: Layer<V, R>, x: V): V {
    match layer.mlp
    case Dense(apply) => apply(x)
    case Sparse(moe) => MoeToken(moe, x)
    case SparseShared(moe, shared) => layer.add(MoeToken(moe, x), shared(x))
  }

  function TraceOf<V>(mlp: Mlp<V>, x: V): Option<RouterRow> {
    if mlp.Dense? then None else Some(Routed(mlp.moe, x))
  }

  // ----- tokens travelling through the stack -----

  /** A position's hidden state with the router rows of the layers it has passed. */
  datatype Token<V> = Token(hidden: V, trace: seq<Option<RouterRow>>)

  /** The residual additions of a layer around its mixer output and its feed-forward output. */
  function Passed<V, R>(layer: Layer<V, R>, token: Token<V>, mixed: V): Token<V> {
    var attended := layer.add(token.hidden, mixed);
    var x := layer.postNorm(attended);
    Token(layer.add(attended, MlpToken(layer, x)), token.trace + [TraceOf(layer.mlp, x)])
  }

  function PassedAll<V, R>(layer: Layer<V, R>, tokens: seq<Token<V>>, mixed: seq<V>): (passed: seq<Token<V>>)
    requires |tokens| == |mixed|
    ensures |passed| == |tokens|
  {
    seq(|tokens|, i requires 0 <= i < |tokens| => Passed(layer, tokens[i], mixed[i]))
  }

  function Normed<V, R>(layer: Layer<V, R>, tokens: seq<Token<V>>): (xs: seq<V>)
    ensures |xs| == |tokens|
  {
    seq(|tokens|, i requires 0 <= i < |tokens| => layer.inputNorm(tokens[i].hidden))
  }

  // ----- mixers -----

  datatype LayerState<V, R> =
    | LinearCache(state: LinearState<V, R>)
    | FullCache(kv: KvCache<V>)

  predicate Runnable<V, R>(mixer: Mixer<V, R>) {
    && (mixer.Linear? ==> mixer.gdn.kernel > 0)
    && (mixer.Full? && mixer.attention.window.Some? ==> mixer.attention.window.value > 0)
  }

  /** A chunk through a mixer; None when the cached state does not fit it. */
  function MixerChunk<V, R>(mixer: Mixer<V, R>, state: LayerState<V, R>, position: nat,
                            xs: seq<V>): (result: Option<(LayerState<V, R>, seq<V>)>)
    requires Runnable(mixer)
    ensures result.Some? ==> |result.value.1| == |xs|
  {
    match (mixer, state)
    case (Linear(gdn), LinearCache(linear)) =>
      (match GdnChunk(gdn, linear, xs)
       case None => None
       case Some((next, ys)) => Some((LinearCache(next), ys)))
    case (Full(attention), FullCache(kv)) =>
      (match KvChunk(attention, kv, position, xs)
       case None => None
       case Some((next, ys)) => Some((FullCache(next), ys)))
    case _ => None
  }

  lemma {:induction false} KvScanAppend<V>(ops: AttentionOps<V>, cache: KvCache<V>, position: nat, xs: seq<V>,
                                           ys: seq<V>)
    requires ops.window.Some? ==> ops.window.value > 0
    ensures KvScan(ops, cache, position, xs + ys) ==
            match KvScan(ops, cache, position, xs)
            case None => None
            case Some((middle, left)) =>
              match KvScan(ops, middle, position + |xs|, ys)
              case None => None
              case Some((last, right)) => Some((last, left + right))
    decreases |xs|
  {
    hide KvChunk;
    if xs == [] {
      assert [] + ys == ys;
      var whole := KvScan(ops, cache, position, ys);
      if whole.Some? {
        assert [] + whole.value.1 == whole.value.1;
      }
    } else {
      assert (xs + ys)[0] == xs[0] && (xs + ys)[1..] == xs[1..] + ys;
      var first := KvChunk(ops, cache, position, [xs[0]]);
      if first.Some? {
        KvScanAppend(ops, first.value.0, position + 1, xs[1..], ys);
        var left := KvScan(ops, first.value.0, position + 1, xs[1..]);
        if left.Some? {
          var right := KvScan(ops, left.value.0, position + |xs|, ys);
          if right.Some? {
            assert first.value.1 + (left.value.1 + right.value.1) == first.value.1 + left.value.1 + right.value.1;
          }
        }
      }
    }
  }

  lemma {:induction false} GdnScanAppend<V, R>(ops: GdnOps<V, R>, state: LinearState<V, R>, xs: seq<V>, ys: seq<V>)
    requires ops.kernel > 0
    ensures GdnScan(ops, state, xs + ys) ==
            match GdnScan(ops, state, xs)
            case None => None
            case Some((middle, left)) =>
              match GdnScan(ops, middle, ys)
              case None => None
              case Some((last, right)) => Some((last, left + right))
    decreases |xs|
  {
    hide GdnChunk;
    if xs == [] {
      assert [] + ys == ys;
      var whole := GdnScan(ops, state, ys);
      if whole.Some? {
        assert [] + whole.value.1 == whole.value.1;
      }
    } else {
      assert (xs + ys)[0] == xs[0] && (xs + ys)[1..] == xs[1..] + ys;
      var first := GdnChunk(ops, state, [xs[0]]);
      if first.Some? {
        GdnScanAppend(ops, first.value.0, xs[1..], ys);
        var left := GdnScan(ops, first.value.0, xs[1..]);
        if left.Some? {
          var right := GdnScan(ops, left.value.0, ys);
          if right.Some? {
            assert first.value.1 + (left.value.1 + right.value.1) == first.value.1 + left.value.1 + right.value.1;
          }
        }
      }
    }
  }

  /** Two chunks through a mixer, one after the other, the second at the later position. */
  function MixerTwice<V, R>(mixer: Mixer<V, R>, state: LayerState<V, R>, position: nat, xs: seq<V>,
                            ys: seq<V>): Option<(LayerState<V, R>, seq<V>)>
    requires Runnable(mixer)
  {
    match MixerChunk(mixer, state, position, xs)
    case None => None
    case Some((middle, left)) =>
      match MixerChunk(mixer, middle, position + |xs|, ys)
      case None => None
      case Some((last, right)) => Some((last, left + right))
  }

  lemma {:induction false} MixerSplits<V, R>(mixer: Mixer<V, R>, state: LayerState<V, R>, position: nat, xs: seq<V>,
                                             ys: seq<V>)
    requires Runnable(mixer) && xs != [] && ys != []
    ensures MixerChunk(mixer, state, position, xs + ys) == MixerTwice(mixer, state, position, xs, ys)
  {
    hide GdnChunk, KvChunk, GdnScan, KvScan;
    match (mixer, state) {
      case (Linear(gdn), LinearCache(linear)) =>
        GdnChunkIsScan(gdn, linear, xs + ys);
        GdnScanAppend(gdn, linear, xs, ys);
        GdnChunkIsScan(gdn, linear, xs);
        var left := GdnScan(gdn, linear, xs);
        if left.Some? {
          GdnChunkIsScan(gdn, left.value.0, ys);
        }
      case (Full(attention), FullCache(kv)) =>
        KvChunkIsScan(attention, kv, position, xs + ys);
        KvScanAppend(attention, kv, position, xs, ys);
        KvChunkIsScan(attention, kv, position, xs);
        var left := KvScan(attention, kv, position, xs);
        if left.Some? {
          KvChunkIsScan(attention, left.value.0, position + |xs|, ys);
        }
      case _ =>
    }
  }

  // ----- layers -----

  function LayerChunk<V, R>(layer: Layer<V, R>, state: LayerState<V, R>, position: nat, tokens: seq<Token<V>>)
    : (result: Option<(LayerState<V, R>, seq<Token<V>>)>)
    requires Runnable(layer.mixer)
    ensures result.Some? ==> |result.value.1| == |tokens|
  {
    match MixerChunk(layer.mixer, state, position, Normed(layer, tokens))
    case None => None
    case Some((next, mixed)) => Some((next, PassedAll(layer, tokens, mixed)))
  }

  lemma {:induction false} LayerSplits<V, R>(layer: Layer<V, R>, state: LayerState<V, R>, position: nat,
                                             xs: seq<Token<V>>, ys: seq<Token<V>>)
    requires Runnable(layer.mixer) && xs != [] && ys != []
    ensures LayerChunk(layer, state, position, xs + ys) ==
            match LayerChunk(layer, state, position, xs)
            case None => None
            case Some((middle, left)) =>
              match LayerChunk(layer, middle, position + |xs|, ys)
              case None => None
              case Some((last, right)) => Some((last, left + right))
  {
    hide MixerChunk, Passed;
    assert Normed(layer, xs + ys) == Normed(layer, xs) + Normed(layer, ys);
    MixerSplits(layer.mixer, state, position, Normed(layer, xs), Normed(layer, ys));
    var first := MixerChunk(layer.mixer, state, position, Normed(layer, xs));
    if first.Some? {
      var second := MixerChunk(layer.mixer, first.value.0, position + |xs|, Normed(layer, ys));
      if second.Some? {
        assert PassedAll(layer, xs + ys, first.value.1 + second.value.1)
            == PassedAll(layer, xs, first.value.1) + PassedAll(layer, ys, second.value.1);
      }
    }
  }

  // ----- the stack -----

  predicate AllRunnable<V, R>(layers: seq<Layer<V, R>>) {
    forall i | 0 <= i < |layers| :: Runnable(layers[i].mixer)
  }

  ghost predicate AllValid<V(!new), R>(layers: seq<Layer<V, R>>) {
    forall i | 0 <= i < |layers| :: ValidLayer(layers[i])
  }

  /** A chunk through every layer in turn, each over the whole chunk. */
  function StackChunk<V, R>(layers: seq<Layer<V, R>>, states: seq<LayerState<V, R>>, position: nat,
                            tokens: seq<Token<V>>)
    : (result: Option<(seq<LayerState<V, R>>, seq<Token<V>>)>)
    requires |layers| == |states| && AllRunnable(layers)
    ensures result.Some? ==> |result.value.0| == |states| && |result.value.1| == |tokens|
    decreases |layers|
  {
    if layers == [] then Some(([], tokens))
    else
      var last := |layers| - 1;
      match StackChunk(layers[..last], states[..last], position, tokens)
      case None => None
      case Some((before, middle)) =>
        match LayerChunk(layers[last], states[last], position, middle)
        case None => None
        case Some((next, passed)) => Some((before + [next], passed))
  }

  /** A stack that fails in its first layers fails as a whole. */
  lemma {:induction false} StackFailsEarly<V, R>(layers: seq<Layer<V, R>>, states: seq<LayerState<V, R>>,
                                                 position: nat, tokens: seq<Token<V>>, n: nat)
    requires |layers| == |states| && AllRunnable(layers) && n <= |layers|
    requires StackChunk(layers[..n], states[..n], position, tokens).None?
    ensures StackChunk(layers, states, position, tokens).None?
    decreases |layers|
  {
    hide LayerChunk;
    if n == |layers| {
      assert layers[..n] == layers && states[..n] == states;
    } else {
      var last := |layers| - 1;
      assert layers[..last][..n] == layers[..n] && states[..last][..n] == states[..n];
      StackFailsEarly(layers[..last], states[..last], position, tokens, n);
    }
  }

  /** Two chunks through a stack, one after the other, the second at the later position. */
  function StackTwice<V, R>(layers: seq<Layer<V, R>>, states: seq<LayerState<V, R>>, position: nat, xs: seq<Token<V>>,
                            ys: seq<Token<V>>)
    : Option<(seq<LayerState<V, R>>, seq<Token<V>>)>
    requires |layers| == |states| && AllRunnable(layers)
  {
    match StackChunk(layers, states, position, xs)
    case None => None
    case Some((middle, left)) =>
      match StackChunk(layers, middle, position + |xs|, ys)
      case None => None
      case Some((last, right)) => Some((last, left + right))
  }

  lemma {:induction false} StackSplits<V, R>(layers: seq<Layer<V, R>>, states: seq<LayerState<V, R>>, position: nat,
                                             xs: seq<Token<V>>, ys: seq<Token<V>>)
    requires |layers| == |states| && AllRunnable(layers) && xs != [] && ys != []
    ensures StackChunk(layers, states, position, xs + ys) == StackTwice(layers, states, position, xs, ys)
    decreases |layers|
  {
    hide LayerChunk;
    if layers == [] {
    } else {
      var last := |layers| - 1;
      StackSplits(layers[..last], states[..last], position, xs, ys);
      var first := StackChunk(layers[..last], states[..last], position, xs);
      if first.Some? {
        var (before, left) := first.value;
        var second := StackChunk(layers[..last], before, position + |xs|, ys);
        var lastLeft := LayerChunk(layers[last], states[last], position, left);
        if lastLeft.Some? {
          assert (before + [lastLeft.value.0])[..last] == before;
        }
        if second.Some? {
          LayerSplits(layers[last], states[last], position, left, second.value.1);
        }
      }
    }
  }

  // ----- sessions -----

  datatype Model<!V, !R, !L> = Model(
    vocabulary: nat,
    embed: nat -> V,
    layers: seq<Layer<V, R>>,
    finish: V -> L,
    hiddenSize: nat,
    maxPosition: nat)

  ghost predicate ValidModel<V(!new), R, L>(model: Model<V, R, L>) {
    AllValid(model.layers) && AllRunnable(model.layers)
  }

  datatype CacheState<V, R> = CacheState(layers: seq<LayerState<V, R>>, position: nat, maxPosition: nat,
                                         batchSize: Option<nat>)

  function EmptyState<V, R>(mixer: Mixer<V, R>): LayerState<V, R> {
    match mixer
    case Linear(_) => LinearCache(LinearState(None, None))
    case Full(_) => FullCache(KvCache(None, None))
  }

  function NewCache<V, R, L>(model: Model<V, R, L>): CacheState<V, R> {
    CacheState(seq(|model.layers|, i requires 0 <= i < |model.layers| => EmptyState(model.layers[i].mixer)), 0,
               model.maxPosition, None)
  }

  /** The checks before a step: geometry, batch binding, position limit, vocabulary. */
  predicate StepAllowed<V, R, L>(model: Model<V, R, L>, cache: CacheState<V, R>, batchSize: nat, tokens: seq<nat>) {
    && (forall i | 0 <= i < |tokens| :: tokens[i] < model.vocabulary)
    && |cache.layers| == |model.layers|
    && batchSize > 0 && tokens != []
    && (cache.batchSize.Some? ==> cache.batchSize.value == batchSize)
    && cache.position + |tokens| <= cache.maxPosition
  }

  function Embedded<V, R, L>(model: Model<V, R, L>, tokens: seq<nat>): (embedded: seq<Token<V>>)
    ensures |embedded| == |tokens|
  {
    seq(|tokens|, i requires 0 <= i < |tokens| => Token(model.embed(tokens[i]), []))
  }

  /** One session alone: the new cache and the positions that left the stack, or None when the step is refused. */
  function Isolated<V, R, L>(model: Model<V, R, L>, cache: CacheState<V, R>,
                             tokens: seq<nat>): (result: Option<(CacheState<V, R>, seq<Token<V>>)>)
    requires AllRunnable(model.layers)
    ensures result.Some? ==> |result.value.1| == |tokens| && result.value.0.position == cache.position + |tokens|
  {
    if !StepAllowed(model, cache, 1, tokens) then None
    else
      match StackChunk(model.layers, cache.layers, cache.position, Embedded(model, tokens))
      case None => None
      case Some((layers, passed)) =>
        Some((CacheState(layers, cache.position + |tokens|, cache.maxPosition, Some(1)), passed))
  }

  function Logits<V, R, L>(model: Model<V, R, L>, passed: seq<Token<V>>): seq<L> {
    seq(|passed|, i requires 0 <= i < |passed| => model.finish(passed[i].hidden))
  }

  lemma {:induction false} IsolatedSplits<V, R, L>(model: Model<V, R, L>, cache: CacheState<V, R>, xs: seq<nat>,
                                                   ys: seq<nat>)
    requires AllRunnable(model.layers) && xs != [] && ys != []
    ensures Isolated(model, cache, xs + ys) ==
            match Isolated(model, cache, xs)
            case None => None
            case Some((middle, left)) =>
              match Isolated(model, middle, ys)
              case None => None
              case Some((last, right)) => Some((last, left + right))
  {
    hide StackChunk;
    assert Embedded(model, xs + ys) == Embedded(model, xs) + Embedded(model, ys);
    assert forall i | 0 <= i < |xs| :: (xs + ys)[i] == xs[i];
    assert forall i | 0 <= i < |ys| :: (xs + ys)[|xs| + i] == ys[i];
    if |cache.layers| == |model.layers| {
      StackSplits(model.layers, cache.layers, cache.position, Embedded(model, xs), Embedded(model, ys));
    }
  }

  /** Feeds the chunks one step after another. */
  function Chunked<V, R, L>(model: Model<V, R, L>, cache: CacheState<V, R>,
                            chunks: seq<seq<nat>>): Option<(CacheState<V, R>, seq<Token<V>>)>
    requires AllRunnable(model.layers)
    decreases chunks
  {
    if chunks == [] then Some((cache, []))
    else
      match Isolated(model, cache, chunks[0])
      case None => None
      case Some((middle, left)) =>
        match Chunked(model, middle, chunks[1..])
        case None => None
        case Some((last, right)) => Some((last, left + right))
  }

  lemma {:induction false} FlattenNonEmpty<T>(chunks: seq<seq<T>>)
    requires chunks != [] && chunks[0] != []
    ensures Flatten(chunks) != []
  {
  }

  /**
   Prefill equals any chunked decode: whatever non-empty chunks a token sequence is fed in, the same
   steps are accepted, every position leaves the stack the same, with the same routes, and the
   final cache is the same.
   */
  lemma {:induction false} PrefillEqualsChunkedDecode<V, R, L>(model: Model<V, R, L>, cache: CacheState<V, R>,
                                                               chunks: seq<seq<nat>>)
    requires AllRunnable(model.layers) && chunks != []
    requires forall i | 0 <= i < |chunks| :: chunks[i] != []
    ensures Chunked(model, cache, chunks) == Isolated(model, cache, Flatten(chunks))
    decreases chunks
  {
    hide Isolated;
    var first := Isolated(model, cache, chunks[0]);
    if |chunks| == 1 {
      assert Flatten(chunks[1..]) == [];
      assert Flatten(chunks) == chunks[0];
      if first.Some? {
        assert first.value.1 + [] == first.value.1;
      }
    } else {
      FlattenNonEmpty(chunks[1..]);
      IsolatedSplits(model, cache, chunks[0], Flatten(chunks[1..]));
      if first.Some? {
        PrefillEqualsChunkedDecode(model, first.value.0, chunks[1..]);
      }
    }
  }

  // ----- caches that steps keep -----

  /** The state a layer reaches at a position: nothing at the start, afterwards exactly what the mixer reads. */
  predicate Fits<V, R>(mixer: Mixer<V, R>, state: LayerState<V, R>, position: nat)
    requires Runnable(mixer)
  {
    match (mixer, state)
    case (Linear(gdn), LinearCache(linear)) => History(gdn, linear.conv).Some?
    case (Full(_), FullCache(kv)) => Holds(kv, position)
    case _ => false
  }

  predicate Consistent<V, R, L>(model: Model<V, R, L>, cache: CacheState<V, R>)
    requires AllRunnable(model.layers)
  {
    && |cache.layers| == |model.layers|
    && (forall i | 0 <= i < |model.layers| :: Fits(model.layers[i].mixer, cache.layers[i], cache.position))
    && (cache.batchSize.Some? ==> cache.batchSize.value == 1)
    && cache.position <= cache.maxPosition
  }

  lemma {:induction false} MixerKeepsFit<V, R>(mixer: Mixer<V, R>, state: LayerState<V, R>, position: nat, xs: seq<V>)
    requires Runnable(mixer)
    ensures MixerChunk(mixer, state, position, xs).Some? <==> Fits(mixer, state, position)
    ensures MixerChunk(mixer, state, position, xs).Some? ==>
            Fits(mixer, MixerChunk(mixer, state, position, xs).value.0, position + |xs|)
  {
  }

  lemma {:induction false} StackKeepsFit<V, R>(layers: seq<Layer<V, R>>, states: seq<LayerState<V, R>>, position: nat,
                                               tokens: seq<Token<V>>)
    requires |layers| == |states| && AllRunnable(layers)
    requires forall i | 0 <= i < |layers| :: Fits(layers[i].mixer, states[i], position)
    ensures StackChunk(layers, states, position, tokens).Some?
    ensures forall i | 0 <= i < |layers| ::
              Fits(layers[i].mixer, StackChunk(layers, states, position, tokens).value.0[i], position + |tokens|)
    decreases |layers|
  {
    hide MixerChunk, Fits;
    if layers == [] {
    } else {
      var last := |layers| - 1;
      StackKeepsFit(layers[..last], states[..last], position, tokens);
      var middle := StackChunk(layers[..last], states[..last], position, tokens).value.1;
      MixerKeepsFit(layers[last].mixer, states[last], position, Normed(layers[last], middle));
    }
  }

  lemma {:induction false} NewCacheIsConsistent<V, R, L>(model: Model<V, R, L>)
    requires AllRunnable(model.layers)
    ensures Consistent(model, NewCache(model))
  {
  }

  /** On a consistent cache a step is refused only by the checks before it, and it leaves a consistent cache. */
  lemma {:induction false} StepsKeepConsistency<V, R, L>(model: Model<V, R, L>, cache: CacheState<V, R>,
                                                         tokens: seq<nat>)
    requires AllRunnable(model.layers) && Consistent(model, cache)
    ensures Isolated(model, cache, tokens).Some? <==>
            tokens != [] && (forall i | 0 <= i < |tokens| :: tokens[i] < model.vocabulary) &&
              cache.position + |tokens| <= cache.maxPosition
    ensures Isolated(model, cache, tokens).Some? ==> Consistent(model, Isolated(model, cache, tokens).value.0)
  {
    hide StackChunk, Fits;
    StackKeepsFit(model.layers, cache.layers, cache.position, Embedded(model, tokens));
  }

  // ----- what a layer and a stack compute -----

  /** What a layer's mixer, feed-forward part and shared expert give, when that does not depend on their input. */
  datatype Increment<V> = Increment(mixed: V, fed: V, shared: Option<V>)

  ghost predicate Gives<V(!new), R>(layer: Layer<V, R>, increment: Increment<V>) {
    && (match layer.mixer
        case Linear(gdn) => forall y, x {:trigger gdn.finish(y, x)} :: gdn.finish(y, x) == increment.mixed
        case Full(attention) =>
          forall x, y {:trigger attention.finish(x, y)} :: attention.finish(x, y) == increment.mixed)
    && match layer.mlp
       case Dense(apply) => (forall x :: apply(x) == increment.fed) && increment.shared.None?
       case Sparse(moe) => (forall x :: MoeToken(moe, x) == increment.fed) && increment.shared.None?
       case SparseShared(moe, shared) =>
         increment.shared.Some? &&
         forall x :: MoeToken(moe, x) == increment.fed && shared(x) == increment.shared.value
  }

  /** The residual stream after the first layers: each adds its mixer output, and then its feed-forward outputs. */
  function Stream<V, R>(layers: seq<Layer<V, R>>, increments: seq<Increment<V>>, hidden: V): V
    requires |layers| == |increments|
  {
    if layers == [] then hidden
    else
      var last := |layers| - 1;
      var (layer, increment) := (layers[last], increments[last]);
      var attended := layer.add(Stream(layers[..last], increments[..last], hidden), increment.mixed);
      match increment.shared
      case None => layer.add(attended, increment.fed)
      case Some(shared) => layer.add(attended, layer.add(increment.fed, shared))
  }

  lemma {:induction false} RecurrenceFinishes<V(!new), R>(ops: GdnOps<V, R>, state: R, features: seq<V>,
                                                          hidden: seq<V>, output: V, i: nat)
    requires |features| == |hidden| && i < |hidden|
    requires forall y, x {:trigger ops.finish(y, x)} :: ops.finish(y, x) == output
    ensures RecurAll(ops, state, features, hidden).1[i] == output
    decreases |hidden|
  {
    var last := |hidden| - 1;
    if i < last {
      RecurrenceFinishes(ops, state, features[..last], hidden[..last], output, i);
    }
  }

  lemma {:induction false} MixerGives<V(!new), R>(layer: Layer<V, R>, increment: Increment<V>, state: LayerState<V, R>,
                                                  position: nat, xs: seq<V>, i: nat)
    requires Gives(layer, increment) && Runnable(layer.mixer) && i < |xs|
    ensures MixerChunk(layer.mixer, state, position, xs).Some? ==>
            MixerChunk(layer.mixer, state, position, xs).value.1[i] == increment.mixed
  {
    hide RecurAll, Activated, Attend;
    match (layer.mixer, state) {
      case (Linear(gdn), LinearCache(linear)) =>
        var history := History(gdn, linear.conv);
        if history.Some? {
          var features := Activated(gdn, history.value + GatedDeltaNet.Projected(gdn, xs), |xs|);
          RecurrenceFinishes(gdn, Start(gdn, linear.recurrent), features, xs, increment.mixed, i);
        }
      case _ =>
    }
  }

  lemma {:induction false} StreamNext<V, R>(layers: seq<Layer<V, R>>, increments: seq<Increment<V>>, hidden: V)
    requires |layers| == |increments| && layers != []
    ensures
      var last := |layers| - 1;
      Stream(layers, increments, hidden)
      == Stream([layers[last]], [increments[last]], Stream(layers[..last], increments[..last], hidden))
  {
    var last := |layers| - 1;
    assert [layers[last]][..0] == [] && [increments[last]][..0] == [];
  }

  lemma {:induction false} LayerStreams<V(!new), R>(layer: Layer<V, R>, increment: Increment<V>,
                                                    state: LayerState<V, R>, position: nat, tokens: seq<Token<V>>,
                                                    i: nat)
    requires Gives(layer, increment) && Runnable(layer.mixer) && i < |tokens|
    ensures LayerChunk(layer, state, position, tokens).Some? ==>
            LayerChunk(layer, state, position, tokens).value.1[i].hidden
            == Stream([layer], [increment], tokens[i].hidden)
  {
    hide MixerChunk, MoeToken;
    MixerGives(layer, increment, state, position, Normed(layer, tokens), i);
    assert [layer][..0] == [] && [increment][..0] == [];
  }

  /** Whatever the layers give, a stack adds every output of every layer to the stream exactly once, in layer order. */
  lemma {:induction false} StackStreams<V(!new), R>(layers: seq<Layer<V, R>>, increments: seq<Increment<V>>,
                                                    states: seq<LayerState<V, R>>, position: nat,
                                                    tokens: seq<Token<V>>, i: nat)
    requires |layers| == |increments| == |states| && AllRunnable(layers) && i < |tokens|
    requires forall n | 0 <= n < |layers| :: Gives(layers[n], increments[n])
    ensures StackChunk(layers, states, position, tokens).Some? ==>
            StackChunk(layers, states, position, tokens).value.1[i].hidden
            == Stream(layers, increments, tokens[i].hidden)
    decreases |layers|
  {
    hide LayerChunk, Gives;
    if layers == [] {
    } else {
      var last := |layers| - 1;
      StackStreams(layers[..last], increments[..last], states[..last], position, tokens, i);
      StreamNext(layers, increments, tokens[i].hidden);
      hide Stream;
      var before := StackChunk(layers[..last], states[..last], position, tokens);
      if before.Some? {
        LayerStreams(layers[last], increments[last], states[last], position, before.value.1, i);
      }
    }
  }

  /** Layers that give the neutral element leave the stream as it was. */
  lemma {:induction false} NeutralStream<V(!new), R>(layers: seq<Layer<V, R>>, increments: seq<Increment<V>>,
                                                     hidden: V, zero: V)
    requires |layers| == |increments|
    requires forall n | 0 <= n < |layers| :: forall v {:trigger layers[n].add(v, zero)} :: layers[n].add(v, zero) == v
    requires forall n | 0 <= n < |layers| :: increments[n] == Increment(zero, zero, increments[n].shared)
    requires forall n | 0 <= n < |layers| && increments[n].shared.Some? :: increments[n].shared.value == zero
    ensures Stream(layers, increments, hidden) == hidden
    decreases |layers|
  {
    if layers == [] {
    } else {
      NeutralStream(layers[..|layers| - 1], increments[..|layers| - 1], hidden, zero);
    }
  }

  /** Over numbers the stream is the hidden state plus everything that was given. */
  function Given(increments: seq<Increment<real>>): real {
    if increments == [] then 0.0
    else
      var last := increments[|increments| - 1];
      Given(increments[..|increments| - 1])
      + (last.mixed + last.fed + if last.shared.Some? then last.shared.value else 0.0)
  }

  ghost predicate AddsReals<R>(layer: Layer<real, R>) {
    forall a, b {:trigger layer.add(a, b)} :: layer.add(a, b) == a + b
  }

  lemma {:induction false} StreamAddsUp<R>(layers: seq<Layer<real, R>>, increments: seq<Increment<real>>, hidden: real)
    requires |layers| == |increments| && forall n | 0 <= n < |layers| :: AddsReals(layers[n])
    ensures Stream(layers, increments, hidden) == hidden + Given(increments)
    decreases |layers|
  {
    if layers == [] {
    } else {
      var last := |layers| - 1;
      StreamAddsUp(layers[..last], increments[..last], hidden);
      var (layer, increment) := (layers[last], increments[last]);
      assert AddsReals(layer);
      var before := Stream(layers[..last], increments[..last], hidden);
      var attended := layer.add(before, increment.mixed);
      assert attended == before + increment.mixed;
      assert layer.add(attended, increment.fed) == attended + increment.fed;
    }
  }

  /** From the embedding of each token to its logits: a session's step in which every layer gives something fixed. */
  lemma {:induction false} StepStreams<V(!new), R, L>(model: Model<V, R, L>, increments: seq<Increment<V>>,
                                                      cache: CacheState<V, R>, tokens: seq<nat>, i: nat)
    requires AllRunnable(model.layers) && |increments| == |model.layers| && i < |tokens|
    requires forall n | 0 <= n < |model.layers| :: Gives(model.layers[n], increments[n])
    ensures Isolated(model, cache, tokens).Some? ==>
            Logits(model, Isolated(model, cache, tokens).value.1)[i]
            == model.finish(Stream(model.layers, increments, model.embed(tokens[i])))
  {
    hide StackChunk, Gives, Stream;
    if Isolated(model, cache, tokens).Some? {
      StackStreams(model.layers, increments, cache.layers, cache.position, Embedded(model, tokens), i);
    }
  }

  /**
   What the feed-forward part reads: the normalized sum of the hidden state and the mixer output. Over
   numbers, with a norm that scales by `norm`: a dense layer that scales by `gain` leaves
   (h + m)(1 + norm gain); a routed one adds its weighted experts, and a shared one its shared expert.
   */
  lemma {:induction false} LayerFeedsAttended<R>(layer: Layer<real, R>, token: Token<real>, mixed: real, norm: real,
                                                 gain: real)
    requires AddsReals(layer)
    requires forall x {:trigger layer.postNorm(x)} :: layer.postNorm(x) == Times(norm, x)
    ensures
      var attended := token.hidden + mixed;
      var x, passed := Times(norm, attended), Passed(layer, token, mixed);
      match layer.mlp
      case Dense(apply) =>
        && ((forall x {:trigger apply(x)} :: apply(x) == Times(gain, x)) ==>
              passed.hidden == attended + Times(gain, Times(norm, attended)))
        && passed.trace == token.trace + [None]
      case Sparse(moe) =>
        && (RoutesOverReals(moe, x) ==> passed.hidden == attended + RoutedSum(moe, x))
        && passed.trace == token.trace + [Some(Routed(moe, x))] && Routed(moe, x).logits == moe.router(x)
      case SparseShared(moe, shared) =>
        && (RoutesOverReals(moe, x) && (forall x {:trigger shared(x)} :: shared(x) == Times(gain, x)) ==>
              passed.hidden == attended + RoutedSum(moe, x) + Times(gain, Times(norm, attended)))
        && passed.trace == token.trace + [Some(Routed(moe, x))] && Routed(moe, x).logits == moe.router(x)
  {
    hide Times, WeightedSum, Partial;
    var x := Times(norm, token.hidden + mixed);
    if !layer.mlp.Dense? && RoutesOverReals(layer.mlp.moe, x) {
      var moe := layer.mlp.moe;
      ReductionIsWeightedSum(moe.experts, x, Routed(moe, x).selection, moe.config.numExperts, moe.config.numExperts);
    }
  }

  /** A routed layer over numbers with a proper selection. */
  ghost predicate RoutesOverReals(moe: Moe<real>, x: real) {
    ExpertReduction.OverReals(moe.experts) && ValidSelection(Routed(moe, x).selection, moe.config.numExperts)
  }

  function RoutedSum(moe: Moe<real>, x: real): real {
    WeightedSum(moe.experts, x, Routed(moe, x).selection, moe.config.numExperts)
  }

  /**
   The first token of a session through a full-attention layer over numbers. It attends to itself alone:
   with n the normalized hidden state and m the mixer's finish of n's own value, it leaves
   h + m + apply(postNorm(h + m)).
   */
  lemma {:induction false} FirstTokenThroughLayer<R>(layer: Layer<real, R>, token: Token<real>)
    requires layer.mixer.Full? && layer.mlp.Dense? && Runnable(layer.mixer)
    requires AddsReals(layer) && Attention.OverReals(layer.mixer.attention)
    ensures
      var attention, n := layer.mixer.attention, layer.inputNorm(token.hidden);
      var m := attention.finish(n, attention.value(n));
      var chunk := LayerChunk(layer, EmptyState(layer.mixer), 0, [token]);
      && chunk.Some?
      && chunk.value.1[0].hidden == token.hidden + m + layer.mlp.apply(layer.postNorm(token.hidden + m))
  {
    var attention, n := layer.mixer.attention, layer.inputNorm(token.hidden);
    assert Normed(layer, [token]) == [n];
    LoneTokenAttends(attention, n);
    hide KvChunk, Attention.OverReals;
  }

  /** A token alone gets its own value back from attention. */
  lemma {:induction false} LoneTokenAttends(attention: AttentionOps<real>, n: real)
    requires Attention.OverReals(attention) && (attention.window.Some? ==> attention.window.value > 0)
    ensures
      var chunk := KvChunk(attention, KvCache(None, None), 0, [n]);
      chunk.Some? && chunk.value.1 == [attention.finish(n, attention.value(n))]
  {
    SequenceIsSoftmax(attention, [n], 0);
    var scores := WindowScores(attention, [n], 0, 0);
    assert NewValues(attention, [n])[0..1] == [attention.value(n)] && scores == [scores[0]];
    assert attention.exp(scores[0].x) > 0.0;
    hide Attention.OverReals, WindowScores;
    LoneValue(attention.exp, scores[0].x, attention.value(n));
  }

  lemma {:induction false} LoneValue(exp: real -> real, score: real, value: real)
    requires exp(score) > 0.0
    ensures Normalizer(exp, [Finite(score)]) > 0.0
    ensures WeightedValues(exp, [Finite(score)], [value]) / Normalizer(exp, [Finite(score)]) == value
  {
    assert [Finite(score)][..0] == [] && [value][..0] == [];
    QuotientOf(value, exp(score) * value, exp(score));
  }
}
