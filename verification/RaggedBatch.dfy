/**
 Executing decoder steps: one session against resident weights, or many sessions together with the
 feed-forward inputs of all rows joined so that each expert is staged once per layer. Both are
 compared with the same description of one session alone.
 */
module RaggedBatch {
  import opened Wrappers
  import opened ExpertReduction
  import opened Router
  import opened Attention
  import opened GatedDeltaNet
  import opened Decoder

  // ----- the session cache -----

  class Session<V, R> {
    var layers: seq<LayerState<V, R>>
    var position: nat
    var maxPosition: nat
    var batchSize: Option<nat>

    function State(): CacheState<V, R>
      reads this
    {
      CacheState(layers, position, maxPosition, batchSize)
    }

    constructor (state: CacheState<V, R>)
      ensures State() == state
    {
      layers, position, maxPosition, batchSize := state.layers, state.position, state.maxPosition, state.batchSize;
    }

    method ValidateStep(layerCount: nat, batch: nat, sequenceLength: nat) returns (result: Result<()>)
      ensures result.Ok? <==>
        && |layers| == layerCount && batch > 0 && sequenceLength > 0
        && (batchSize.Some? ==> batchSize.value == batch)
        && position + sequenceLength <= maxPosition
      ensures result.Err? ==> result.error == InvalidTensor
    {
      if |layers| != layerCount {
        return Err(InvalidTensor);
      }
      if sequenceLength == 0 || batch == 0 {
        return Err(InvalidTensor);
      }
      if batchSize.Some? && batchSize.value != batch {
        return Err(InvalidTensor);
      }
      if position + sequenceLength > maxPosition {
        return Err(InvalidTensor);
      }
      result := Ok(());
    }

    method CommitStep(batch: nat, sequenceLength: nat)
      modifies this
      ensures State() == old(State()).(batchSize := Some(batch), position := old(position) + sequenceLength)
    {
      batchSize := Some(batch);
      position := position + sequenceLength;
    }

    /** Forgets every position and the batch binding; each layer is emptied by its own kind. */
    method Reset()
      modifies this
      ensures State() == Cleared(old(State()))
    {
      for layer := 0 to |layers|
        invariant |layers| == |old(layers)| && maxPosition == old(maxPosition)
        invariant forall i | 0 <= i < layer :: layers[i] == Emptied(old(layers)[i])
        invariant forall i | layer <= i < |layers| :: layers[i] == old(layers)[i]
      {
        match layers[layer] {
          case LinearCache(_) => layers := layers[layer := LinearCache(LinearState(None, None))];
          case FullCache(_) => layers := layers[layer := FullCache(KvCache(None, None))];
        }
      }
      position := 0;
      batchSize := None;
    }

    /** Publishes a prepared state in place of the current one. */
    method Replace(next: CacheState<V, R>)
      modifies this
      ensures State() == next
    {
      layers, position, maxPosition, batchSize := next.layers, next.position, next.maxPosition, next.batchSize;
    }
  }

  function Emptied<V, R>(state: LayerState<V, R>): LayerState<V, R> {
    match state
    case LinearCache(_) => LinearCache(LinearState(None, None))
    case FullCache(_) => FullCache(KvCache(None, None))
  }

  /** A session state without any position, in the layers it has. */
  function Cleared<V, R>(cache: CacheState<V, R>): CacheState<V, R> {
    CacheState(seq(|cache.layers|, i requires 0 <= i < |cache.layers| => Emptied(cache.layers[i])), 0,
               cache.maxPosition, None)
  }

  /** Whatever steps left in a session of a model, after a reset it is a new session of that model. */
  lemma {:induction false} ResetIsNew<V, R, L>(model: Model<V, R, L>, cache: CacheState<V, R>)
    requires AllRunnable(model.layers) && Consistent(model, cache) && cache.maxPosition == model.maxPosition
    ensures Cleared(cache) == NewCache(model)
  {
    forall i | 0 <= i < |model.layers|
      ensures Emptied(cache.layers[i]) == EmptyState(model.layers[i].mixer)
    {
      assert Fits(model.layers[i].mixer, cache.layers[i], cache.position);
    }
  }

  // ----- one layer -----

  method ForwardMixer<V(!new), R>(layer: Layer<V, R>, state: LayerState<V, R>, tokens: seq<Token<V>>, position: nat)
    returns (result: Result<seq<V>>, next: LayerState<V, R>)
    requires ValidLayer(layer) && Runnable(layer.mixer) && tokens != []
    ensures match MixerChunk(layer.mixer, state, position, Normed(layer, tokens))
            case None => result.Err?
            case Some((after, mixed)) => result == Ok(mixed) && next == after
  {
    hide GdnChunk, KvChunk;
    next := state;
    var normalized := Normed(layer, tokens);
    match (layer.mixer, state) {
      case (Linear(gdn), LinearCache(linear)) =>
        var output, after := GatedDeltaNet.Forward(gdn, normalized, linear);
        return output, LinearCache(after);
      case (Full(attention), FullCache(kv)) =>
        var output, after := Attention.Forward(attention, normalized, kv, position);
        return output, FullCache(after);
      case _ =>
        return Err(InvalidTensor), state;
    }
  }

  function MoeTokens<V>(moe: Moe<V>, xs: seq<V>): (ys: seq<V>)
    ensures |ys| == |xs|
  {
    seq(|xs|, i requires 0 <= i < |xs| => MoeToken(moe, xs[i]))
  }

  function Selections<V>(moe: Moe<V>, xs: seq<V>): (selections: seq<Selection>)
    ensures |selections| == |xs|
  {
    seq(|xs|, i requires 0 <= i < |xs| => Routed(moe, xs[i]).selection)
  }

  /** Routes every position of a layer input. */
  method Route<V(!new)>(moe: Moe<V>, xs: seq<V>) returns (routes: RoutedExpertBatch)
    requires ValidMoe(moe)
    ensures routes == RoutedExpertBatch(Selections(moe, xs), moe.config.numExperts) && routes.Valid()
    ensures Reduce(moe.experts, xs, routes.selections, routes.numExperts) == MoeTokens(moe, xs)
  {
    hide SelectRow, Partial;
    var logits := seq(|xs|, i requires 0 <= i < |xs| => moe.router(xs[i]));
    var routed := SelectRoutes(moe.exp, moe.config, logits);
    routes := routed.value;
    assert routes.selections == Selections(moe, xs);
  }

  /** A routed layer on resident experts. */
  method MoeResident<V(!new)>(moe: Moe<V>, xs: seq<V>) returns (ys: seq<V>, routes: RoutedExpertBatch)
    requires ValidMoe(moe)
    ensures ys == MoeTokens(moe, xs)
    ensures routes == RoutedExpertBatch(Selections(moe, xs), moe.config.numExperts)
  {
    routes := Route(moe, xs);
    ys := ResidentForward(moe.experts, xs, routes);
  }

  /** How the weight groups of one layer come in: their order of arrival and when cancellation is seen. */
  datatype Staging = Staging(arrivals: seq<nat>, cancelled: nat -> bool)

  predicate Delivers(staging: Staging, groups: nat) {
    DeliversOnce(staging.arrivals, groups) && forall i | 0 <= i <= |staging.arrivals| :: !staging.cancelled(i)
  }

  /** A routed layer on experts that are staged group by group. */
  method MoeStreamed<V(!new)>(moe: Moe<V>, xs: seq<V>, staging: nat -> Staging)
    returns (result: Result<seq<V>>, routes: RoutedExpertBatch)
    requires ValidMoe(moe)
    ensures routes == RoutedExpertBatch(Selections(moe, xs), moe.config.numExperts)
    ensures result.Ok? <==> Delivers(staging(|routes.Experts()|), |routes.Experts()|)
    ensures result.Ok? ==> result.value == MoeTokens(moe, xs)
  {
    routes := Route(moe, xs);
    var groups := staging(|routes.Experts()|);
    result := StreamedForward(moe.experts, xs, routes, groups.arrivals, groups.cancelled);
  }

  // ----- one session, resident weights -----

  /** Every layer in turn over one session's tokens. */
  method RunStackResident<V(!new), R>(layers: seq<Layer<V, R>>, entry: seq<LayerState<V, R>>, position: nat,
                                      tokens: seq<Token<V>>)
    returns (result: Result<seq<Token<V>>>, next: seq<LayerState<V, R>>)
    requires AllValid(layers) && AllRunnable(layers) && |layers| == |entry| && tokens != []
    ensures match StackChunk(layers, entry, position, tokens)
            case None => result.Err?
            case Some((after, passed)) => result == Ok(passed) && next == after
  {
    hide LayerChunk;
    next := entry;
    var hidden := tokens;
    assert layers[..0] == [] && entry[..0] == [];
    for n := 0 to |layers|
      invariant |next| == |entry| && next[n..] == entry[n..]
      invariant StackChunk(layers[..n], entry[..n], position, tokens) == Some((next[..n], hidden))
    {
      StackNext(layers, entry, position, tokens, n);
      assert next[n] == next[n..][0] == entry[n..][0];
      var output, state := ForwardLayerResident(layers[n], next[n], position, hidden);
      if output.Err? {
        StackFailsEarly(layers, entry, position, tokens, n + 1);
        return Err(output.error), next;
      }
      hidden := output.value;
      assert next[..n] + [state] == next[n := state][..n + 1];
      next := next[n := state];
    }
    assert layers[..|layers|] == layers && entry[..|layers|] == entry && next[..|next|] == next;
    result := Ok(hidden);
  }

  /** Clones the session state, runs every layer on the clone, and publishes it only when all of it succeeded. */
  method ForwardResident<V(!new), R, L>(model: Model<V, R, L>, tokens: seq<nat>, cache: Session<V, R>)
    returns (result: Result<(seq<L>, seq<Token<V>>)>)
    requires ValidModel(model)
    modifies cache
    ensures match Isolated(model, old(cache.State()), tokens)
            case None => result.Err? && cache.State() == old(cache.State())
            case Some((next, passed)) => result == Ok((Logits(model, passed), passed)) && cache.State() == next
  {
    hide StackChunk;
    if exists i | 0 <= i < |tokens| :: tokens[i] >= model.vocabulary {
      return Err(InvalidTensor);
    }
    var valid := cache.ValidateStep(|model.layers|, 1, |tokens|);
    if valid.Err? {
      return Err(valid.error);
    }
    var position := cache.position;
    var hidden, next := RunStackResident(model.layers, cache.layers, position, Embedded(model, tokens));
    if hidden.Err? {
      return Err(hidden.error);
    }
    cache.Replace(CacheState(next, position, cache.maxPosition, cache.batchSize));
    cache.CommitStep(1, |tokens|);
    result := Ok((Logits(model, hidden.value), hidden.value));
  }

  lemma {:induction false} StackNext<V, R>(layers: seq<Layer<V, R>>, states: seq<LayerState<V, R>>, position: nat,
                                           tokens: seq<Token<V>>, n: nat)
    requires |layers| == |states| && AllRunnable(layers) && n < |layers|
    ensures StackChunk(layers[..n + 1], states[..n + 1], position, tokens) ==
            match StackChunk(layers[..n], states[..n], position, tokens)
            case None => None
            case Some((before, middle)) =>
              match LayerChunk(layers[n], states[n], position, middle)
              case None => None
              case Some((next, passed)) => Some((before + [next], passed))
  {
    assert layers[..n + 1][..n] == layers[..n] && states[..n + 1][..n] == states[..n];
  }

  function Attended<V, R>(layer: Layer<V, R>, tokens: seq<Token<V>>, mixed: seq<V>): (attended: seq<V>)
    requires |tokens| == |mixed|
    ensures |attended| == |tokens|
  {
    seq(|tokens|, i requires 0 <= i < |tokens| => layer.add(tokens[i].hidden, mixed[i]))
  }

  /** The feed-forward inputs of a row: its attended states, normalized. */
  function MlpInputs<V, R>(layer: Layer<V, R>, attended: seq<V>): (xs: seq<V>)
    ensures |xs| == |attended|
  {
    seq(|attended|, i requires 0 <= i < |attended| => layer.postNorm(attended[i]))
  }

  /** The residual sum of a row, with the routed outputs given for routed layers. */
  function Combined<V, R>(layer: Layer<V, R>, tokens: seq<Token<V>>, attended: seq<V>,
                          routed: seq<V>): (passed: seq<Token<V>>)
    requires |tokens| == |attended| == |routed|
    ensures |passed| == |tokens|
  {
    seq(|tokens|, i requires 0 <= i < |tokens| =>
      var x := layer.postNorm(attended[i]);
      var fed := match layer.mlp
        case Dense(apply) => apply(x)
        case Sparse(_) => routed[i]
        case SparseShared(_, shared) => layer.add(routed[i], shared(x));
      Token(layer.add(attended[i], fed), tokens[i].trace + [TraceOf(layer.mlp, x)]))
  }

  lemma {:induction false} CombinedIsPassed<V, R>(layer: Layer<V, R>, tokens: seq<Token<V>>, mixed: seq<V>,
                                                  routed: seq<V>)
    requires |tokens| == |mixed| == |routed|
    requires !layer.mlp.Dense? ==> routed == MoeTokens(layer.mlp.moe, MlpInputs(layer, Attended(layer, tokens, mixed)))
    ensures Combined(layer, tokens, Attended(layer, tokens, mixed), routed) == PassedAll(layer, tokens, mixed)
  {
    hide MoeToken, Routed;
  }

  method ForwardLayerResident<V(!new), R>(layer: Layer<V, R>, state: LayerState<V, R>, position: nat,
                                          tokens: seq<Token<V>>)
    returns (result: Result<seq<Token<V>>>, next: LayerState<V, R>)
    requires ValidLayer(layer) && Runnable(layer.mixer) && tokens != []
    ensures match LayerChunk(layer, state, position, tokens)
            case None => result.Err?
            case Some((after, passed)) => result == Ok(passed) && next == after
  {
    hide MixerChunk;
    var mixed;
    mixed, next := ForwardMixer(layer, state, tokens, position);
    if mixed.Err? {
      return Err(mixed.error), next;
    }
    var attended := Attended(layer, tokens, mixed.value);
    var routed := attended;
    if !layer.mlp.Dense? {
      var routes;
      routed, routes := MoeResident(layer.mlp.moe, MlpInputs(layer, attended));
    }
    CombinedIsPassed(layer, tokens, mixed.value, routed);
    result := Ok(Combined(layer, tokens, attended, routed));
  }

  // ----- joined rows -----

  function Lengths<T>(rows: seq<seq<T>>): nat {
    |Flatten(rows)|
  }

  lemma {:induction false} FlattenSnoc<T>(rows: seq<seq<T>>, row: seq<T>)
    ensures Flatten(rows + [row]) == Flatten(rows) + row
    decreases rows
  {
    if rows == [] {
      assert [row][1..] == [];
    } else {
      assert (rows + [row])[0] == rows[0] && (rows + [row])[1..] == rows[1..] + [row];
      FlattenSnoc(rows[1..], row);
    }
  }

  /** Row `k` of the joined input starts where the rows before it end. */
  lemma {:induction false} FlattenRow<T>(rows: seq<seq<T>>, k: nat)
    requires k < |rows|
    ensures Lengths(rows[..k]) + |rows[k]| == Lengths(rows[..k + 1]) <= Lengths(rows)
    ensures Flatten(rows)[Lengths(rows[..k])..Lengths(rows[..k + 1])] == rows[k]
    decreases |rows|
  {
    assert rows[..k + 1] == rows[..k] + [rows[k]];
    FlattenSnoc(rows[..k], rows[k]);
    FlattenPrefix(rows, k + 1);
    var whole := Flatten(rows);
    assert whole[..Lengths(rows[..k + 1])] == Flatten(rows[..k]) + rows[k];
    assert whole[Lengths(rows[..k])..Lengths(rows[..k + 1])] == whole[..Lengths(rows[..k + 1])][Lengths(rows[..k])..];
  }

  lemma {:induction false} FlattenPrefix<T>(rows: seq<seq<T>>, k: nat)
    requires k <= |rows|
    ensures Flatten(rows[..k]) <= Flatten(rows)
    decreases |rows| - k
  {
    if k == |rows| {
      assert rows[..k] == rows;
    } else {
      assert rows[..k + 1] == rows[..k] + [rows[k]];
      FlattenSnoc(rows[..k], rows[k]);
      FlattenPrefix(rows, k + 1);
    }
  }

  lemma {:induction false} MoeTokensOfJoined<V>(moe: Moe<V>, xs: seq<V>, from: nat, to: nat)
    requires from <= to <= |xs|
    ensures MoeTokens(moe, xs)[from..to] == MoeTokens(moe, xs[from..to])
  {
    hide MoeToken;
  }

  /** One layer over all rows: what each row keeps and passes on. */
  ghost predicate RowsPassed<V, R>(layer: Layer<V, R>, states: seq<LayerState<V, R>>, positions: seq<nat>,
                                   rows: seq<seq<Token<V>>>, next: seq<LayerState<V, R>>, passed: seq<seq<Token<V>>>)
    requires |states| == |positions| == |rows| && Runnable(layer.mixer)
  {
    && |next| == |passed| == |rows|
    && forall k | 0 <= k < |rows| :: LayerChunk(layer, states[k], positions[k], rows[k]) == Some((next[k], passed[k]))
  }

  predicate TraceLengths<V>(tokens: seq<seq<Token<V>>>, n: nat) {
    forall k, i | 0 <= k < |tokens| && 0 <= i < |tokens[k]| :: |tokens[k][i].trace| == n
  }

  /** The selections of one layer for all rows, joined in row order. */
  function JoinedSelections<V>(passed: seq<seq<Token<V>>>, layer: nat): seq<Selection> {
    var rows := seq(|passed|, k requires 0 <= k < |passed| => RowSelections(passed[k], layer));
    Flatten(rows)
  }

  function SelectionAt<V>(token: Token<V>, layer: nat): Selection {
    if layer < |token.trace| && token.trace[layer].Some? then token.trace[layer].value.selection else []
  }

  function RowSelections<V>(row: seq<Token<V>>, layer: nat): (selections: seq<Selection>)
    ensures |selections| == |row|
  {
    seq(|row|, i requires 0 <= i < |row| => SelectionAt(row[i], layer))
  }

  /** The mixers of every row, each on its own state. */
  method MixRows<V(!new), R>(layer: Layer<V, R>, states: seq<LayerState<V, R>>, positions: seq<nat>,
                             rows: seq<seq<Token<V>>>)
    returns (result: Result<seq<seq<V>>>, next: seq<LayerState<V, R>>)
    requires ValidLayer(layer) && Runnable(layer.mixer) && |states| == |positions| == |rows|
    requires forall k | 0 <= k < |rows| :: rows[k] != []
    ensures result.Ok? ==> |next| == |result.value| == |rows|
    ensures result.Ok? ==> forall k | 0 <= k < |rows| ::
              MixerChunk(layer.mixer, states[k], positions[k], Normed(layer, rows[k]))
                == Some((next[k], result.value[k]))
    ensures result.Err? ==> exists k | 0 <= k < |rows| :: LayerChunk(layer, states[k], positions[k], rows[k]).None?
  {
    hide MixerChunk;
    var mixed: seq<seq<V>> := [];
    next := [];
    for k := 0 to |rows|
      invariant |mixed| == |next| == k
      invariant forall j | 0 <= j < k ::
                MixerChunk(layer.mixer, states[j], positions[j], Normed(layer, rows[j])) == Some((next[j], mixed[j]))
    {
      var output, state := ForwardMixer(layer, states[k], rows[k], positions[k]);
      if output.Err? {
        assert LayerChunk(layer, states[k], positions[k], rows[k]).None?;
        return Err(output.error), next;
      }
      mixed, next := mixed + [output.value], next + [state];
    }
    result := Ok(mixed);
  }

  /** The routed outputs of every row, cut out of the outputs of the joined input. */
  method CutRows<V>(inputs: seq<seq<V>>, joined: seq<V>, ghost moe: Moe<V>) returns (cut: seq<seq<V>>)
    requires joined == MoeTokens(moe, Flatten(inputs))
    ensures |cut| == |inputs| && forall k | 0 <= k < |inputs| :: cut[k] == MoeTokens(moe, inputs[k])
  {
    var start := 0;
    cut := [];
    assert inputs[..0] == [];
    for k := 0 to |inputs|
      invariant |cut| == k && start == Lengths(inputs[..k])
      invariant forall j | 0 <= j < k :: cut[j] == MoeTokens(moe, inputs[j])
    {
      FlattenRow(inputs, k);
      var end := start + |inputs[k]|;
      MoeTokensOfJoined(moe, Flatten(inputs), start, end);
      cut := cut + [joined[start..end]];
      start := end;
    }
  }

  /**
   One layer of the batch: mixers row by row, then one routed reduction over the joined inputs, cut
   back into rows. It fails only when some row alone would fail or the staging does not deliver.
   */
  method ForwardLayer<V(!new), R>(layer: Layer<V, R>, states: seq<LayerState<V, R>>, positions: seq<nat>,
                                  rows: seq<seq<Token<V>>>, staging: nat -> Staging)
    returns (result: Result<seq<seq<Token<V>>>>, next: seq<LayerState<V, R>>, union: Option<RoutedExpertBatch>)
    requires ValidLayer(layer) && Runnable(layer.mixer) && |states| == |positions| == |rows|
    requires forall k | 0 <= k < |rows| :: rows[k] != []
    ensures result.Ok? ==> RowsPassed(layer, states, positions, rows, next, result.value)
    ensures result.Ok? ==> (union.None? <==> layer.mlp.Dense?)
    ensures result.Ok? && union.Some? ==> forall n: nat | TraceLengths(rows, n) ::
              union.value == RoutedExpertBatch(JoinedSelections(result.value, n), layer.mlp.moe.config.numExperts)
    ensures result.Err? ==>
      || (exists k | 0 <= k < |rows| :: LayerChunk(layer, states[k], positions[k], rows[k]).None?)
      || (exists groups: nat :: !Delivers(staging(groups), groups))
  {
    hide MixerChunk, MoeToken, Routed;
    union := None;
    var mixed;
    mixed, next := MixRows(layer, states, positions, rows);
    if mixed.Err? {
      return Err(mixed.error), next, union;
    }
    var attended := seq(|rows|, k requires 0 <= k < |rows| => Attended(layer, rows[k], mixed.value[k]));
    var inputs := seq(|rows|, k requires 0 <= k < |rows| => MlpInputs(layer, attended[k]));
    var routed := attended;
    if !layer.mlp.Dense? {
      var joined, routes := MoeStreamed(layer.mlp.moe, Flatten(inputs), staging);
      if joined.Err? {
        return Err(joined.error), next, union;
      }
      union := Some(routes);
      routed := CutRows(inputs, joined.value, layer.mlp.moe);
    }
    var passed := seq(|rows|, k requires 0 <= k < |rows| => Combined(layer, rows[k], attended[k], routed[k]));
    forall k | 0 <= k < |rows|
      ensures LayerChunk(layer, states[k], positions[k], rows[k]) == Some((next[k], passed[k]))
    {
      CombinedIsPassed(layer, rows[k], mixed.value[k], routed[k]);
    }
    if !layer.mlp.Dense? {
      JoinedRoutes(layer, rows, attended, inputs, routed, passed);
    }
    result := Ok(passed);
  }

  /** The joined selections of a routed layer are those its tokens record. */
  lemma {:induction false} JoinedRoutes<V, R>(layer: Layer<V, R>, rows: seq<seq<Token<V>>>, attended: seq<seq<V>>,
                                              inputs: seq<seq<V>>, routed: seq<seq<V>>, passed: seq<seq<Token<V>>>)
    requires !layer.mlp.Dense?
    requires |rows| == |attended| == |inputs| == |routed| == |passed|
    requires forall k | 0 <= k < |rows| ::
             |rows[k]| == |attended[k]| == |routed[k]| && inputs[k] == MlpInputs(layer, attended[k])
    requires forall k | 0 <= k < |rows| :: passed[k] == Combined(layer, rows[k], attended[k], routed[k])
    ensures forall n: nat | TraceLengths(rows, n) ::
              JoinedSelections(passed, n) == Selections(layer.mlp.moe, Flatten(inputs))
  {
    hide Routed;
    forall n: nat | TraceLengths(rows, n)
      ensures JoinedSelections(passed, n) == Selections(layer.mlp.moe, Flatten(inputs))
    {
      var selections := seq(|passed|, k requires 0 <= k < |passed| => RowSelections(passed[k], n));
      forall k | 0 <= k < |rows|
        ensures selections[k] == Selections(layer.mlp.moe, inputs[k])
      {
        assert |RowSelections(passed[k], n)| == |Selections(layer.mlp.moe, inputs[k])|;
      }
      FlattenSelections(layer.mlp.moe, inputs, selections);
    }
  }

  lemma {:induction false} FlattenSelections<V>(moe: Moe<V>, inputs: seq<seq<V>>, selections: seq<seq<Selection>>)
    requires |inputs| == |selections| && forall k | 0 <= k < |inputs| :: selections[k] == Selections(moe, inputs[k])
    ensures Flatten(selections) == Selections(moe, Flatten(inputs))
    decreases |inputs|
  {
    hide Routed;
    if inputs == [] {
    } else {
      FlattenSelections(moe, inputs[1..], selections[1..]);
      assert Selections(moe, inputs[0] + Flatten(inputs[1..])) == Selections(moe, inputs[0])
             + Selections(moe, Flatten(inputs[1..]));
    }
  }

  // ----- the whole batch -----

  /** A session taking part in a batch, with the batch dimension its token tensor declares. */
  datatype Row<V, R> = Row(batchDimension: nat, tokens: seq<nat>, cache: Session<V, R>)

  datatype Limits = Limits(maxRows: nat, maxGraphNodes: nat, maxInputBytes: nat, maxElements: nat)

  /** Staging of every layer, and whether cancellation is seen at the numbered checks of the batch. */
  datatype Environment = Environment(staging: nat -> nat -> Staging, cancelled: nat -> bool)

  ghost predicate Reliable(environment: Environment) {
    && (forall layer: nat, groups: nat :: Delivers(environment.staging(layer)(groups), groups))
    && (forall check: nat :: !environment.cancelled(check))
  }

  datatype BatchOutput<V, L> = BatchOutput(logits: seq<seq<L>>, passed: seq<seq<Token<V>>>,
                                           unions: seq<Option<RoutedExpertBatch>>)

  function TotalTokens<V, R>(rows: seq<Row<V, R>>): nat {
    if rows == [] then 0 else TotalTokens(rows[..|rows| - 1]) + |rows[|rows| - 1].tokens|
  }

  predicate WithinLimits<V, R>(rows: seq<Row<V, R>>, limits: Limits, hiddenSize: nat) {
    && rows != []
    && |rows| <= limits.maxRows && |rows| <= limits.maxGraphNodes
    && 4 * TotalTokens(rows) <= limits.maxInputBytes
    && TotalTokens(rows) * hiddenSize <= limits.maxElements
  }

  predicate SeparateSessions<V, R>(rows: seq<Row<V, R>>) {
    forall i, j | 0 <= i < j < |rows| :: rows[i].cache != rows[j].cache
  }

  /** Every row would be accepted and would succeed alone. */
  ghost predicate RowsSucceedAlone<V, R, L>(model: Model<V, R, L>, states: seq<CacheState<V, R>>, rows: seq<Row<V, R>>)
    requires AllRunnable(model.layers) && |states| == |rows|
  {
    forall k | 0 <= k < |rows| :: rows[k].batchDimension == 1 && Isolated(model, states[k], rows[k].tokens).Some?
  }

  function States<V, R>(rows: seq<Row<V, R>>): (states: seq<CacheState<V, R>>)
    reads set k | 0 <= k < |rows| :: rows[k].cache
    ensures |states| == |rows|
  {
    seq(|rows|, k requires 0 <= k < |rows| reads (if 0 <= k < |rows| then {rows[k].cache} else {}) =>
        rows[k].cache.State())
  }

  /** The rows after the first `n` layers: each is where it would be alone. */
  ghost predicate RowsReached<V, R>(layers: seq<Layer<V, R>>, entry: seq<CacheState<V, R>>,
                                    embedded: seq<seq<Token<V>>>, n: nat, next: seq<seq<LayerState<V, R>>>,
                                    tokens: seq<seq<Token<V>>>)
    requires AllRunnable(layers) && n <= |layers| && |entry| == |embedded|
    requires forall k | 0 <= k < |entry| :: |entry[k].layers| == |layers|
  {
    && |next| == |tokens| == |entry|
    && forall k | 0 <= k < |entry| ::
         && |next[k]| == |layers| && next[k][n..] == entry[k].layers[n..]
         && StackChunk(layers[..n], entry[k].layers[..n], entry[k].position, embedded[k])
            == Some((next[k][..n], tokens[k]))
  }

  /** Checks the rows and clones their states. */
  method PrepareRows<V, R, L>(model: Model<V, R, L>, rows: seq<Row<V, R>>, limits: Limits)
    returns (result: Result<seq<CacheState<V, R>>>)
    ensures result.Ok? <==> (
      && WithinLimits(rows, limits, model.hiddenSize)
      && forall k | 0 <= k < |rows| ::
         rows[k].batchDimension == 1 && StepAllowed(model, rows[k].cache.State(), 1, rows[k].tokens))
    ensures result.Ok? ==> result.value == States(rows)
  {
    if rows == [] {
      return Err(InvalidTensor);
    }
    if |rows| > limits.maxRows || |rows| > limits.maxGraphNodes {
      return Err(InvalidTensor);
    }
    var states: seq<CacheState<V, R>> := [];
    var totalInputBytes, totalPositions := 0, 0;
    for k := 0 to |rows|
      invariant totalPositions == TotalTokens(rows[..k]) && totalInputBytes == 4 * totalPositions
      invariant |states| == k && forall j | 0 <= j < k :: states[j] == rows[j].cache.State()
      invariant forall j | 0 <= j < k ::
                rows[j].batchDimension == 1 && StepAllowed(model, rows[j].cache.State(), 1, rows[j].tokens)
    {
      var row := rows[k];
      if exists i | 0 <= i < |row.tokens| :: row.tokens[i] >= model.vocabulary {
        return Err(InvalidTensor);
      }
      var valid := row.cache.ValidateStep(|model.layers|, row.batchDimension, |row.tokens|);
      if valid.Err? {
        return Err(valid.error);
      }
      if row.batchDimension != 1 {
        return Err(InvalidTensor);
      }
      assert rows[..k + 1][..k] == rows[..k];
      totalPositions := totalPositions + |row.tokens|;
      totalInputBytes := totalInputBytes + 4 * |row.tokens|;
      states := states + [row.cache.State()];
    }
    assert rows[..|rows|] == rows;
    if totalInputBytes > limits.maxInputBytes {
      return Err(InvalidTensor);
    }
    if totalPositions * model.hiddenSize > limits.maxElements {
      return Err(Power);
    }
    result := Ok(states);
  }

  /** Every layer in turn over all rows. */
  method RunLayers<V(!new), R, L>(model: Model<V, R, L>, entry: seq<CacheState<V, R>>, embedded: seq<seq<Token<V>>>,
                                  environment: Environment)
    returns (result: Result<seq<seq<Token<V>>>>, next: seq<seq<LayerState<V, R>>>,
             unions: seq<Option<RoutedExpertBatch>>)
    requires ValidModel(model) && |entry| == |embedded|
    requires forall k | 0 <= k < |entry| :: |entry[k].layers| == |model.layers|
    requires forall k | 0 <= k < |entry| :: embedded[k] != [] && forall i | 0 <= i < |embedded[k]| ::
             embedded[k][i].trace == []
    ensures result.Ok? ==> |next| == |result.value| == |entry|
    ensures result.Ok? ==> forall k | 0 <= k < |entry| ::
              StackChunk(model.layers, entry[k].layers, entry[k].position, embedded[k])
                == Some((next[k], result.value[k]))
    ensures result.Ok? ==> UnionsRecorded(model.layers, |model.layers|, unions, result.value)
    ensures result.Err? ==>
      || (exists k | 0 <= k < |entry| ::
          StackChunk(model.layers, entry[k].layers, entry[k].position, embedded[k]).None?)
      || !Reliable(environment)
  {
    hide LayerChunk, StackChunk, RowsReached, UnionsRecorded, TraceLengths;
    var tokens := embedded;
    var positions := seq(|entry|, k requires 0 <= k < |entry| => entry[k].position);
    next := seq(|entry|, k requires 0 <= k < |entry| => entry[k].layers);
    unions := [];
    RowsStart(model.layers, entry, embedded, next, unions);
    for n := 0 to |model.layers|
      invariant RowsReached(model.layers, entry, embedded, n, next, tokens)
      invariant TraceLengths(tokens, n) && UnionsRecorded(model.layers, n, unions, tokens)
    {
      RowsShape(model.layers, entry, embedded, n, next, tokens);
      if environment.cancelled(2 * n + 1) {
        return Err(Cancelled), next, unions;
      }
      var states := seq(|entry|, k requires 0 <= k < |entry| => next[k][n]);
      var passed, after, union := ForwardLayer(model.layers[n], states, positions, tokens, environment.staging(n));
      if passed.Err? {
        LayerFailure(model.layers, entry, embedded, n, next, tokens);
        return Err(passed.error), next, unions;
      }
      if union.Some? && environment.cancelled(2 * n + 2) {
        return Err(Cancelled), next, unions;
      }
      LayerAdvance(model.layers, entry, embedded, n, next, tokens, after, passed.value);
      UnionsAdvance(model.layers, n, states, positions, unions, tokens, after, passed.value, union);
      next := seq(|entry|, k requires 0 <= k < |entry| => next[k][n := after[k]]);
      tokens := passed.value;
      unions := unions + [union];
    }
    RowsDone(model.layers, entry, embedded, next, tokens);
    result := Ok(tokens);
  }

  lemma {:induction false} RowsStart<V, R>(layers: seq<Layer<V, R>>, entry: seq<CacheState<V, R>>,
                                           embedded: seq<seq<Token<V>>>, next: seq<seq<LayerState<V, R>>>,
                                           unions: seq<Option<RoutedExpertBatch>>)
    requires AllRunnable(layers) && |entry| == |embedded| == |next| && unions == []
    requires forall k | 0 <= k < |entry| :: |entry[k].layers| == |layers| && next[k] == entry[k].layers
    requires forall k | 0 <= k < |entry| :: forall i | 0 <= i < |embedded[k]| :: embedded[k][i].trace == []
    ensures RowsReached(layers, entry, embedded, 0, next, embedded)
    ensures TraceLengths(embedded, 0) && UnionsRecorded(layers, 0, unions, embedded)
  {
    assert layers[..0] == [] && forall k | 0 <= k < |entry| :: entry[k].layers[..0] == [];
  }

  lemma {:induction false} RowsShape<V, R>(layers: seq<Layer<V, R>>, entry: seq<CacheState<V, R>>,
                                           embedded: seq<seq<Token<V>>>, n: nat, next: seq<seq<LayerState<V, R>>>,
                                           tokens: seq<seq<Token<V>>>)
    requires AllRunnable(layers) && n <= |layers| && |entry| == |embedded|
    requires forall k | 0 <= k < |entry| :: |entry[k].layers| == |layers|
    requires RowsReached(layers, entry, embedded, n, next, tokens)
    ensures |next| == |tokens| == |entry|
    ensures forall k | 0 <= k < |entry| :: |next[k]| == |layers| && |tokens[k]| == |embedded[k]|
  {
  }

  lemma {:induction false} RowsDone<V, R>(layers: seq<Layer<V, R>>, entry: seq<CacheState<V, R>>,
                                          embedded: seq<seq<Token<V>>>, next: seq<seq<LayerState<V, R>>>,
                                          tokens: seq<seq<Token<V>>>)
    requires AllRunnable(layers) && |entry| == |embedded|
    requires forall k | 0 <= k < |entry| :: |entry[k].layers| == |layers|
    requires RowsReached(layers, entry, embedded, |layers|, next, tokens)
    ensures |next| == |tokens| == |entry|
    ensures forall k | 0 <= k < |entry| ::
              StackChunk(layers, entry[k].layers, entry[k].position, embedded[k]) == Some((next[k], tokens[k]))
  {
    hide StackChunk;
    forall k | 0 <= k < |entry|
      ensures StackChunk(layers, entry[k].layers, entry[k].position, embedded[k]) == Some((next[k], tokens[k]))
    {
      assert layers[..|layers|] == layers && entry[k].layers[..|layers|] == entry[k].layers &&
             next[k][..|layers|] == next[k];
    }
  }

  lemma {:induction false} LayerFailure<V, R>(layers: seq<Layer<V, R>>, entry: seq<CacheState<V, R>>,
                                              embedded: seq<seq<Token<V>>>, n: nat, next: seq<seq<LayerState<V, R>>>,
                                              tokens: seq<seq<Token<V>>>)
    requires AllRunnable(layers) && n < |layers| && |entry| == |embedded|
    requires forall k | 0 <= k < |entry| :: |entry[k].layers| == |layers|
    requires RowsReached(layers, entry, embedded, n, next, tokens)
    ensures forall k | 0 <= k < |entry| && LayerChunk(layers[n], next[k][n], entry[k].position, tokens[k]).None? ::
              StackChunk(layers, entry[k].layers, entry[k].position, embedded[k]).None?
  {
    hide LayerChunk;
    forall k | 0 <= k < |entry| && LayerChunk(layers[n], next[k][n], entry[k].position, tokens[k]).None?
      ensures StackChunk(layers, entry[k].layers, entry[k].position, embedded[k]).None?
    {
      assert next[k][n] == next[k][n..][0] == entry[k].layers[n..][0];
      StackNext(layers, entry[k].layers, entry[k].position, embedded[k], n);
      StackFailsEarly(layers, entry[k].layers, entry[k].position, embedded[k], n + 1);
    }
  }

  lemma {:induction false} LayerAdvance<V, R>(layers: seq<Layer<V, R>>, entry: seq<CacheState<V, R>>,
                                              embedded: seq<seq<Token<V>>>, n: nat, next: seq<seq<LayerState<V, R>>>,
                                              tokens: seq<seq<Token<V>>>, after: seq<LayerState<V, R>>,
                                              passed: seq<seq<Token<V>>>)
    requires AllRunnable(layers) && n < |layers| && |entry| == |embedded| == |after| == |passed|
    requires forall k | 0 <= k < |entry| :: |entry[k].layers| == |layers|
    requires RowsReached(layers, entry, embedded, n, next, tokens)
    requires forall k | 0 <= k < |entry| ::
             LayerChunk(layers[n], next[k][n], entry[k].position, tokens[k]) == Some((after[k], passed[k]))
    ensures RowsReached(layers, entry, embedded, n + 1,
                        seq(|entry|, k requires 0 <= k < |entry| => next[k][n := after[k]]), passed)
  {
    hide LayerChunk;
    forall k | 0 <= k < |entry|
      ensures next[k][n := after[k]][n + 1..] == entry[k].layers[n + 1..]
      ensures StackChunk(layers[..n + 1], entry[k].layers[..n + 1], entry[k].position, embedded[k])
              == Some((next[k][n := after[k]][..n + 1], passed[k]))
    {
      assert next[k][n] == next[k][n..][0] == entry[k].layers[n..][0];
      assert next[k][n..][1..] == entry[k].layers[n..][1..];
      assert next[k][..n] + [after[k]] == next[k][n := after[k]][..n + 1];
      StackNext(layers, entry[k].layers, entry[k].position, embedded[k], n);
    }
  }

  // ----- the unions -----

  /** The recorded unions are the selections that the tokens recorded on their way, joined in row order. */
  predicate UnionsRecorded<V, R>(layers: seq<Layer<V, R>>, n: nat, unions: seq<Option<RoutedExpertBatch>>,
                                 tokens: seq<seq<Token<V>>>)
    requires n <= |layers|
  {
    && |unions| == n
    && forall layer | 0 <= layer < n ::
         if layers[layer].mlp.Dense? then unions[layer].None?
         else unions[layer] == Some(RoutedExpertBatch(JoinedSelections(tokens, layer),
                                                      layers[layer].mlp.moe.config.numExperts))
  }

  lemma {:induction false} UnionsAdvance<V, R>(layers: seq<Layer<V, R>>, n: nat, states: seq<LayerState<V, R>>,
                                               positions: seq<nat>, unions: seq<Option<RoutedExpertBatch>>,
                                               tokens: seq<seq<Token<V>>>, after: seq<LayerState<V, R>>,
                                               passed: seq<seq<Token<V>>>, union: Option<RoutedExpertBatch>)
    requires n < |layers| && AllRunnable(layers) && |states| == |positions| == |tokens|
    requires TraceLengths(tokens, n) && UnionsRecorded(layers, n, unions, tokens)
    requires RowsPassed(layers[n], states, positions, tokens, after, passed)
    requires union.None? <==> layers[n].mlp.Dense?
    requires union.Some? ==>
             union.value == RoutedExpertBatch(JoinedSelections(passed, n), layers[n].mlp.moe.config.numExperts)
    ensures TraceLengths(passed, n + 1) && UnionsRecorded(layers, n + 1, unions + [union], passed)
  {
    hide MixerChunk, MlpToken, TraceOf, Flatten;
    forall k, i | 0 <= k < |passed| && 0 <= i < |passed[k]|
      ensures |passed[k][i].trace| == n + 1 && passed[k][i].trace[..n] == tokens[k][i].trace
    {
      assert LayerChunk(layers[n], states[k], positions[k], tokens[k]).Some?;
    }
    forall layer | 0 <= layer < n
      ensures JoinedSelections(passed, layer) == JoinedSelections(tokens, layer)
    {
      forall k | 0 <= k < |passed|
        ensures RowSelections(passed[k], layer) == RowSelections(tokens[k], layer)
      {
        assert LayerChunk(layers[n], states[k], positions[k], tokens[k]).Some?;
        forall i | 0 <= i < |passed[k]|
          ensures SelectionAt(passed[k][i], layer) == SelectionAt(tokens[k][i], layer)
        {
          assert passed[k][i].trace[layer] == passed[k][i].trace[..n][layer];
        }
      }
      assert seq(|passed|, k requires 0 <= k < |passed| => RowSelections(passed[k], layer))
          == seq(|tokens|, k requires 0 <= k < |tokens| => RowSelections(tokens[k], layer));
    }
  }

  /** The staged union of a layer holds exactly the experts that some row uses alone. */
  lemma {:induction false} UnionIsUnionOfRows<V>(tokens: seq<seq<Token<V>>>, layer: nat, numExperts: nat, expert: nat)
    ensures RoutedExpertBatch(JoinedSelections(tokens, layer), numExperts).Uses(expert) <==>
            exists k | 0 <= k < |tokens| :: RoutedExpertBatch(RowSelections(tokens[k], layer), numExperts).Uses(expert)
  {
    var rows := seq(|tokens|, k requires 0 <= k < |tokens| => RowSelections(tokens[k], layer));
    JoinedUses(rows, numExperts, expert);
    assert forall k | 0 <= k < |tokens| :: rows[k] == RowSelections(tokens[k], layer);
  }

  lemma {:induction false} JoinedUses(rows: seq<seq<Selection>>, numExperts: nat, expert: nat)
    ensures RoutedExpertBatch(Flatten(rows), numExperts).Uses(expert) <==>
            exists k | 0 <= k < |rows| :: RoutedExpertBatch(rows[k], numExperts).Uses(expert)
    decreases rows
  {
    if rows == [] {
    } else {
      JoinedUses(rows[1..], numExperts, expert);
      var first, rest := rows[0], Flatten(rows[1..]);
      var joined := first + rest;
      if RoutedExpertBatch(joined, numExperts).Uses(expert) {
        var p :| 0 <= p < |joined| && WeightOf(joined[p], expert).Some?;
        if p < |first| {
          assert WeightOf(first[p], expert).Some?;
        } else {
          assert WeightOf(rest[p - |first|], expert).Some?;
          var k :| 0 <= k < |rows[1..]| && RoutedExpertBatch(rows[1..][k], numExperts).Uses(expert);
          assert rows[k + 1] == rows[1..][k];
        }
      }
      if exists k | 0 <= k < |rows| :: RoutedExpertBatch(rows[k], numExperts).Uses(expert) {
        var k :| 0 <= k < |rows| && RoutedExpertBatch(rows[k], numExperts).Uses(expert);
        if k == 0 {
          var p :| 0 <= p < |first| && WeightOf(first[p], expert).Some?;
          assert joined[p] == first[p];
        } else {
          assert rows[1..][k - 1] == rows[k];
          var p :| 0 <= p < |rest| && WeightOf(rest[p], expert).Some?;
          assert joined[|first| + p] == rest[p];
        }
      }
    }
  }

  // ----- the batch step -----

  /**
   The batch refines isolation: when it succeeds every row has the logits, routes and next cache that
   its own step alone would give; when it fails no caller's cache has changed; and it fails only when
   a limit is exceeded, a row alone would fail, staging does not deliver, or it is cancelled.
   */
  method ForwardBatch<V(!new), R, L>(model: Model<V, R, L>, rows: seq<Row<V, R>>, limits: Limits,
                                     environment: Environment)
    returns (result: Result<BatchOutput<V, L>>)
    requires ValidModel(model) && SeparateSessions(rows)
    modifies set k | 0 <= k < |rows| :: rows[k].cache
    ensures result.Ok? ==>
            WithinLimits(rows, limits, model.hiddenSize) && RowsSucceedAlone(model, old(States(rows)), rows)
    ensures Reliable(environment) && WithinLimits(rows, limits, model.hiddenSize) &&
            RowsSucceedAlone(model, old(States(rows)), rows) ==>
            result.Ok?
    ensures result.Ok? ==>
      && |result.value.passed| == |result.value.logits| == |rows|
      && UnionsRecorded(model.layers, |model.layers|, result.value.unions, result.value.passed)
      && forall k | 0 <= k < |rows| ::
           && Isolated(model, old(States(rows))[k], rows[k].tokens)
              == Some((rows[k].cache.State(), result.value.passed[k]))
           && result.value.logits[k] == Logits(model, result.value.passed[k])
    ensures result.Err? ==> forall k | 0 <= k < |rows| :: rows[k].cache.State() == old(rows[k].cache.State())
  {
    hide StackChunk, WithinLimits, UnionsRecorded, Delivers;
    if environment.cancelled(0) {
      return Err(Cancelled);
    }
    var prepared := PrepareRows(model, rows, limits);
    if prepared.Err? {
      return Err(prepared.error);
    }
    var entry := prepared.value;
    var embedded := seq(|rows|, k requires 0 <= k < |rows| => Embedded(model, rows[k].tokens));
    var tokens, next, unions := RunLayers(model, entry, embedded, environment);
    if tokens.Err? {
      return Err(tokens.error);
    }
    var logits := seq(|rows|, k requires 0 <= k < |rows| => Logits(model, tokens.value[k]));
    if environment.cancelled(2 * |model.layers| + 1) {
      return Err(Cancelled);
    }
    CommitRows(model, rows, entry, next);
    result := Ok(BatchOutput(logits, tokens.value, unions));
  }

  /** Publishes every row's next cache. */
  method CommitRows<V, R, L>(ghost model: Model<V, R, L>, rows: seq<Row<V, R>>, entry: seq<CacheState<V, R>>,
                             next: seq<seq<LayerState<V, R>>>)
    requires SeparateSessions(rows) && |entry| == |next| == |rows|
    modifies set k | 0 <= k < |rows| :: rows[k].cache
    ensures forall k | 0 <= k < |rows| ::
              rows[k].cache.State() == CacheState(next[k], entry[k].position + |rows[k].tokens|, entry[k].maxPosition,
                                                  Some(1))
  {
    for k := 0 to |rows|
      invariant forall j | 0 <= j < k ::
                  rows[j].cache.State() == CacheState(next[j], entry[j].position + |rows[j].tokens|,
                                                      entry[j].maxPosition, Some(1))
    {
      var cache := rows[k].cache;
      cache.Replace(entry[k].(layers := next[k]));
      cache.CommitStep(1, |rows[k].tokens|);
    }
  }
}
