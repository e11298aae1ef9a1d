/**
 Everything together: a decoder with its cache as the engine of the continuous batch. The tokens that a
 request gets while it is batched, cached and interrupted are those of a request that is alone and
 recomputes its whole history for every token.
 */
module Serving {
  import opened Wrappers
  import opened Decoder
  import opened RaggedBatch
  import opened Generation
  import opened Scheduler
  import opened Runs
  import Ranking
  import Router
  import Sampler

  type Sample<!G, !L> = (G, L, seq<nat>) -> Option<(nat, G)>

  /** The logits of the last position of a step. */
  function LastLogits<V, R, L>(model: Model<V, R, L>, passed: seq<Token<V>>): L
    requires passed != []
  {
    model.finish(passed[|passed| - 1].hidden)
  }

  function Forward<V, R, L>(model: Model<V, R, L>, cache: CacheState<V, R>,
                            tokens: seq<nat>): Option<(CacheState<V, R>, L)>
  {
    if !AllRunnable(model.layers) then None
    else
      match Isolated(model, cache, tokens)
      case None => None
      case Some((next, passed)) => if passed == [] then None else Some((next, LastLogits(model, passed)))
  }

  predicate Ready<V, R, L>(model: Model<V, R, L>, cache: CacheState<V, R>) {
    AllRunnable(model.layers) && Consistent(model, cache) && cache.maxPosition == model.maxPosition
  }

  function EngineOf<V, R, G, L>(model: Model<V, R, L>, policy: Policy<G>,
                                sample: Sample<G, L>): Engine<CacheState<V, R>, G, L>
  {
    Engine(model.vocabulary, model.maxPosition, policy, NewCache(model),
           (cache: CacheState<V, R>) => cache.position,
           (cache: CacheState<V, R>) => Ready(model, cache),
           (cache: CacheState<V, R>, tokens: seq<nat>) => Forward(model, cache, tokens),
           sample)
  }

  /** A sampler picks its token among the logits, one for each word of the vocabulary. */
  ghost predicate SamplesVocabulary<G(!new), L(!new)>(sample: Sample<G, L>, vocabulary: nat) {
    forall sampler, logits, history :: var drawn := sample(sampler, logits, history);
      drawn.Some? ==> drawn.value.0 < vocabulary
  }

  /** A decoder on its cache obeys the laws that the scheduler relies on. */
  lemma {:induction false} DecoderIsAnEngine<V(!new), R(!new), G(!new), L(!new)>(model: Model<V, R, L>,
        policy: Policy<G>, sample: Sample<G, L>)
    requires AllRunnable(model.layers) && SamplesVocabulary(sample, model.vocabulary)
    ensures EngineLaws(EngineOf(model, policy, sample))
  {
    hide Isolated, Consistent;
    var engine := EngineOf(model, policy, sample);
    NewCacheIsConsistent(model);
    forall cache, input
      ensures StepLaw(engine, cache, input)
    {
      if Ready(model, cache) {
        StepsKeepConsistency(model, cache, input);
        IsolatedKeepsLimit(model, cache, input);
      }
    }
    forall sampler, logits, history
      ensures SampleLaw(engine, sampler, logits, history)
    {
      assert engine.sample(sampler, logits, history) == sample(sampler, logits, history);
    }
  }

  lemma {:induction false} IsolatedKeepsLimit<V, R, L>(model: Model<V, R, L>, cache: CacheState<V, R>, tokens: seq<nat>)
    requires AllRunnable(model.layers)
    ensures Isolated(model, cache, tokens).Some? ==>
            Isolated(model, cache, tokens).value.0.maxPosition == cache.maxPosition
    ensures Isolated(model, cache, tokens).Some? ==> tokens != [] && Isolated(model, cache, tokens).value.1 != []
  {
  }

  /** The batch step gives the engine's step to every row. */
  method ForwardRows<V(!new), R, G, L>(model: Model<V, R, L>, rows: seq<Row<V, R>>, limits: Limits,
                                       environment: Environment, ghost policy: Policy<G>, ghost sample: Sample<G, L>)
    returns (result: Result<seq<L>>)
    requires ValidModel(model) && SeparateSessions(rows)
    modifies set k | 0 <= k < |rows| :: rows[k].cache
    ensures result.Ok? ==>
            WithinLimits(rows, limits, model.hiddenSize) && RowsSucceedAlone(model, old(States(rows)), rows)
    ensures Reliable(environment) && WithinLimits(rows, limits, model.hiddenSize) &&
            RowsSucceedAlone(model, old(States(rows)), rows) ==>
            result.Ok?
    ensures result.Ok? ==> |result.value| == |rows| && forall k | 0 <= k < |rows| ::
              EngineOf(model, policy, sample).forward(old(States(rows))[k], rows[k].tokens)
                == Some((rows[k].cache.State(), result.value[k]))
    ensures result.Err? ==> forall k | 0 <= k < |rows| :: rows[k].cache.State() == old(rows[k].cache.State())
  {
    hide Isolated, WithinLimits, RowsSucceedAlone, UnionsRecorded, Reliable;
    ghost var before := States(rows);
    var output := ForwardBatch(model, rows, limits, environment);
    if output.Err? {
      return Err(output.error);
    }
    forall k | 0 <= k < |rows|
      ensures output.value.passed[k] != []
    {
      IsolatedKeepsLimit(model, before[k], rows[k].tokens);
    }
    result := Ok(seq(|rows|, k requires 0 <= k < |rows| => LastLogits(model, output.value.passed[k])));
  }

  // ----- admitted requests are never refused by the model -----

  /** No row of a frozen roster is refused for its position, its tokens or its cache. */
  lemma {:induction false} FrozenRowsAreNeverRefused<V(!new), R(!new), G(!new), L(!new)>(model: Model<V, R, L>,
        policy: Policy<G>, sample: Sample<G, L>, s: State<CacheState<V, R>, G>, events: seq<Event<G>>, caller: nat,
        id: Id)
    requires AllRunnable(model.layers) && SamplesVocabulary(sample, model.vocabulary)
    requires Reachable(EngineOf(model, policy, sample), s, events)
    requires caller in s.flights && s.flights[caller].Frozen? && id in s.flights[caller].originals
    ensures EngineOf(model, policy, sample).forward(s.flights[caller].originals[id].cache,
                                                    s.flights[caller].originals[id].pending).Some?
  {
    hide Isolated, Consistent, Reachable, AloneRun, AloneFrom, EngineLaws;
    var engine, member := EngineOf(model, policy, sample), s.flights[caller].originals[id];
    DecoderIsAnEngine(model, policy, sample);
    ReachableInv(engine, s, events);
    assert FlightGood(engine, s.history, s.active, s.flights[caller]);
    assert Good(engine, s.history, id, member);
    PendingFits(engine, s.history.requests[id], member);
    assert Ready(model, member.cache);
    StepsKeepConsistency(model, member.cache, member.pending);
    IsolatedKeepsLimit(model, member.cache, member.pending);
  }

  /** The rows are the frozen members: their caches and their pending tokens, in the order of the roster. */
  ghost predicate HoldRoster<V, R, G>(roster: seq<Id>, rows: seq<Row<V, R>>,
                                      originals: map<Id, Member<CacheState<V, R>, G>>)
    reads set k | 0 <= k < |rows| :: rows[k].cache
  {
    && |roster| == |rows|
    && forall k | 0 <= k < |rows| ::
         && roster[k] in originals && rows[k].batchDimension == 1
         && rows[k].tokens == originals[roster[k]].pending && rows[k].cache.State() == originals[roster[k]].cache
  }

  /**
   The batch step of a frozen roster, in any reachable state. No row can be refused, so with weights
   that are delivered and no cancellation the step succeeds exactly when the batch is within the limits.
   */
  method ForwardRoster<V(!new), R(!new), G(!new), L(!new)>(model: Model<V, R, L>, roster: seq<Id>,
                                                           rows: seq<Row<V, R>>, limits: Limits,
                                                           environment: Environment, ghost policy: Policy<G>,
                                                           ghost sample: Sample<G, L>,
                                                           ghost s: State<CacheState<V, R>, G>,
                                                           ghost events: seq<Event<G>>, ghost caller: nat)
    returns (result: Result<seq<L>>)
    requires ValidModel(model) && SeparateSessions(rows) && SamplesVocabulary(sample, model.vocabulary)
    requires Reachable(EngineOf(model, policy, sample), s, events)
    requires caller in s.flights && s.flights[caller].Frozen? && HoldRoster(roster, rows, s.flights[caller].originals)
    modifies set k | 0 <= k < |rows| :: rows[k].cache
    ensures result.Ok? ==> WithinLimits(rows, limits, model.hiddenSize)
    ensures Reliable(environment) ==> (result.Ok? <==> WithinLimits(rows, limits, model.hiddenSize))
    ensures result.Ok? ==> |result.value| == |rows| && forall k | 0 <= k < |rows| ::
              var member := s.flights[caller].originals[roster[k]];
              EngineOf(model, policy, sample).forward(member.cache, member.pending)
                == Some((rows[k].cache.State(), result.value[k]))
    ensures result.Err? ==> HoldRoster(roster, rows, s.flights[caller].originals)
  {
    hide Isolated, WithinLimits, Reliable, Reachable;
    ghost var before := States(rows);
    forall k | 0 <= k < |rows|
      ensures Isolated(model, before[k], rows[k].tokens).Some?
    {
      FrozenRowsAreNeverRefused(model, policy, sample, s, events, caller, roster[k]);
    }
    result := ForwardRows(model, rows, limits, environment, policy, sample);
  }

  // ----- recomputing the whole history instead of keeping a cache -----

  /** Generation without any cache: every token comes from a fresh pass over everything before it. */
  function UncachedFrom<V, R, G, L>(model: Model<V, R, L>, sample: Sample<G, L>, history: seq<nat>, sampler: G,
                                    left: nat, eos: seq<nat>): Alone
    decreases left
  {
    if left == 0 then Alone([], true)
    else
      match Forward(model, NewCache(model), history)
      case None => Alone([], false)
      case Some((_, logits)) =>
        match sample(sampler, logits, history)
        case None => Alone([], false)
        case Some((token, rest)) =>
          if token in eos then Alone([token], true)
          else
            var later := UncachedFrom(model, sample, history + [token], rest, left - 1, eos);
            Alone([token] + later.tokens, later.finished)
  }

  /** The cache is what a fresh pass over the consumed tokens leaves. */
  ghost predicate Consumed<V, R, L>(model: Model<V, R, L>, cache: CacheState<V, R>, consumed: seq<nat>)
    requires AllRunnable(model.layers)
  {
    if consumed == [] then cache == NewCache(model)
    else Isolated(model, NewCache(model), consumed).Some? && Isolated(model, NewCache(model), consumed).value.0 == cache
  }

  /** A step on the cache is the end of a fresh pass over the whole history. */
  lemma {:induction false} CachedStepIsFreshPass<V, R, L>(model: Model<V, R, L>, cache: CacheState<V, R>,
                                                          consumed: seq<nat>, input: seq<nat>)
    requires AllRunnable(model.layers) && Consumed(model, cache, consumed) && input != []
    ensures var step, whole := Forward(model, cache, input), Forward(model, NewCache(model), consumed + input);
            && (step.Some? <==> whole.Some?)
            && (step.Some? ==> step.value == whole.value && Consumed(model, step.value.0, consumed + input))
  {
    hide Isolated;
    IsolatedKeepsLimit(model, cache, input);
    if consumed == [] {
      assert consumed + input == input;
    } else {
      IsolatedSplits(model, NewCache(model), consumed, input);
      var step := Isolated(model, cache, input);
      if step.Some? {
        var left := Isolated(model, NewCache(model), consumed).value.1;
        assert (left + step.value.1)[|left + step.value.1| - 1] == step.value.1[|step.value.1| - 1];
      }
    }
  }

  lemma {:induction false} CachedRunIsUncachedRun<V, R, G, L>(model: Model<V, R, L>, policy: Policy<G>,
                                                              sample: Sample<G, L>, cache: CacheState<V, R>,
                                                              consumed: seq<nat>, input: seq<nat>, sampler: G,
                                                              left: nat, eos: seq<nat>)
    requires AllRunnable(model.layers) && Consumed(model, cache, consumed) && input != []
    ensures AloneFrom(EngineOf(model, policy, sample), cache, input, consumed + input, sampler, left, eos)
         == UncachedFrom(model, sample, consumed + input, sampler, left, eos)
    decreases left
  {
    hide Forward, Consumed;
    if left == 0 {
    } else {
      CachedStepIsFreshPass(model, cache, consumed, input);
      var step := Forward(model, cache, input);
      if step.Some? {
        var drawn := sample(sampler, step.value.1, consumed + input);
        if drawn.Some? {
          CachedRunIsUncachedRun(model, policy, sample, step.value.0, consumed + input, [drawn.value.0], drawn.value.1,
                                 left - 1, eos);
        }
      }
    }
  }

  /**
   Over every run of the scheduler: what a request was handed is a prefix of what it would produce
   alone and without any cache, and all of it exactly when it completed.
   */
  lemma {:induction false} ServedTokensAreUncachedTokens<V(!new), R(!new), G(!new), L(!new)>(model: Model<V, R, L>,
        policy: Policy<G>, sample: Sample<G, L>, s: State<CacheState<V, R>, G>, events: seq<Event<G>>, id: Id)
    requires AllRunnable(model.layers) && SamplesVocabulary(sample, model.vocabulary)
    requires Reachable(EngineOf(model, policy, sample), s, events)
    requires id in s.history.requests && s.history.requests[id].maxNew > 0
    ensures id in s.history.log
    ensures
      var request := s.history.requests[id];
      var uncached := UncachedFrom(model, sample, request.prompt, request.sampler, request.maxNew, request.eos);
      s.history.log[id] <= uncached.tokens &&
        (id in s.history.completed <==> uncached == Alone(s.history.log[id], true))
  {
    hide Reachable, EngineLaws, AloneFrom, UncachedFrom;
    var request := s.history.requests[id];
    DecoderIsAnEngine(model, policy, sample);
    BatchingIsInvisible(EngineOf(model, policy, sample), s, events, id);
    RequestIsAcceptable(EngineOf(model, policy, sample), s, events, id);
    assert [] + request.prompt == request.prompt;
    CachedRunIsUncachedRun(model, policy, sample, NewCache(model), [], request.prompt, request.sampler, request.maxNew,
                           request.eos);
  }

  // ----- the engine's sampler -----

  datatype SamplerState = SamplerState(config: Sampler.SamplingConfig, random: nat)

  ghost predicate Draws(exp: real -> real, config: Sampler.SamplingConfig, logits: seq<real>, history: seq<nat>,
                        random: nat, index: nat)
    requires config.Valid() && random < Sampler.WORD && logits != []
  {
    var adjusted := Sampler.Adjusted(config, logits, history);
    if config.temperature == 0.0 then index == Ranking.Rank(adjusted)[0]
    else Sampler.Sampled(exp, config, adjusted, Sampler.UnitDraw(Sampler.Advance(random)), index)
  }

  ghost predicate Picked(exp: real -> real, sampler: SamplerState, logits: seq<real>, history: seq<nat>, index: nat)
    requires sampler.config.Valid() && sampler.random < Sampler.WORD && logits != []
  {
    Draws(exp, sampler.config, logits, history, sampler.random, index) && Sampler.TokenId(index).Ok?
  }

  predicate Samples(sampler: SamplerState, logits: seq<real>, history: seq<nat>) {
    && sampler.config.Valid() && sampler.random < Sampler.WORD && logits != []
    && Sampler.InVocabulary(logits, Sampler.PenaltyWindow(sampler.config, history))
  }

  /** The sampler as a step of the engine: no token, or the token it picks and its state afterwards. */
  ghost function SampleWith(exp: real -> real, vocabulary: nat): Sample<SamplerState, seq<real>> {
    (sampler: SamplerState, logits: seq<real>, history: seq<nat>) =>
      if |logits| == vocabulary && Samples(sampler, logits, history) && exists index: nat ::
        Picked(exp, sampler, logits, history, index) then
        var index: nat :| Picked(exp, sampler, logits, history, index);
        Some((index, if sampler.config.temperature == 0.0 then sampler
              else sampler.(random := Sampler.Advance(sampler.random))))
      else None
  }

  lemma {:induction false} DrawIsInVocabulary(exp: real -> real, config: Sampler.SamplingConfig, logits: seq<real>,
                                              history: seq<nat>, random: nat, index: nat)
    requires config.Valid() && random < Sampler.WORD && logits != [] &&
             Draws(exp, config, logits, history, random, index)
    ensures index < |logits|
  {
    hide Sampler.Advance, Sampler.UnitDraw, Sampler.Shares, Sampler.Survives, Sampler.LandsScaled, Sampler.Adjusted;
    var adjusted := Sampler.Adjusted(config, logits, history);
    assert Ranking.Rank(adjusted)[0] in Ranking.Rank(adjusted);
  }

  lemma {:induction false} SamplerStaysInVocabulary(exp: real -> real, vocabulary: nat)
    ensures SamplesVocabulary(SampleWith(exp, vocabulary), vocabulary)
  {
    forall sampler, logits, history
      ensures var drawn := SampleWith(exp, vocabulary)(sampler, logits, history);
              drawn.Some? ==> drawn.value.0 < vocabulary
    {
      var drawn := SampleWith(exp, vocabulary)(sampler, logits, history);
      if drawn.Some? {
        DrawIsInVocabulary(exp, sampler.config, logits, history, sampler.random, drawn.value.0);
      }
    }
  }

  /** A draw has one outcome. */
  lemma {:induction false} DrawIsUnique(exp: real -> real, config: Sampler.SamplingConfig, logits: seq<real>,
                                        history: seq<nat>, random: nat, a: nat, b: nat)
    requires config.Valid() && random < Sampler.WORD && logits != [] && Router.Positive(exp) && Router.Increasing(exp)
    requires Draws(exp, config, logits, history, random, a) && Draws(exp, config, logits, history, random, b)
    ensures a == b
  {
    hide Sampler.UnitDraw, Sampler.Shares, Sampler.Picks, Sampler.Adjusted;
    if config.temperature > 0.0 {
      var adjusted := Sampler.Adjusted(config, logits, history);
      var candidates := Sampler.Candidates(config, adjusted);
      Sampler.SharesDescend(exp, config.temperature, adjusted, candidates);
      Sampler.PickIsUnique(config, candidates, Sampler.CandidateShares(exp, config, adjusted),
                           Sampler.UnitDraw(Sampler.Advance(random)), a, b);
    }
  }

  /** The request's sampler object does exactly this step. */
  method SampleToken(sampler: Sampler.Sampler, exp: real -> real, logits: seq<real>, history: seq<nat>)
    returns (result: Result<nat>)
    requires sampler.config.Valid() && sampler.random < Sampler.WORD && Router.Positive(exp) && Router.Increasing(exp)
    modifies sampler
    ensures match SampleWith(exp, |logits|)(SamplerState(sampler.config, old(sampler.random)), logits, history)
            case None => result.Err?
            case Some((token, next)) => result == Ok(token) && next == SamplerState(sampler.config, sampler.random)
  {
    hide Sampler.Sampled, Sampler.Adjusted, Sampler.InVocabulary, Sampler.PenaltyWindow;
    ghost var before := SamplerState(sampler.config, sampler.random);
    result := sampler.Sample(exp, logits, history);
    if Samples(before, logits, history) {
      ghost var index := PickedIndex(exp, before, logits, history, result);
      assert result.Ok? ==> Picked(exp, before, logits, history, index);
      forall other: nat | Picked(exp, before, logits, history, other)
        ensures other == index
      {
        DrawIsUnique(exp, before.config, logits, history, before.random, other, index);
      }
    }
  }

  /** The index behind a sampler's result. */
  lemma {:induction false} PickedIndex(exp: real -> real, sampler: SamplerState, logits: seq<real>, history: seq<nat>,
                                       result: Result<nat>) returns (index: nat)
    requires Samples(sampler, logits, history)
    requires var adjusted := Sampler.Adjusted(sampler.config, logits, history);
             if sampler.config.temperature == 0.0 then result == Sampler.TokenId(Ranking.Rank(adjusted)[0])
             else exists i: nat ::
               Sampler.Sampled(exp, sampler.config, adjusted, Sampler.UnitDraw(Sampler.Advance(sampler.random)), i) &&
                 result == Sampler.TokenId(i)
    ensures Draws(exp, sampler.config, logits, history, sampler.random, index) && result == Sampler.TokenId(index)
  {
    hide Sampler.Sampled, Sampler.Adjusted, Sampler.UnitDraw;
    var adjusted := Sampler.Adjusted(sampler.config, logits, history);
    if sampler.config.temperature == 0.0 {
      index := Ranking.Rank(adjusted)[0];
    } else {
      index :| Sampler.Sampled(exp, sampler.config, adjusted, Sampler.UnitDraw(Sampler.Advance(sampler.random)), index)
        && result == Sampler.TokenId(index);
    }
  }

  /** The decoder with its sampler: served tokens are uncached tokens, with no assumption left about either. */
  lemma {:induction false} SampledServingIsUncached<V(!new), R(!new)>(model: Model<V, R, seq<real>>,
        policy: Policy<SamplerState>, exp: real -> real, s: State<CacheState<V, R>, SamplerState>,
        events: seq<Event<SamplerState>>, id: Id)
    requires AllRunnable(model.layers) &&
             Reachable(EngineOf(model, policy, SampleWith(exp, model.vocabulary)), s, events)
    requires id in s.history.requests && s.history.requests[id].maxNew > 0
    ensures id in s.history.log
    ensures
      var request := s.history.requests[id];
      var uncached := UncachedFrom(model, SampleWith(exp, model.vocabulary), request.prompt, request.sampler,
                                   request.maxNew, request.eos);
      s.history.log[id] <= uncached.tokens &&
        (id in s.history.completed <==> uncached == Alone(s.history.log[id], true))
  {
    hide Reachable, UncachedFrom, SampleWith, SamplesVocabulary;
    SamplerStaysInVocabulary(exp, model.vocabulary);
    ServedTokensAreUncachedTokens(model, policy, SampleWith(exp, model.vocabulary), s, events, id);
  }
}
