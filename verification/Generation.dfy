/**
 One request generating alone, and one member of a batch generating a token per step. The member is
 always somewhere on the path of the lone request.
 */
module Generation {
  import opened Wrappers

  /** What the runtime grants a request, and which sampling settings are valid. */
  datatype Policy<!G> = Policy(maxGenerated: nat, maxContext: nat, validSampling: G -> bool)

  /**
   What generation needs of a model and a sampler. `forward` is one row's step alone (the batch step
   gives every row exactly this); `ready` says which caches steps can reach.
   */
  datatype Engine<!C, !G, !L> = Engine(
    vocabulary: nat,
    maxPosition: nat,
    policy: Policy<G>,
    newCache: C,
    position: C -> nat,
    ready: C -> bool,
    forward: (C, seq<nat>) -> Option<(C, L)>,
    sample: (G, L, seq<nat>) -> Option<(nat, G)>)

  ghost predicate EngineLaws<C(!new), G(!new), L(!new)>(engine: Engine<C, G, L>) {
    && engine.ready(engine.newCache) && engine.position(engine.newCache) == 0
    && (forall cache, input :: StepLaw(engine, cache, input))
    && (forall sampler, logits, history :: SampleLaw(engine, sampler, logits, history))
  }

  predicate StepLaw<C, G, L>(engine: Engine<C, G, L>, cache: C, input: seq<nat>) {
    var step := engine.forward(cache, input);
    step.Some? && engine.ready(cache) ==>
      engine.ready(step.value.0) && engine.position(step.value.0) == engine.position(cache) + |input|
  }

  predicate SampleLaw<C, G, L>(engine: Engine<C, G, L>, sampler: G, logits: L, history: seq<nat>) {
    var drawn := engine.sample(sampler, logits, history);
    drawn.Some? ==> drawn.value.0 < engine.vocabulary
  }

  // ----- alone -----

  datatype Request<G> = Request(prompt: seq<nat>, maxNew: nat, eos: seq<nat>, sampler: G)

  /** The model's own checks of a prompt and a budget. */
  predicate Generable<C, G, L>(engine: Engine<C, G, L>, request: Request<G>) {
    && request.prompt != []
    && (forall i | 0 <= i < |request.prompt| :: request.prompt[i] < engine.vocabulary)
    && |request.prompt| + request.maxNew <= engine.maxPosition
  }

  /** End tokens are words of the vocabulary, each listed once. */
  predicate EndTokens(eos: seq<nat>, vocabulary: nat) {
    && (forall i | 0 <= i < |eos| :: eos[i] < vocabulary)
    && (forall i, j | 0 <= i < j < |eos| :: eos[i] != eos[j])
  }

  /** The checks that admission makes before anything else. */
  predicate Acceptable<C, G, L>(engine: Engine<C, G, L>, request: Request<G>) {
    && Generable(engine, request)
    && request.maxNew <= engine.policy.maxGenerated
    && |request.prompt| + request.maxNew <= engine.policy.maxContext
    && EndTokens(request.eos, engine.vocabulary)
    && engine.policy.validSampling(request.sampler)
  }

  /** What a lone request produces, and whether it came to an end rather than to an error. */
  datatype Alone = Alone(tokens: seq<nat>, finished: bool)

  function AloneFrom<C, G, L>(engine: Engine<C, G, L>, cache: C, input: seq<nat>, history: seq<nat>, sampler: G,
                              left: nat, eos: seq<nat>): (alone: Alone)
    ensures |alone.tokens| <= left
    decreases left
  {
    if left == 0 then Alone([], true)
    else
      match engine.forward(cache, input)
      case None => Alone([], false)
      case Some((next, logits)) =>
        match engine.sample(sampler, logits, history)
        case None => Alone([], false)
        case Some((token, rest)) =>
          if token in eos then Alone([token], true)
          else
            var later := AloneFrom(engine, next, [token], history + [token], rest, left - 1, eos);
            Alone([token] + later.tokens, later.finished)
  }

  function AloneRun<C, G, L>(engine: Engine<C, G, L>, request: Request<G>, budget: nat): (alone: Alone)
    ensures |alone.tokens| <= budget
  {
    AloneFrom(engine, engine.newCache, request.prompt, request.prompt, request.sampler, budget, request.eos)
  }

  // ----- what a lone run is, step by step -----

  /** What a model step and a draw make of a cache, an input, a history and a sampler. */
  function Drawn<C, G, L>(engine: Engine<C, G, L>, cache: C, input: seq<nat>, history: seq<nat>,
                          sampler: G): Option<(nat, C, G)>
  {
    match engine.forward(cache, input)
    case None => None
    case Some((next, logits)) =>
      match engine.sample(sampler, logits, history)
      case None => None
      case Some((token, rest)) => Some((token, next, rest))
  }

  /** What step `k` feeds to the model: the first input, and then each time the token just drawn. */
  function Fed(input: seq<nat>, tokens: seq<nat>, k: nat): seq<nat>
    requires k <= |tokens|
  {
    if k == 0 then input else [tokens[k - 1]]
  }

  predicate Ended(tokens: seq<nat>, eos: seq<nat>) {
    tokens != [] && tokens[|tokens| - 1] in eos
  }

  predicate DrawnAt<C(==), G(==), L>(engine: Engine<C, G, L>, input: seq<nat>, history: seq<nat>, tokens: seq<nat>,
                                     caches: seq<C>, samplers: seq<G>, k: nat)
    requires k < |tokens| && |caches| == |samplers| == |tokens| + 1
  {
    Drawn(engine, caches[k], Fed(input, tokens, k), history + tokens[..k], samplers[k])
    == Some((tokens[k], caches[k + 1], samplers[k + 1]))
  }

  /**
   The caches and samplers a run goes through: each token is drawn with the sampler that the draw before it left, from
   the cache that the step before it left, seeing the whole history; only the last token can be an end token; and the
   run stops at the budget, at an end token, or where a step or a draw fails.
   */
  predicate Traces<C(==), G(==), L>(engine: Engine<C, G, L>, cache: C, input: seq<nat>, history: seq<nat>, sampler: G,
                                    left: nat, eos: seq<nat>, alone: Alone, caches: seq<C>, samplers: seq<G>)
  {
    var tokens := alone.tokens;
    && |tokens| <= left && |caches| == |samplers| == |tokens| + 1 && caches[0] == cache && samplers[0] == sampler
    && (forall k | 0 <= k < |tokens| :: DrawnAt(engine, input, history, tokens, caches, samplers, k))
    && (forall k | 0 <= k < |tokens| - 1 :: tokens[k] !in eos)
    && (alone.finished <==> |tokens| == left || Ended(tokens, eos))
    && (alone.finished ||
        Drawn(engine, caches[|tokens|], Fed(input, tokens, |tokens|), history + tokens, samplers[|tokens|]).None?)
  }

  ghost predicate IsRun<C(!new), G(!new), L>(engine: Engine<C, G, L>, cache: C, input: seq<nat>, history: seq<nat>,
                                             sampler: G, left: nat, eos: seq<nat>, alone: Alone)
  {
    exists caches: seq<C>, samplers: seq<G> ::
      Traces(engine, cache, input, history, sampler, left, eos, alone, caches, samplers)
  }

  lemma {:induction false} AloneIsRun<C(!new), G(!new), L>(engine: Engine<C, G, L>, cache: C, input: seq<nat>,
                                                           history: seq<nat>, sampler: G, left: nat, eos: seq<nat>)
    ensures IsRun(engine, cache, input, history, sampler, left, eos,
                  AloneFrom(engine, cache, input, history, sampler, left, eos))
    decreases left
  {
    hide Traces;
    var alone := AloneFrom(engine, cache, input, history, sampler, left, eos);
    var drawn := Drawn(engine, cache, input, history, sampler);
    if left == 0 || drawn.None? {
      NothingTraces(engine, cache, input, history, sampler, left, eos);
      assert Traces(engine, cache, input, history, sampler, left, eos, alone, [cache], [sampler]);
    } else {
      var (token, next, rest) := drawn.value;
      if token in eos {
        EndTraces(engine, cache, input, history, sampler, left, eos);
        assert Traces(engine, cache, input, history, sampler, left, eos, alone, [cache, next], [sampler, rest]);
      } else {
        AloneIsRun(engine, next, [token], history + [token], rest, left - 1, eos);
        var later := AloneFrom(engine, next, [token], history + [token], rest, left - 1, eos);
        var caches, samplers :|
          Traces(engine, next, [token], history + [token], rest, left - 1, eos, later, caches, samplers);
        TraceGrows(engine, cache, input, history, sampler, left, eos, later, caches, samplers);
      }
    }
  }

  lemma {:induction false} NothingTraces<C, G, L>(engine: Engine<C, G, L>, cache: C, input: seq<nat>,
                                                  history: seq<nat>, sampler: G, left: nat, eos: seq<nat>)
    requires left == 0 || Drawn(engine, cache, input, history, sampler).None?
    ensures Traces(engine, cache, input, history, sampler, left, eos, Alone([], left == 0), [cache], [sampler])
  {
    hide Drawn;
    assert history + [] == history;
  }

  lemma {:induction false} EndTraces<C, G, L>(engine: Engine<C, G, L>, cache: C, input: seq<nat>, history: seq<nat>,
                                              sampler: G, left: nat, eos: seq<nat>)
    requires left > 0 && Drawn(engine, cache, input, history, sampler).Some?
    requires Drawn(engine, cache, input, history, sampler).value.0 in eos
    ensures var (token, next, rest) := Drawn(engine, cache, input, history, sampler).value;
            Traces(engine, cache, input, history, sampler, left, eos, Alone([token], true), [cache, next],
                   [sampler, rest])
  {
    hide Drawn;
    assert history + [Drawn(engine, cache, input, history, sampler).value.0][..0] == history;
  }

  /** A trace with one more step in front. */
  lemma {:induction false} TraceGrows<C, G, L>(engine: Engine<C, G, L>, cache: C, input: seq<nat>, history: seq<nat>,
                                               sampler: G, left: nat, eos: seq<nat>, later: Alone, caches: seq<C>,
                                               samplers: seq<G>)
    requires left > 0 && Drawn(engine, cache, input, history, sampler).Some?
    requires var (token, next, rest) := Drawn(engine, cache, input, history, sampler).value;
             && token !in eos
             && Traces(engine, next, [token], history + [token], rest, left - 1, eos, later, caches, samplers)
    ensures var (token, next, rest) := Drawn(engine, cache, input, history, sampler).value;
            Traces(engine, cache, input, history, sampler, left, eos, Alone([token] + later.tokens, later.finished),
                   [cache] + caches, [sampler] + samplers)
  {
    hide Drawn;
    var (token, next, rest) := Drawn(engine, cache, input, history, sampler).value;
    var tokens := [token] + later.tokens;
    forall k | 0 <= k < |tokens|
      ensures DrawnAt(engine, input, history, tokens, [cache] + caches, [sampler] + samplers, k)
    {
      HistoryShifts(input, history, token, later.tokens, k);
      assert k > 0 ==> DrawnAt(engine, [token], history + [token], later.tokens, caches, samplers, k - 1);
    }
    HistoryShifts(input, history, token, later.tokens, |tokens|);
    assert tokens[..|tokens|] == tokens && later.tokens[..|later.tokens|] == later.tokens;
  }

  lemma {:induction false} HistoryShifts(input: seq<nat>, history: seq<nat>, token: nat, later: seq<nat>, k: nat)
    requires k <= |later| + 1
    ensures k == 0 ==> history + ([token] + later)[..k] == history
    ensures k > 0 ==> history + ([token] + later)[..k] == history + [token] + later[..k - 1]
    ensures k > 0 ==> Fed(input, [token] + later, k) == Fed([token], later, k - 1)
  {
    if k > 0 {
      assert ([token] + later)[..k] == [token] + later[..k - 1];
    }
  }

  /** The run of a lone request is the only one that its steps and draws allow. */
  lemma {:induction false} AloneIffRun<C(!new), G(!new), L>(engine: Engine<C, G, L>, cache: C, input: seq<nat>,
                                                            history: seq<nat>, sampler: G, left: nat, eos: seq<nat>,
                                                            alone: Alone)
    ensures alone == AloneFrom(engine, cache, input, history, sampler, left, eos)
            <==> IsRun(engine, cache, input, history, sampler, left, eos, alone)
  {
    AloneIsRun(engine, cache, input, history, sampler, left, eos);
    if IsRun(engine, cache, input, history, sampler, left, eos, alone) {
      var caches, samplers :| Traces(engine, cache, input, history, sampler, left, eos, alone, caches, samplers);
      RunIsAlone(engine, cache, input, history, sampler, left, eos, alone, caches, samplers);
    }
  }

  lemma {:induction false} RunIsAlone<C, G, L>(engine: Engine<C, G, L>, cache: C, input: seq<nat>, history: seq<nat>,
                                               sampler: G, left: nat, eos: seq<nat>, alone: Alone, caches: seq<C>,
                                               samplers: seq<G>)
    requires Traces(engine, cache, input, history, sampler, left, eos, alone, caches, samplers)
    ensures alone == AloneFrom(engine, cache, input, history, sampler, left, eos)
    decreases left
  {
    var tokens := alone.tokens;
    assert history + [] == history && tokens[..0] == [];
    assert tokens != [] ==> DrawnAt(engine, input, history, tokens, caches, samplers, 0);
    if left > 0 && tokens != [] {
      var token := tokens[0];
      if token in eos {
        assert |tokens| == 1;
      } else {
        TraceShrinks(engine, cache, input, history, sampler, left, eos, alone, caches, samplers);
        RunIsAlone(engine, caches[1], [token], history + [token], samplers[1], left - 1, eos,
                   Alone(tokens[1..], alone.finished), caches[1..], samplers[1..]);
        assert [token] + tokens[1..] == tokens;
      }
    }
  }

  lemma {:induction false} TraceShrinks<C, G, L>(engine: Engine<C, G, L>, cache: C, input: seq<nat>, history: seq<nat>,
                                                 sampler: G, left: nat, eos: seq<nat>, alone: Alone, caches: seq<C>,
                                                 samplers: seq<G>)
    requires Traces(engine, cache, input, history, sampler, left, eos, alone, caches, samplers)
    requires alone.tokens != [] && alone.tokens[0] !in eos && left > 0
    ensures Traces(engine, caches[1], [alone.tokens[0]], history + [alone.tokens[0]], samplers[1], left - 1, eos,
                   Alone(alone.tokens[1..], alone.finished), caches[1..], samplers[1..])
  {
    hide Drawn;
    var token, later := alone.tokens[0], alone.tokens[1..];
    assert alone.tokens == [token] + later;
    forall k | 0 <= k < |later|
      ensures DrawnAt(engine, [token], history + [token], later, caches[1..], samplers[1..], k)
    {
      HistoryShifts(input, history, token, later, k + 1);
      assert DrawnAt(engine, input, history, alone.tokens, caches, samplers, k + 1);
    }
    HistoryShifts(input, history, token, later, |later| + 1);
    assert alone.tokens[..|later| + 1] == alone.tokens && later[..|later|] == later;
  }

  lemma {:induction false} LoneRunStarts<C, G, L>(engine: Engine<C, G, L>, request: Request<G>)
    ensures Continues(AloneRun(engine, request, request.maxNew), [],
                      AloneFrom(engine, engine.newCache, request.prompt, request.prompt, request.sampler,
                                request.maxNew, request.eos))
  {
    hide AloneFrom;
    var alone := AloneRun(engine, request, request.maxNew);
    assert [] + alone.tokens == alone.tokens;
  }

  /** The generation loop of a single request: prompt and generated tokens, or an error. */
  method GenerateAlone<C, G, L>(engine: Engine<C, G, L>, request: Request<G>) returns (result: Result<seq<nat>>)
    ensures result.Ok? <==> Generable(engine, request) && AloneRun(engine, request, request.maxNew).finished
    ensures result.Ok? ==> result.value == request.prompt + AloneRun(engine, request, request.maxNew).tokens
  {
    hide AloneRun;
    if request.prompt == [] || (exists i | 0 <= i < |request.prompt| :: request.prompt[i] >= engine.vocabulary)
       || |request.prompt| + request.maxNew > engine.maxPosition {
      return Err(InvalidTensor);
    }
    var generated, cache, input, sampler := request.prompt, engine.newCache, request.prompt, request.sampler;
    ghost var whole, tokens := AloneRun(engine, request, request.maxNew), [];
    LoneRunStarts(engine, request);
    for produced := 0 to request.maxNew
      invariant generated == request.prompt + tokens
      invariant Continues(whole, tokens,
                          AloneFrom(engine, cache, input, generated, sampler, request.maxNew - produced, request.eos))
    {
      var output := engine.forward(cache, input);
      if output.None? {
        return Err(Inference);
      }
      var drawn := engine.sample(sampler, output.value.1, generated);
      if drawn.None? {
        return Err(Inference);
      }
      var token := drawn.value.0;
      generated := generated + [token];
      ghost var later := AloneFrom(engine, output.value.0, [token], generated, drawn.value.1,
                                   request.maxNew - produced - 1, request.eos);
      assert tokens + ([token] + later.tokens) == tokens + [token] + later.tokens;
      tokens := tokens + [token];
      if token in request.eos {
        return Ok(generated);
      }
      cache, input, sampler := output.value.0, [token], drawn.value.1;
    }
    assert whole.tokens == tokens;
    result := Ok(generated);
  }

  /** `whole` is `produced` followed by `rest`. */
  predicate Continues(whole: Alone, produced: seq<nat>, rest: Alone) {
    whole == Alone(produced + rest.tokens, rest.finished)
  }

  // ----- a member of a batch -----

  datatype Member<C, G> = Member(
    pending: seq<nat>,
    cache: C,
    generated: seq<nat>,
    history: seq<nat>,
    sampler: G,
    maxNew: nat,
    eos: seq<nat>)

  function NewMember<C, G, L>(engine: Engine<C, G, L>, request: Request<G>): Member<C, G> {
    Member(request.prompt, engine.newCache, [], request.prompt, request.sampler, request.maxNew, request.eos)
  }

  /** A member after its row of a model step, with its token sampled. */
  function Sampled<C, G, L>(engine: Engine<C, G, L>, member: Member<C, G>): Option<Member<C, G>> {
    match engine.forward(member.cache, member.pending)
    case None => None
    case Some((next, logits)) =>
      match engine.sample(member.sampler, logits, member.history)
      case None => None
      case Some((token, rest)) =>
        Some(member.(cache := next, pending := [token], generated := member.generated + [token],
                     history := member.history + [token], sampler := rest))
  }

  predicate Completed<C, G>(member: Member<C, G>) {
    member.generated != [] &&
      (|member.generated| >= member.maxNew || member.generated[|member.generated| - 1] in member.eos)
  }

  /** A batch always samples before it looks at the budget, so a budget of zero acts like one. */
  function Budget<G>(request: Request<G>): nat {
    if request.maxNew == 0 then 1 else request.maxNew
  }

  /** A member that has not completed: its fields agree with each other, and it is on the path of the lone request. */
  ghost predicate OnPath<C, G, L>(engine: Engine<C, G, L>, request: Request<G>, member: Member<C, G>) {
    && Acceptable(engine, request)
    && member.maxNew == request.maxNew && member.eos == request.eos
    && member.history == request.prompt + member.generated
    && |member.generated| < Budget(request)
    && member.pending == (if member.generated == [] then request.prompt else [member.generated[|member.generated| - 1]])
    && engine.ready(member.cache) && engine.position(member.cache) + |member.pending| == |member.history|
    && (forall i | 0 <= i < |member.generated| :: member.generated[i] < engine.vocabulary)
    && Continues(AloneRun(engine, request, Budget(request)), member.generated,
                 AloneFrom(engine, member.cache, member.pending, member.history, member.sampler,
                           Budget(request) - |member.generated|, member.eos))
  }

  lemma {:induction false} NewMemberIsOnPath<C(!new), G(!new), L(!new)>(engine: Engine<C, G, L>, request: Request<G>)
    requires EngineLaws(engine) && Acceptable(engine, request)
    ensures OnPath(engine, request, NewMember(engine, request))
  {
    var alone := AloneRun(engine, request, Budget(request));
    assert [] + alone.tokens == alone.tokens;
    assert request.prompt + [] == request.prompt;
  }

  /** With budget left, a lone request that ends has produced something. */
  lemma {:induction false} EndsWithToken<C, G, L>(engine: Engine<C, G, L>, cache: C, input: seq<nat>,
                                                  history: seq<nat>, sampler: G, left: nat, eos: seq<nat>)
    requires left > 0
    ensures AloneFrom(engine, cache, input, history, sampler, left, eos) != Alone([], true)
  {
  }

  /** A member on the path has not yet produced what its lone run produces. */
  lemma {:induction false} OnPathIsUnfinished<C, G, L>(engine: Engine<C, G, L>, request: Request<G>,
                                                       member: Member<C, G>)
    requires OnPath(engine, request, member)
    ensures AloneRun(engine, request, Budget(request)) != Alone(member.generated, true)
  {
    hide AloneRun, AloneFrom, Acceptable;
    EndsWithToken(engine, member.cache, member.pending, member.history, member.sampler,
                  Budget(request) - |member.generated|, member.eos);
  }

  /** A step either keeps a member on the path or completes exactly the lone run. */
  lemma {:induction false} StepStaysOnPath<C(!new), G(!new), L(!new)>(engine: Engine<C, G, L>, request: Request<G>,
        member: Member<C, G>)
    requires EngineLaws(engine) && OnPath(engine, request, member)
    requires Sampled(engine, member).Some?
    ensures
      var next := Sampled(engine, member).value;
      && |next.generated| == |member.generated| + 1 <= Budget(request)
      && next.generated <= AloneRun(engine, request, Budget(request)).tokens
      && if Completed(next) then AloneRun(engine, request, Budget(request)) == Alone(next.generated, true)
         else OnPath(engine, request, next)
  {
    hide AloneRun, Acceptable;
    assert StepLaw(engine, member.cache, member.pending);
    var (cache, logits) := engine.forward(member.cache, member.pending).value;
    assert SampleLaw(engine, member.sampler, logits, member.history);
    var (token, rest) := engine.sample(member.sampler, logits, member.history).value;
    var next := Sampled(engine, member).value;
    var left := Budget(request) - |member.generated|;
    assert next.history == request.prompt + next.generated;
    if token !in member.eos {
      var later := AloneFrom(engine, cache, [token], next.history, rest, left - 1, member.eos);
      assert member.generated + ([token] + later.tokens) == next.generated + later.tokens;
      assert left == 1 ==> next.generated + later.tokens == next.generated;
    }
  }

  /** The next step of a member stays within the position limit, and its tokens within the vocabulary. */
  lemma {:induction false} PendingFits<C, G, L>(engine: Engine<C, G, L>, request: Request<G>, member: Member<C, G>)
    requires OnPath(engine, request, member)
    ensures member.pending != [] && engine.position(member.cache) + |member.pending| <= engine.maxPosition
    ensures forall i | 0 <= i < |member.pending| :: member.pending[i] < engine.vocabulary
  {
    hide AloneRun, AloneFrom;
  }

  /** With a budget of zero the lone run produces nothing, while a batch would still produce a token. */
  lemma {:induction false} BudgetMatters<C, G, L>(engine: Engine<C, G, L>, request: Request<G>, tokens: seq<nat>)
    requires tokens != [] && AloneRun(engine, request, Budget(request)) == Alone(tokens, true)
    ensures AloneRun(engine, request, request.maxNew) == Alone(tokens, true) <==> request.maxNew > 0
  {
  }
}
