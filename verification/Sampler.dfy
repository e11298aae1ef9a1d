/**
 Token sampling over exact reals: penalties, a ranked candidate list cut by top-k, min-p and top-p,
 and one draw from a request-local generator.
 */
module Sampler {
  import opened Wrappers
  import opened Ranking
  import opened Router
  import opened RealArithmetic

  datatype SamplingConfig = SamplingConfig(
    temperature: real,
    topP: real,
    topK: nat,
    minP: real,
    repeatPenalty: real,
    frequencyPenalty: real,
    presencePenalty: real,
    repeatLastN: Option<nat>,
    seed: nat)
  {
    predicate Valid() {
      && temperature >= 0.0
      && 0.0 < topP <= 1.0
      && 0.0 <= minP <= 1.0
      && repeatPenalty > 0.0
      && seed < WORD
    }
  }

  // ----- the generator, on 64-bit words -----

  const WORD: nat := 0x1_0000_0000_0000_0000

  const GAMMA: nat := 0x9E37_79B9_7F4A_7C15

  /** One SplitMix64 step of the state. */
  function Advance(state: nat): nat {
    (state + GAMMA) % WORD
  }

  function Mixed(state: bv64): bv64 {
    var a := (state ^ (state >> 30)) * 0xBF58_476D_1CE4_E5B9;
    var b := (a ^ (a >> 27)) * 0x94D0_49BB_1331_11EB;
    b ^ (b >> 31)
  }

  function Scramble(state: nat): (value: nat)
    requires state < WORD
    ensures value < WORD
  {
    Mixed(state as bv64) as nat
  }

  lemma {:induction false} MixedWords()
    ensures Mixed(0x9E37_79B9_7F4A_7C15) == 0xE220_A839_7B1D_CDAF
    ensures Mixed(0x3C6E_F372_FE94_F82A) == 0x6E78_9E6A_A1B9_65F4
    ensures Mixed(0x9E37_79B9_7F4A_7C16) == 0x910A_2DEC_8902_5CC1
  {
  }

  lemma {:induction false} FirstOutputOfZero()
    ensures Scramble(0x9E37_79B9_7F4A_7C15) == 0xE220_A839_7B1D_CDAF
  {
    hide Mixed;
    MixedWords();
    calc {
      Scramble(0x9E37_79B9_7F4A_7C15);
      Mixed(0x9E37_79B9_7F4A_7C15 as bv64) as nat;
      (0xE220_A839_7B1D_CDAF as bv64) as nat;
      0xE220_A839_7B1D_CDAF;
    }
  }

  lemma {:induction false} SecondOutputOfZero()
    ensures Scramble(0x3C6E_F372_FE94_F82A) == 0x6E78_9E6A_A1B9_65F4
  {
    hide Mixed;
    MixedWords();
    calc {
      Scramble(0x3C6E_F372_FE94_F82A);
      Mixed(0x3C6E_F372_FE94_F82A as bv64) as nat;
      (0x6E78_9E6A_A1B9_65F4 as bv64) as nat;
      0x6E78_9E6A_A1B9_65F4;
    }
  }

  lemma {:induction false} FirstOutputOfOne()
    ensures Scramble(0x9E37_79B9_7F4A_7C16) == 0x910A_2DEC_8902_5CC1
  {
    hide Mixed;
    MixedWords();
    calc {
      Scramble(0x9E37_79B9_7F4A_7C16);
      Mixed(0x9E37_79B9_7F4A_7C16 as bv64) as nat;
      (0x910A_2DEC_8902_5CC1 as bv64) as nat;
      0x910A_2DEC_8902_5CC1;
    }
  }

  lemma {:induction false} KnownStates()
    ensures Advance(0) == 0x9E37_79B9_7F4A_7C15
    ensures Advance(0x9E37_79B9_7F4A_7C15) == 0x3C6E_F372_FE94_F82A
    ensures Advance(1) == 0x9E37_79B9_7F4A_7C16
  {
  }

  /** The published SplitMix64 outputs come out: the first two of seed zero and the first of seed one. */
  lemma {:induction false} KnownOutputs()
    ensures Scramble(Advance(0)) == 0xE220_A839_7B1D_CDAF
    ensures Scramble(Advance(Advance(0))) == 0x6E78_9E6A_A1B9_65F4
    ensures Scramble(Advance(1)) == 0x910A_2DEC_8902_5CC1
  {
    hide Scramble, Advance;
    KnownStates();
    FirstOutputOfZero();
    SecondOutputOfZero();
    FirstOutputOfOne();
  }

  /** The top 53 bits as a fraction. */
  function UnitFraction(word: nat): (u: real)
    requires word < WORD
    ensures 0.0 <= u < 1.0
  {
    (word / 0x800) as real / 9007199254740992.0
  }

  function UnitDraw(state: nat): (u: real)
    requires state < WORD
    ensures 0.0 <= u < 1.0
  {
    UnitFraction(Scramble(state))
  }

  // ----- penalties -----

  /** The tokens that penalties look at. */
  function PenaltyWindow(config: SamplingConfig, history: seq<nat>): seq<nat> {
    match config.repeatLastN
    case None => history
    case Some(limit) => if limit <= |history| then history[|history| - limit..] else history
  }

  function Occurrences(tokens: seq<nat>, token: nat): nat {
    multiset(tokens)[token]
  }

  /** The penalty on the logit of a token that occurs `count` times in the window. */
  function Penalised(config: SamplingConfig, logit: real, count: nat): real
    requires config.repeatPenalty > 0.0
  {
    var repeated :=
      if config.repeatPenalty == 1.0 then logit
      else if logit <= 0.0 then logit * config.repeatPenalty
      else logit / config.repeatPenalty;
    repeated - config.frequencyPenalty * count as real - config.presencePenalty
  }

  /** The repeat penalty alone divides a positive logit and multiplies any other; one leaves every logit alone. */
  lemma {:induction false} RepeatPenaltyAlone(config: SamplingConfig, logit: real, count: nat)
    requires config.repeatPenalty > 0.0 && config.frequencyPenalty == 0.0 && config.presencePenalty == 0.0
    ensures config.repeatPenalty == 1.0 ==> Penalised(config, logit, count) == logit
    ensures logit > 0.0 ==> Times(Penalised(config, logit, count), config.repeatPenalty) == logit
    ensures logit <= 0.0 ==> Penalised(config, logit, count) == Times(logit, config.repeatPenalty)
  {
    assert config.frequencyPenalty * count as real == 0.0;
    if config.repeatPenalty != 1.0 && logit > 0.0 {
      ProductOfQuotient(logit, config.repeatPenalty);
    }
  }

  /** Each further occurrence costs the frequency penalty, and the presence penalty is paid once. */
  lemma {:induction false} OccurrencesAreCharged(config: SamplingConfig, logit: real, count: nat)
    requires config.repeatPenalty > 0.0
    ensures Penalised(config, logit, count) - Penalised(config, logit, count + 1) == config.frequencyPenalty
    ensures Penalised(config, logit, count)
         == Penalised(config.(presencePenalty := 0.0), logit, count) - config.presencePenalty
  {
    OneMore(config.frequencyPenalty, count);
  }

  lemma {:induction false} OneMore(penalty: real, count: nat)
    ensures penalty * (count + 1) as real == penalty * count as real + penalty
  {
  }

  /** Penalties of at least one, and none below zero, never raise a logit. */
  lemma {:induction false} PenaltiesNeverRaise(config: SamplingConfig, logits: seq<real>, history: seq<nat>, token: nat)
    requires config.repeatPenalty >= 1.0 && config.frequencyPenalty >= 0.0 && config.presencePenalty >= 0.0
    requires token < |logits|
    ensures Adjusted(config, logits, history)[token] <= logits[token]
    ensures Occurrences(PenaltyWindow(config, history), token) == 0 ==>
            Adjusted(config, logits, history)[token] == logits[token]
  {
    var logit, count := logits[token], Occurrences(PenaltyWindow(config, history), token);
    RepeatLowers(logit, config.repeatPenalty);
    assert config.frequencyPenalty * count as real >= 0.0;
  }

  lemma {:induction false} RepeatLowers(logit: real, penalty: real)
    requires penalty >= 1.0
    ensures logit <= 0.0 ==> logit * penalty <= logit
    ensures logit > 0.0 ==> logit / penalty <= logit
  {
    assert logit <= 0.0 ==> logit * (penalty - 1.0) <= 0.0;
    if logit > 0.0 {
      var lowered := logit / penalty;
      assert lowered * penalty == logit;
      assert lowered > 0.0;
      assert lowered * (penalty - 1.0) >= 0.0;
    }
  }

  /** Penalties look at the last tokens of the history: as many as configured, or all there are. */
  lemma {:induction false} WindowIsLastTokens(config: SamplingConfig, history: seq<nat>)
    ensures var window := PenaltyWindow(config, history);
            && |window| <= |history| && window == history[|history| - |window|..]
            && match config.repeatLastN
               case None => window == history
               case Some(limit) => |window| == if limit < |history| then limit else |history|
  {
  }

  function Adjusted(config: SamplingConfig, logits: seq<real>, history: seq<nat>): (adjusted: seq<real>)
    requires config.repeatPenalty > 0.0
    ensures |adjusted| == |logits|
  {
    seq(|logits|, token requires 0 <= token < |logits| =>
      var count := Occurrences(PenaltyWindow(config, history), token);
      if count == 0 then logits[token] else Penalised(config, logits[token], count))
  }

  predicate InVocabulary(logits: seq<real>, tokens: seq<nat>) {
    forall i | 0 <= i < |tokens| :: tokens[i] < |logits|
  }

  ghost predicate Counted(counts: map<nat, nat>, tokens: seq<nat>) {
    && (forall token :: token in counts <==> token in tokens)
    && (forall token | token in counts :: counts[token] == Occurrences(tokens, token))
  }

  /** Counts the window, refusing a token outside the vocabulary. */
  method CountTokens(window: seq<nat>, vocabulary: nat) returns (result: Result<map<nat, nat>>)
    ensures result.Ok? <==> forall i | 0 <= i < |window| :: window[i] < vocabulary
    ensures result.Ok? ==> Counted(result.value, window)
    ensures result.Err? ==> result.error == InvalidTensor
  {
    var counts: map<nat, nat> := map[];
    for i := 0 to |window|
      invariant Counted(counts, window[..i])
      invariant forall j | 0 <= j < i :: window[j] < vocabulary
    {
      var token := window[i];
      if token >= vocabulary {
        return Err(InvalidTensor);
      }
      assert window[..i + 1] == window[..i] + [token];
      counts := counts[token := (if token in counts then counts[token] else 0) + 1];
    }
    assert window[..|window|] == window;
    result := Ok(counts);
  }

  /** One token's penalties, in the order they are applied in place. */
  method PenaliseToken(logits: array<real>, token: nat, count: nat, config: SamplingConfig)
    requires config.Valid() && token < logits.Length
    modifies logits
    ensures logits[..] == old(logits[..])[token := Penalised(config, old(logits[token]), count)]
  {
    if config.repeatPenalty != 1.0 {
      logits[token] := if logits[token] <= 0.0 then logits[token] * config.repeatPenalty
        else logits[token] / config.repeatPenalty;
    }
    logits[token] := logits[token] - config.frequencyPenalty * count as real;
    logits[token] := logits[token] - config.presencePenalty;
    assert logits[token] == Penalised(config, old(logits[token]), count);
  }

  method ApplyPenalties(logits: array<real>, history: seq<nat>, config: SamplingConfig) returns (result: Result<()>)
    requires config.Valid()
    modifies logits
    ensures result.Ok? <==> InVocabulary(old(logits[..]), PenaltyWindow(config, history))
    ensures result.Ok? ==> logits[..] == Adjusted(config, old(logits[..]), history)
    ensures result.Err? ==> result.error == InvalidTensor && logits[..] == old(logits[..])
  {
    var window := PenaltyWindow(config, history);
    var counted := CountTokens(window, logits.Length);
    if counted.Err? {
      return Err(counted.error);
    }
    var counts := counted.value;
    ghost var before := logits[..];
    for token := 0 to logits.Length
      invariant forall t | 0 <= t < token :: logits[t] == Adjusted(config, before, history)[t]
      invariant forall t | token <= t < logits.Length :: logits[t] == before[t]
    {
      ghost var current := logits[..];
      if token in counts {
        PenaliseToken(logits, token, counts[token], config);
      }
      assert forall t | 0 <= t < logits.Length && t != token :: logits[t] == current[t];
    }
    result := Ok(());
  }

  // ----- candidates -----

  /** The shares of the candidates, in ranked order, before any mass is cut. */
  function Shares(exp: real -> real, temperature: real, adjusted: seq<real>, candidates: seq<nat>): (shares: seq<real>)
    requires temperature > 0.0 && candidates != []
    requires forall i | 0 <= i < |candidates| :: candidates[i] < |adjusted|
    ensures |shares| == |candidates|
  {
    var weights := ShareWeights(exp, temperature, adjusted, candidates);
    var total := Sum(weights);
    if total <= 0.0 then weights
    else seq(|candidates|, i requires 0 <= i < |candidates| => weights[i] / total)
  }

  predicate Descending(shares: seq<real>) {
    && (forall i | 0 <= i < |shares| :: shares[i] > 0.0)
    && (forall i, j | 0 <= i < j < |shares| :: shares[i] >= shares[j])
  }

  function ShareWeights(exp: real -> real, temperature: real, adjusted: seq<real>,
                        candidates: seq<nat>): (weights: seq<real>)
    requires temperature > 0.0 && candidates != []
    requires forall i | 0 <= i < |candidates| :: candidates[i] < |adjusted|
    ensures |weights| == |candidates|
  {
    seq(|candidates|, i requires 0 <= i < |candidates| =>
        exp((adjusted[candidates[i]] - adjusted[candidates[0]]) / temperature))
  }

  lemma {:induction false} WeightsDescend(exp: real -> real, temperature: real, adjusted: seq<real>,
                                          candidates: seq<nat>, i: nat, j: nat)
    requires temperature > 0.0 && Ordered(adjusted, candidates) && i < j < |candidates|
    requires Increasing(exp)
    ensures
      var weights := ShareWeights(exp, temperature, adjusted, candidates);
      weights[i] >= weights[j]
  {
    var x, y := adjusted[candidates[i]] - adjusted[candidates[0]], adjusted[candidates[j]] - adjusted[candidates[0]];
    assert Before(adjusted, candidates[i], candidates[j]);
    if x > y {
      DividedOrder(x, y, temperature);
    }
  }

  lemma {:induction false} SharesDescend(exp: real -> real, temperature: real, adjusted: seq<real>,
                                         candidates: seq<nat>)
    requires temperature > 0.0 && candidates != [] && Ordered(adjusted, candidates)
    requires Positive(exp) && Increasing(exp)
    ensures Descending(Shares(exp, temperature, adjusted, candidates))
    ensures Sum(Shares(exp, temperature, adjusted, candidates)) == 1.0
  {
    var weights, shares := ShareWeights(exp, temperature, adjusted, candidates),
        Shares(exp, temperature, adjusted, candidates);
    PositiveSum(weights);
    var total := Sum(weights);
    forall i, j | 0 <= i < j < |shares|
      ensures shares[i] >= shares[j]
    {
      WeightsDescend(exp, temperature, adjusted, candidates, i, j);
      if weights[i] > weights[j] {
        DividedOrder(weights[i], weights[j], total);
      }
    }
    forall i | 0 <= i < |shares|
      ensures shares[i] > 0.0
    {
      DividedOrder(weights[i], 0.0, total);
    }
    ScaledSum(weights, shares, total);
    SelfRatio(total);
  }

  /** The share of a candidate is exp(logit / temperature) over the sum of them, among the candidates. */
  lemma {:induction false} SharesAreTemperedSoftmax(exp: real -> real, temperature: real, adjusted: seq<real>,
                                                    candidates: seq<nat>, i: nat)
    requires temperature > 0.0 && Exponential(exp) && i < |candidates|
    requires forall k | 0 <= k < |candidates| :: candidates[k] < |adjusted|
    ensures
      var tempered := Tempered(temperature, adjusted, candidates);
      && Sum(Exps(exp, tempered)) > 0.0
      && Shares(exp, temperature, adjusted, candidates)[i]
         == exp(adjusted[candidates[i]] / temperature) / Sum(Exps(exp, tempered))
  {
    var tempered := Tempered(temperature, adjusted, candidates);
    var weights := ShareWeights(exp, temperature, adjusted, candidates);
    forall k | 0 <= k < |candidates|
      ensures weights[k] == exp(tempered[k] - tempered[0])
    {
      DividedDifference(adjusted[candidates[k]], adjusted[candidates[0]], temperature);
    }
    ShiftCancels(exp, tempered, tempered[0], weights, i);
  }

  function Tempered(temperature: real, adjusted: seq<real>, candidates: seq<nat>): (tempered: seq<real>)
    requires temperature > 0.0 && forall k | 0 <= k < |candidates| :: candidates[k] < |adjusted|
    ensures |tempered| == |candidates|
  {
    seq(|candidates|, k requires 0 <= k < |candidates| => adjusted[candidates[k]] / temperature)
  }

  lemma {:induction false} DividedDifference(a: real, b: real, divisor: real)
    requires divisor != 0.0
    ensures (a - b) / divisor == a / divisor - b / divisor
  {
  }

  /** The candidates that min-p keeps are a prefix, because the shares descend. */
  predicate IsMinPCut(shares: seq<real>, minP: real, kept: nat) {
    && 0 < kept <= |shares|
    && forall i | 0 <= i < |shares| :: shares[i] >= shares[0] * minP <==> i < kept
  }

  /** The shortest prefix whose mass reaches top-p, or everything when none does. */
  predicate IsTopPCut(shares: seq<real>, topP: real, kept: nat) {
    && 0 < kept <= |shares|
    && (forall i | 0 < i < kept :: Sum(shares[..i]) < topP)
    && (Sum(shares[..kept]) >= topP || kept == |shares|)
  }

  predicate MinPLeaves(config: SamplingConfig, shares: seq<real>, kept: nat) {
    if config.minP > 0.0 then IsMinPCut(shares, config.minP, kept) else kept == |shares|
  }

  predicate TopPLeaves(config: SamplingConfig, shares: seq<real>, kept: nat) {
    if config.topP < 1.0 then IsTopPCut(shares, config.topP, kept) else kept == |shares|
  }

  /** What min-p and then top-p leave of the ranked shares. */
  ghost predicate Survives(config: SamplingConfig, shares: seq<real>, kept: nat) {
    exists minKept: nat :: MinPLeaves(config, shares, minKept) && TopPLeaves(config, shares[..minKept], kept)
  }

  /** The candidate that the target falls on: the ranked shares tile [0, mass). */
  predicate Lands(shares: seq<real>, target: real, drawn: nat) {
    drawn < |shares| && Sum(shares[..drawn]) <= target < Sum(shares[..drawn + 1])
  }

  lemma {:induction false} MassGrows(shares: seq<real>, low: nat, high: nat)
    requires low <= high <= |shares|
    requires forall i | 0 <= i < |shares| :: shares[i] > 0.0
    ensures Sum(shares[..low]) <= Sum(shares[..high])
  {
    if low < high {
      assert shares[..high][..high - 1] == shares[..high - 1];
      MassGrows(shares, low, high - 1);
    }
  }

  /** No target lands on two candidates. */
  lemma {:induction false} LandsOnce(shares: seq<real>, target: real, a: nat, b: nat)
    requires forall i | 0 <= i < |shares| :: shares[i] > 0.0
    requires Lands(shares, target, a) && Lands(shares, target, b)
    ensures a == b
  {
    if a < b {
      MassGrows(shares, a + 1, b);
    } else if b < a {
      MassGrows(shares, b + 1, a);
    }
  }

  // ----- sampling -----

  function TokenId(index: nat): Result<nat> {
    if index < 0x1_0000_0000 then Ok(index) else Err(InvalidTensor)
  }

  function Candidates(config: SamplingConfig, adjusted: seq<real>): (candidates: seq<nat>)
    ensures Ordered(adjusted, candidates)
    ensures adjusted != [] ==> candidates != []
  {
    var order := Rank(adjusted);
    if 0 < config.topK < |order| then order[..config.topK] else order
  }

  /** The candidates are the best `topK` tokens, or all of them when it is zero or more than there are. */
  lemma {:induction false} CandidatesAreTop(config: SamplingConfig, adjusted: seq<real>)
    ensures IsTop(adjusted, Candidates(config, adjusted),
                  if 0 < config.topK < |adjusted| then config.topK else |adjusted|)
  {
    var order := Rank(adjusted);
    assert order[..|order|] == order;
    RankPrefixIsTop(adjusted, if 0 < config.topK < |adjusted| then config.topK else |adjusted|);
  }

  /** The shares that the penalised, ranked and top-k-cut candidates get. */
  function CandidateShares(exp: real -> real, config: SamplingConfig, adjusted: seq<real>): seq<real>
    requires config.temperature > 0.0 && adjusted != []
  {
    Shares(exp, config.temperature, adjusted, Candidates(config, adjusted))
  }

  /** Where a draw `u` from the unit interval lands once it is scaled to the surviving mass. */
  predicate LandsScaled(shares: seq<real>, u: real, drawn: nat) {
    Lands(shares, u * Sum(shares), drawn)
  }

  /** A draw `u` from the unit interval picks `index` among the candidates that survive the cuts. */
  ghost predicate Picks(config: SamplingConfig, candidates: seq<nat>, shares: seq<real>, u: real, index: nat)
    requires |candidates| == |shares|
  {
    exists kept: nat, drawn: nat | drawn < kept <= |shares| ::
      && Survives(config, shares, kept)
      && LandsScaled(shares[..kept], u, drawn)
      && index == candidates[drawn]
  }

  ghost predicate Sampled(exp: real -> real, config: SamplingConfig, adjusted: seq<real>, u: real, index: nat)
    requires config.temperature > 0.0 && adjusted != []
  {
    Picks(config, Candidates(config, adjusted), CandidateShares(exp, config, adjusted), u, index)
  }

  class Sampler {
    const config: SamplingConfig
    var random: nat

    constructor (config: SamplingConfig)
      requires config.Valid()
      ensures this.config == config && random == config.seed
    {
      this.config := config;
      random := config.seed;
    }

    /**
     Greedy sampling takes the best adjusted logit and leaves the generator alone; otherwise exactly
     one draw is made. Over exact reals neither the empty-mass error nor the fallback to the last
     candidate is reachable.
     */
    method Sample(exp: real -> real, logits: seq<real>, history: seq<nat>) returns (result: Result<nat>)
      requires config.Valid() && Positive(exp) && Increasing(exp)
      modifies this
      ensures logits == [] || !InVocabulary(logits, PenaltyWindow(config, history)) ==>
              result == Err(InvalidTensor) && random == old(random)
      ensures logits != [] && InVocabulary(logits, PenaltyWindow(config, history)) ==>
        var adjusted := Adjusted(config, logits, history);
        if config.temperature == 0.0 then
          result == TokenId(Rank(adjusted)[0]) && random == old(random)
        else
          && random == Advance(old(random))
          && exists index: nat :: Sampled(exp, config, adjusted, UnitDraw(random), index) && result == TokenId(index)
    {
      hide Rank, Adjusted, Shares, Picks, InVocabulary, PenaltyWindow, Increasing, Scramble;
      if logits == [] {
        return Err(InvalidTensor);
      }
      var scratch := new real[|logits|](i requires 0 <= i < |logits| => logits[i]);
      assert scratch[..] == logits;
      var penalised := ApplyPenalties(scratch, history, config);
      if penalised.Err? {
        return Err(penalised.error);
      }
      var adjusted := scratch[..];
      var candidates := TopCandidates(config, adjusted);
      if config.temperature == 0.0 {
        return TokenId(candidates[0]);
      }
      var shares := Shares(exp, config.temperature, adjusted, candidates);
      SharesDescend(exp, config.temperature, adjusted, candidates);
      random := Advance(random);
      var index := Pick(config, candidates, shares, UnitDraw(random));
      result := TokenId(index);
    }
  }

  /** Sorts the candidates and keeps the first top-k of them. */
  method TopCandidates(config: SamplingConfig, adjusted: seq<real>) returns (candidates: seq<nat>)
    ensures candidates == Candidates(config, adjusted)
    ensures adjusted != [] ==> candidates != [] && candidates[0] == Rank(adjusted)[0]
  {
    candidates := Rank(adjusted);
    if config.topK > 0 {
      candidates := candidates[..if config.topK < |candidates| then config.topK else |candidates|];
    }
  }

  /** Cuts the candidates and draws among what is left. */
  method Pick(config: SamplingConfig, candidates: seq<nat>, shares: seq<real>, u: real) returns (index: nat)
    requires config.Valid() && |candidates| == |shares| && shares != [] && Descending(shares) && 0.0 <= u < 1.0
    ensures Picks(config, candidates, shares, u, index)
  {
    var kept := Cut(config, shares);
    var drawn := Draw(shares[..kept], u);
    index := candidates[drawn];
  }

  lemma {:induction false} TargetInside(u: real, mass: real, target: real)
    requires 0.0 <= u < 1.0 && mass > 0.0 && target == u * mass
    ensures 0.0 <= target < mass
  {
    assert (1.0 - u) * mass > 0.0;
  }

  lemma {:induction false} Shrink(factor: real, x: real, product: real)
    requires 0.0 <= factor <= 1.0 && x > 0.0 && product == x * factor
    ensures product <= x
  {
    assert x * (1.0 - factor) >= 0.0;
  }

  /** min-p, then top-p. */
  method Cut(config: SamplingConfig, shares: seq<real>) returns (kept: nat)
    requires config.Valid() && shares != [] && Descending(shares)
    ensures 0 < kept <= |shares| && Survives(config, shares, kept)
  {
    var retained := shares;
    if config.minP > 0.0 {
      var threshold := shares[0] * config.minP;
      Shrink(config.minP, shares[0], threshold);
      retained := Retain(shares, threshold);
    }
    assert retained == shares[..|retained|];
    kept := |retained|;
    if config.topP < 1.0 {
      kept := Accumulate(retained, config.topP);
    }
    Survivors(config, shares, |retained|, kept);
  }

  lemma {:induction false} Survivors(config: SamplingConfig, shares: seq<real>, minKept: nat, kept: nat)
    requires MinPLeaves(config, shares, minKept) && TopPLeaves(config, shares[..minKept], kept)
    ensures Survives(config, shares, kept)
  {
  }

  /** Counts the shares up to the first that lets the running mass reach top-p. */
  method Accumulate(shares: seq<real>, topP: real) returns (kept: nat)
    requires shares != []
    ensures IsTopPCut(shares, topP, kept)
  {
    var cumulative := 0.0;
    kept := 0;
    while kept < |shares|
      invariant kept <= |shares|
      invariant cumulative == Sum(shares[..kept])
      invariant forall i | 0 < i <= kept :: Sum(shares[..i]) < topP
    {
      assert shares[..kept + 1][..kept] == shares[..kept];
      cumulative := cumulative + shares[kept];
      kept := kept + 1;
      if cumulative >= topP {
        break;
      }
    }
  }

  /** Keeps the shares that reach the threshold, one by one. */
  method Retain(shares: seq<real>, threshold: real) returns (retained: seq<real>)
    requires shares != [] && Descending(shares) && threshold <= shares[0]
    ensures 0 < |retained| <= |shares| && retained == shares[..|retained|]
    ensures forall i | 0 <= i < |shares| :: shares[i] >= threshold <==> i < |retained|
  {
    retained := [];
    for i := 0 to |shares|
      invariant |retained| <= i && retained == shares[..|retained|]
      invariant forall j | 0 <= j < i :: shares[j] >= threshold <==> j < |retained|
    {
      if shares[i] >= threshold {
        assert shares[|retained|] >= shares[i];
        retained := retained + [shares[i]];
      }
    }
  }

  /** Walks the cumulative mass until it passes the target. */
  method Draw(shares: seq<real>, u: real) returns (drawn: nat)
    requires shares != [] && 0.0 <= u < 1.0
    requires forall i | 0 <= i < |shares| :: shares[i] > 0.0
    ensures LandsScaled(shares, u, drawn)
  {
    PositiveSum(shares);
    assert shares[..|shares|] == shares;
    var mass := Sum(shares);
    var target := u * mass;
    TargetInside(u, mass, target);
    var cumulative := 0.0;
    for i := 0 to |shares|
      invariant cumulative == Sum(shares[..i]) && cumulative <= target
    {
      assert shares[..i + 1][..i] == shares[..i];
      cumulative := cumulative + shares[i];
      if target < cumulative {
        return i;
      }
    }
    assert false;
  }

  // ----- what the result means -----

  /** Greedy: no token beats the result, and among equals it has the lowest id. */
  lemma {:induction false} GreedyIsLowestMaximum(config: SamplingConfig, logits: seq<real>, history: seq<nat>,
                                                 other: nat)
    requires config.Valid() && logits != [] && other < |logits|
    ensures
      var adjusted := Adjusted(config, logits, history);
      var best := Rank(adjusted)[0];
      other != best ==> adjusted[best] > adjusted[other] || (adjusted[best] == adjusted[other] && best < other)
  {
    var adjusted := Adjusted(config, logits, history);
    var order := Rank(adjusted);
    assert other in order;
    var k :| 0 <= k < |order| && order[k] == other;
    assert k > 0 ==> Before(adjusted, order[0], order[k]);
  }

  /** The cuts are determined by the shares, and so is the result of a draw. */
  lemma {:induction false} PickIsUnique(config: SamplingConfig, candidates: seq<nat>, shares: seq<real>, u: real,
                                        a: nat, b: nat)
    requires |candidates| == |shares| && Descending(shares)
    requires Picks(config, candidates, shares, u, a) && Picks(config, candidates, shares, u, b)
    ensures a == b
  {
    var keptA: nat, drawnA: nat :| drawnA < keptA <= |shares| && Survives(config, shares, keptA)
      && LandsScaled(shares[..keptA], u, drawnA) && a == candidates[drawnA];
    var keptB: nat, drawnB: nat :| drawnB < keptB <= |shares| && Survives(config, shares, keptB)
      && LandsScaled(shares[..keptB], u, drawnB) && b == candidates[drawnB];
    SurvivorsAreUnique(config, shares, keptA, keptB);
    LandsScaledOnce(shares[..keptA], u, drawnA, drawnB);
  }

  lemma {:induction false} LandsScaledOnce(shares: seq<real>, u: real, a: nat, b: nat)
    requires forall i | 0 <= i < |shares| :: shares[i] > 0.0
    requires LandsScaled(shares, u, a) && LandsScaled(shares, u, b)
    ensures a == b
  {
    LandsOnce(shares, u * Sum(shares), a, b);
  }

  lemma {:induction false} MinPCutIsUnique(config: SamplingConfig, shares: seq<real>, a: nat, b: nat)
    requires MinPLeaves(config, shares, a) && MinPLeaves(config, shares, b)
    ensures a == b
  {
    var low := if a < b then a else b;
    if low < |shares| {
      var share := shares[low];
    }
  }

  lemma {:induction false} TopPCutIsUnique(shares: seq<real>, topP: real, a: nat, b: nat)
    requires IsTopPCut(shares, topP, a) && IsTopPCut(shares, topP, b)
    ensures a == b
  {
    var low := if a < b then a else b;
    var mass := Sum(shares[..low]);
  }

  lemma {:induction false} SurvivorsAreUnique(config: SamplingConfig, shares: seq<real>, a: nat, b: nat)
    requires Survives(config, shares, a) && Survives(config, shares, b)
    ensures a == b
  {
    var minA: nat :| MinPLeaves(config, shares, minA) && TopPLeaves(config, shares[..minA], a);
    var minB: nat :| MinPLeaves(config, shares, minB) && TopPLeaves(config, shares[..minB], b);
    MinPCutIsUnique(config, shares, minA, minB);
    if config.topP < 1.0 {
      TopPCutIsUnique(shares[..minA], config.topP, a, b);
    }
  }

  function Advanced(state: nat, draws: nat): nat {
    if draws == 0 then state else Advance(Advanced(state, draws - 1))
  }

  /** The state after any number of draws, from the seed and that number alone. */
  lemma {:induction false} StateAfterDraws(seed: nat, draws: nat)
    requires seed < WORD
    ensures Advanced(seed, draws) == (seed + draws * GAMMA) % WORD
  {
    if draws == 0 {
    } else {
      StateAfterDraws(seed, draws - 1);
      WordSum(seed + (draws - 1) * GAMMA, GAMMA);
    }
  }

  lemma {:induction false} WordSum(a: nat, b: nat)
    ensures (a % WORD + b) % WORD == (a + b) % WORD
  {
  }
}
