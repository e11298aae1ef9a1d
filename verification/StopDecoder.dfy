/**
 Incremental decoding with stop sequences: text is released as soon as no stop sequence can still
 start inside it, and generation ends at the first push after which a stop sequence is complete.
 */
module StopDecoder {
  import opened Wrappers

  // ----- matching -----

  predicate MatchAt(text: string, stop: string, start: nat) {
    start + |stop| <= |text| && text[start..start + |stop|] == stop
  }

  /** Some stop sequence matches at `start`. */
  predicate StopAt(text: string, stops: seq<string>, start: nat) {
    exists stop | stop in stops :: MatchAt(text, stop, start)
  }

  /** The first occurrence of `stop` at or after `from`. */
  function Find(text: string, stop: string, from: nat): (position: Option<nat>)
    ensures position.None? ==> forall start: nat | from <= start :: !MatchAt(text, stop, start)
    ensures position.Some? ==> from <= position.value && MatchAt(text, stop, position.value)
    ensures position.Some? ==> forall start: nat | from <= start < position.value :: !MatchAt(text, stop, start)
    decreases |text| - from
  {
    if MatchAt(text, stop, from) then Some(from)
    else if from >= |text| then None
    else Find(text, stop, from + 1)
  }

  /** The least first occurrence over all the stop sequences. */
  function EarliestStop(text: string, stops: seq<string>): (position: Option<nat>)
    ensures position.None? <==> forall start: nat :: !StopAt(text, stops, start)
    ensures position.Some? ==> StopAt(text, stops, position.value) && position.value <= |text|
    ensures position.Some? ==> forall start: nat | start < position.value :: !StopAt(text, stops, start)
  {
    if stops == [] then None
    else
      var first, rest := Find(text, stops[0], 0), EarliestStop(text, stops[1..]);
      assert forall start: nat :: StopAt(text, stops, start) <==>
             MatchAt(text, stops[0], start) || StopAt(text, stops[1..], start);
      match (first, rest)
      case (None, _) => rest
      case (_, None) => first
      case (Some(a), Some(b)) => if a <= b then first else rest
  }

  predicate ProperPrefixOfStop(fragment: string, stops: seq<string>) {
    exists stop | stop in stops :: |fragment| < |stop| && fragment <= stop
  }

  /**
   The length of the longest non-empty suffix, starting at or after `index`, that a stop sequence properly extends.
   */
  function HeldFrom(text: string, stops: seq<string>, index: nat): (held: nat)
    requires index <= |text|
    ensures held <= |text| - index
    ensures held > 0 ==> ProperPrefixOfStop(text[|text| - held..], stops)
    ensures forall start: nat | index <= start < |text| - held :: !ProperPrefixOfStop(text[start..], stops)
    decreases |text| - index
  {
    if index == |text| then 0
    else if ProperPrefixOfStop(text[index..], stops) then |text| - index
    else HeldFrom(text, stops, index + 1)
  }

  function HeldStopPrefix(text: string, stops: seq<string>): (held: nat)
    ensures held <= |text|
  {
    HeldFrom(text, stops, 0)
  }

  // ----- one push -----

  datatype Pushed = Pushed(decoded: string, delta: string, hit: bool)

  function Visible(stops: seq<string>, decoded: string, terminal: bool): (end: nat)
    ensures end <= |decoded|
  {
    match EarliestStop(decoded, stops)
    case Some(position) => position
    case None => if terminal then |decoded| else |decoded| - HeldStopPrefix(decoded, stops)
  }

  function PushSpec(stops: seq<string>, decoded: string, emitted: string, chunk: string, terminal: bool): Result<Pushed>
  {
    var text := decoded + chunk;
    var end := Visible(stops, text, terminal);
    if end < |emitted| then Err(Tokenizer)
    else Ok(Pushed(text, text[|emitted|..end], EarliestStop(text, stops).Some?))
  }

  /** What holds of a decoder that has neither hit a stop sequence nor been flushed. */
  predicate Open(stops: seq<string>, decoded: string, emitted: string) {
    && EarliestStop(decoded, stops).None?
    && emitted == decoded[..|decoded| - HeldStopPrefix(decoded, stops)]
  }

  /** What a token adds to the text; the tokenizer may hold it back. */
  function Chunk(step: Option<string>): string {
    if step.Some? then step.value else ""
  }

  class IncrementalDecoder {
    const stop: seq<string>
    var decoded: string
    var emitted: string

    constructor (stop: seq<string>)
      requires forall s | s in stop :: s != ""
      ensures this.stop == stop && decoded == "" && emitted == ""
      ensures Open(stop, decoded, emitted)
    {
      this.stop := stop;
      decoded, emitted := "", "";
    }

    /** A decoder in the middle of its stream. */
    constructor Resume(stop: seq<string>, decoded: string, emitted: string)
      ensures this.stop == stop && this.decoded == decoded && this.emitted == emitted
    {
      this.stop, this.decoded, this.emitted := stop, decoded, emitted;
    }

    /**
     Takes one decoded token: the tokenizer either fails, withholds text, or yields a chunk.
     OpenDecoderPushes says what this means for a decoder that is still open.
     */
    method Push(step: Result<Option<string>>, terminal: bool) returns (result: Result<(string, bool)>)
      modifies this
      ensures step.Err? ==> result == Err(step.error) && unchanged(this)
      ensures step.Ok? ==>
        var spec := PushSpec(stop, old(decoded), old(emitted), Chunk(step.value), terminal);
        && decoded == old(decoded) + Chunk(step.value)
        && match spec
           case Err(error) => result == Err(error) && emitted == old(emitted)
           case Ok(pushed) => result == Ok((pushed.delta, pushed.hit)) && emitted == old(emitted) + pushed.delta
    {
      if step.Err? {
        return Err(step.error);
      }
      ghost var before, chunk := decoded, Chunk(step.value);
      if step.value.Some? {
        decoded := decoded + step.value.value;
      }
      assert decoded == before + chunk;
      var stopPosition := EarliestStop(decoded, stop);
      var visibleEnd := |decoded|;
      if stopPosition.Some? {
        visibleEnd := stopPosition.value;
      } else if !terminal {
        visibleEnd := |decoded| - HeldStopPrefix(decoded, stop);
      }
      if visibleEnd < |emitted| {
        return Err(Tokenizer);
      }
      var delta := decoded[|emitted|..visibleEnd];
      emitted := emitted + delta;
      result := Ok((delta, stopPosition.Some?));
    }
  }

  // ----- what is withheld is enough -----

  lemma {:induction false} MatchInPrefix(text: string, rest: string, stop: string, start: nat)
    ensures start + |stop| <= |text| ==> (MatchAt(text + rest, stop, start) <==> MatchAt(text, stop, start))
  {
    if start + |stop| <= |text| {
      assert (text + rest)[start..start + |stop|] == text[start..start + |stop|];
    }
  }

  /** A match that completes only with later text starts no earlier than the withheld suffix. */
  lemma {:induction false} LateMatchStartsInHeldText(stops: seq<string>, decoded: string, chunk: string, start: nat)
    requires EarliestStop(decoded, stops).None?
    requires StopAt(decoded + chunk, stops, start)
    ensures start >= |decoded| - HeldStopPrefix(decoded, stops)
  {
    hide EarliestStop;
    var text := decoded + chunk;
    var stop :| stop in stops && MatchAt(text, stop, start);
    MatchInPrefix(decoded, chunk, stop, start);
    assert !StopAt(decoded, stops, start);
    if start < |decoded| {
      assert decoded[start..] == stop[..|decoded| - start];
      assert ProperPrefixOfStop(decoded[start..], stops);
    }
  }

  /** Text already released stays releasable whatever arrives next, so the crossing error cannot occur. */
  lemma {:induction false} NeverCrossed(stops: seq<string>, decoded: string, chunk: string, terminal: bool)
    requires EarliestStop(decoded, stops).None?
    ensures |decoded| - HeldStopPrefix(decoded, stops) <= Visible(stops, decoded + chunk, terminal)
    ensures decoded[..|decoded| - HeldStopPrefix(decoded, stops)] <= decoded + chunk
  {
    var text := decoded + chunk;
    match EarliestStop(text, stops)
    case Some(position) => LateMatchStartsInHeldText(stops, decoded, chunk, position);
    case None =>
      var held := HeldStopPrefix(text, stops);
      var start := |text| - held;
      if held > 0 && start < |decoded| {
        var stop :| stop in stops && held < |stop| && text[start..] <= stop;
        assert decoded[start..] == text[start..][..|decoded| - start];
        assert ProperPrefixOfStop(decoded[start..], stops);
      }
  }

  /**
   While a decoder is open a push succeeds, a hit hands out exactly the text before the earliest
   match, a flush hands out everything, and any other push leaves the decoder open.
   */
  lemma {:induction false} OpenDecoderPushes(stops: seq<string>, decoded: string, emitted: string, chunk: string,
                                             terminal: bool)
    requires Open(stops, decoded, emitted)
    ensures PushSpec(stops, decoded, emitted, chunk, terminal).Ok?
    ensures
      var pushed := PushSpec(stops, decoded, emitted, chunk, terminal).value;
      var total := emitted + pushed.delta;
      && pushed.decoded == decoded + chunk
      && (pushed.hit <==> EarliestStop(pushed.decoded, stops).Some?)
      && (pushed.hit ==> total == pushed.decoded[..EarliestStop(pushed.decoded, stops).value])
      && (!pushed.hit && terminal ==> total == pushed.decoded)
      && (!pushed.hit && !terminal ==> Open(stops, pushed.decoded, total))
  {
    hide EarliestStop, HeldStopPrefix, StopAt, MatchAt;
    NeverCrossed(stops, decoded, chunk, terminal);
    var text := decoded + chunk;
    var end := Visible(stops, text, terminal);
    assert emitted == text[..|emitted|];
    assert emitted + text[|emitted|..end] == text[..end];
  }

  // ----- whole streams -----

  /** Pushes every chunk; the last one is terminal, and a hit ends the stream. The result is all the text handed out. */
  function Deliver(stops: seq<string>, decoded: string, emitted: string, chunks: seq<string>): Result<string>
    decreases chunks
  {
    if chunks == [] then Ok(emitted)
    else
      var pushed :- PushSpec(stops, decoded, emitted, chunks[0], |chunks| == 1);
      if pushed.hit then Ok(emitted + pushed.delta)
      else Deliver(stops, pushed.decoded, emitted + pushed.delta, chunks[1..])
  }

  /** The same stream without any withholding: cut before the earliest match known at the first push that has one. */
  function Unbuffered(stops: seq<string>, decoded: string, chunks: seq<string>): string
    decreases chunks
  {
    if chunks == [] then decoded
    else
      var text := decoded + chunks[0];
      match EarliestStop(text, stops)
      case Some(position) => text[..position]
      case None => Unbuffered(stops, text, chunks[1..])
  }

  /** What a stream delivered in a single chunk hands out. */
  function WholeOutput(stops: seq<string>, text: string): string {
    match EarliestStop(text, stops)
    case Some(position) => text[..position]
    case None => text
  }

  /** Withholding never fails and never changes what a complete stream hands out. */
  lemma {:induction false} BufferingIsInvisible(stops: seq<string>, decoded: string, emitted: string,
                                                chunks: seq<string>)
    requires chunks != []
    requires Open(stops, decoded, emitted)
    ensures Deliver(stops, decoded, emitted, chunks) == Ok(Unbuffered(stops, decoded, chunks))
    decreases chunks
  {
    OpenDecoderPushes(stops, decoded, emitted, chunks[0], |chunks| == 1);
    var pushed := PushSpec(stops, decoded, emitted, chunks[0], |chunks| == 1).value;
    if !pushed.hit && |chunks| > 1 {
      BufferingIsInvisible(stops, pushed.decoded, emitted + pushed.delta, chunks[1..]);
    }
  }

  /**
   Every stop sequence strictly inside another one is anticipated: by the time it is complete, a stop
   sequence that is a prefix of the outer one is complete as well.
   */
  predicate ChunkSafe(stops: seq<string>) {
    forall outer, inner | outer in stops && inner in stops ::
      forall offset | 0 < offset < |outer| - |inner| && MatchAt(outer, inner, offset) ::
        Anticipated(stops, outer, offset + |inner|)
  }

  predicate Anticipated(stops: seq<string>, outer: string, end: nat) {
    exists stop | stop in stops :: |stop| <= end && stop <= outer
  }

  lemma {:induction false} SafeStopsIgnoreBoundaries(stops: seq<string>, decoded: string, chunks: seq<string>)
    requires ChunkSafe(stops)
    requires EarliestStop(decoded, stops).None?
    ensures Unbuffered(stops, decoded, chunks) == WholeOutput(stops, decoded + Flatten(chunks))
    decreases chunks
  {
    hide EarliestStop;
    if chunks == [] {
      assert decoded + Flatten(chunks) == decoded;
    } else {
      var text, total := decoded + chunks[0], decoded + Flatten(chunks);
      assert total == text + Flatten(chunks[1..]);
      match EarliestStop(text, stops)
      case None => SafeStopsIgnoreBoundaries(stops, text, chunks[1..]);
      case Some(position) => CompletedMatchIsEarliest(stops, text, Flatten(chunks[1..]));
        assert total[..position] == text[..position];
    }
  }

  /** With safe stop sequences, the earliest match of a text that has one stays the earliest when the text grows. */
  lemma {:induction false} CompletedMatchIsEarliest(stops: seq<string>, text: string, rest: string)
    requires ChunkSafe(stops)
    requires EarliestStop(text, stops).Some?
    ensures EarliestStop(text + rest, stops) == EarliestStop(text, stops)
  {
    hide EarliestStop;
    var total, position := text + rest, EarliestStop(text, stops).value;
    var inner :| inner in stops && MatchAt(text, inner, position);
    MatchInPrefix(text, rest, inner, position);
    assert StopAt(total, stops, position);
    var first := EarliestStop(total, stops).value;
    if first < position {
      var outer :| outer in stops && MatchAt(total, outer, first);
      NoEarlierMatch(stops, text, rest, inner, position, outer, first);
    }
  }

  /** Under safe stop sequences nothing that starts before the earliest match can complete later. */
  lemma {:induction false} NoEarlierMatch(stops: seq<string>, text: string, rest: string, inner: string, position: nat,
                                          outer: string, first: nat)
    requires ChunkSafe(stops)
    requires EarliestStop(text, stops) == Some(position)
    requires inner in stops && MatchAt(text, inner, position)
    requires outer in stops && first < position
    ensures !MatchAt(text + rest, outer, first)
  {
    hide EarliestStop;
    var total, offset := text + rest, position - first;
    assert !StopAt(text, stops, first);
    if MatchAt(total, outer, first) {
      MatchInPrefix(text, rest, outer, first);
      MatchInPrefix(text, rest, inner, position);
      NestedMatch(total, outer, inner, first, offset);
      assert Anticipated(stops, outer, offset + |inner|);
      var stop :| stop in stops && |stop| <= offset + |inner| && stop <= outer;
      PrefixMatches(total, outer, stop, first);
      MatchInPrefix(text, rest, stop, first);
      assert false;
    }
  }

  lemma {:induction false} NestedMatch(text: string, outer: string, inner: string, start: nat, offset: nat)
    requires MatchAt(text, outer, start) && MatchAt(text, inner, start + offset) && offset + |inner| <= |outer|
    ensures MatchAt(outer, inner, offset)
  {
    SliceOfSlice(text, start, start + |outer|, offset, offset + |inner|);
  }

  lemma {:induction false} PrefixMatches(text: string, outer: string, stop: string, start: nat)
    requires MatchAt(text, outer, start) && stop <= outer
    ensures MatchAt(text, stop, start)
  {
    assert text[start..start + |stop|] == outer[..|stop|];
  }

  /** Cut right after an unanticipated inner stop sequence, the head of the outer one matches late only. */
  lemma {:induction false} HeadMatchesLate(stops: seq<string>, outer: string, inner: string, offset: nat)
    requires outer in stops && inner in stops && 0 < offset < |outer| - |inner|
    requires MatchAt(outer, inner, offset) && !Anticipated(stops, outer, offset + |inner|)
    ensures EarliestStop(outer[..offset + |inner|], stops).Some? &&
            EarliestStop(outer[..offset + |inner|], stops).value > 0
    ensures EarliestStop(outer, stops) == Some(0)
  {
    hide EarliestStop;
    var cut := offset + |inner|;
    var head := outer[..cut];
    assert outer == head + outer[cut..];
    MatchInPrefix(head, outer[cut..], inner, offset);
    assert StopAt(head, stops, offset);
    assert MatchAt(outer, outer, 0) && StopAt(outer, stops, 0);
    forall stop | stop in stops
      ensures !MatchAt(head, stop, 0)
    {
      assert !(|stop| <= cut && stop <= outer);
    }
  }

  /** Cutting an outer stop sequence right after an unanticipated inner one changes the output. */
  lemma {:induction false} UnsafeStopsShowBoundaries(stops: seq<string>) returns (chunks: seq<string>)
    requires !ChunkSafe(stops)
    ensures chunks != [] && Unbuffered(stops, "", chunks) != WholeOutput(stops, Flatten(chunks))
  {
    hide EarliestStop, MatchAt, Anticipated;
    var outer, inner, offset := UnanticipatedStop(stops);
    HeadMatchesLate(stops, outer, inner, offset);
    var cut := offset + |inner|;
    chunks := [outer[..cut], outer[cut..]];
    assert Flatten(chunks[1..]) == outer[cut..] + Flatten(chunks[1..][1..]) == outer[cut..];
    assert Flatten(chunks) == outer;
    assert "" + chunks[0] == outer[..cut];
  }

  lemma {:induction false} UnanticipatedStop(stops: seq<string>) returns (outer: string, inner: string, offset: int)
    requires !ChunkSafe(stops)
    ensures outer in stops && inner in stops && 0 < offset < |outer| - |inner|
    ensures MatchAt(outer, inner, offset) && !Anticipated(stops, outer, offset + |inner|)
  {
    outer, inner :| outer in stops && inner in stops &&
      exists offset ::
        0 < offset < |outer| - |inner| && MatchAt(outer, inner, offset) && !Anticipated(stops, outer, offset + |inner|);
    offset :| 0 < offset < |outer| - |inner| && MatchAt(outer, inner, offset) &&
      !Anticipated(stops, outer, offset + |inner|);
  }

  predicate BoundariesIrrelevant(stops: seq<string>, chunks: seq<string>) {
    Deliver(stops, "", "", chunks) == Ok(WholeOutput(stops, Flatten(chunks)))
  }

  /** Chunk boundaries never show in the output exactly when the stop sequences are safe. */
  lemma {:induction false} OutputIgnoresBoundariesIffSafe(stops: seq<string>)
    requires forall stop | stop in stops :: stop != ""
    ensures (forall chunks | chunks != [] :: BoundariesIrrelevant(stops, chunks)) <==> ChunkSafe(stops)
  {
    forall chunks: seq<string> | chunks != []
      ensures Deliver(stops, "", "", chunks) == Ok(Unbuffered(stops, "", chunks))
      ensures ChunkSafe(stops) ==> BoundariesIrrelevant(stops, chunks)
    {
      EmptyTextIsOpen(stops);
      BufferingIsInvisible(stops, "", "", chunks);
      if ChunkSafe(stops) {
        SafeStopsIgnoreBoundaries(stops, "", chunks);
        assert "" + Flatten(chunks) == Flatten(chunks);
      }
    }
    if !ChunkSafe(stops) {
      var chunks := UnsafeStopsShowBoundaries(stops);
      assert !BoundariesIrrelevant(stops, chunks);
    }
  }

  lemma {:induction false} EmptyTextIsOpen(stops: seq<string>)
    requires forall stop | stop in stops :: stop != ""
    ensures Open(stops, "", "")
  {
  }

  /** Stop sequences that do not contain one another are safe; "abcd" with "c" are not. */
  lemma {:induction false} SeparateStopsAreSafe(stops: seq<string>)
    ensures (forall a, b, offset: nat | a in stops && b in stops && a != b :: !MatchAt(a, b, offset)) ==>
            ChunkSafe(stops)
    ensures !ChunkSafe(["abcd", "c"])
  {
    var example := ["abcd", "c"];
    assert MatchAt(example[0], example[1], 2);
    forall stop | stop in example && |stop| <= 3
      ensures !(stop <= example[0])
    {
      assert stop == "c" && stop[0] != example[0][0];
    }
  }
}
