/**
 The continuous-batch coordinator itself: its two fields, Power's lifecycle as a small state machine
 with a contract, and every critical section as a method that is one event of the protocol.
 */
module ContinuousBatch {
  import opened Wrappers
  import opened Generation
  import opened Scheduler
  import opened Runs

  // ----- Power's lifecycle -----

  datatype Snapshot = Snapshot(id: Id, position: nat)

  function Ids(snapshots: seq<Snapshot>): (ids: seq<Id>)
    ensures |ids| == |snapshots|
  {
    seq(|snapshots|, i requires 0 <= i < |snapshots| => snapshots[i].id)
  }

  datatype RowOutcome = RowOutcome(position: nat, completed: bool)

  predicate Distinct(ids: seq<Id>) {
    forall i, j | 0 <= i < j < |ids| :: ids[i] != ids[j]
  }

  /** The active members after a commit of the rows of `roster`. */
  function CommittedActive(active: map<Id, Entry>, roster: seq<Id>, outcomes: map<Id, RowOutcome>,
                           dropped: set<Id>): map<Id, Entry>
  {
    map id | id in active && (id in roster ==> id in outcomes && !outcomes[id].completed && id !in dropped) ::
      if id in roster then active[id].(position := outcomes[id].position) else active[id]
  }

  /** Power's answer to a step, a commit or the end: agreement, or a refusal that removes some cancelled members. */
  type Refusal = Option<set<Id>>

  function CancelledAmong(active: map<Id, Entry>, ids: set<Id>): (cancelled: set<Id>)
    ensures TokensCancelled(active, cancelled)
  {
    set id | id in ids && id in active && active[id].cancelled
  }

  predicate Gone(active: map<Id, Entry>, id: Id) {
    id !in active || active[id].cancelled
  }

  class Lifecycle {
    var active: map<Id, Entry>

    constructor ()
      ensures active == map[]
    {
      active := map[];
    }

    /** Every active member once, in the order of Power's choice. */
    method ActiveMembers() returns (snapshots: seq<Snapshot>)
      ensures Distinct(Ids(snapshots))
      ensures forall i | 0 <= i < |snapshots| ::
              snapshots[i].id in active && snapshots[i].position == active[snapshots[i].id].position
      ensures forall id | id in active :: id in Ids(snapshots)
    {
      snapshots := [];
      var left := active.Keys;
      while left != {}
        invariant left <= active.Keys
        invariant Distinct(Ids(snapshots))
        invariant forall i | 0 <= i < |snapshots| ::
                  snapshots[i].id in active.Keys - left && snapshots[i].position == active[snapshots[i].id].position
        invariant forall id | id in active.Keys - left :: id in Ids(snapshots)
        decreases left
      {
        var id :| id in left;
        assert Ids(snapshots + [Snapshot(id, active[id].position)]) == Ids(snapshots) + [id];
        snapshots := snapshots + [Snapshot(id, active[id].position)];
        left := left - {id};
      }
    }

    method Admit(id: Id, willing: bool) returns (admitted: bool)
      modifies this
      ensures admitted <==> willing && id !in old(active)
      ensures active == if admitted then old(active)[id := Entry(0, false)] else old(active)
    {
      admitted := willing && id !in active;
      if admitted {
        active := active[id := Entry(0, false)];
      }
    }

    method Cancel(id: Id) returns (found: bool)
      modifies this
      ensures found <==> id in old(active)
      ensures active == old(active) - {id}
    {
      found := id in active;
      active := active - {id};
    }

    method CancelToken(id: Id)
      requires id in active
      modifies this
      ensures active == old(active)[id := old(active)[id].(cancelled := true)]
    {
      active := active[id := active[id].(cancelled := true)];
    }

    /** Removes those of the given members whose token is cancelled. */
    method Reap(ids: set<Id>) returns (reaped: set<Id>)
      modifies this
      ensures reaped == CancelledAmong(old(active), ids) && active == old(active) - reaped
    {
      reaped := CancelledAmong(active, ids);
      active := active - reaped;
    }

    /** Freezes exactly the given rows, or refuses, possibly after removing cancelled members. */
    method BeginStep(roster: seq<Id>, refusal: Refusal) returns (begun: bool, ghost reaped: set<Id>)
      modifies this
      ensures begun <==> refusal.None?
      ensures reaped == (if begun then {} else CancelledAmong(old(active), refusal.value))
      ensures active == old(active) - reaped
    {
      begun, reaped := refusal.None?, {};
      if !begun {
        reaped := Reap(refusal.value);
      }
      assert begun ==> active == old(active) - reaped;
    }

    /** Whether the token of a row is seen cancelled; a member that left counts as cancelled. */
    method Cancelled(id: Id) returns (cancelled: bool)
      ensures cancelled <==> Gone(active, id)
    {
      cancelled := id !in active || active[id].cancelled;
    }

    /** Commits a step, dropping some of the cancelled rows, or refuses like a dropped step. */
    method Commit(roster: seq<Id>, outcomes: map<Id, RowOutcome>, refusal: Refusal, dropped: set<Id>)
      returns (committed: bool, ghost removed: set<Id>)
      modifies this
      ensures committed <==> refusal.None?
      ensures removed == CancelledAmong(old(active), if committed then dropped else refusal.value)
      ensures active == if committed then CommittedActive(old(active), roster, outcomes, removed)
              else old(active) - removed
    {
      committed := refusal.None?;
      if committed {
        removed := CancelledAmong(active, dropped);
        active := CommittedActive(active, roster, outcomes, CancelledAmong(active, dropped));
      } else {
        removed := Reap(refusal.value);
      }
    }

    method Finish(refusal: Refusal) returns (finished: bool, ghost reaped: set<Id>)
      modifies this
      ensures finished <==> refusal.None?
      ensures finished ==> active == map[]
      ensures !finished ==> reaped == CancelledAmong(old(active), refusal.value) && active == old(active) - reaped
    {
      finished, reaped := refusal.None?, {};
      if finished {
        active := map[];
      } else {
        reaped := Reap(refusal.value);
      }
    }
  }

  // ----- rosters -----

  /** The rows of a roster as a map. */
  ghost function Gather<C, G>(roster: seq<Id>, rows: seq<Member<C, G>>): map<Id, Member<C, G>>
    requires |roster| == |rows|
  {
    if roster == [] then map[]
    else
      var last := |roster| - 1;
      Gather(roster[..last], rows[..last])[roster[last] := rows[last]]
  }

  lemma {:induction false} GatherKeys<C, G>(roster: seq<Id>, rows: seq<Member<C, G>>)
    requires Distinct(roster) && |roster| == |rows|
    ensures forall id :: id in Gather(roster, rows) <==> id in roster
    ensures forall i | 0 <= i < |roster| ::
            roster[i] in Gather(roster, rows) && Gather(roster, rows)[roster[i]] == rows[i]
    decreases |roster|
  {
    if roster == [] {
    } else {
      var last := |roster| - 1;
      var before := Gather(roster[..last], rows[..last]);
      assert Gather(roster, rows) == before[roster[last] := rows[last]];
      hide Gather;
      GatherKeys(roster[..last], rows[..last]);
      assert roster == roster[..last] + [roster[last]];
      forall i | 0 <= i < |roster|
        ensures roster[i] in Gather(roster, rows) && Gather(roster, rows)[roster[i]] == rows[i]
      {
        if i < last {
          assert roster[..last][i] in before && before[roster[..last][i]] == rows[..last][i];
        }
      }
    }
  }

  // ----- one model step -----

  /** What became of a row: sampled, with its token and whether it completed, or skipped as cancelled. */
  datatype PreparedCommit<C, G> = PreparedCommit(
    working: seq<Member<C, G>>,
    outcomes: map<Id, RowOutcome>,
    metadata: seq<Option<(nat, bool)>>)

  ghost predicate RowForwarded<C, G, L>(engine: Engine<C, G, L>, original: Member<C, G>, row: Member<C, G>, logits: L) {
    row == original.(cache := row.cache) &&
      engine.forward(original.cache, original.pending) == Some((row.cache, logits))
  }

  ghost predicate RowPrepared<C, G, L>(engine: Engine<C, G, L>, active: map<Id, Entry>, id: Id, original: Member<C, G>,
                                       row: Member<C, G>, after: Member<C, G>, outcomes: map<Id, RowOutcome>,
                                       metadata: Option<(nat, bool)>)
  {
    match metadata
    case None => after == row && id !in outcomes && Gone(active, id)
    case Some((token, completed)) =>
      && !Gone(active, id)
      && Sampled(engine, original) == Some(after) && after.pending == [token] && completed == Completed(after)
      && id in outcomes && outcomes[id] == RowOutcome(engine.position(after.cache), completed)
  }

  /** Every row of the batch step: all rows advance, or none does. */
  method ForwardContinuousBatch<C, G, L>(engine: Engine<C, G, L>, inputs: seq<seq<nat>>, working: seq<Member<C, G>>,
                                         interrupted: bool)
    returns (result: Result<(seq<Member<C, G>>, seq<L>)>)
    requires |inputs| == |working| && forall i | 0 <= i < |working| :: inputs[i] == working[i].pending
    ensures result.Ok? <==>
            !interrupted && forall i | 0 <= i < |working| :: engine.forward(working[i].cache, working[i].pending).Some?
    ensures result.Ok? ==>
      && |result.value.0| == |result.value.1| == |working|
      && forall i | 0 <= i < |working| :: RowForwarded(engine, working[i], result.value.0[i], result.value.1[i])
  {
    if interrupted {
      return Err(Cancelled);
    }
    var rows: seq<Member<C, G>>, logits: seq<L> := [], [];
    for i := 0 to |working|
      invariant |rows| == |logits| == i
      invariant forall j | 0 <= j < i :: RowForwarded(engine, working[j], rows[j], logits[j])
    {
      var output := engine.forward(working[i].cache, inputs[i]);
      if output.None? {
        return Err(Inference);
      }
      rows, logits := rows + [working[i].(cache := output.value.0)], logits + [output.value.1];
    }
    result := Ok((rows, logits));
  }

  /** Samples one row. */
  method SampleRow<C, G, L>(engine: Engine<C, G, L>, ghost original: Member<C, G>, row: Member<C, G>, logits: L)
    returns (result: Result<Member<C, G>>)
    requires RowForwarded(engine, original, row, logits)
    ensures match Sampled(engine, original)
            case None => result.Err?
            case Some(after) => result == Ok(after) && after.cache == row.cache && after.generated != []
                                && after.pending == [after.generated[|after.generated| - 1]]
  {
    var drawn := engine.sample(row.sampler, logits, row.history);
    if drawn.None? {
      return Err(Inference);
    }
    var token := drawn.value.0;
    result := Ok(row.(pending := [token], generated := row.generated + [token], history := row.history + [token],
                      sampler := drawn.value.1));
  }

  /** Samples every row whose token is not seen cancelled, and prepares the outcomes for Power. */
  method PrepareCommit<C, G, L>(engine: Engine<C, G, L>, lifecycle: Lifecycle, roster: seq<Id>,
                                ghost originals: seq<Member<C, G>>, working: seq<Member<C, G>>, logits: seq<L>)
    returns (result: Result<PreparedCommit<C, G>>)
    requires Distinct(roster) && |roster| == |originals| == |working| == |logits|
    requires forall i | 0 <= i < |roster| :: RowForwarded(engine, originals[i], working[i], logits[i])
    ensures result.Ok? ==>
      && |result.value.working| == |result.value.metadata| == |roster|
      && (forall id | id in result.value.outcomes :: id in roster)
      && forall i | 0 <= i < |roster| :: RowPrepared(engine, lifecycle.active, roster[i], originals[i], working[i],
                                                     result.value.working[i], result.value.outcomes,
                                                       result.value.metadata[i])
    ensures result.Ok? <==>
            forall i | 0 <= i < |roster| :: Gone(lifecycle.active, roster[i]) || Sampled(engine, originals[i]).Some?
  {
    hide Sampled, RowForwarded, RowPrepared, Completed, Gone;
    var after: seq<Member<C, G>>, outcomes: map<Id, RowOutcome>, metadata: seq<Option<(nat, bool)>> := [], map[], [];
    for i := 0 to |roster|
      invariant |after| == |metadata| == i
      invariant forall id | id in outcomes :: id in roster[..i]
      invariant forall j | 0 <= j < i ::
                  RowPrepared(engine, lifecycle.active, roster[j], originals[j], working[j], after[j], outcomes,
                              metadata[j])
      invariant forall j | 0 <= j < i :: Gone(lifecycle.active, roster[j]) || Sampled(engine, originals[j]).Some?
    {
      var id := roster[i];
      var cancelled := lifecycle.Cancelled(id);
      if cancelled {
        SkippedRow(engine, lifecycle.active, id, originals[i], working[i], outcomes);
        after, metadata := after + [working[i]], metadata + [None];
      } else {
        var sampled := SampleRow(engine, originals[i], working[i], logits[i]);
        if sampled.Err? {
          return Err(sampled.error);
        }
        var member := sampled.value;
        var outcome := RowOutcome(engine.position(member.cache), Completed(member));
        forall j | 0 <= j < i
          ensures RowPrepared(engine, lifecycle.active, roster[j], originals[j], working[j], after[j],
                              outcomes[id := outcome], metadata[j])
        {
          OtherOutcome(engine, lifecycle.active, roster[j], originals[j], working[j], after[j], outcomes, metadata[j],
                       id, outcome);
        }
        SampledRow(engine, lifecycle.active, id, originals[i], working[i], member, outcomes);
        outcomes := outcomes[id := outcome];
        after, metadata := after + [member], metadata + [Some((member.pending[0], outcome.completed))];
      }
    }
    result := Ok(PreparedCommit(after, outcomes, metadata));
  }

  lemma {:induction false} SkippedRow<C, G, L>(engine: Engine<C, G, L>, active: map<Id, Entry>, id: Id,
                                               original: Member<C, G>, row: Member<C, G>, outcomes: map<Id, RowOutcome>)
    requires Gone(active, id) && id !in outcomes
    ensures RowPrepared(engine, active, id, original, row, row, outcomes, None)
  {
  }

  lemma {:induction false} SampledRow<C, G, L>(engine: Engine<C, G, L>, active: map<Id, Entry>, id: Id,
                                               original: Member<C, G>, row: Member<C, G>, after: Member<C, G>,
                                               outcomes: map<Id, RowOutcome>)
    requires !Gone(active, id) && Sampled(engine, original) == Some(after) && |after.pending| == 1
    ensures RowPrepared(engine, active, id, original, row, after,
                        outcomes[id := RowOutcome(engine.position(after.cache), Completed(after))],
                        Some((after.pending[0], Completed(after))))
  {
  }

  /** Another row's outcome changes nothing for a row. */
  lemma {:induction false} OtherOutcome<C, G, L>(engine: Engine<C, G, L>, active: map<Id, Entry>, id: Id,
                                                 original: Member<C, G>, row: Member<C, G>, after: Member<C, G>,
                                                 outcomes: map<Id, RowOutcome>, metadata: Option<(nat, bool)>,
                                                 other: Id, outcome: RowOutcome)
    requires RowPrepared(engine, active, id, original, row, after, outcomes, metadata) && other != id
    ensures RowPrepared(engine, active, id, original, row, after, outcomes[other := outcome], metadata)
  {
  }

  // ----- the coordinator -----

  /** A frozen roster, its members taken out of the coordinator, and their pending tokens. */
  datatype Taken<C, G> = Taken(roster: seq<Id>, working: seq<Member<C, G>>, inputs: seq<seq<nat>>)

  datatype RowOutput = RowOutput(id: Id, token: nat, completed: bool)

  /**
   What happens to a step from outside: cancellation, Power's answers to its attempts, and interruption of the model.
   */
  datatype Circumstances = Circumstances(
    cancelledBefore: bool,
    begins: nat -> Refusal,
    interrupted: bool,
    cancelledDuring: bool,
    commit: Refusal,
    dropped: set<Id>)

  predicate Favourable(circumstances: Circumstances) {
    && !circumstances.cancelledBefore && !circumstances.interrupted && !circumstances.cancelledDuring
    && circumstances.begins(0).None? && circumstances.commit.None?
  }

  datatype StepError =
    | StepInFlight
    | NoActiveMembers
    | StepFailed(error: Error)

  datatype Step<T> = Stepped(value: T) | Refused(reason: StepError)

  class ContinuousBatch<C(!new), G(!new), L(!new)> {
    const engine: Engine<C, G, L>
    const lifecycle: Lifecycle
    var inStep: bool
    var members: map<Id, Member<C, G>>
    ghost var flights: map<nat, Flight<C, G>>
    ghost var history: History<G>

    ghost function State(): State<C, G>
      reads this, lifecycle
    {
      Scheduler.State(inStep, members, lifecycle.active, flights, history)
    }

    ghost predicate Valid()
      reads this, lifecycle
    {
      EngineLaws(engine) && Inv(engine, State())
    }

    constructor (engine: Engine<C, G, L>)
      requires EngineLaws(engine)
      ensures this.engine == engine && State() == Initial() && Valid()
      ensures fresh(lifecycle)
    {
      this.engine := engine;
      lifecycle := new Lifecycle();
      inStep, members, flights, history := false, map[], map[], History(map[], map[], {});
      new;
      InitialInv(engine);
    }

    /** The checks of a request: the model's, the runtime's limits, the end tokens and the sampling settings. */
    method ValidateRequest(request: Request<G>) returns (result: Result<()>)
      ensures result.Ok? <==> Acceptable(engine, request)
      ensures result.Err? ==> result.error == if Generable(engine, request) then InvalidConfig else InvalidTensor
    {
      if request.prompt == [] || (exists i | 0 <= i < |request.prompt| :: request.prompt[i] >= engine.vocabulary)
         || |request.prompt| + request.maxNew > engine.maxPosition {
        return Err(InvalidTensor);
      }
      if request.maxNew > engine.policy.maxGenerated || |request.prompt| + request.maxNew > engine.policy.maxContext {
        return Err(InvalidConfig);
      }
      var unique: set<nat> := {};
      for i := 0 to |request.eos|
        invariant forall token :: token in unique <==> token in request.eos[..i]
        invariant EndTokens(request.eos[..i], engine.vocabulary)
      {
        if request.eos[i] >= engine.vocabulary || request.eos[i] in unique {
          return Err(InvalidConfig);
        }
        unique := unique + {request.eos[i]};
      }
      assert request.eos[..|request.eos|] == request.eos;
      result := if engine.policy.validSampling(request.sampler) then Ok(()) else Err(InvalidConfig);
    }

    /** Requests are numbered by the caller; a number is used once. */
    method Admit(id: Id, request: Request<G>, willing: bool) returns (result: Result<Id>)
      requires Valid() && id !in history.requests
      modifies this, lifecycle
      ensures Valid()
      ensures result.Ok? <==>
              willing && Acceptable(engine, request) && id !in old(members) && id !in old(lifecycle.active)
      ensures result.Ok? ==> result.value == id && Enabled(engine, old(State()), Event.Admit(id, request))
      ensures result.Ok? ==> State() == Apply(engine, old(State()), Event.Admit(id, request))
      ensures result.Err? ==> State() == old(State())
    {
      hide Inv, OnPath, AloneRun, EngineLaws, Acceptable;
      ghost var before := State();
      var valid := ValidateRequest(request);
      if valid.Err? {
        return Err(valid.error);
      }
      if id in members {
        return Err(InvalidConfig);
      }
      var admitted := lifecycle.Admit(id, willing);
      if !admitted {
        return Err(Power);
      }
      members := members[id := NewMember(engine, request)];
      history := history.(requests := history.requests[id := request], log := history.log[id := []]);
      assert State() == Apply(engine, before, Event.Admit(id, request));
      EventKeepsInv(engine, before, Event.Admit(id, request));
      result := Ok(id);
    }

    method Cancel(id: Id) returns (result: Result<()>)
      requires Valid()
      modifies this, lifecycle
      ensures Valid()
      ensures result.Ok? <==> id in old(lifecycle.active)
      ensures result.Ok? ==> State() == Apply(engine, old(State()), Event.Cancel(id))
      ensures result.Err? ==> State() == old(State())
    {
      hide Inv, OnPath, AloneRun, EngineLaws;
      ghost var before := State();
      var found := lifecycle.Cancel(id);
      if !found {
        assert lifecycle.active == before.active;
        return Err(Power);
      }
      members := members - {id};
      assert State() == Apply(engine, before, Event.Cancel(id));
      EventKeepsInv(engine, before, Event.Cancel(id));
      result := Ok(());
    }

    /** A caller cancels the token it gave with a request; nobody holds a lock for this. */
    method CancelToken(id: Id)
      requires Valid()
      modifies lifecycle
      ensures Valid()
      ensures State() == if id in old(lifecycle.active) then Apply(engine, old(State()), Event.CancelToken(id))
              else old(State())
    {
      hide Inv, EngineLaws;
      if id in lifecycle.active {
        EventKeepsInv(engine, State(), Event.CancelToken(id));
        lifecycle.CancelToken(id);
      }
    }

    /** Keeps the members that are still active. */
    method SynchronizeMembers()
      modifies this`members
      ensures members == Restrict(old(members), lifecycle.active.Keys)
    {
      members := map id | id in members && id in lifecycle.active :: members[id];
    }

    /** Looks up every snapshot among the members and compares positions. */
    method CheckRoster(snapshots: seq<Snapshot>) returns (agrees: bool, inputs: seq<seq<nat>>)
      ensures agrees <==> forall i | 0 <= i < |snapshots| ::
                snapshots[i].id in members && engine.position(members[snapshots[i].id].cache) == snapshots[i].position
      ensures agrees ==>
              |inputs| == |snapshots| && forall i | 0 <= i < |snapshots| ::
                inputs[i] == members[snapshots[i].id].pending
    {
      inputs := [];
      for i := 0 to |snapshots|
        invariant |inputs| == i
        invariant forall j | 0 <= j < i ::
                    && snapshots[j].id in members &&
                       engine.position(members[snapshots[j].id].cache) == snapshots[j].position
                    && inputs[j] == members[snapshots[j].id].pending
      {
        if snapshots[i].id !in members {
          return false, inputs;
        }
        var member := members[snapshots[i].id];
        if engine.position(member.cache) != snapshots[i].position {
          return false, inputs;
        }
        inputs := inputs + [member.pending];
      }
      agrees := true;
    }

    /** Takes the members of a roster out of the coordinator. */
    method TakeRoster(roster: seq<Id>) returns (working: seq<Member<C, G>>)
      requires Distinct(roster) && forall i | 0 <= i < |roster| :: roster[i] in members
      modifies this`members
      ensures |working| == |roster| && forall i | 0 <= i < |roster| :: working[i] == old(members)[roster[i]]
      ensures members == map id | id in old(members) && id !in roster :: old(members)[id]
    {
      working := [];
      for i := 0 to |roster|
        invariant |working| == i && forall j | 0 <= j < i :: working[j] == old(members)[roster[j]]
        invariant members == map id | id in old(members) && id !in roster[..i] :: old(members)[id]
      {
        assert roster[..i + 1] == roster[..i] + [roster[i]];
        working := working + [members[roster[i]]];
        members := members - {roster[i]};
      }
      assert roster[..|roster|] == roster;
    }

    /** One attempt to freeze: the roster is read and checked, and Power begins the step or refuses it. */
    method TryFreeze(ghost caller: nat, refusal: Refusal) returns (attempt: Attempt<Taken<C, G>>, ghost reaped: set<Id>)
      requires Valid() && !inStep && caller !in flights
      modifies this, lifecycle
      ensures Valid() && history == old(history) && lifecycle.active.Keys <= old(lifecycle.active).Keys
      ensures attempt.Begun? ==>
        && Enabled(engine, old(State()), Event.Freeze(caller)) &&
           State() == Apply(engine, old(State()), Event.Freeze(caller))
        && FrozenAs(flights, caller, attempt.value)
      ensures attempt.NothingActive? <==> old(lifecycle.active).Keys == {}
      ensures attempt.NothingActive? ==> lifecycle.active.Keys == {}
      ensures attempt.Begun? <==> old(lifecycle.active).Keys != {} && refusal.None?
      ensures !attempt.Begun? ==>
        Enabled(engine, old(State()), BeginFails(reaped)) && State() == Apply(engine, old(State()), BeginFails(reaped))
    {
      hide Inv, EngineLaws, Apply, Enabled, FrozenAs, RosterOf;
      reaped := {};
      var snapshots := ReadRoster();
      RosterNames(engine, State(), snapshots);
      if snapshots == [] {
        Reaped({}, State());
        return NothingActive, reaped;
      }
      var agrees, inputs := CheckRoster(snapshots);
      if !agrees {
        assert false;
      }
      ghost var held := State();
      var begun;
      begun, reaped := lifecycle.BeginStep(Ids(snapshots), refusal);
      if begun {
        assert State() == held;
        var taken := FreezeRoster(caller, snapshots, inputs);
        attempt := Begun(taken);
      } else {
        Reaped(reaped, held);
        attempt := NotBegun;
      }
    }

    /** The lifecycle's active members; the coordinator holds all of them while no step is in flight. */
    method ReadRoster() returns (snapshots: seq<Snapshot>)
      requires Valid() && !inStep
      ensures RosterOf(engine, State(), snapshots)
    {
      hide Inv, EngineLaws;
      snapshots := lifecycle.ActiveMembers();
      RosterIsHeld(engine, State());
    }

    /** The members of a roster leave the coordinator together, and the step is in flight. */
    method FreezeRoster(ghost caller: nat, snapshots: seq<Snapshot>, inputs: seq<seq<nat>>) returns (taken: Taken<C, G>)
      requires Valid() && !inStep && caller !in flights && snapshots != [] && RosterOf(engine, State(), snapshots)
      requires |inputs| == |snapshots| && forall i | 0 <= i < |snapshots| ::
               snapshots[i].id in members && inputs[i] == members[snapshots[i].id].pending
      modifies this`members, this`inStep, this`flights
      ensures Valid() && FrozenAs(flights, caller, taken)
      ensures Enabled(engine, old(State()), Event.Freeze(caller)) &&
              State() == Apply(engine, old(State()), Event.Freeze(caller))
    {
      hide Inv, EngineLaws, Apply, Enabled, Gather, RosterOf;
      RosterIsWhole(engine, State(), snapshots);
      ghost var held := State();
      var roster := Ids(snapshots);
      var working := TakeRoster(roster);
      inStep := true;
      flights := flights[caller := Frozen(Gather(roster, working))];
      FreezeEvent(engine, held, caller, snapshots, working, State());
      taken := Taken(roster, working, inputs);
    }

    /** After a beginning that failed, members that were removed from the lifecycle leave the coordinator too. */
    method Reaped(ghost reaped: set<Id>, ghost held: State<C, G>)
      requires EngineLaws(engine) && Inv(engine, held) && !held.inStep && TokensCancelled(held.active, reaped)
      requires State() == held.(active := held.active - reaped)
      modifies this`members
      ensures Valid() && Enabled(engine, held, BeginFails(reaped)) && State() == Apply(engine, held, BeginFails(reaped))
    {
      hide Inv, EngineLaws, Apply, Enabled;
      SynchronizeMembers();
      ReapEvent(engine, held, reaped, State());
    }

    /**
     The first critical section of a step. It retries while a failed beginning shrinks the members,
     and ends either with a frozen roster or with a refusal; neither a lost member nor a diverged
     position can be met on the way.
     */
    method Freeze(ghost caller: nat, begins: nat -> Refusal)
      returns (result: Step<Taken<C, G>>, ghost reaps: seq<Event<G>>, ghost begun: State<C, G>)
      requires Valid() && caller !in flights
      modifies this, lifecycle
      ensures Valid() && Leads(engine, old(State()), reaps, begun) && OnlyReaps(reaps)
      ensures history == old(history) && lifecycle.active.Keys <= old(lifecycle.active).Keys
      ensures old(inStep) <==> result == Refused(StepInFlight)
      ensures result.Refused? && !old(inStep) ==> (result.reason == NoActiveMembers <==> lifecycle.active.Keys == {})
      ensures !old(inStep) && begins(0).None? ==>
              (result.Stepped? <==> old(lifecycle.active).Keys != {}) && (result.Stepped? ==> begun == old(State()))
      ensures result.Refused? ==> State() == begun
      ensures result.Stepped? ==>
              Enabled(engine, begun, Event.Freeze(caller)) && State() == Apply(engine, begun, Event.Freeze(caller))
      ensures result.Stepped? ==> FrozenAs(flights, caller, result.value)
    {
      hide Inv, EngineLaws, Apply, Enabled, Leads, FrozenAs;
      reaps, begun := [], State();
      ghost var start := State();
      NoEvents(engine, start);
      if inStep {
        return Refused(StepInFlight), reaps, begun;
      }
      var retries := 0;
      while true
        invariant retries == 0 ==> State() == start
        invariant retries > 0 ==> begins(0).Some?
        invariant Valid() && !inStep && caller !in flights && history == old(history)
        invariant lifecycle.active.Keys <= old(lifecycle.active).Keys
        invariant Leads(engine, start, reaps, State()) && OnlyReaps(reaps)
        decreases |members|
      {
        var previous := |members|;
        begun := State();
        var attempt, reaped := TryFreeze(caller, begins(retries));
        if attempt.Begun? {
          return Stepped(attempt.value), reaps, begun;
        }
        ReapsStayOut(engine, begun, reaped);
        OneMore(engine, start, reaps, begun, BeginFails(reaped));
        reaps, begun := reaps + [BeginFails(reaped)], State();
        RosterIsHeld(engine, begun);
        assert |members| == |members.Keys|;
        if attempt.NotBegun? && |members| < previous && |members| > 0 {
          retries := retries + 1;
          continue;
        }
        if |members| == 0 || attempt.NothingActive? {
          return Refused(NoActiveMembers), reaps, begun;
        }
        return Refused(StepFailed(Power)), reaps, begun;
      }
    }

    method ActiveMemberIds() returns (ids: set<Id>)
      ensures ids == lifecycle.active.Keys
    {
      var snapshots := lifecycle.ActiveMembers();
      ids := set i | 0 <= i < |snapshots| :: snapshots[i].id;
      forall id | id in lifecycle.active
        ensures id in ids
      {
        assert id in Ids(snapshots);
      }
    }

    /** The model step and the sampling, outside the lock; only the caller's own rows change. */
    method ComputeStep(ghost caller: nat, taken: Taken<C, G>, interrupted: bool, cancelled: bool)
      returns (result: Result<PreparedCommit<C, G>>, ghost skipped: set<Id>)
      requires Valid() && FrozenAs(flights, caller, taken)
      modifies this`flights
      ensures Valid()
      ensures result.Ok? <==> !interrupted && !cancelled && RowsSucceed(engine, lifecycle.active, taken)
      ensures result.Ok? ==>
              |result.value.metadata| == |taken.roster| &&
                SkipsGone(lifecycle.active, taken.roster, result.value.metadata)
      ensures result.Err? ==> State() == old(State())
      ensures result.Ok? ==>
        && Enabled(engine, old(State()), Compute(caller, skipped)) &&
           State() == Apply(engine, old(State()), Compute(caller, skipped))
        && PreparedAs(engine, flights, caller, taken, result.value)
    {
      hide Inv, EngineLaws, Apply, Enabled, RowForwarded, RowPrepared, Gather, Gone, SkipsGone;
      skipped := {};
      var batch := ForwardContinuousBatch(engine, taken.inputs, taken.working, interrupted);
      if batch.Err? {
        return Err(batch.error), skipped;
      }
      if cancelled {
        return Err(Cancelled), skipped;
      }
      var (rows, logits) := batch.value;
      var prepared := PrepareCommit(engine, lifecycle, taken.roster, taken.working, rows, logits);
      if prepared.Err? {
        return Err(prepared.error), skipped;
      }
      skipped := PreparedRows(engine, lifecycle.active, taken, rows, logits, prepared.value);
      ghost var before := State();
      flights := flights[caller := Flight.Prepared(Gather(taken.roster, taken.working),
                                                   Gather(taken.roster, prepared.value.working),
                                                   prepared.value.outcomes.Keys)];
      ComputeEvent(engine, before, caller, taken, prepared.value, skipped, State());
      PreparedRoster(engine, lifecycle.active, flights, caller, taken, rows, prepared.value);
      PreparedSkips(engine, lifecycle.active, taken, rows, prepared.value);
      result := Ok(prepared.value);
    }

    /** Hands the outcomes to Power. */
    method CommitStep(ghost caller: nat, taken: Taken<C, G>, prepared: PreparedCommit<C, G>, refusal: Refusal,
                      dropped: set<Id>)
      returns (committed: bool, ghost event: Event<G>)
      requires Valid() && PreparedAs(engine, flights, caller, taken, prepared)
      modifies this`flights, this`history, lifecycle
      ensures Valid()
      ensures lifecycle.active.Keys <= old(lifecycle.active).Keys
      ensures committed <==> refusal.None?
      ensures !committed ==> history == old(history)
      ensures committed ==> event.Commit? && event.caller == caller
      ensures !committed ==> event.CommitFails? && event.caller == caller
      ensures !committed ==> Submap(old(lifecycle.active), lifecycle.active)
      ensures Enabled(engine, old(State()), event) && State() == Apply(engine, old(State()), event)
      ensures caller in flights &&
              flights[caller] == Settling(Gather(taken.roster, if committed then prepared.working else taken.working))
    {
      hide Inv, EngineLaws, Gather, Extended, CompletedRows;
      ghost var before := State();
      ghost var removed;
      committed, removed := lifecycle.Commit(taken.roster, prepared.outcomes, refusal, dropped);
      if committed {
        CommittedIsContinuing(engine, before.active, taken, prepared, removed);
        event := Commit(caller, removed);
      } else {
        event := CommitFails(caller, removed);
        ReapIsSubmap(before.active, removed);
      }
      flights, history := Apply(engine, before, event).flights, Apply(engine, before, event).history;
      EventKeepsInv(engine, before, event);
    }

    /** The last critical section: members that are active, as read before the lock, go back. */
    method Publish(ghost caller: nat, roster: seq<Id>, back: seq<Member<C, G>>, active: set<Id>)
      requires Valid() && Distinct(roster) && |roster| == |back|
      requires caller in flights && flights[caller] == Publishing(Gather(roster, back), active)
      modifies this
      ensures Valid()
      ensures Enabled(engine, old(State()), Event.Publish(caller)) &&
              State() == Apply(engine, old(State()), Event.Publish(caller))
    {
      hide Inv, EngineLaws, Gather, Restrict;
      ghost var before := State();
      GivenStarts(before.members, roster, back, active);
      for i := 0 to |roster|
        invariant members == before.members + Given(roster, back, active, i)
        invariant State() == before.(members := members)
      {
        GivenNext(before.members, roster, back, active, i);
        if roster[i] in active {
          members := members[roster[i] := back[i]];
        }
      }
      GivenAll(roster, back, active);
      inStep := false;
      flights := flights - {caller};
      EventKeepsInv(engine, before, Event.Publish(caller));
    }

    /** Ends a step, failed or committed: reads who is active, then gives the members back under the lock. */
    method Settle(ghost caller: nat, roster: seq<Id>, back: seq<Member<C, G>>)
      requires Valid() && Distinct(roster) && |roster| == |back|
      requires caller in flights && flights[caller] == Settling(Gather(roster, back))
      modifies this
      ensures Valid() && !inStep && history == old(history)
      ensures Settles(engine, old(State()), caller, State())
    {
      hide Inv, EngineLaws, Gather;
      ghost var before := State();
      var active := ActiveMemberIds();
      flights := flights[caller := Publishing(Gather(roster, back), active)];
      assert State() == Apply(engine, before, ReadActive(caller));
      EventKeepsInv(engine, before, ReadActive(caller));
      Publish(caller, roster, back, active);
    }

    /** Gives a roster back as it was frozen: as if the step had never been. */
    method RestoreFailedStep(ghost caller: nat, taken: Taken<C, G>, ghost begun: State<C, G>,
                             ghost meanwhile: seq<Event<G>>)
      requires Valid() && Distinct(taken.roster) && |taken.roster| == |taken.working|
      requires caller in flights && flights[caller] == Settling(Gather(taken.roster, taken.working))
      requires Since(engine, begun, caller, meanwhile, State()) && LeavesAlone(caller, meanwhile)
      modifies this
      ensures Valid() && !inStep && history == old(history)
      ensures Settles(engine, old(State()), caller, State())
      ensures Restored(members, lifecycle.active, begun)
    {
      hide Inv, EngineLaws, Gather, Since, Settles, LeavesAlone;
      ghost var before := State();
      Settle(caller, taken.roster, taken.working);
      RestoredMembers(engine, begun, caller, meanwhile, before, State());
    }

    /** The rows that got a token, in roster order. */
    method ReportRows(taken: Taken<C, G>, prepared: PreparedCommit<C, G>) returns (rows: seq<RowOutput>)
      requires |taken.roster| == |prepared.metadata|
      ensures rows == Reported(taken.roster, prepared.metadata)
    {
      rows := [];
      for i := 0 to |taken.roster|
        invariant rows == Reported(taken.roster[..i], prepared.metadata[..i])
      {
        assert taken.roster[..i + 1][..i] == taken.roster[..i] &&
               prepared.metadata[..i + 1][..i] == prepared.metadata[..i];
        if prepared.metadata[i].Some? {
          var (token, completed) := prepared.metadata[i].value;
          rows := rows + [RowOutput(taken.roster[i], token, completed)];
        }
      }
      assert taken.roster[..|taken.roster|] == taken.roster &&
             prepared.metadata[..|prepared.metadata|] == prepared.metadata;
    }

    /** From the frozen roster to the end of the step. */
    method RunStep(ghost caller: nat, taken: Taken<C, G>, circumstances: Circumstances, ghost begun: State<C, G>,
                   ghost start: State<C, G>, ghost before: seq<Event<G>>)
      returns (result: Step<seq<RowOutput>>, ghost events: seq<Event<G>>)
      requires Valid() && FrozenAs(flights, caller, taken) && Since(engine, begun, caller, [], State())
      requires forall id :: id in taken.roster <==> id in lifecycle.active
      requires lifecycle.active == begun.active && Leads(engine, start, before, State())
      modifies this, lifecycle
      ensures Valid() && !inStep && Leads(engine, start, events, State())
      ensures result.Refused? ==> history == old(history)
      ensures result.Refused? ==> Untouched(members, lifecycle.active, begun.members)
      ensures lifecycle.active.Keys <= old(lifecycle.active).Keys
      ensures result.Refused? ==> Submap(old(lifecycle.active), lifecycle.active)
      ensures result.Stepped? ==> GoOn(old(lifecycle.active), lifecycle.active, result.value)
      ensures result.Stepped? ==> LogsExtended(old(history), history, result.value)
      ensures result.Stepped? <==>
        && !circumstances.interrupted && !circumstances.cancelledDuring && circumstances.commit.None?
        && RowsSucceed(engine, old(lifecycle.active), taken)
      ensures result.Stepped? ==> RowsReport(old(lifecycle.active), taken.roster, result.value)
    {
      hide Inv, EngineLaws, Gather, Leads, Enabled, Apply, LogsExtended, Settles, LeavesAlone, FrozenAs, PreparedAs,
           Since, RowsSucceed, SkipsGone, RowsReport, GoOn;
      ghost var frozen := State();
      TakenRoster(engine, flights, caller, taken);
      var prepared, skipped := ComputeStep(caller, taken, circumstances.interrupted, circumstances.cancelledDuring);
      if prepared.Err? {
        ghost var failed := State();
        flights := flights[caller := Settling(Gather(taken.roster, taken.working))];
        FailEvent(engine, failed, caller, State());
        SinceMore(engine, begun, caller, [], failed, Fail(caller));
        OneMore(engine, start, before, failed, Fail(caller));
        OnlyOwn<G>(caller, Fail(caller));
        ghost var settling := State();
        RestoreFailedStep(caller, taken, begun, [] + [Event<G>.Fail(caller)]);
        SettleRuns(engine, start, before + [Fail(caller)], settling, caller, State());
        return Refused(StepFailed(prepared.error)),
          before + [Fail(caller)] + [ReadActive(caller)] + [Event.Publish(caller)];
      }
      ghost var computed := State();
      SinceMore(engine, begun, caller, [], frozen, Compute(caller, skipped));
      OneMore(engine, start, before, frozen, Compute(caller, skipped));
      result, events := EndStep(caller, taken, prepared.value, circumstances, begun, start,
                                before + [Compute(caller, skipped)], skipped);
    }

    /** From the sampled rows to the end of the step. */
    method EndStep(ghost caller: nat, taken: Taken<C, G>, prepared: PreparedCommit<C, G>, circumstances: Circumstances,
                   ghost begun: State<C, G>, ghost start: State<C, G>, ghost before: seq<Event<G>>,
                   ghost skipped: set<Id>)
      returns (result: Step<seq<RowOutput>>, ghost events: seq<Event<G>>)
      requires Valid() && PreparedAs(engine, flights, caller, taken, prepared)
      requires |prepared.metadata| == |taken.roster| && SkipsGone(lifecycle.active, taken.roster, prepared.metadata)
      requires Since(engine, begun, caller, [] + [Compute(caller, skipped)], State())
      requires forall id :: id in taken.roster <==> id in lifecycle.active
      requires lifecycle.active == begun.active && Leads(engine, start, before, State())
      modifies this, lifecycle
      ensures Valid() && !inStep && Leads(engine, start, events, State())
      ensures result.Refused? ==> history == old(history)
      ensures result.Refused? ==> Untouched(members, lifecycle.active, begun.members)
      ensures lifecycle.active.Keys <= old(lifecycle.active).Keys
      ensures result.Refused? ==> Submap(old(lifecycle.active), lifecycle.active)
      ensures result.Stepped? ==> GoOn(old(lifecycle.active), lifecycle.active, result.value)
      ensures result.Stepped? ==> LogsExtended(old(history), history, result.value)
      ensures result.Stepped? <==> circumstances.commit.None?
      ensures result.Stepped? ==> RowsReport(old(lifecycle.active), taken.roster, result.value)
    {
      hide Inv, EngineLaws, Gather, Leads, Enabled, Apply, LogsExtended, Settles, LeavesAlone, PreparedAs, Since,
           SkipsGone, RowsReport, GoOn, Submap;
      PreparedRosterShape(engine, flights, caller, taken, prepared);
      ghost var computed := State();
      var committed, event := CommitStep(caller, taken, prepared, circumstances.commit, circumstances.dropped);
      SinceMore(engine, begun, caller, [] + [Compute(caller, skipped)], computed, event);
      OneMore(engine, start, before, computed, event);
      ghost var settling := State();
      if !committed {
        OnlyOwnTwo(caller, Compute(caller, skipped), event);
        RestoreFailedStep(caller, taken, begun, [] + [Compute(caller, skipped)] + [event]);
        SettleRuns(engine, start, before + [event], settling, caller, State());
        return Refused(StepFailed(Power)), before + [event] + [ReadActive(caller)] + [Event.Publish(caller)];
      }
      var rows := ReportRows(taken, prepared);
      CommitExtends(engine, computed, caller, event.dropped, taken, prepared);
      ReportedRowsAreRostered(computed.active, taken.roster, prepared.metadata);
      CommitGoesOn(engine, computed, caller, event.dropped, taken, prepared);
      Settle(caller, taken.roster, prepared.working);
      SettleRuns(engine, start, before + [event], settling, caller, State());
      result, events := Stepped(rows), before + [event] + [ReadActive(caller)] + [Event.Publish(caller)];
    }

    /**
     One caller's whole step, with nobody in between; what others do in between is covered by the runs
     of the protocol. A refusal leaves every active member and every log as they were; a success hands
     out one token to each active member whose token is not cancelled, and nothing else. When Power and
     the caller do not interfere, the step succeeds exactly when the model and the samplers do.
     */
    method Step(ghost caller: nat, circumstances: Circumstances)
      returns (result: Step<seq<RowOutput>>, ghost events: seq<Event<G>>)
      requires Valid() && caller !in flights
      modifies this, lifecycle
      ensures Valid() && Leads(engine, old(State()), events, State())
      ensures !old(inStep) ==> !inStep
      ensures old(inStep) ==> result.Refused?
      ensures result.Refused? ==> history == old(history)
      ensures result.Refused? && !old(inStep) ==> Untouched(members, lifecycle.active, old(members))
      ensures result.Refused? ==> Submap(old(lifecycle.active), lifecycle.active)
      ensures result.Stepped? ==> GoOn(old(lifecycle.active), lifecycle.active, result.value)
      ensures lifecycle.active.Keys <= old(lifecycle.active).Keys
      ensures result.Stepped? ==>
        !circumstances.cancelledBefore && !circumstances.interrupted && !circumstances.cancelledDuring &&
          circumstances.commit.None?
      ensures !old(inStep) && Favourable(circumstances) ==> (result.Stepped? <==> MembersSucceed(engine, old(State())))
      ensures result.Stepped? ==> LogsExtended(old(history), history, result.value)
      ensures result.Stepped? ==> Serves(old(lifecycle.active), result.value)
    {
      hide Inv, EngineLaws, Gather, Leads, Enabled, Apply, LogsExtended, FrozenAs, RowsSucceed, RowsReport, Serves,
           MembersSucceed, Submap, GoOn;
      events := [];
      ghost var start := State();
      NoEvents(engine, start);
      ReapsKeepMembers(engine, start, [], start);
      if circumstances.cancelledBefore {
        return Refused(StepFailed(Cancelled)), events;
      }
      var frozen;
      ghost var begun;
      frozen, events, begun := Freeze(caller, circumstances.begins);
      ReapsKeepMembers(engine, start, events, begun);
      if frozen.Refused? {
        NobodySucceeds(engine, start);
        return Refused(frozen.reason), events;
      }
      OneMore(engine, start, events, begun, Event.Freeze(caller));
      FreezeKeepsActive(engine, begun, caller);
      RosterIsActive(engine, begun, flights, caller, frozen.value);
      TakenRoster(engine, flights, caller, frozen.value);
      NoEvents(engine, State());
      result, events := RunStep(caller, frozen.value, circumstances, begun, start, events + [Event.Freeze(caller)]);
      if result.Stepped? {
        ReportServes(start.active, begun.active, frozen.value.roster, result.value);
        GoOnSince(start.active, begun.active, lifecycle.active, frozen.value.roster, result.value);
      } else {
        SubmapSteps(start.active, begun.active, lifecycle.active);
      }
    }

    method Finish(refusal: Refusal) returns (result: Result<()>, ghost event: Event<G>)
      requires Valid()
      modifies this, lifecycle
      ensures Valid()
      ensures old(inStep) ==> result.Err? && State() == old(State())
      ensures !old(inStep) ==> Enabled(engine, old(State()), event) && State() == Apply(engine, old(State()), event)
      ensures !old(inStep) ==> (if result.Ok? then event.Finish? else event.BeginFails?)
      ensures result.Ok? <==> !old(inStep) && refusal.None?
      ensures result.Ok? ==> members == map[] && lifecycle.active == map[]
    {
      hide Inv, EngineLaws;
      ghost var before := State();
      event := Event.Finish;
      if inStep {
        return Err(Inference), event;
      }
      var finished, reaped := lifecycle.Finish(refusal);
      if finished {
        members := map[];
        result := Ok(());
      } else {
        event := BeginFails(reaped);
        SynchronizeMembers();
        result := Err(Power);
      }
      EventKeepsInv(engine, before, event);
    }
  }

  datatype Attempt<T> = Begun(value: T) | NothingActive | NotBegun

  /** The caller holds exactly the members it took, with their pending tokens as inputs. */
  ghost predicate FrozenAs<C, G>(flights: map<nat, Flight<C, G>>, caller: nat, taken: Taken<C, G>) {
    && Distinct(taken.roster) && |taken.roster| == |taken.working| == |taken.inputs|
    && caller in flights && flights[caller] == Frozen(Gather(taken.roster, taken.working))
    && forall i | 0 <= i < |taken.inputs| :: taken.inputs[i] == taken.working[i].pending
  }

  /** The model's step succeeds for every row, and sampling for every row whose member is not gone. */
  predicate RowsSucceed<C, G, L>(engine: Engine<C, G, L>, active: map<Id, Entry>, taken: Taken<C, G>)
    requires |taken.roster| == |taken.working|
  {
    forall i | 0 <= i < |taken.roster| :: RowSucceeds(engine, active, taken.roster[i], taken.working[i])
  }

  predicate RowSucceeds<C, G, L>(engine: Engine<C, G, L>, active: map<Id, Entry>, id: Id, member: Member<C, G>) {
    && engine.forward(member.cache, member.pending).Some?
    && (Gone(active, id) || Sampled(engine, member).Some?)
  }

  /** The same for the active members of a state. */
  predicate MembersSucceed<C, G, L>(engine: Engine<C, G, L>, s: State<C, G>) {
    && s.active.Keys != {}
    && forall id | id in s.active :: id in s.members && RowSucceeds(engine, s.active, id, s.members[id])
  }

  predicate SkipsGone(active: map<Id, Entry>, roster: seq<Id>, metadata: seq<Option<(nat, bool)>>)
    requires |roster| == |metadata|
  {
    forall i | 0 <= i < |roster| :: metadata[i].None? <==> Gone(active, roster[i])
  }

  predicate RowOf(rows: seq<RowOutput>, id: Id) {
    exists r | 0 <= r < |rows| :: rows[r].id == id
  }

  /** The rows are those of the roster's members that are not gone. */
  predicate RowsReport(active: map<Id, Entry>, roster: seq<Id>, rows: seq<RowOutput>) {
    && (forall id | id in roster :: RowOf(rows, id) <==> !Gone(active, id))
    && (forall r | 0 <= r < |rows| :: rows[r].id in roster)
  }

  /** Exactly the active members whose token is not cancelled have a row. */
  predicate Serves(active: map<Id, Entry>, rows: seq<RowOutput>) {
    && (forall id | id in active :: RowOf(rows, id) <==> !active[id].cancelled)
    && (forall r | 0 <= r < |rows| :: rows[r].id in active)
  }

  /** Some cancelled members have left; the others are as they were. */
  predicate Submap(before: map<Id, Entry>, after: map<Id, Entry>) {
    && (forall id | id in after :: id in before && after[id] == before[id])
    && (forall id | id in before && id !in after :: before[id].cancelled)
  }

  /** A row of a member that has not completed. */
  predicate OpenRow(rows: seq<RowOutput>, id: Id) {
    exists r | 0 <= r < |rows| :: rows[r].id == id && !rows[r].completed
  }

  /** After a step exactly the members with a row that did not complete go on, and their tokens are not cancelled. */
  ghost predicate GoOn(before: map<Id, Entry>, after: map<Id, Entry>, rows: seq<RowOutput>) {
    && (forall id :: id in after <==> id in before && OpenRow(rows, id))
    && (forall id | id in after :: !after[id].cancelled)
  }

  lemma {:induction false} GoOnSince(start: map<Id, Entry>, begun: map<Id, Entry>, after: map<Id, Entry>,
                                     roster: seq<Id>, rows: seq<RowOutput>)
    requires Submap(start, begun) && RowsReport(begun, roster, rows) && GoOn(begun, after, rows)
    requires forall id :: id in roster <==> id in begun
    ensures GoOn(start, after, rows)
  {
    forall id | id in start && OpenRow(rows, id)
      ensures id in begun
    {
      var r :| 0 <= r < |rows| && rows[r].id == id && !rows[r].completed;
      assert rows[r].id in roster;
    }
  }

  lemma {:induction false} SubmapSteps(start: map<Id, Entry>, begun: map<Id, Entry>, after: map<Id, Entry>)
    requires Submap(start, begun) && Submap(begun, after)
    ensures Submap(start, after)
  {
  }

  lemma {:induction false} ReapIsSubmap(active: map<Id, Entry>, removed: set<Id>)
    requires TokensCancelled(active, removed)
    ensures Submap(active, active - removed)
  {
  }

  lemma {:induction false} ReportServes(before: map<Id, Entry>, active: map<Id, Entry>, roster: seq<Id>,
                                        rows: seq<RowOutput>)
    requires Submap(before, active) && RowsReport(active, roster, rows)
    requires forall id :: id in roster <==> id in active
    ensures Serves(before, rows)
  {
    forall id | id in before
      ensures RowOf(rows, id) <==> !before[id].cancelled
    {
      if RowOf(rows, id) {
        var r :| 0 <= r < |rows| && rows[r].id == id;
        assert rows[r].id in roster;
      }
    }
  }

  lemma {:induction false} NobodySucceeds<C, G, L>(engine: Engine<C, G, L>, s: State<C, G>)
    ensures s.active.Keys == {} ==> !MembersSucceed(engine, s)
  {
  }

  /** Each row is a token more in its own log and in no other, and says exactly whether its member has completed. */
  ghost predicate LogsExtended<G>(before: History<G>, after: History<G>, rows: seq<RowOutput>) {
    && after.requests == before.requests && after.log.Keys == before.log.Keys
    && (forall r | 0 <= r < |rows| ::
          && rows[r].id in before.log && after.log[rows[r].id] == before.log[rows[r].id] + [rows[r].token]
          && (rows[r].completed <==> rows[r].id in after.completed))
    && (forall q, r | 0 <= q < r < |rows| :: rows[q].id != rows[r].id)
    && (forall id | id in before.log && (forall r | 0 <= r < |rows| :: rows[r].id != id) ::
        after.log[id] == before.log[id])
    && before.completed <= after.completed
    && (forall id | id in after.completed && id !in before.completed :: RowOf(rows, id))
  }

  /** Every active member is exactly as it was. */
  ghost predicate Untouched<C, G>(members: map<Id, Member<C, G>>, active: map<Id, Entry>, before: map<Id, Member<C, G>>)
  {
    forall id | id in active :: id in members && id in before && members[id] == before[id]
  }

  /** Every member that is active now and was active then is exactly as it was then, whoever else has come. */
  ghost predicate Restored<C, G>(members: map<Id, Member<C, G>>, active: map<Id, Entry>, begun: State<C, G>) {
    forall id | id in active && id in begun.active ::
      id in members && id in begun.members && members[id] == begun.members[id]
  }

  predicate OnlyReaps<G>(events: seq<Event<G>>) {
    forall i | 0 <= i < |events| :: events[i].BeginFails?
  }

  /** A failed beginning, with the members synchronized, is one event. */
  lemma {:induction false} ReapEvent<C(!new), G(!new), L(!new)>(engine: Engine<C, G, L>, s: State<C, G>,
                                                                reaped: set<Id>, t: State<C, G>)
    requires EngineLaws(engine) && Inv(engine, s) && !s.inStep && TokensCancelled(s.active, reaped)
    requires t == s.(active := s.active - reaped, members := Restrict(s.members, (s.active - reaped).Keys))
    ensures Enabled(engine, s, BeginFails(reaped)) && t == Apply(engine, s, BeginFails(reaped)) && Inv(engine, t)
  {
    hide Inv, EngineLaws;
    EventKeepsInv(engine, s, BeginFails(reaped));
  }

  lemma {:induction false} ReapsStayOut<C, G, L>(engine: Engine<C, G, L>, s: State<C, G>, reaped: set<Id>)
    requires Enabled(engine, s, BeginFails(reaped))
    ensures
      var t := Apply(engine, s, BeginFails(reaped));
      t.inStep == s.inStep && t.flights == s.flights && t.members.Keys <= t.active.Keys
  {
  }

  lemma {:induction false} RosterIsHeld<C, G, L>(engine: Engine<C, G, L>, s: State<C, G>)
    requires Inv(engine, s) && !s.inStep
    ensures forall id | id in s.active ::
            id in s.members && engine.position(s.members[id].cache) == s.active[id].position
  {
    hide Good, HistoryGood, FlightGood;
    forall id | id in s.active
      ensures id in s.members
    {
      assert Held(s.members, s.flights, id);
    }
  }

  /** The snapshots are the active members, each once, and the coordinator holds them at these positions. */
  ghost predicate RosterOf<C, G, L>(engine: Engine<C, G, L>, s: State<C, G>, snapshots: seq<Snapshot>) {
    && Distinct(Ids(snapshots))
    && (forall i | 0 <= i < |snapshots| ::
          && snapshots[i].id in s.active && snapshots[i].id in s.members
          && engine.position(s.members[snapshots[i].id].cache) == snapshots[i].position
             == s.active[snapshots[i].id].position)
    && (forall id | id in s.active :: id in Ids(snapshots) && id in s.members)
  }

  lemma {:induction false} RosterIsWhole<C, G, L>(engine: Engine<C, G, L>, s: State<C, G>, snapshots: seq<Snapshot>)
    requires RosterOf(engine, s, snapshots)
    ensures Distinct(Ids(snapshots)) && forall i | 0 <= i < |snapshots| :: Ids(snapshots)[i] in s.members
  {
  }

  lemma {:induction false} RosterNames<C, G, L>(engine: Engine<C, G, L>, s: State<C, G>, snapshots: seq<Snapshot>)
    requires RosterOf(engine, s, snapshots)
    ensures snapshots == [] <==> s.active.Keys == {}
    ensures forall i | 0 <= i < |snapshots| ::
              snapshots[i].id in s.members && engine.position(s.members[snapshots[i].id].cache) == snapshots[i].position
  {
    if snapshots != [] {
      assert snapshots[0].id in s.active;
    }
  }

  lemma {:induction false} FreezeEvent<C(!new), G(!new), L(!new)>(engine: Engine<C, G, L>, s: State<C, G>, caller: nat,
        snapshots: seq<Snapshot>, working: seq<Member<C, G>>, t: State<C, G>)
    requires EngineLaws(engine) && Inv(engine, s) && !s.inStep && caller !in s.flights && snapshots != []
    requires |snapshots| == |working| && RosterOf(engine, s, snapshots)
    requires forall i | 0 <= i < |snapshots| :: snapshots[i].id in s.members && working[i] == s.members[snapshots[i].id]
    requires t == s.(members := map id | id in s.members && id !in Ids(snapshots) :: s.members[id], inStep := true,
                     flights := s.flights[caller := Frozen(Gather(Ids(snapshots), working))])
    ensures Enabled(engine, s, Event.Freeze(caller)) && t == Apply(engine, s, Event.Freeze(caller)) && Inv(engine, t)
  {
    hide EngineLaws, Inv, Gather, Restrict;
    var roster := Ids(snapshots);
    assert snapshots[0].id in s.active;
    RosterMap(s, snapshots, working);
    EventKeepsInv(engine, s, Event.Freeze(caller));
  }

  lemma {:induction false} RosterMap<C, G>(s: State<C, G>, snapshots: seq<Snapshot>, working: seq<Member<C, G>>)
    requires |snapshots| == |working| && Distinct(Ids(snapshots))
    requires forall i | 0 <= i < |snapshots| ::
             snapshots[i].id in s.active && snapshots[i].id in s.members && working[i] == s.members[snapshots[i].id]
    requires forall id | id in s.active :: id in Ids(snapshots)
    ensures Gather(Ids(snapshots), working) == Restrict(s.members, s.active.Keys)
    ensures (map id | id in s.members && id !in Ids(snapshots) :: s.members[id]) == s.members - s.active.Keys
  {
    hide Gather;
    var roster := Ids(snapshots);
    GatherKeys(roster, working);
    assert forall i | 0 <= i < |roster| :: roster[i] == snapshots[i].id;
  }

  /** The caller's rows after sampling: what each became, and the outcomes for Power. */
  ghost predicate PreparedAs<C, G, L>(engine: Engine<C, G, L>, flights: map<nat, Flight<C, G>>, caller: nat,
                                      taken: Taken<C, G>, prepared: PreparedCommit<C, G>)
  {
    && Distinct(taken.roster) && |taken.roster| == |taken.working| == |prepared.working| == |prepared.metadata|
    && caller in flights
    && flights[caller] == Flight.Prepared(Gather(taken.roster, taken.working), Gather(taken.roster, prepared.working),
                                          prepared.outcomes.Keys)
    && (forall id | id in prepared.outcomes :: id in taken.roster)
    && forall i | 0 <= i < |taken.roster| ::
         && (taken.roster[i] in prepared.outcomes <==> prepared.metadata[i].Some?)
         && (prepared.metadata[i].Some? ==>
               && prepared.working[i].pending == [prepared.metadata[i].value.0] &&
                  prepared.metadata[i].value.1 == Completed(prepared.working[i])
               && Sampled(engine, taken.working[i]) == Some(prepared.working[i])
               && prepared.outcomes[taken.roster[i]]
                  == RowOutcome(engine.position(prepared.working[i].cache), Completed(prepared.working[i])))
  }

  /** The first `n` rows of a roster that are active. */
  ghost function Given<C, G>(roster: seq<Id>, back: seq<Member<C, G>>, active: set<Id>, n: nat): map<Id, Member<C, G>>
    requires |roster| == |back| && n <= |roster|
  {
    Restrict(Gather(roster[..n], back[..n]), active)
  }

  lemma {:induction false} GivenStarts<C, G>(members: map<Id, Member<C, G>>, roster: seq<Id>, back: seq<Member<C, G>>,
                                             active: set<Id>)
    requires Distinct(roster) && |roster| == |back|
    ensures members + Given(roster, back, active, 0) == members
  {
  }

  lemma {:induction false} GivenNext<C, G>(members: map<Id, Member<C, G>>, roster: seq<Id>, back: seq<Member<C, G>>,
                                           active: set<Id>, n: nat)
    requires Distinct(roster) && |roster| == |back| && n < |roster|
    ensures members + Given(roster, back, active, n + 1) ==
            if roster[n] in active then (members + Given(roster, back, active, n))[roster[n] := back[n]]
              else members + Given(roster, back, active, n)
  {
    assert roster[..n + 1][..n] == roster[..n] && back[..n + 1][..n] == back[..n];
    var shorter, longer := Gather(roster[..n], back[..n]), Gather(roster[..n + 1], back[..n + 1]);
    assert longer == shorter[roster[n] := back[n]];
    GatherKeys(roster[..n], back[..n]);
    assert roster[n] !in roster[..n];
    hide Gather;
    RestrictNext(shorter, roster[n], back[n], active);
    hide Restrict;
    MergedNext(members, Given(roster, back, active, n), roster[n], back[n]);
  }

  lemma {:induction false} MergedNext<T>(members: map<Id, T>, given: map<Id, T>, id: Id, item: T)
    ensures members + given[id := item] == (members + given)[id := item]
  {
  }

  lemma {:induction false} RestrictNext<T>(items: map<Id, T>, id: Id, item: T, active: set<Id>)
    requires id !in items
    ensures Restrict(items[id := item], active) == if id in active then Restrict(items, active)[id := item]
            else Restrict(items, active)
  {
  }

  lemma {:induction false} GivenAll<C, G>(roster: seq<Id>, back: seq<Member<C, G>>, active: set<Id>)
    requires Distinct(roster) && |roster| == |back|
    ensures Given(roster, back, active, |roster|) == Restrict(Gather(roster, back), active)
  {
    assert roster[..|roster|] == roster && back[..|back|] == back;
  }

  ghost predicate RowsWorked<C, G, L>(engine: Engine<C, G, L>, taken: Taken<C, G>, working: seq<Member<C, G>>,
                                      skipped: set<Id>)
  {
    && |taken.roster| == |taken.working| == |working|
    && forall i | 0 <= i < |working| ::
         && engine.forward(taken.working[i].cache, taken.working[i].pending).Some?
         && (taken.roster[i] !in skipped ==> Sampled(engine, taken.working[i]).Some?)
         && working[i] == Worked(engine, taken.working[i], taken.roster[i] in skipped)
  }

  /** A prepared row is what the protocol computes for it. */
  lemma {:induction false} PreparedRow<C, G, L>(engine: Engine<C, G, L>, active: map<Id, Entry>, id: Id,
                                                original: Member<C, G>, row: Member<C, G>, logits: L,
                                                after: Member<C, G>, outcomes: map<Id, RowOutcome>,
                                                metadata: Option<(nat, bool)>)
    requires RowForwarded(engine, original, row, logits) &&
             RowPrepared(engine, active, id, original, row, after, outcomes, metadata)
    ensures engine.forward(original.cache, original.pending).Some? &&
            (metadata.Some? ==> Sampled(engine, original).Some?)
    ensures after == Worked(engine, original, metadata.None?)
    ensures id in outcomes <==> metadata.Some?
    ensures metadata.None? && id in active ==> active[id].cancelled
  {
    hide Completed;
  }

  lemma {:induction false} PreparedRows<C, G, L>(engine: Engine<C, G, L>, active: map<Id, Entry>, taken: Taken<C, G>,
                                                 rows: seq<Member<C, G>>, logits: seq<L>,
                                                 prepared: PreparedCommit<C, G>) returns (skipped: set<Id>)
    requires Distinct(taken.roster)
    requires |rows| == |logits| == |prepared.working| == |prepared.metadata| == |taken.roster| == |taken.working|
    requires forall i | 0 <= i < |rows| :: RowForwarded(engine, taken.working[i], rows[i], logits[i])
    requires forall i | 0 <= i < |rows| :: RowPrepared(engine, active, taken.roster[i], taken.working[i], rows[i],
                                                       prepared.working[i], prepared.outcomes, prepared.metadata[i])
    requires forall id | id in prepared.outcomes :: id in taken.roster
    ensures RowsWorked(engine, taken, prepared.working, skipped)
    ensures forall id | id in skipped :: id in active ==> active[id].cancelled
    ensures forall id :: id in prepared.outcomes <==> id in taken.roster && id !in skipped
  {
    skipped := set i | 0 <= i < |taken.roster| && prepared.metadata[i].None? :: taken.roster[i];
    forall i | 0 <= i < |taken.roster|
      ensures taken.roster[i] in skipped <==> prepared.metadata[i].None?
      ensures engine.forward(taken.working[i].cache, taken.working[i].pending).Some?
      ensures taken.roster[i] !in skipped ==> Sampled(engine, taken.working[i]).Some?
      ensures taken.roster[i] in prepared.outcomes <==> taken.roster[i] !in skipped
      ensures prepared.working[i] == Worked(engine, taken.working[i], taken.roster[i] in skipped)
      ensures taken.roster[i] in skipped && taken.roster[i] in active ==> active[taken.roster[i]].cancelled
    {
      PreparedRow(engine, active, taken.roster[i], taken.working[i], rows[i], logits[i], prepared.working[i],
                  prepared.outcomes, prepared.metadata[i]);
    }
    hide Sampled, Completed, RowForwarded, RowPrepared, Worked;
  }

  lemma {:induction false} WorkedMap<C, G, L>(engine: Engine<C, G, L>, taken: Taken<C, G>, working: seq<Member<C, G>>,
                                              skipped: set<Id>)
    requires Distinct(taken.roster) && RowsWorked(engine, taken, working, skipped)
    ensures RowsCompute(engine, Gather(taken.roster, taken.working), skipped)
    ensures Gather(taken.roster, working) == WorkedAll(engine, Gather(taken.roster, taken.working), skipped)
  {
    hide Sampled, Worked, Gather;
    GatherKeys(taken.roster, taken.working);
    GatherKeys(taken.roster, working);
  }

  lemma {:induction false} ComputeEvent<C(!new), G(!new), L(!new)>(engine: Engine<C, G, L>, s: State<C, G>,
        caller: nat, taken: Taken<C, G>, prepared: PreparedCommit<C, G>, skipped: set<Id>, t: State<C, G>)
    requires EngineLaws(engine) && Inv(engine, s) && FrozenAs(s.flights, caller, taken)
    requires RowsWorked(engine, taken, prepared.working, skipped)
    requires forall id | id in skipped :: id in s.active ==> s.active[id].cancelled
    requires forall id :: id in prepared.outcomes <==> id in taken.roster && id !in skipped
    requires t == s.(flights := s.flights[caller :=
                       Flight.Prepared(Gather(taken.roster, taken.working), Gather(taken.roster, prepared.working),
                                       prepared.outcomes.Keys)])
    ensures Enabled(engine, s, Compute(caller, skipped)) && t == Apply(engine, s, Compute(caller, skipped)) &&
            Inv(engine, t)
  {
    hide EngineLaws, Inv, Gather, WorkedAll, RowsCompute, RowsWorked, Enabled, Apply;
    WorkedMap(engine, taken, prepared.working, skipped);
    GatherKeys(taken.roster, taken.working);
    assert prepared.outcomes.Keys == Gather(taken.roster, taken.working).Keys - skipped;
    ComputeApplies(engine, s, caller, skipped);
    EventKeepsInv(engine, s, Compute(caller, skipped));
  }

  lemma {:induction false} ComputeApplies<C, G, L>(engine: Engine<C, G, L>, s: State<C, G>, caller: nat,
                                                   skipped: set<Id>)
    requires caller in s.flights && s.flights[caller].Frozen? &&
             RowsCompute(engine, s.flights[caller].originals, skipped)
    requires forall id | id in skipped :: id in s.active ==> s.active[id].cancelled
    ensures Enabled(engine, s, Compute(caller, skipped))
    ensures
      var originals := s.flights[caller].originals;
      Apply(engine, s, Compute(caller, skipped)) ==
        s.(flights := s.flights[caller := Flight.Prepared(originals, WorkedAll(engine, originals, skipped),
                                                          originals.Keys - skipped)])
  {
  }

  lemma {:induction false} PreparedSkips<C, G, L>(engine: Engine<C, G, L>, active: map<Id, Entry>, taken: Taken<C, G>,
                                                  rows: seq<Member<C, G>>, prepared: PreparedCommit<C, G>)
    requires |rows| == |prepared.working| == |prepared.metadata| == |taken.roster| == |taken.working|
    requires forall i | 0 <= i < |rows| :: RowPrepared(engine, active, taken.roster[i], taken.working[i], rows[i],
                                                       prepared.working[i], prepared.outcomes, prepared.metadata[i])
    ensures SkipsGone(active, taken.roster, prepared.metadata)
  {
    hide Sampled, Completed, Gone;
    forall i | 0 <= i < |taken.roster|
      ensures prepared.metadata[i].None? <==> Gone(active, taken.roster[i])
    {
      assert RowPrepared(engine, active, taken.roster[i], taken.working[i], rows[i], prepared.working[i],
                         prepared.outcomes, prepared.metadata[i]);
    }
  }

  lemma {:induction false} PreparedRoster<C, G, L>(engine: Engine<C, G, L>, active: map<Id, Entry>,
                                                   flights: map<nat, Flight<C, G>>, caller: nat, taken: Taken<C, G>,
                                                   rows: seq<Member<C, G>>, prepared: PreparedCommit<C, G>)
    requires Distinct(taken.roster) &&
             |rows| == |prepared.working| == |prepared.metadata| == |taken.roster| == |taken.working|
    requires forall i | 0 <= i < |rows| :: RowPrepared(engine, active, taken.roster[i], taken.working[i], rows[i],
                                                       prepared.working[i], prepared.outcomes, prepared.metadata[i])
    requires forall id | id in prepared.outcomes :: id in taken.roster
    requires caller in flights
    requires flights[caller] == Flight.Prepared(Gather(taken.roster, taken.working),
                                                Gather(taken.roster, prepared.working), prepared.outcomes.Keys)
    ensures PreparedAs(engine, flights, caller, taken, prepared)
  {
    hide Sampled, Completed, Gather;
  }

  lemma {:induction false} CommittedIsContinuing<C, G, L>(engine: Engine<C, G, L>, active: map<Id, Entry>,
                                                          taken: Taken<C, G>, prepared: PreparedCommit<C, G>,
                                                          dropped: set<Id>)
    requires Distinct(taken.roster) && |taken.roster| == |prepared.working| == |prepared.metadata|
    requires forall id | id in prepared.outcomes :: id in taken.roster
    requires forall i | 0 <= i < |taken.roster| && taken.roster[i] in prepared.outcomes ::
               prepared.outcomes[taken.roster[i]]
                 == RowOutcome(engine.position(prepared.working[i].cache), Completed(prepared.working[i]))
    ensures CommittedActive(active, taken.roster, prepared.outcomes, dropped)
         == Continuing(engine, active, Gather(taken.roster, prepared.working), prepared.outcomes.Keys, dropped)
  {
    hide Completed, Gather;
    GatherKeys(taken.roster, prepared.working);
  }

  lemma {:induction false} FailEvent<C(!new), G(!new), L(!new)>(engine: Engine<C, G, L>, s: State<C, G>, caller: nat,
                                                                t: State<C, G>)
    requires EngineLaws(engine) && Inv(engine, s) && caller in s.flights && s.flights[caller].Frozen?
    requires t == s.(flights := s.flights[caller := Settling(s.flights[caller].originals)])
    ensures Enabled(engine, s, Fail(caller)) && t == Apply(engine, s, Fail(caller)) && Inv(engine, t)
  {
    hide Inv, EngineLaws;
    EventKeepsInv(engine, s, Fail(caller));
  }

  ghost predicate Settles<C, G, L>(engine: Engine<C, G, L>, s: State<C, G>, caller: nat, t: State<C, G>) {
    && Enabled(engine, s, ReadActive(caller))
    && Enabled(engine, Apply(engine, s, ReadActive(caller)), Event.Publish(caller))
    && t == Apply(engine, Apply(engine, s, ReadActive(caller)), Event.Publish(caller))
  }

  lemma {:induction false} SettleRuns<C, G, L>(engine: Engine<C, G, L>, start: State<C, G>, events: seq<Event<G>>,
                                               s: State<C, G>, caller: nat, t: State<C, G>)
    requires Leads(engine, start, events, s) && Settles(engine, s, caller, t)
    ensures Leads(engine, start, events + [ReadActive(caller)] + [Event.Publish(caller)], t)
  {
    hide Leads, Enabled, Apply;
    OneMore(engine, start, events, s, ReadActive(caller));
    OneMore(engine, start, events + [ReadActive(caller)], Apply(engine, s, ReadActive(caller)), Event.Publish(caller));
  }

  lemma {:induction false} RestoredMembers<C(!new), G(!new), L(!new)>(engine: Engine<C, G, L>, begun: State<C, G>,
        caller: nat, meanwhile: seq<Event<G>>, s: State<C, G>, t: State<C, G>)
    requires EngineLaws(engine) && Since(engine, begun, caller, meanwhile, s) && LeavesAlone(caller, meanwhile)
    requires Settles(engine, s, caller, t)
    ensures Restored(t.members, t.active, begun)
  {
    hide Inv, EngineLaws, Enabled, Apply, Run, After;
    var frozen := Apply(engine, begun, Event.Freeze(caller));
    OneMore(engine, frozen, meanwhile, s, ReadActive(caller));
    assert LeavesAlone(caller, meanwhile + [ReadActive(caller)]);
    FreezeKeepsActive(engine, begun, caller);
    FailedStepIsNoOp(engine, begun, caller, meanwhile + [ReadActive(caller)]);
  }

  /** What has happened since a caller froze its roster. */
  ghost predicate Since<C, G, L>(engine: Engine<C, G, L>, begun: State<C, G>, caller: nat, meanwhile: seq<Event<G>>,
                                 s: State<C, G>)
  {
    && Inv(engine, begun) && Enabled(engine, begun, Event.Freeze(caller))
    && Leads(engine, Apply(engine, begun, Event.Freeze(caller)), meanwhile, s)
  }

  lemma {:induction false} SinceMore<C, G, L>(engine: Engine<C, G, L>, begun: State<C, G>, caller: nat,
                                              meanwhile: seq<Event<G>>, s: State<C, G>, event: Event<G>)
    requires Since(engine, begun, caller, meanwhile, s) && Enabled(engine, s, event)
    ensures Since(engine, begun, caller, meanwhile + [event], Apply(engine, s, event))
  {
    hide Enabled, Apply, Leads, Inv;
    OneMore(engine, Apply(engine, begun, Event.Freeze(caller)), meanwhile, s, event);
  }

  lemma {:induction false} PreparedRosterShape<C, G, L>(engine: Engine<C, G, L>, flights: map<nat, Flight<C, G>>,
                                                        caller: nat, taken: Taken<C, G>, prepared: PreparedCommit<C, G>)
    requires PreparedAs(engine, flights, caller, taken, prepared)
    ensures Distinct(taken.roster) && |taken.roster| == |taken.working| == |prepared.working| == |prepared.metadata|
  {
  }

  lemma {:induction false} OnlyOwn<G>(caller: nat, event: Event<G>)
    requires !event.Commit? && !event.Publish?
    ensures LeavesAlone(caller, [] + [event])
  {
  }

  lemma {:induction false} OnlyOwnTwo<G>(caller: nat, first: Event<G>, second: Event<G>)
    requires !first.Commit? && !first.Publish? && !second.Commit? && !second.Publish?
    ensures LeavesAlone(caller, [] + [first] + [second])
  {
  }

  lemma {:induction false} TakenRoster<C, G, L>(engine: Engine<C, G, L>, flights: map<nat, Flight<C, G>>, caller: nat,
                                                taken: Taken<C, G>)
    requires FrozenAs(flights, caller, taken)
    ensures Distinct(taken.roster) && |taken.roster| == |taken.working|
    ensures caller in flights && flights[caller] == Frozen(Gather(taken.roster, taken.working))
  {
  }

  lemma {:induction false} RosterIsActive<C, G, L>(engine: Engine<C, G, L>, s: State<C, G>,
                                                   flights: map<nat, Flight<C, G>>, caller: nat, taken: Taken<C, G>)
    requires Enabled(engine, s, Event.Freeze(caller)) && flights == Apply(engine, s, Event.Freeze(caller)).flights
    requires FrozenAs(flights, caller, taken)
    ensures forall id :: id in taken.roster <==> id in s.active
    ensures (|taken.roster| == |taken.working| && RowsSucceed(engine, s.active, taken)) <==> MembersSucceed(engine, s)
  {
    GatherKeys(taken.roster, taken.working);
    hide Gather, RowSucceeds;
    var all := Restrict(s.members, s.active.Keys);
    assert forall i | 0 <= i < |taken.roster| :: taken.roster[i] in all && all[taken.roster[i]] == taken.working[i];
  }

  lemma {:induction false} FreezeKeepsActive<C, G, L>(engine: Engine<C, G, L>, s: State<C, G>, caller: nat)
    requires Enabled(engine, s, Event.Freeze(caller))
    ensures Apply(engine, s, Event.Freeze(caller)).active == s.active && s.active.Keys <= s.members.Keys
  {
  }

  /** Failed beginnings only take members away. */
  lemma {:induction false} ReapsKeepMembers<C(!new), G(!new), L(!new)>(engine: Engine<C, G, L>, start: State<C, G>,
        reaps: seq<Event<G>>, t: State<C, G>)
    requires EngineLaws(engine) && Inv(engine, start) && Leads(engine, start, reaps, t) && OnlyReaps(reaps)
    ensures Inv(engine, t) && t.inStep == start.inStep
    ensures forall id | id in t.members :: id in start.members && t.members[id] == start.members[id]
    ensures !t.inStep ==> forall id | id in t.active :: id in t.members
    ensures Submap(start.active, t.active)
    decreases |reaps|
  {
    hide Inv, EngineLaws;
    if reaps == [] {
    } else {
      var before, last := reaps[..|reaps| - 1], reaps[|reaps| - 1];
      ReapsKeepMembers(engine, start, before, After(engine, start, before));
      EventKeepsInv(engine, After(engine, start, before), last);
    }
    if !t.inStep {
      RosterIsHeld(engine, t);
    }
  }

  /** The rows with a token, in roster order. */
  function Reported(roster: seq<Id>, metadata: seq<Option<(nat, bool)>>): seq<RowOutput>
    requires |roster| == |metadata|
  {
    if roster == [] then []
    else
      var last := |roster| - 1;
      var before := Reported(roster[..last], metadata[..last]);
      if metadata[last].Some? then before + [RowOutput(roster[last], metadata[last].value.0, metadata[last].value.1)]
        else before
  }

  predicate Reports(row: RowOutput, roster: seq<Id>, metadata: seq<Option<(nat, bool)>>, i: int)
    requires |roster| == |metadata|
  {
    0 <= i < |roster| && roster[i] == row.id && metadata[i] == Some((row.token, row.completed))
  }

  lemma {:induction false} ReportedRows(roster: seq<Id>, metadata: seq<Option<(nat, bool)>>)
    requires |roster| == |metadata| && Distinct(roster)
    ensures forall row | row in Reported(roster, metadata) :: exists i :: Reports(row, roster, metadata, i)
    ensures forall i | 0 <= i < |roster| && metadata[i].Some? ::
              RowOutput(roster[i], metadata[i].value.0, metadata[i].value.1) in Reported(roster, metadata)
    ensures forall q, r | 0 <= q < r < |Reported(roster, metadata)| ::
            Reported(roster, metadata)[q].id != Reported(roster, metadata)[r].id
    decreases |roster|
  {
    if roster == [] {
    } else {
      var last := |roster| - 1;
      var before, rows := Reported(roster[..last], metadata[..last]), Reported(roster, metadata);
      ReportedRows(roster[..last], metadata[..last]);
      forall row | row in rows
        ensures exists i :: Reports(row, roster, metadata, i)
        ensures row in before ==> row.id != roster[last]
      {
        if row in before {
          var i :| Reports(row, roster[..last], metadata[..last], i);
          assert Reports(row, roster, metadata, i);
        } else {
          assert Reports(row, roster, metadata, last);
        }
      }
      forall i | 0 <= i < |roster| && metadata[i].Some?
        ensures RowOutput(roster[i], metadata[i].value.0, metadata[i].value.1) in rows
      {
        if i < last {
          assert roster[..last][i] == roster[i] && metadata[..last][i] == metadata[i];
        }
      }
    }
  }

  lemma {:induction false} ReportedRowsAreRostered(active: map<Id, Entry>, roster: seq<Id>,
                                                   metadata: seq<Option<(nat, bool)>>)
    requires |roster| == |metadata| && Distinct(roster) && SkipsGone(active, roster, metadata)
    ensures RowsReport(active, roster, Reported(roster, metadata))
  {
    ReportedRows(roster, metadata);
    var rows := Reported(roster, metadata);
    hide Reported, Gone;
    forall i | 0 <= i < |roster|
      ensures RowOf(rows, roster[i]) <==> metadata[i].Some?
    {
      if metadata[i].Some? {
        var row := RowOutput(roster[i], metadata[i].value.0, metadata[i].value.1);
        var r :| 0 <= r < |rows| && rows[r] == row;
        assert rows[r].id == roster[i];
      }
      if RowOf(rows, roster[i]) {
        var r :| 0 <= r < |rows| && rows[r].id == roster[i];
        assert rows[r] in rows;
        var j :| Reports(rows[r], roster, metadata, j);
        assert j == i;
      }
    }
    forall r | 0 <= r < |rows|
      ensures rows[r].id in roster
    {
      assert rows[r] in rows;
      var i :| Reports(rows[r], roster, metadata, i);
    }
  }

  /** The log of one row of a committed roster. */
  lemma {:induction false} CommitExtendsRow<C, G, L>(engine: Engine<C, G, L>, s: State<C, G>, caller: nat,
                                                     dropped: set<Id>, taken: Taken<C, G>,
                                                     prepared: PreparedCommit<C, G>, i: nat)
    requires Inv(engine, s) && Enabled(engine, s, Commit(caller, dropped)) &&
             PreparedAs(engine, s.flights, caller, taken, prepared)
    requires i < |taken.roster| && prepared.metadata[i].Some?
    ensures
      var t, id := Apply(engine, s, Commit(caller, dropped)), taken.roster[i];
      && id in s.history.log && id in t.history.log
      && t.history.log[id] == s.history.log[id] + [prepared.metadata[i].value.0]
      && (prepared.metadata[i].value.1 <==> id in t.history.completed)
  {
    hide Inv, Apply, Enabled, PreparedAs, Sampled, Completed, Extended;
    CommitHistory(engine, s, caller, dropped);
    PreparedRowOf(engine, s.flights, caller, taken, prepared, i);
    var flight, id := s.flights[caller], taken.roster[i];
    OriginalIsLogged(engine, s, caller, id);
    SampledLast(engine, taken.working[i]);
    SampledAppends(engine, taken.working[i]);
    LogExtends(s.history.log, flight.working, flight.sampled, id, prepared.metadata[i].value.0);
  }

  lemma {:induction false} CommitHistory<C, G, L>(engine: Engine<C, G, L>, s: State<C, G>, caller: nat,
                                                  dropped: set<Id>)
    requires Enabled(engine, s, Commit(caller, dropped))
    ensures
      var flight, t := s.flights[caller], Apply(engine, s, Commit(caller, dropped));
      && t.history.log == Extended(s.history.log, flight.working, flight.sampled)
      && t.history.completed == s.history.completed + CompletedRows(flight.working, flight.sampled)
  {
    hide Extended, Continuing, CompletedRows;
  }

  /** What a reported row is in the caller's flight. */
  lemma {:induction false} PreparedRowOf<C, G, L>(engine: Engine<C, G, L>, flights: map<nat, Flight<C, G>>,
                                                  caller: nat, taken: Taken<C, G>, prepared: PreparedCommit<C, G>,
                                                  i: nat)
    requires PreparedAs(engine, flights, caller, taken, prepared) && i < |taken.roster| && prepared.metadata[i].Some?
    ensures caller in flights && flights[caller].Prepared? &&
            |taken.working| == |prepared.working| == |prepared.metadata| == |taken.roster|
    ensures
      var flight, id := flights[caller], taken.roster[i];
      && id in flight.sampled && id in flight.working && id in flight.originals
      && flight.working[id] == prepared.working[i] && flight.originals[id] == taken.working[i]
      && Sampled(engine, taken.working[i]) == Some(prepared.working[i])
      && prepared.working[i].pending == [prepared.metadata[i].value.0] &&
         prepared.metadata[i].value.1 == Completed(prepared.working[i])
  {
    GatherKeys(taken.roster, taken.working);
    GatherKeys(taken.roster, prepared.working);
    hide Sampled, Completed, Gather;
  }

  lemma {:induction false} OriginalIsLogged<C, G, L>(engine: Engine<C, G, L>, s: State<C, G>, caller: nat, id: Id)
    requires Inv(engine, s) && caller in s.flights && s.flights[caller].Prepared? && id in s.flights[caller].originals
    ensures id in s.history.log && s.flights[caller].originals[id].generated == s.history.log[id]
    ensures id !in s.history.completed
  {
    hide OnPath, HistoryGood, Covered, OneFlight, Sampled;
    assert FlightGood(engine, s.history, s.active, s.flights[caller]);
    assert Good(engine, s.history, id, s.flights[caller].originals[id]);
  }

  lemma {:induction false} LogExtends<C, G>(log: map<Id, seq<nat>>, working: map<Id, Member<C, G>>, sampled: set<Id>,
                                            id: Id, token: nat)
    requires id in log && id in sampled && id in working && working[id].generated == log[id] + [token]
    ensures id in Extended(log, working, sampled) && Extended(log, working, sampled)[id] == log[id] + [token]
  {
  }

  lemma {:induction false} CommitLeavesRow<C, G, L>(engine: Engine<C, G, L>, s: State<C, G>, caller: nat,
                                                    dropped: set<Id>, id: Id)
    requires Enabled(engine, s, Commit(caller, dropped)) && id in s.history.log && id !in s.flights[caller].sampled
    ensures id in Apply(engine, s, Commit(caller, dropped)).history.log
    ensures Apply(engine, s, Commit(caller, dropped)).history.log[id] == s.history.log[id]
  {
  }

  lemma {:induction false} UnreportedRow<C, G, L>(engine: Engine<C, G, L>, flights: map<nat, Flight<C, G>>,
                                                  caller: nat, taken: Taken<C, G>, prepared: PreparedCommit<C, G>,
                                                  rows: seq<RowOutput>, id: Id)
    requires PreparedAs(engine, flights, caller, taken, prepared) && rows == Reported(taken.roster, prepared.metadata)
    requires forall r | 0 <= r < |rows| :: rows[r].id != id
    ensures caller in flights && flights[caller].Prepared? && id !in flights[caller].sampled
  {
    ReportedRows(taken.roster, prepared.metadata);
    hide Reported, Gather, Sampled, Completed;
    forall i | 0 <= i < |taken.roster| && prepared.metadata[i].Some?
      ensures taken.roster[i] != id
    {
      var row := RowOutput(taken.roster[i], prepared.metadata[i].value.0, prepared.metadata[i].value.1);
      var r :| 0 <= r < |rows| && rows[r] == row;
    }
  }

  lemma {:induction false} CommitKeepsRequests<C, G, L>(engine: Engine<C, G, L>, s: State<C, G>, caller: nat,
                                                        dropped: set<Id>)
    requires Enabled(engine, s, Commit(caller, dropped))
    ensures
      var t := Apply(engine, s, Commit(caller, dropped));
      t.history.requests == s.history.requests && t.history.log.Keys == s.history.log.Keys
  {
    CommitKnows(s.history.log, s.flights[caller].working, s.flights[caller].sampled);
  }

  lemma {:induction false} CommitExtends<C, G, L>(engine: Engine<C, G, L>, s: State<C, G>, caller: nat,
                                                  dropped: set<Id>, taken: Taken<C, G>, prepared: PreparedCommit<C, G>)
    requires Inv(engine, s) && Enabled(engine, s, Commit(caller, dropped)) &&
             PreparedAs(engine, s.flights, caller, taken, prepared)
    ensures LogsExtended(s.history, Apply(engine, s, Commit(caller, dropped)).history,
                         Reported(taken.roster, prepared.metadata))
  {
    hide Inv, Apply, Enabled, Reported, PreparedAs;
    var t := Apply(engine, s, Commit(caller, dropped));
    PreparedRosterShape(engine, s.flights, caller, taken, prepared);
    var rows := Reported(taken.roster, prepared.metadata);
    ReportedRows(taken.roster, prepared.metadata);
    CommitKeepsRequests(engine, s, caller, dropped);
    forall r | 0 <= r < |rows|
      ensures rows[r].id in s.history.log && t.history.log[rows[r].id] == s.history.log[rows[r].id] + [rows[r].token]
      ensures rows[r].completed <==> rows[r].id in t.history.completed
    {
      assert rows[r] in rows;
      var i :| Reports(rows[r], taken.roster, prepared.metadata, i);
      CommitExtendsRow(engine, s, caller, dropped, taken, prepared, i);
    }
    forall id | id in s.history.log && (forall r | 0 <= r < |rows| :: rows[r].id != id)
      ensures t.history.log[id] == s.history.log[id]
    {
      UnreportedRow(engine, s.flights, caller, taken, prepared, rows, id);
      CommitLeavesRow(engine, s, caller, dropped, id);
    }
    CommitHistory(engine, s, caller, dropped);
    forall id | id in t.history.completed && id !in s.history.completed
      ensures RowOf(rows, id)
    {
      if forall r | 0 <= r < |rows| :: rows[r].id != id {
        UnreportedRow(engine, s.flights, caller, taken, prepared, rows, id);
      }
    }
  }

  /** A commit lets exactly the members go on whose reported row did not complete. */
  lemma {:induction false} CommitGoesOn<C, G, L>(engine: Engine<C, G, L>, s: State<C, G>, caller: nat,
                                                 dropped: set<Id>, taken: Taken<C, G>, prepared: PreparedCommit<C, G>)
    requires Enabled(engine, s, Commit(caller, dropped)) && PreparedAs(engine, s.flights, caller, taken, prepared)
    requires |prepared.metadata| == |taken.roster| && SkipsGone(s.active, taken.roster, prepared.metadata)
    requires forall id :: id in taken.roster <==> id in s.active
    ensures GoOn(s.active, Apply(engine, s, Commit(caller, dropped)).active, Reported(taken.roster, prepared.metadata))
  {
    hide Reported, Gather, SkipsGone, PreparedAs, GoOn;
    CommitKeepsOpen(engine, s, caller, dropped);
    hide Apply, Enabled, Continuing;
    ContinuingGoOn(engine, s, Apply(engine, s, Commit(caller, dropped)).active, caller, dropped, taken, prepared);
  }

  lemma {:induction false} ContinuingGoOn<C, G, L>(engine: Engine<C, G, L>, s: State<C, G>, active: map<Id, Entry>,
                                                   caller: nat, dropped: set<Id>, taken: Taken<C, G>,
                                                   prepared: PreparedCommit<C, G>)
    requires PreparedAs(engine, s.flights, caller, taken, prepared) && |prepared.metadata| == |taken.roster|
    requires SkipsGone(s.active, taken.roster, prepared.metadata) && TokensCancelled(s.active, dropped)
    requires active == Continuing(engine, s.active, s.flights[caller].working, s.flights[caller].sampled, dropped)
    requires forall id :: id in taken.roster <==> id in s.active
    ensures GoOn(s.active, active, Reported(taken.roster, prepared.metadata))
  {
    hide Reported, Gather, Gone, Sampled, Completed;
    PreparedRosterShape(engine, s.flights, caller, taken, prepared);
    assert forall id | id in active :: id in s.active;
    hide Continuing;
    forall i | 0 <= i < |taken.roster|
      ensures taken.roster[i] in active <==> OpenRow(Reported(taken.roster, prepared.metadata), taken.roster[i])
      ensures taken.roster[i] in active ==> !active[taken.roster[i]].cancelled
    {
      RowGoesOn(engine, s, active, caller, dropped, taken, prepared, i);
    }
    hide PreparedAs, SkipsGone, OpenRow;
    OpenRowsAreRostered(taken.roster, prepared.metadata);
  }

  lemma {:induction false} OpenRowsAreRostered(roster: seq<Id>, metadata: seq<Option<(nat, bool)>>)
    requires |roster| == |metadata| && Distinct(roster)
    ensures forall id | OpenRow(Reported(roster, metadata), id) :: id in roster
  {
    ReportedRows(roster, metadata);
    hide Reported;
    var rows := Reported(roster, metadata);
    forall id | OpenRow(rows, id)
      ensures id in roster
    {
      var r :| 0 <= r < |rows| && rows[r].id == id && !rows[r].completed;
      assert rows[r] in rows;
      var i :| Reports(rows[r], roster, metadata, i);
    }
  }

  /** One row of a committed roster goes on, or its member leaves. */
  lemma {:induction false} RowGoesOn<C, G, L>(engine: Engine<C, G, L>, s: State<C, G>, active: map<Id, Entry>,
                                              caller: nat, dropped: set<Id>, taken: Taken<C, G>,
                                              prepared: PreparedCommit<C, G>, i: nat)
    requires PreparedAs(engine, s.flights, caller, taken, prepared) && i < |taken.roster| && taken.roster[i] in s.active
    requires SkipsGone(s.active, taken.roster, prepared.metadata) && TokensCancelled(s.active, dropped)
    requires active == Continuing(engine, s.active, s.flights[caller].working, s.flights[caller].sampled, dropped)
    ensures taken.roster[i] in active <==> OpenRow(Reported(taken.roster, prepared.metadata), taken.roster[i])
    ensures taken.roster[i] in active ==> !active[taken.roster[i]].cancelled
  {
    OpenRowIff(taken.roster, prepared.metadata, i);
    GatherKeys(taken.roster, prepared.working);
    hide Reported, Gather, Sampled, Completed, OpenRow;
    var flight, id := s.flights[caller], taken.roster[i];
    assert flight.working[id] == prepared.working[i];
    assert id in flight.sampled <==> prepared.metadata[i].Some?;
    assert prepared.metadata[i].None? <==> Gone(s.active, id);
  }

  lemma {:induction false} OpenRowIff(roster: seq<Id>, metadata: seq<Option<(nat, bool)>>, i: nat)
    requires |roster| == |metadata| && Distinct(roster) && i < |roster|
    ensures OpenRow(Reported(roster, metadata), roster[i]) <==> metadata[i].Some? && !metadata[i].value.1
  {
    ReportedRows(roster, metadata);
    var rows := Reported(roster, metadata);
    hide Reported;
    if metadata[i].Some? {
      var row := RowOutput(roster[i], metadata[i].value.0, metadata[i].value.1);
      var r :| 0 <= r < |rows| && rows[r] == row;
      assert rows[r].id == roster[i];
    }
    if OpenRow(rows, roster[i]) {
      var r :| 0 <= r < |rows| && rows[r].id == roster[i] && !rows[r].completed;
      assert rows[r] in rows;
      var j :| Reports(rows[r], roster, metadata, j);
      assert j == i;
    }
  }

  lemma {:induction false} CommitKeepsOpen<C, G, L>(engine: Engine<C, G, L>, s: State<C, G>, caller: nat,
                                                    dropped: set<Id>)
    requires Enabled(engine, s, Commit(caller, dropped))
    ensures
      var flight, t := s.flights[caller], Apply(engine, s, Commit(caller, dropped));
      && TokensCancelled(s.active, dropped)
      && t.active == Continuing(engine, s.active, flight.working, flight.sampled, dropped)
  {
    hide Extended, Continuing, CompletedRows;
  }

  lemma {:induction false} SampledLast<C, G, L>(engine: Engine<C, G, L>, member: Member<C, G>)
    requires Sampled(engine, member).Some?
    ensures var next := Sampled(engine, member).value;
            next.generated != [] && next.pending == [next.generated[|next.generated| - 1]]
  {
  }
}
