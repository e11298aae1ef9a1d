/**
 Continuous batching as a protocol over critical sections. A step freezes its roster under the lock,
 runs the model with the lock released, and commits or rolls back later; admissions, cancellations
 and other callers take their turns in between. One event is one critical section.
 */
module Scheduler {
  import opened Wrappers
  import opened Generation

  /** The digest of a member identifier. */
  type Id = nat

  /** What Power's batch lifecycle knows of an active member. */
  datatype Entry = Entry(position: nat, cancelled: bool)

  /** How far a caller inside `step` has come, with the members it holds meanwhile. */
  datatype Flight<C, G> =
    | Frozen(originals: map<Id, Member<C, G>>)
    | Prepared(originals: map<Id, Member<C, G>>, working: map<Id, Member<C, G>>, sampled: set<Id>)
    | Settling(back: map<Id, Member<C, G>>)
    | Publishing(back: map<Id, Member<C, G>>, snapshot: set<Id>)

  /** The admitted requests, the tokens handed out for them, and the members that completed. */
  datatype History<G> = History(requests: map<Id, Request<G>>, log: map<Id, seq<nat>>, completed: set<Id>)

  /** The coordinator's `inStep` and `members`, the lifecycle's active members, and the callers inside a step. */
  datatype State<C, G> = State(
    inStep: bool,
    members: map<Id, Member<C, G>>,
    active: map<Id, Entry>,
    flights: map<nat, Flight<C, G>>,
    history: History<G>)

  datatype Event<G> =
    | Admit(id: Id, request: Request<G>)
    | Cancel(id: Id)
    | CancelToken(id: Id)
    | BeginFails(reaped: set<Id>)
    | Freeze(caller: nat)
    | Fail(caller: nat)
    | Compute(caller: nat, skipped: set<Id>)
    | CommitFails(caller: nat, reaped: set<Id>)
    | Commit(caller: nat, dropped: set<Id>)
    | ReadActive(caller: nat)
    | Publish(caller: nat)
    | Finish

  function Initial<C, G>(): State<C, G> {
    State(false, map[], map[], map[], History(map[], map[], {}))
  }

  // ----- events -----

  predicate TokensCancelled(active: map<Id, Entry>, ids: set<Id>) {
    forall id | id in ids :: id in active && active[id].cancelled
  }

  function Restrict<T>(items: map<Id, T>, ids: set<Id>): map<Id, T> {
    map id | id in items && id in ids :: items[id]
  }

  predicate PositionsAgree<C, G, L>(engine: Engine<C, G, L>, members: map<Id, Member<C, G>>, active: map<Id, Entry>) {
    forall id | id in members && id in active :: engine.position(members[id].cache) == active[id].position
  }

  /** Every row of the model step succeeds, and sampling succeeds for the rows that are not skipped. */
  predicate RowsCompute<C, G, L>(engine: Engine<C, G, L>, originals: map<Id, Member<C, G>>, skipped: set<Id>) {
    forall id | id in originals ::
      && engine.forward(originals[id].cache, originals[id].pending).Some?
      && (id !in skipped ==> Sampled(engine, originals[id]).Some?)
  }

  function Worked<C, G, L>(engine: Engine<C, G, L>, member: Member<C, G>, skip: bool): Member<C, G>
    requires engine.forward(member.cache, member.pending).Some?
    requires !skip ==> Sampled(engine, member).Some?
  {
    if skip then member.(cache := engine.forward(member.cache, member.pending).value.0)
      else Sampled(engine, member).value
  }

  /** The rows after the model step and the sampling. */
  function WorkedAll<C, G, L>(engine: Engine<C, G, L>, originals: map<Id, Member<C, G>>,
                              skipped: set<Id>): map<Id, Member<C, G>>
    requires RowsCompute(engine, originals, skipped)
  {
    map id | id in originals :: Worked(engine, originals[id], id in skipped)
  }

  /** Whether an event can happen; the scheduler's own checks are part of it. */
  predicate Enabled<C, G, L>(engine: Engine<C, G, L>, s: State<C, G>, event: Event<G>) {
    match event
    case Admit(id, request) => Acceptable(engine, request) && id !in s.history.requests
    case Cancel(id) => id in s.active
    case CancelToken(id) => id in s.active
    case BeginFails(reaped) => !s.inStep && TokensCancelled(s.active, reaped)
    case Freeze(caller) =>
      && !s.inStep && caller !in s.flights
      && s.active != map[] && s.active.Keys <= s.members.Keys && PositionsAgree(engine, s.members, s.active)
    case Fail(caller) => caller in s.flights && s.flights[caller].Frozen?
    case Compute(caller, skipped) =>
      && caller in s.flights && s.flights[caller].Frozen?
      && (forall id | id in skipped :: id in s.active ==> s.active[id].cancelled)
      && RowsCompute(engine, s.flights[caller].originals, skipped)
    case CommitFails(caller, reaped) => caller in s.flights && s.flights[caller].Prepared? &&
      TokensCancelled(s.active, reaped)
    case Commit(caller, dropped) => caller in s.flights && s.flights[caller].Prepared? &&
      TokensCancelled(s.active, dropped)
    case ReadActive(caller) => caller in s.flights && s.flights[caller].Settling?
    case Publish(caller) => caller in s.flights && s.flights[caller].Publishing?
    case Finish => !s.inStep
  }

  /**
   The lifecycle after a commit: rows without an outcome, completed rows and dropped rows leave; the others move on.
   */
  function Continuing<C, G, L>(engine: Engine<C, G, L>, active: map<Id, Entry>, working: map<Id, Member<C, G>>,
                               sampled: set<Id>, dropped: set<Id>): map<Id, Entry>
  {
    map id | id in active && (id in working ==> id in sampled && !Completed(working[id]) && id !in dropped) ::
      if id in working then active[id].(position := engine.position(working[id].cache)) else active[id]
  }

  function Extended<C, G>(log: map<Id, seq<nat>>, working: map<Id, Member<C, G>>, sampled: set<Id>): map<Id, seq<nat>> {
    map id | id in log ::
      if id in sampled && id in working && working[id].generated != []
      then log[id] + [working[id].generated[|working[id].generated| - 1]] else log[id]
  }

  function CompletedRows<C, G>(working: map<Id, Member<C, G>>, sampled: set<Id>): set<Id> {
    set id | id in working && id in sampled && Completed(working[id])
  }

  function Apply<C, G, L>(engine: Engine<C, G, L>, s: State<C, G>, event: Event<G>): State<C, G>
    requires Enabled(engine, s, event)
  {
    match event
    case Admit(id, request) =>
      s.(members := s.members[id := NewMember(engine, request)], active := s.active[id := Entry(0, false)],
         history := s.history.(requests := s.history.requests[id := request], log := s.history.log[id := []]))
    case Cancel(id) => s.(active := s.active - {id}, members := s.members - {id})
    case CancelToken(id) => s.(active := s.active[id := s.active[id].(cancelled := true)])
    case BeginFails(reaped) =>
      var active := s.active - reaped;
      s.(active := active, members := Restrict(s.members, active.Keys))
    case Freeze(caller) =>
      s.(members := s.members - s.active.Keys, inStep := true,
         flights := s.flights[caller := Frozen(Restrict(s.members, s.active.Keys))])
    case Fail(caller) => s.(flights := s.flights[caller := Settling(s.flights[caller].originals)])
    case Compute(caller, skipped) =>
      var originals := s.flights[caller].originals;
      s.(flights := s.flights[caller := Prepared(originals, WorkedAll(engine, originals, skipped),
                                                 originals.Keys - skipped)])
    case CommitFails(caller, reaped) =>
      s.(active := s.active - reaped, flights := s.flights[caller := Settling(s.flights[caller].originals)])
    case Commit(caller, dropped) =>
      var flight := s.flights[caller];
      s.(active := Continuing(engine, s.active, flight.working, flight.sampled, dropped),
         history := s.history.(log := Extended(s.history.log, flight.working, flight.sampled),
                               completed := s.history.completed + CompletedRows(flight.working, flight.sampled)),
         flights := s.flights[caller := Settling(flight.working)])
    case ReadActive(caller) => s.(flights := s.flights[caller := Publishing(s.flights[caller].back, s.active.Keys)])
    case Publish(caller) =>
      var flight := s.flights[caller];
      s.(members := s.members + Restrict(flight.back, flight.snapshot), inStep := false,
         flights := s.flights - {caller})
    case Finish => s.(members := map[], active := map[])
  }

  // ----- the invariant -----

  /** At most one caller is inside a step, and `inStep` says whether there is one. */
  predicate OneFlight<C, G>(s: State<C, G>) {
    && (forall c, d | c in s.flights && d in s.flights :: c == d)
    && (s.inStep <==> s.flights.Keys != {})
  }

  /** A member that is where its request and the tokens handed out for it say. */
  ghost predicate Good<C, G, L>(engine: Engine<C, G, L>, history: History<G>, id: Id, member: Member<C, G>) {
    && id in history.requests && id in history.log && id !in history.completed
    && OnPath(engine, history.requests[id], member) && member.generated == history.log[id]
  }

  predicate InPlace<C, G, L>(engine: Engine<C, G, L>, active: map<Id, Entry>, id: Id, member: Member<C, G>) {
    id in active ==> engine.position(member.cache) == active[id].position
  }

  ghost predicate AllGood<C, G, L>(engine: Engine<C, G, L>, history: History<G>, active: map<Id, Entry>,
                                   members: map<Id, Member<C, G>>)
  {
    forall id | id in members :: Good(engine, history, id, members[id]) && InPlace(engine, active, id, members[id])
  }

  function Roster<C, G>(flight: Flight<C, G>): set<Id> {
    match flight
    case Frozen(originals) => originals.Keys
    case Prepared(originals, _, _) => originals.Keys
    case Settling(back) => back.Keys
    case Publishing(back, _) => back.Keys
  }

  /** What the flight would bring back if it settled now is good, for every member that is still active. */
  ghost predicate FlightGood<C, G, L>(engine: Engine<C, G, L>, history: History<G>, active: map<Id, Entry>,
                                      flight: Flight<C, G>)
  {
    match flight
    case Frozen(originals) => AllGood(engine, history, active, originals)
    case Prepared(originals, working, sampled) =>
      && AllGood(engine, history, active, originals)
      && working.Keys == originals.Keys && sampled <= originals.Keys
      && (forall id | id in sampled :: Sampled(engine, originals[id]) == Some(working[id]))
    case Settling(back) => AllGood(engine, history, active, Restrict(back, active.Keys))
    case Publishing(back, snapshot) =>
      && AllGood(engine, history, active, Restrict(back, snapshot))
      && (forall id | id in back && id in active :: id in snapshot)
  }

  /** Every active member is held by the coordinator or by the flight, and none by both. */
  predicate Covered<C, G>(s: State<C, G>) {
    && (forall id | id in s.active :: Held(s.members, s.flights, id))
    && (forall c | c in s.flights ::
        Roster(s.flights[c]) !! s.members.Keys && Roster(s.flights[c]) <= s.history.requests.Keys)
  }

  predicate Held<C, G>(members: map<Id, Member<C, G>>, flights: map<nat, Flight<C, G>>, id: Id) {
    id in members || exists c | c in flights :: id in Roster(flights[c])
  }

  predicate Known<G>(history: History<G>, active: map<Id, Entry>) {
    && history.log.Keys == history.requests.Keys && history.completed <= history.requests.Keys
    && active.Keys <= history.requests.Keys && history.completed !! active.Keys
  }

  /** What was handed out for a request is a prefix of its lone run, and all of it exactly when it completed. */
  ghost predicate LogGood<C, G, L>(engine: Engine<C, G, L>, history: History<G>, id: Id)
    requires id in history.requests && id in history.log
  {
    var alone := AloneRun(engine, history.requests[id], Budget(history.requests[id]));
    && history.log[id] <= alone.tokens
    && (id in history.completed <==> alone == Alone(history.log[id], true))
    && (id in history.completed ==> history.log[id] != [])
  }

  ghost predicate HistoryGood<C, G, L>(engine: Engine<C, G, L>, history: History<G>) {
    forall id | id in history.requests && id in history.log :: LogGood(engine, history, id)
  }

  ghost predicate Inv<C, G, L>(engine: Engine<C, G, L>, s: State<C, G>) {
    && OneFlight(s)
    && Covered(s)
    && Known(s.history, s.active)
    && HistoryGood(engine, s.history)
    && AllGood(engine, s.history, s.active, s.members)
    && (forall c | c in s.flights :: FlightGood(engine, s.history, s.active, s.flights[c]))
  }

  lemma {:induction false} InitialInv<C, G, L>(engine: Engine<C, G, L>)
    ensures Inv(engine, Initial<C, G>())
  {
  }

  // ----- every event keeps the invariant -----

  function Admitted<G>(history: History<G>, id: Id, request: Request<G>): History<G> {
    history.(requests := history.requests[id := request], log := history.log[id := []])
  }

  /** A request that was never seen before touches nothing that is known. */
  lemma {:induction false} FreshMembers<C, G, L>(engine: Engine<C, G, L>, history: History<G>, active: map<Id, Entry>,
                                                 members: map<Id, Member<C, G>>, id: Id, request: Request<G>)
    requires id !in history.requests && AllGood(engine, history, active, members)
    ensures AllGood(engine, Admitted(history, id, request), active[id := Entry(0, false)], members)
  {
    hide OnPath;
    assert forall other | other in members :: Good(engine, history, other, members[other]);
  }

  lemma {:induction false} FreshFlight<C, G, L>(engine: Engine<C, G, L>, history: History<G>, active: map<Id, Entry>,
                                                flight: Flight<C, G>, id: Id, request: Request<G>)
    requires id !in history.requests && Roster(flight) <= history.requests.Keys
    requires FlightGood(engine, history, active, flight)
    ensures FlightGood(engine, Admitted(history, id, request), active[id := Entry(0, false)], flight)
  {
    hide AllGood, Sampled;
    match flight {
      case Frozen(originals) => FreshMembers(engine, history, active, originals, id, request);
      case Prepared(originals, _, _) => FreshMembers(engine, history, active, originals, id, request);
      case Settling(back) =>
        FreshMembers(engine, history, active, Restrict(back, active.Keys), id, request);
        assert Restrict(back, active.Keys) == Restrict(back, active[id := Entry(0, false)].Keys);
      case Publishing(back, snapshot) =>
        FreshMembers(engine, history, active, Restrict(back, snapshot), id, request);
    }
  }

  lemma {:induction false} AdmitKeepsInv<C(!new), G(!new), L(!new)>(engine: Engine<C, G, L>, s: State<C, G>, id: Id,
        request: Request<G>)
    requires EngineLaws(engine) && Inv(engine, s) && Enabled(engine, s, Admit(id, request))
    ensures Inv(engine, Apply(engine, s, Admit(id, request)))
  {
    hide OnPath, AloneRun, FlightGood, EngineLaws, Acceptable, HistoryGood;
    var t := Apply(engine, s, Admit(id, request));
    assert t.history == Admitted(s.history, id, request);
    AdmitMembers(engine, s, id, request);
    hide AllGood;
    forall c | c in s.flights
      ensures FlightGood(engine, t.history, t.active, t.flights[c])
    {
      FreshFlight(engine, s.history, s.active, s.flights[c], id, request);
    }
    AdmitCovers(engine, s, id, request);
    AdmitLogs(engine, s.history, id, request);
  }

  lemma {:induction false} AdmitMembers<C(!new), G(!new), L(!new)>(engine: Engine<C, G, L>, s: State<C, G>, id: Id,
        request: Request<G>)
    requires EngineLaws(engine) && Inv(engine, s) && Enabled(engine, s, Admit(id, request))
    ensures
      var t := Apply(engine, s, Admit(id, request));
      AllGood(engine, t.history, t.active, t.members)
  {
    hide OnPath, AloneRun, FlightGood, Covered, HistoryGood;
    var t := Apply(engine, s, Admit(id, request));
    NewMemberIsOnPath(engine, request);
    assert Good(engine, t.history, id, t.members[id]);
    FreshMembers(engine, s.history, s.active, s.members, id, request);
  }

  lemma {:induction false} AdmitCovers<C, G, L>(engine: Engine<C, G, L>, s: State<C, G>, id: Id, request: Request<G>)
    requires Covered(s) && Known(s.history, s.active) && Enabled(engine, s, Admit(id, request))
    ensures Covered(Apply(engine, s, Admit(id, request)))
  {
    hide Acceptable, Roster;
    var t := Apply(engine, s, Admit(id, request));
    forall other | other in t.active
      ensures Held(t.members, t.flights, other)
    {
      assert other != id ==> Held(s.members, s.flights, other);
    }
  }

  lemma {:induction false} AdmitLogs<C, G, L>(engine: Engine<C, G, L>, history: History<G>, id: Id, request: Request<G>)
    requires HistoryGood(engine, history) && id !in history.requests && history.completed <= history.requests.Keys
    requires history.log.Keys == history.requests.Keys
    ensures HistoryGood(engine, Admitted(history, id, request))
  {
    EndsWithToken(engine, engine.newCache, request.prompt, request.prompt, request.sampler, Budget(request),
                  request.eos);
    assert AloneRun(engine, request, Budget(request)) != Alone([], true);
    hide AloneRun, AloneFrom;
    var next := Admitted(history, id, request);
    forall other | other in next.requests && other in next.log
      ensures LogGood(engine, next, other)
    {
      assert other != id ==> LogGood(engine, history, other);
    }
  }

  /** Members may leave the lifecycle, and the coordinator may drop members that left. */
  lemma {:induction false} ReapKeepsInv<C, G, L>(engine: Engine<C, G, L>, s: State<C, G>, active: map<Id, Entry>,
                                                 members: map<Id, Member<C, G>>)
    requires Inv(engine, s)
    requires forall id | id in active :: id in s.active && active[id].position == s.active[id].position
    requires forall id | id in members :: id in s.members && members[id] == s.members[id]
    requires forall id | id in s.members && id in active :: id in members
    ensures Inv(engine, s.(active := active, members := members))
  {
    hide Good, LogGood, Roster;
    var t := s.(active := active, members := members);
    forall other | other in t.active
      ensures Held(t.members, t.flights, other)
    {
      assert Held(s.members, s.flights, other);
    }
    forall c | c in s.flights
      ensures FlightGood(engine, t.history, active, t.flights[c])
    {
      ReapKeepsFlight(engine, s.history, s.active, active, s.flights[c]);
    }
  }

  lemma {:induction false} ReapKeepsFlight<C, G, L>(engine: Engine<C, G, L>, history: History<G>,
                                                    before: map<Id, Entry>, active: map<Id, Entry>,
                                                    flight: Flight<C, G>)
    requires FlightGood(engine, history, before, flight)
    requires forall id | id in active :: id in before && active[id].position == before[id].position
    ensures FlightGood(engine, history, active, flight)
  {
    hide AllGood, Sampled;
    match flight {
      case Frozen(originals) => ReapKeepsGood(engine, history, before, active, originals, originals);
      case Prepared(originals, _, _) => ReapKeepsGood(engine, history, before, active, originals, originals);
      case Settling(back) => ReapKeepsGood(engine, history, before, active, Restrict(back, before.Keys),
                                           Restrict(back, active.Keys));
      case Publishing(back, snapshot) =>
        ReapKeepsGood(engine, history, before, active, Restrict(back, snapshot), Restrict(back, snapshot));
    }
  }

  lemma {:induction false} ReapKeepsGood<C, G, L>(engine: Engine<C, G, L>, history: History<G>, before: map<Id, Entry>,
                                                  active: map<Id, Entry>, members: map<Id, Member<C, G>>,
                                                  left: map<Id, Member<C, G>>)
    requires AllGood(engine, history, before, members)
    requires forall id | id in active :: id in before && active[id].position == before[id].position
    requires forall id | id in left :: id in members && left[id] == members[id]
    ensures AllGood(engine, history, active, left)
  {
    hide Good;
    forall id | id in left
      ensures Good(engine, history, id, left[id]) && InPlace(engine, active, id, left[id])
    {
      assert Good(engine, history, id, members[id]) && InPlace(engine, before, id, members[id]);
    }
  }

  lemma {:induction false} FreezeKeepsInv<C, G, L>(engine: Engine<C, G, L>, s: State<C, G>, caller: nat)
    requires Inv(engine, s) && Enabled(engine, s, Freeze(caller))
    ensures Inv(engine, Apply(engine, s, Freeze(caller)))
  {
    hide Good, LogGood;
    var t := Apply(engine, s, Freeze(caller));
    assert Roster(t.flights[caller]) == s.active.Keys;
    assert t.flights.Keys == {caller};
  }

  /** A caller's own progress leaves everything shared as it was. */
  lemma {:induction false} FlightKeepsInv<C, G, L>(engine: Engine<C, G, L>, s: State<C, G>, caller: nat,
                                                   flight: Flight<C, G>)
    requires Inv(engine, s) && caller in s.flights
    requires FlightGood(engine, s.history, s.active, flight) && Roster(s.flights[caller]) == Roster(flight)
    ensures Inv(engine, s.(flights := s.flights[caller := flight]))
  {
    hide FlightGood, AllGood, LogGood, Roster;
    var t := s.(flights := s.flights[caller := flight]);
    forall id | id in t.active
      ensures Held(t.members, t.flights, id)
    {
      assert Held(s.members, s.flights, id);
      assert caller in t.flights;
    }
  }

  lemma {:induction false} ComputeKeepsInv<C, G, L>(engine: Engine<C, G, L>, s: State<C, G>, caller: nat,
                                                    skipped: set<Id>)
    requires Inv(engine, s) && Enabled(engine, s, Compute(caller, skipped))
    ensures Inv(engine, Apply(engine, s, Compute(caller, skipped)))
  {
    hide Good, LogGood, Sampled;
    var t := Apply(engine, s, Compute(caller, skipped));
    assert FlightGood(engine, s.history, s.active, s.flights[caller]);
    FlightKeepsInv(engine, s, caller, t.flights[caller]);
  }

  lemma {:induction false} SampledAppends<C, G, L>(engine: Engine<C, G, L>, member: Member<C, G>)
    requires Sampled(engine, member).Some?
    ensures Sampled(engine, member).value.generated != []
    ensures var next := Sampled(engine, member).value.generated; next == member.generated + [next[|next| - 1]]
  {
  }

  /** What a commit does for one sampled row. */
  lemma {:induction false} CommittedRow<C(!new), G(!new), L(!new)>(engine: Engine<C, G, L>, history: History<G>,
        next: History<G>, id: Id, original: Member<C, G>, member: Member<C, G>)
    requires EngineLaws(engine) && Good(engine, history, id, original) && Sampled(engine, original) == Some(member)
    requires member.generated != [] && id in next.log &&
             next.log[id] == history.log[id] + [member.generated[|member.generated| - 1]]
    requires next.requests == history.requests && (id in next.completed <==> Completed(member))
    ensures LogGood(engine, next, id)
    ensures !Completed(member) ==> Good(engine, next, id, member)
  {
    hide AloneRun, OnPath;
    StepStaysOnPath(engine, history.requests[id], original);
    SampledAppends(engine, original);
    if !Completed(member) {
      OnPathIsUnfinished(engine, history.requests[id], member);
    }
  }

  lemma {:induction false} CommitKeepsInv<C(!new), G(!new), L(!new)>(engine: Engine<C, G, L>, s: State<C, G>,
        caller: nat, dropped: set<Id>)
    requires EngineLaws(engine) && Inv(engine, s) && Enabled(engine, s, Commit(caller, dropped))
    ensures Inv(engine, Apply(engine, s, Commit(caller, dropped)))
  {
    var t := Apply(engine, s, Commit(caller, dropped));
    assert FlightGood(engine, s.history, s.active, s.flights[caller]);
    assert Roster(s.flights[caller]) == Roster(t.flights[caller]);
    CommitRows(engine, s, caller, dropped);
    CommitMembers(engine, s, caller, dropped);
    CommitKnown(engine, s, caller, dropped);
    hide Known, HistoryGood, AllGood, Continuing, Extended, CompletedRows, EngineLaws;
    CommitCovers(s, t, caller);
    hide Covered;
    assert t.flights.Keys == s.flights.Keys == {caller};
  }

  /** After a commit every log is good, and so is every member the flight may bring back. */
  lemma {:induction false} CommitRows<C(!new), G(!new), L(!new)>(engine: Engine<C, G, L>, s: State<C, G>, caller: nat,
        dropped: set<Id>)
    requires EngineLaws(engine) && Inv(engine, s) && Enabled(engine, s, Commit(caller, dropped))
    ensures
      var t := Apply(engine, s, Commit(caller, dropped));
      HistoryGood(engine, t.history) && FlightGood(engine, t.history, t.active, t.flights[caller])
  {
    hide OnPath, AloneRun, Sampled, Completed, EngineLaws;
    var t := Apply(engine, s, Commit(caller, dropped));
    var Prepared(originals, working, sampled) := s.flights[caller];
    assert FlightGood(engine, s.history, s.active, s.flights[caller]);
    forall id | id in sampled
      ensures LogGood(engine, t.history, id)
      ensures !Completed(working[id]) ==> Good(engine, t.history, id, working[id])
    {
      assert Good(engine, s.history, id, originals[id]);
      SampledAppends(engine, originals[id]);
      CommittedRow(engine, s.history, t.history, id, originals[id], working[id]);
    }
    hide Good;
    forall id | id in t.history.requests && id !in sampled
      ensures LogGood(engine, t.history, id)
    {
      assert LogGood(engine, s.history, id);
    }
  }

  lemma {:induction false} CommitMembers<C, G, L>(engine: Engine<C, G, L>, s: State<C, G>, caller: nat,
                                                  dropped: set<Id>)
    requires Inv(engine, s) && Enabled(engine, s, Commit(caller, dropped))
    ensures
      var t := Apply(engine, s, Commit(caller, dropped));
      AllGood(engine, t.history, t.active, t.members)
  {
    hide OnPath, LogGood, Sampled, Completed;
    var t := Apply(engine, s, Commit(caller, dropped));
    assert FlightGood(engine, s.history, s.active, s.flights[caller]);
    forall id | id in t.members
      ensures Good(engine, t.history, id, t.members[id]) && InPlace(engine, t.active, id, t.members[id])
    {
      assert id !in Roster(s.flights[caller]);
      assert Good(engine, s.history, id, s.members[id]) && InPlace(engine, s.active, id, s.members[id]);
    }
  }

  lemma {:induction false} CommitKnows<C, G>(log: map<Id, seq<nat>>, working: map<Id, Member<C, G>>, sampled: set<Id>)
    ensures Extended(log, working, sampled).Keys == log.Keys
  {
  }

  lemma {:induction false} CommitCovers<C, G>(s: State<C, G>, t: State<C, G>, caller: nat)
    requires Covered(s) && caller in s.flights
    requires t.active.Keys <= s.active.Keys && t.members == s.members && t.history.requests == s.history.requests
    requires t.flights.Keys == s.flights.Keys && forall c | c in s.flights ::
             Roster(t.flights[c]) == Roster(s.flights[c])
    ensures Covered(t)
  {
    hide Roster;
    forall id | id in t.active
      ensures Held(t.members, t.flights, id)
    {
      assert Held(s.members, s.flights, id);
    }
  }

  lemma {:induction false} CommitKnown<C, G, L>(engine: Engine<C, G, L>, s: State<C, G>, caller: nat, dropped: set<Id>)
    requires Known(s.history, s.active) && Enabled(engine, s, Commit(caller, dropped))
    requires s.flights[caller].sampled <= s.history.requests.Keys
    ensures Known(Apply(engine, s, Commit(caller, dropped)).history, Apply(engine, s, Commit(caller, dropped)).active)
    ensures Apply(engine, s, Commit(caller, dropped)).active.Keys <= s.active.Keys
  {
    var flight := s.flights[caller];
    CommitKnows(s.history.log, flight.working, flight.sampled);
    ContinuingIsLess(engine, s.active, flight.working, flight.sampled, dropped);
    hide Completed, Extended, Continuing, CompletedRows, TokensCancelled;
  }

  /** Whoever goes on was active and has not completed; whoever completed was sampled. */
  lemma {:induction false} ContinuingIsLess<C, G, L>(engine: Engine<C, G, L>, active: map<Id, Entry>,
                                                     working: map<Id, Member<C, G>>, sampled: set<Id>, dropped: set<Id>)
    ensures Continuing(engine, active, working, sampled, dropped).Keys <= active.Keys
    ensures Continuing(engine, active, working, sampled, dropped).Keys !! CompletedRows(working, sampled)
    ensures CompletedRows(working, sampled) <= sampled
  {
    hide Completed;
  }

  lemma {:induction false} PublishKeepsInv<C, G, L>(engine: Engine<C, G, L>, s: State<C, G>, caller: nat)
    requires Inv(engine, s) && Enabled(engine, s, Publish(caller))
    ensures Inv(engine, Apply(engine, s, Publish(caller)))
  {
    hide Good, LogGood;
    var t := Apply(engine, s, Publish(caller));
    assert FlightGood(engine, s.history, s.active, s.flights[caller]);
    assert t.flights.Keys == {};
    forall id | id in t.active
      ensures Held(t.members, t.flights, id)
    {
      assert Held(s.members, s.flights, id);
    }
  }

  /** In every reachable state: whatever happens next keeps the invariant. */
  lemma {:induction false} EventKeepsInv<C(!new), G(!new), L(!new)>(engine: Engine<C, G, L>, s: State<C, G>,
        event: Event<G>)
    requires EngineLaws(engine) && Inv(engine, s) && Enabled(engine, s, event)
    ensures Inv(engine, Apply(engine, s, event))
  {
    hide OneFlight, Covered, Known, AllGood, HistoryGood, EngineLaws;
    var t := Apply(engine, s, event);
    match event {
      case Admit(id, request) => AdmitKeepsInv(engine, s, id, request);
      case Freeze(caller) => FreezeKeepsInv(engine, s, caller);
      case Compute(caller, skipped) => ComputeKeepsInv(engine, s, caller, skipped);
      case Commit(caller, dropped) => CommitKeepsInv(engine, s, caller, dropped);
      case Publish(caller) => PublishKeepsInv(engine, s, caller);
      case Fail(caller) => SettleKeepsInv(engine, s, caller);
      case CommitFails(caller, reaped) =>
        var middle := s.(active := t.active);
        ReapKeepsInv(engine, s, t.active, s.members);
        SettleKeepsInv(engine, middle, caller);
        assert t == middle.(flights := middle.flights[caller := Settling(middle.flights[caller].originals)]);
      case ReadActive(caller) => SnapshotKeepsInv(engine, s, caller);
      case _ => ReapKeepsInv(engine, s, t.active, t.members);
    }
  }

  lemma {:induction false} SettleKeepsInv<C, G, L>(engine: Engine<C, G, L>, s: State<C, G>, caller: nat)
    requires Inv(engine, s) && caller in s.flights && (s.flights[caller].Frozen? || s.flights[caller].Prepared?)
    ensures Inv(engine, s.(flights := s.flights[caller := Settling(s.flights[caller].originals)]))
  {
    hide Good, LogGood, Sampled;
    assert FlightGood(engine, s.history, s.active, s.flights[caller]);
    FlightKeepsInv(engine, s, caller, Settling(s.flights[caller].originals));
  }

  lemma {:induction false} SnapshotKeepsInv<C, G, L>(engine: Engine<C, G, L>, s: State<C, G>, caller: nat)
    requires Inv(engine, s) && caller in s.flights && s.flights[caller].Settling?
    ensures Inv(engine, s.(flights := s.flights[caller := Publishing(s.flights[caller].back, s.active.Keys)]))
  {
    hide Good, LogGood, Sampled;
    assert FlightGood(engine, s.history, s.active, s.flights[caller]);
    FlightKeepsInv(engine, s, caller, Publishing(s.flights[caller].back, s.active.Keys));
  }
}
