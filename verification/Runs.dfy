/** What holds over every run of the continuous-batching protocol, whatever the interleaving. */
module Runs {
  import opened Wrappers
  import opened Generation
  import opened Scheduler

  predicate Run<C, G, L>(engine: Engine<C, G, L>, start: State<C, G>, events: seq<Event<G>>)
    decreases |events|, 0
  {
    events == [] ||
    (Run(engine, start, events[..|events| - 1]) &&
     Enabled(engine, After(engine, start, events[..|events| - 1]), events[|events| - 1]))
  }

  function After<C, G, L>(engine: Engine<C, G, L>, start: State<C, G>, events: seq<Event<G>>): State<C, G>
    requires Run(engine, start, events)
    decreases |events|, 1
  {
    if events == [] then start
    else Apply(engine, After(engine, start, events[..|events| - 1]), events[|events| - 1])
  }

  lemma {:induction false} RunKeepsInv<C(!new), G(!new), L(!new)>(engine: Engine<C, G, L>, start: State<C, G>,
        events: seq<Event<G>>)
    requires EngineLaws(engine) && Inv(engine, start) && Run(engine, start, events)
    ensures Inv(engine, After(engine, start, events))
    decreases |events|
  {
    hide EngineLaws, Inv, Enabled, Apply;
    if events == [] {
    } else {
      var before := events[..|events| - 1];
      RunKeepsInv(engine, start, before);
      EventKeepsInv(engine, After(engine, start, before), events[|events| - 1]);
    }
  }

  /** The events lead from one state to another. */
  ghost predicate Leads<C, G, L>(engine: Engine<C, G, L>, start: State<C, G>, events: seq<Event<G>>, s: State<C, G>) {
    Run(engine, start, events) && After(engine, start, events) == s
  }

  lemma {:induction false} NoEvents<C, G, L>(engine: Engine<C, G, L>, s: State<C, G>)
    ensures Leads(engine, s, [], s)
  {
  }

  lemma {:induction false} OneMore<C, G, L>(engine: Engine<C, G, L>, start: State<C, G>, events: seq<Event<G>>,
                                            s: State<C, G>, event: Event<G>)
    requires Leads(engine, start, events, s) && Enabled(engine, s, event)
    ensures Leads(engine, start, events + [event], Apply(engine, s, event))
  {
    hide Enabled, Apply;
    assert (events + [event])[..|events|] == events;
  }

  ghost predicate Reachable<C, G, L>(engine: Engine<C, G, L>, s: State<C, G>, events: seq<Event<G>>) {
    Leads(engine, Initial(), events, s)
  }

  lemma {:induction false} ReachableInv<C(!new), G(!new), L(!new)>(engine: Engine<C, G, L>, s: State<C, G>,
        events: seq<Event<G>>)
    requires EngineLaws(engine) && Reachable(engine, s, events)
    ensures Inv(engine, s)
  {
    hide Inv, Run, After;
    InitialInv(engine);
    RunKeepsInv(engine, Initial(), events);
  }

  lemma {:induction false} AdmissionIsChecked<C, G, L>(engine: Engine<C, G, L>, s: State<C, G>, event: Event<G>, id: Id)
    requires Enabled(engine, s, event) && id in Apply(engine, s, event).history.requests
    ensures var request := Apply(engine, s, event).history.requests[id];
            Acceptable(engine, request) || (id in s.history.requests && s.history.requests[id] == request)
  {
    hide Acceptable, RowsCompute, PositionsAgree, TokensCancelled, Continuing, Extended, WorkedAll, Restrict,
         CompletedRows;
  }

  /** Only acceptable requests are ever admitted. */
  lemma {:induction false} RequestIsAcceptable<C, G, L>(engine: Engine<C, G, L>, s: State<C, G>, events: seq<Event<G>>,
                                                        id: Id)
    requires Reachable(engine, s, events) && id in s.history.requests
    ensures Acceptable(engine, s.history.requests[id])
    decreases |events|
  {
    hide Acceptable, Enabled, Apply;
    if events == [] {
    } else {
      var earlier := events[..|events| - 1];
      var before := After(engine, Initial(), earlier);
      AdmissionIsChecked(engine, before, events[|events| - 1], id);
      if id in before.history.requests {
        RequestIsAcceptable(engine, before, earlier, id);
      }
    }
  }

  // ----- batching is invisible -----

  /**
   Whatever else the batch does, the tokens handed out for a request are a prefix of what the request
   produces alone, and all of it exactly when the member completed.
   */
  lemma {:induction false} BatchingIsInvisible<C(!new), G(!new), L(!new)>(engine: Engine<C, G, L>, s: State<C, G>,
        events: seq<Event<G>>, id: Id)
    requires EngineLaws(engine) && Reachable(engine, s, events)
    requires id in s.history.requests && s.history.requests[id].maxNew > 0
    ensures id in s.history.log
    ensures s.history.log[id] <= AloneRun(engine, s.history.requests[id], s.history.requests[id].maxNew).tokens
    ensures id in s.history.completed <==>
            AloneRun(engine, s.history.requests[id], s.history.requests[id].maxNew) == Alone(s.history.log[id], true)
  {
    hide AloneRun, OnPath, FlightGood, Reachable;
    ReachableInv(engine, s, events);
    assert LogGood(engine, s.history, id);
  }

  /** The scheduler itself does not ask for a positive budget; a completed member shows the difference exactly then. */
  lemma {:induction false} PositiveBudgetIsNeeded<C(!new), G(!new), L(!new)>(engine: Engine<C, G, L>, s: State<C, G>,
        events: seq<Event<G>>, id: Id)
    requires EngineLaws(engine) && Reachable(engine, s, events)
    requires id in s.history.completed
    ensures id in s.history.requests && id in s.history.log
    ensures AloneRun(engine, s.history.requests[id], s.history.requests[id].maxNew) == Alone(s.history.log[id], true)
            <==> s.history.requests[id].maxNew > 0
  {
    hide AloneRun, OnPath, FlightGood, Reachable;
    ReachableInv(engine, s, events);
    assert LogGood(engine, s.history, id);
    BudgetMatters(engine, s.history.requests[id], s.history.log[id]);
  }

  /** A lone member, frozen for its first step. */
  function FirstStepFrozen<C, G, L>(engine: Engine<C, G, L>, request: Request<G>): State<C, G> {
    State(true, map[], map[7 := Entry(0, false)], map[0 := Frozen(map[7 := NewMember(engine, request)])],
          History(map[7 := request], map[7 := []], {}))
  }

  /** The same member with its first token sampled but not committed. */
  function FirstTokenSampled<C, G, L>(engine: Engine<C, G, L>, request: Request<G>): State<C, G>
    requires Sampled(engine, NewMember(engine, request)).Some?
  {
    var member := NewMember(engine, request);
    FirstStepFrozen(engine, request).(flights := map[0 :=
      Prepared(map[7 := member], map[7 := Sampled(engine, member).value], {7})])
  }

  lemma {:induction false} FirstStepCanBeFrozen<C, G, L>(engine: Engine<C, G, L>, request: Request<G>)
    requires Acceptable(engine, request) && engine.position(engine.newCache) == 0
    ensures Leads(engine, Initial(), [Admit(7, request), Freeze(0)], FirstStepFrozen(engine, request))
  {
    hide Leads, Acceptable;
    var start: State<C, G>, member := Initial(), NewMember(engine, request);
    var admitted := Apply(engine, start, Admit(7, request));
    assert admitted == State(false, map[7 := member], map[7 := Entry(0, false)], map[],
                             History(map[7 := request], map[7 := []], {}));
    NoEvents(engine, start);
    OneMore(engine, start, [], start, Admit(7, request));
    OneMore(engine, start, [] + [Admit(7, request)], admitted, Freeze(0));
    assert Restrict(admitted.members, admitted.active.Keys) == map[7 := member];
    assert Apply(engine, admitted, Freeze(0)) == FirstStepFrozen(engine, request);
    assert [] + [Admit(7, request)] + [Freeze(0)] == [Admit(7, request), Freeze(0)];
  }

  lemma {:induction false} FirstTokenCanBeSampled<C, G, L>(engine: Engine<C, G, L>, request: Request<G>)
    requires Acceptable(engine, request) && engine.position(engine.newCache) == 0
    requires Sampled(engine, NewMember(engine, request)).Some?
    ensures Leads(engine, Initial(), [Admit(7, request), Freeze(0), Compute(0, {})], FirstTokenSampled(engine, request))
  {
    hide Leads, Acceptable, Sampled;
    var frozen, member := FirstStepFrozen(engine, request), NewMember(engine, request);
    FirstStepCanBeFrozen(engine, request);
    SampledStepForwards(engine, member);
    OneMore(engine, Initial(), [Admit(7, request), Freeze(0)], frozen, Compute(0, {}));
    assert WorkedAll(engine, map[7 := member], {}) == map[7 := Sampled(engine, member).value];
    assert map[7 := member].Keys - {} == {7};
    assert Apply(engine, frozen, Compute(0, {})) == FirstTokenSampled(engine, request);
    assert [Admit(7, request), Freeze(0)] + [Compute(0, {})] == [Admit(7, request), Freeze(0), Compute(0, {})];
  }

  lemma {:induction false} SampledStepForwards<C, G, L>(engine: Engine<C, G, L>, member: Member<C, G>)
    requires Sampled(engine, member).Some?
    ensures engine.forward(member.cache, member.pending).Some?
  {
  }

  /** A request with a budget of zero completes with one token, while alone it produces none. */
  lemma {:induction false} ZeroBudgetStillProduces<C, G, L>(engine: Engine<C, G, L>, request: Request<G>)
    returns (events: seq<Event<G>>)
    requires Acceptable(engine, request) && request.maxNew == 0 && engine.position(engine.newCache) == 0
    requires Sampled(engine, NewMember(engine, request)).Some?
    ensures Run(engine, Initial(), events)
    ensures
      var s := After(engine, Initial(), events);
      && 7 in s.history.completed && 7 in s.history.log && |s.history.log[7]| == 1
      && AloneRun(engine, request, request.maxNew) == Alone([], true)
  {
    hide Leads, Acceptable;
    var s := FirstTokenSampled(engine, request);
    FirstTokenCanBeSampled(engine, request);
    events := [Admit(7, request), Freeze(0), Compute(0, {})];
    OneMore(engine, Initial(), events, s, Commit(0, {}));
    LeadsRuns(engine, Initial(), events + [Commit(0, {})], Apply(engine, s, Commit(0, {})));
    events := events + [Commit(0, {})];
  }

  // ----- safety across lock releases -----

  function Carried<C, G>(flight: Flight<C, G>): map<Id, Member<C, G>> {
    match flight
    case Frozen(originals) => originals
    case Prepared(originals, _, _) => originals
    case Settling(back) => back
    case Publishing(back, _) => back
  }

  /**
   At most one step is in flight, and an active member is either with the coordinator or with that
   step, never with both, and its cache is at Power's position.
   */
  lemma {:induction false} ActiveMembersAreHeld<C(!new), G(!new), L(!new)>(engine: Engine<C, G, L>, s: State<C, G>,
        events: seq<Event<G>>, id: Id)
    requires EngineLaws(engine) && Reachable(engine, s, events)
    ensures |s.flights| <= 1 && (s.inStep <==> |s.flights| == 1)
    ensures id in s.active ==> (id in s.members <==> forall c | c in s.flights :: id !in Carried(s.flights[c]))
    ensures id in s.active && id in s.members ==> engine.position(s.members[id].cache) == s.active[id].position
    ensures forall c | c in s.flights ::
              id in s.active && id in Carried(s.flights[c]) ==>
                engine.position(Carried(s.flights[c])[id].cache) == s.active[id].position
  {
    hide HistoryGood, Good, Reachable, EngineLaws;
    ReachableInv(engine, s, events);
    AtMostOne(s.flights);
    if id in s.active {
      assert Held(s.members, s.flights, id);
    }
    forall c | c in s.flights
      ensures Carried(s.flights[c]).Keys == Roster(s.flights[c])
      ensures id in s.active && id in Carried(s.flights[c]) ==> InPlace(engine, s.active, id, Carried(s.flights[c])[id])
    {
      CarriedInPlace(engine, s.history, s.active, s.flights[c], id);
    }
  }

  lemma {:induction false} CarriedInPlace<C, G, L>(engine: Engine<C, G, L>, history: History<G>,
                                                   active: map<Id, Entry>, flight: Flight<C, G>, id: Id)
    requires FlightGood(engine, history, active, flight)
    ensures Carried(flight).Keys == Roster(flight)
    ensures id in active && id in Carried(flight) ==>
            Good(engine, history, id, Carried(flight)[id]) && InPlace(engine, active, id, Carried(flight)[id])
  {
    hide Good, InPlace;
    match flight {
      case Settling(back) =>
        assert id in active && id in back ==> id in Restrict(back, active.Keys);
      case Publishing(back, snapshot) =>
        assert id in active && id in back ==> id in Restrict(back, snapshot);
      case _ =>
    }
  }

  lemma {:induction false} AtMostOne<T>(items: map<nat, T>)
    requires forall c, d | c in items && d in items :: c == d
    ensures |items| <= 1 && (items.Keys != {} <==> |items| == 1)
  {
    if items.Keys != {} {
      var c :| c in items;
      assert items.Keys == {c};
    }
    assert |items| == |items.Keys|;
  }

  /**
   Whenever no step is in flight, the checks between the roster and the model step succeed: no active
   member is lost, no position has diverged, and the whole roster can be taken.
   */
  lemma {:induction false} FreezeIsNeverRefused<C(!new), G(!new), L(!new)>(engine: Engine<C, G, L>, s: State<C, G>,
        events: seq<Event<G>>, caller: nat)
    requires EngineLaws(engine) && Reachable(engine, s, events)
    requires !s.inStep && s.active != map[]
    ensures Enabled(engine, s, Freeze(caller))
  {
    hide FlightGood, HistoryGood, Good, Reachable, EngineLaws;
    ReachableInv(engine, s, events);
    assert s.flights.Keys == {};
    forall id | id in s.active
      ensures id in s.members
    {
      assert Held(s.members, s.flights, id);
    }
  }

  /** The coordinator can hold a member that is no longer active: the roster is published from an earlier reading. */
  lemma {:induction false} MembersMayBeStale<C, G, L>(engine: Engine<C, G, L>, request: Request<G>)
    returns (events: seq<Event<G>>)
    requires Acceptable(engine, request) && engine.position(engine.newCache) == 0
    ensures Run(engine, Initial(), events)
    ensures var s := After(engine, Initial(), events); 7 in s.members && 7 !in s.active && !s.inStep
  {
    hide Leads, Acceptable, NewMember;
    var s := FirstStepFrozen(engine, request);
    FirstStepCanBeFrozen(engine, request);
    events := [Admit(7, request), Freeze(0)];
    for i := 0 to 4
      invariant Leads(engine, Initial(), events, s)
      invariant i == 0 ==> s == FirstStepFrozen(engine, request)
      invariant i == 1 ==> 7 in s.active && 0 in s.flights && s.flights[0].Settling? && 7 in s.flights[0].back
      invariant 2 <= i <= 3 ==>
                0 in s.flights && s.flights[0].Publishing? && 7 in s.flights[0].back && 7 in s.flights[0].snapshot
      invariant i == 2 ==> 7 in s.active
      invariant i >= 3 ==> 7 !in s.active
      invariant i == 4 ==> 7 in s.members && !s.inStep
    {
      var event := [Fail(0), ReadActive(0), Cancel(7), Publish(0)][i];
      OneMore(engine, Initial(), events, s, event);
      events := events + [event];
      s := Apply(engine, s, event);
    }
    LeadsRuns(engine, Initial(), events, s);
  }

  lemma {:induction false} LeadsRuns<C, G, L>(engine: Engine<C, G, L>, start: State<C, G>, events: seq<Event<G>>,
                                              s: State<C, G>)
    requires Leads(engine, start, events, s)
    ensures Run(engine, start, events) && After(engine, start, events) == s
  {
  }

  /**
   A second way to a stale member: it is admitted during a step whose failing commit then removes it from the lifecycle.
   */
  lemma {:induction false} FailedCommitLeavesStaleMember<C, G, L>(engine: Engine<C, G, L>, request: Request<G>)
    returns (events: seq<Event<G>>)
    requires Acceptable(engine, request) && engine.position(engine.newCache) == 0
    requires Sampled(engine, NewMember(engine, request)).Some?
    ensures Run(engine, Initial(), events) && forall event | event in events :: !event.ReadActive? && !event.Publish?
    ensures var s := After(engine, Initial(), events); 8 in s.members && 8 !in s.active
  {
    hide Leads, Acceptable, Sampled;
    var s := FirstTokenSampled(engine, request);
    FirstTokenCanBeSampled(engine, request);
    events := [Admit(7, request), Freeze(0), Compute(0, {})];
    for i := 0 to 3
      invariant Leads(engine, Initial(), events, s)
      invariant forall event | event in events :: !event.ReadActive? && !event.Publish?
      invariant 0 in s.flights && (i < 3 ==> s.flights[0].Prepared?)
      invariant i == 0 ==> s == FirstTokenSampled(engine, request)
      invariant i > 0 ==> 8 in s.members
      invariant 1 <= i <= 2 ==> 8 in s.active
      invariant i == 2 ==> s.active[8].cancelled
      invariant i == 3 ==> 8 !in s.active
    {
      var event := [Admit(8, request), CancelToken(8), CommitFails(0, {8})][i];
      OneMore(engine, Initial(), events, s, event);
      events := events + [event];
      s := Apply(engine, s, event);
    }
    LeadsRuns(engine, Initial(), events, s);
  }

  predicate MembersAreActive<C, G>(s: State<C, G>) {
    s.members.Keys <= s.active.Keys
  }

  /**
   Whether an event leaves only active members with the coordinator. Two events may fail to: a
   publication of a member that left after the active ids were read, and a failed commit that removes
   a member which is with the coordinator.
   */
  predicate KeepsMembersActive<C, G>(s: State<C, G>, event: Event<G>) {
    match event
    case Publish(caller) =>
      caller in s.flights && s.flights[caller].Publishing? ==>
        s.flights[caller].back.Keys * s.flights[caller].snapshot <= s.active.Keys
    case CommitFails(_, reaped) => reaped !! s.members.Keys
    case _ => true
  }

  /** One event keeps the coordinator's members active exactly when it is none of those two. */
  lemma {:induction false} MembersStayActiveIff<C, G, L>(engine: Engine<C, G, L>, s: State<C, G>, event: Event<G>)
    requires Inv(engine, s) && Enabled(engine, s, event) && MembersAreActive(s)
    ensures MembersAreActive(Apply(engine, s, event)) <==> KeepsMembersActive(s, event)
  {
    hide AllGood, HistoryGood, Known, Acceptable, RowsCompute, PositionsAgree;
    var t := Apply(engine, s, event);
    match event {
      case Admit(id, _) => assert t.members.Keys == s.members.Keys + {id};
      case Freeze(_) => assert t.members.Keys == {};
      case Commit(caller, dropped) =>
        assert FlightGood(engine, s.history, s.active, s.flights[caller]);
        assert s.flights[caller].working.Keys == Roster(s.flights[caller]);
      case CommitFails(_, reaped) => assert t.members == s.members && t.active.Keys == s.active.Keys - reaped;
      case Publish(caller) =>
        var flight := s.flights[caller];
        assert t.members.Keys == s.members.Keys + flight.back.Keys * flight.snapshot;
      case _ =>
    }
  }

  /** After every event of the run all members of the coordinator are active. */
  predicate AlwaysActive<C, G, L>(engine: Engine<C, G, L>, start: State<C, G>, events: seq<Event<G>>)
    requires Run(engine, start, events)
  {
    MembersAreActive(After(engine, start, events)) &&
      (events == [] || AlwaysActive(engine, start, events[..|events| - 1]))
  }

  predicate EveryEventKeeps<C, G, L>(engine: Engine<C, G, L>, start: State<C, G>, events: seq<Event<G>>)
    requires Run(engine, start, events)
  {
    events == [] ||
    (EveryEventKeeps(engine, start, events[..|events| - 1]) &&
     KeepsMembersActive(After(engine, start, events[..|events| - 1]), events[|events| - 1]))
  }

  /** A run never has a stale member exactly when each of its publications and failed commits meets its condition. */
  lemma {:induction false} NeverStaleIff<C(!new), G(!new), L(!new)>(engine: Engine<C, G, L>, events: seq<Event<G>>)
    requires EngineLaws(engine) && Run(engine, Initial(), events)
    ensures AlwaysActive(engine, Initial(), events) <==> EveryEventKeeps(engine, Initial(), events)
    decreases |events|
  {
    hide EngineLaws, Inv, Enabled, Apply, KeepsMembersActive, MembersAreActive;
    if events == [] {
      assert MembersAreActive(Initial<C, G>()) by {
        NothingIsStale<C, G>();
      }
    } else {
      var before, last := events[..|events| - 1], events[|events| - 1];
      NeverStaleIff(engine, before);
      RunKeepsInv(engine, Initial(), before) by {
        InitialInv(engine);
      }
      if AlwaysActive(engine, Initial(), before) {
        NowActive(engine, Initial(), before);
        MembersStayActiveIff(engine, After(engine, Initial(), before), last);
      }
    }
  }

  lemma {:induction false} NothingIsStale<C, G>()
    ensures MembersAreActive(Initial<C, G>())
  {
  }

  lemma {:induction false} NowActive<C, G, L>(engine: Engine<C, G, L>, start: State<C, G>, events: seq<Event<G>>)
    requires Run(engine, start, events) && AlwaysActive(engine, start, events)
    ensures MembersAreActive(After(engine, start, events))
  {
  }

  // ----- a failed step is a no-op -----

  predicate LeavesAlone<G>(caller: nat, events: seq<Event<G>>) {
    forall i | 0 <= i < |events| ::
      match events[i]
      case Commit(other, _) => other != caller
      case Publish(other) => other != caller
      case _ => true
  }

  ghost predicate CarriesBack<C, G>(s: State<C, G>, caller: nat, originals: map<Id, Member<C, G>>) {
    && caller in s.flights && Carried(s.flights[caller]) == originals
    && (s.flights[caller].Publishing? ==>
        forall id | id in originals && id in s.active :: id in s.flights[caller].snapshot)
  }

  /**
   A step that has not committed carries its roster unchanged, and hands out nothing, through whatever happens
   meanwhile.
   */
  lemma {:induction false} FlightCarriesOriginals<C(!new), G(!new), L(!new)>(engine: Engine<C, G, L>,
        start: State<C, G>, caller: nat, events: seq<Event<G>>, originals: map<Id, Member<C, G>>)
    requires EngineLaws(engine) && Inv(engine, start) && CarriesBack(start, caller, originals)
    requires Run(engine, start, events) && LeavesAlone(caller, events)
    ensures CarriesBack(After(engine, start, events), caller, originals)
    ensures forall id | id in start.history.log ::
            id in After(engine, start, events).history.log &&
              After(engine, start, events).history.log[id] == start.history.log[id]
    decreases |events|
  {
    hide EngineLaws, Inv, Enabled, Apply, CarriesBack;
    if events == [] {
    } else {
      var before, last := events[..|events| - 1], events[|events| - 1];
      FlightCarriesOriginals(engine, start, caller, before, originals);
      RunKeepsInv(engine, start, before);
      OneEventCarries(engine, After(engine, start, before), caller, last, originals);
    }
  }

  lemma {:induction false} OneEventCarries<C, G, L>(engine: Engine<C, G, L>, s: State<C, G>, caller: nat,
                                                    event: Event<G>, originals: map<Id, Member<C, G>>)
    requires Inv(engine, s) && CarriesBack(s, caller, originals)
    requires Enabled(engine, s, event) && LeavesAlone(caller, [event])
    ensures CarriesBack(Apply(engine, s, event), caller, originals)
    ensures forall id | id in s.history.log ::
            id in Apply(engine, s, event).history.log && Apply(engine, s, event).history.log[id] == s.history.log[id]
  {
    hide FlightGood, HistoryGood, AllGood, RowsCompute, PositionsAgree, TokensCancelled, Acceptable;
    assert [event][0] == event;
    assert s.flights.Keys == {caller};
  }

  /**
   A step that fails or is cancelled leaves no trace: when its caller is out again, every member of
   the roster that is still active is exactly as it was before the step, no token was handed out, and
   the next step may begin.
   */
  lemma {:induction false} FailedStepIsNoOp<C(!new), G(!new), L(!new)>(engine: Engine<C, G, L>, s: State<C, G>,
        caller: nat, meanwhile: seq<Event<G>>)
    requires EngineLaws(engine) && Inv(engine, s) && Enabled(engine, s, Freeze(caller))
    requires Run(engine, Apply(engine, s, Freeze(caller)), meanwhile) && LeavesAlone(caller, meanwhile)
    requires Enabled(engine, After(engine, Apply(engine, s, Freeze(caller)), meanwhile), Publish(caller))
    ensures
      var t := Apply(engine, After(engine, Apply(engine, s, Freeze(caller)), meanwhile), Publish(caller));
      && !t.inStep && Inv(engine, t)
      && (forall id | id in s.active && id in t.active :: id in t.members && t.members[id] == s.members[id])
      && (forall id | id in s.history.log :: id in t.history.log && t.history.log[id] == s.history.log[id])
  {
    hide EngineLaws, Inv, Run, After;
    var frozen := Apply(engine, s, Freeze(caller));
    FreezeKeepsInv(engine, s, caller);
    FlightCarriesOriginals(engine, frozen, caller, meanwhile, Restrict(s.members, s.active.Keys));
    RunKeepsInv(engine, frozen, meanwhile);
    PublishKeepsInv(engine, After(engine, frozen, meanwhile), caller);
  }

  // ----- token accounting -----

  /**
   In every reachable state the fields of a member that can still take part agree: history is prompt
   and generated tokens, the cache lacks exactly the pending ones, the budget is not used up, and the
   next step fits the position limit.
   */
  lemma {:induction false} MembersAccount<C(!new), G(!new), L(!new)>(engine: Engine<C, G, L>, s: State<C, G>,
        events: seq<Event<G>>, id: Id, member: Member<C, G>)
    requires EngineLaws(engine) && Reachable(engine, s, events)
    requires (id in s.members && member == s.members[id])
          || (id in s.active && exists c | c in s.flights ::
              id in Carried(s.flights[c]) && member == Carried(s.flights[c])[id])
    ensures id in s.history.requests
    ensures
      var request := s.history.requests[id];
      && member.history == request.prompt + member.generated
      && engine.position(member.cache) + |member.pending| == |member.history|
      && member.pending != [] && engine.position(member.cache) + |member.pending| <= engine.maxPosition
      && (request.maxNew > 0 ==> |member.generated| < request.maxNew)
      && id in s.history.log && member.generated == s.history.log[id]
  {
    hide Reachable, EngineLaws, HistoryGood, AloneRun, AloneFrom;
    ReachableInv(engine, s, events);
    if id !in s.members || member != s.members[id] {
      var c :| c in s.flights && id in Carried(s.flights[c]) && member == Carried(s.flights[c])[id];
      CarriedInPlace(engine, s.history, s.active, s.flights[c], id);
    }
    assert Good(engine, s.history, id, member);
    PendingFits(engine, s.history.requests[id], member);
  }

  /** The budget that the listed requests have left. */
  function Remaining<G>(history: History<G>, ids: seq<Id>): int
    requires forall i | 0 <= i < |ids| :: ids[i] in history.requests && ids[i] in history.log
  {
    if ids == [] then 0
    else
      var id := ids[|ids| - 1];
      Remaining(history, ids[..|ids| - 1]) + Budget(history.requests[id]) - |history.log[id]|
  }

  function AdmittedIds<G>(events: seq<Event<G>>): seq<Id> {
    if events == [] then []
    else
      var before, last := AdmittedIds(events[..|events| - 1]), events[|events| - 1];
      if last.Admit? then before + [last.id] else before
  }

  function AdmittedBudget<G>(events: seq<Event<G>>): nat {
    if events == [] then 0
    else
      var before, last := AdmittedBudget(events[..|events| - 1]), events[|events| - 1];
      if last.Admit? then before + Budget(last.request) else before
  }

  /** The rows that got a token from an event. */
  function SampledRows<C, G>(s: State<C, G>, event: Event<G>): set<Id> {
    match event
    case Commit(caller, _) => if caller in s.flights &&
      s.flights[caller].Prepared? then s.flights[caller].sampled else {}
    case _ => {}
  }

  function HandedOut<C, G, L>(engine: Engine<C, G, L>, start: State<C, G>, events: seq<Event<G>>): nat
    requires Run(engine, start, events)
  {
    if events == [] then 0
    else
      var before := events[..|events| - 1];
      HandedOut(engine, start, before) + |SampledRows(After(engine, start, before), events[|events| - 1])|
  }

  predicate Lists(ids: seq<Id>, keys: set<Id>) {
    && (forall i, j | 0 <= i < j < |ids| :: ids[i] != ids[j])
    && (forall i | 0 <= i < |ids| :: ids[i] in keys)
    && (forall id | id in keys :: id in ids)
  }

  /** The budgets of some requests fall by one for each of them that is sampled. */
  lemma {:induction false} RemainingFalls<G>(before: History<G>, next: History<G>, ids: seq<Id>, sampled: set<Id>)
    requires forall i, j | 0 <= i < j < |ids| :: ids[i] != ids[j]
    requires forall i | 0 <= i < |ids| ::
             ids[i] in before.requests && ids[i] in before.log && ids[i] in next.requests && ids[i] in next.log
    requires forall i | 0 <= i < |ids| :: next.requests[ids[i]] == before.requests[ids[i]]
    requires forall i | 0 <= i < |ids| ::
             |next.log[ids[i]]| == |before.log[ids[i]]| + if ids[i] in sampled then 1 else 0
    requires forall id | id in sampled :: id in ids
    ensures Remaining(next, ids) == Remaining(before, ids) - |sampled|
    decreases |ids|
  {
    if ids == [] {
      assert sampled == {};
    } else {
      var id, rest := ids[|ids| - 1], ids[..|ids| - 1];
      forall other | other in sampled - {id}
        ensures other in rest
      {
        var i :| 0 <= i < |ids| && ids[i] == other;
        assert rest[i] == other;
      }
      RemainingFalls(before, next, rest, sampled - {id});
    }
  }

  lemma {:induction false} CommitLogs<C, G, L>(engine: Engine<C, G, L>, s: State<C, G>, caller: nat, dropped: set<Id>,
                                               id: Id)
    requires Inv(engine, s) && Enabled(engine, s, Commit(caller, dropped)) && id in s.history.log
    ensures
      var t := Apply(engine, s, Commit(caller, dropped));
      id in t.history.log &&
        |t.history.log[id]| == |s.history.log[id]| + if id in s.flights[caller].sampled then 1 else 0
  {
    hide OnPath, HistoryGood, Completed, LogGood, Sampled, Continuing;
    var flight := s.flights[caller];
    assert FlightGood(engine, s.history, s.active, flight);
    if id in flight.sampled {
      SampledAppends(engine, flight.originals[id]);
    }
  }

  lemma {:induction false} OtherEventsKeepLogs<C, G, L>(engine: Engine<C, G, L>, s: State<C, G>, event: Event<G>,
                                                        id: Id)
    requires Enabled(engine, s, event) && !event.Commit? && id in s.history.requests && id in s.history.log
    ensures
      var t := Apply(engine, s, event);
      && id in t.history.requests && t.history.requests[id] == s.history.requests[id]
      && id in t.history.log && t.history.log[id] == s.history.log[id]
  {
    hide RowsCompute, PositionsAgree, TokensCancelled, Acceptable, WorkedAll, Restrict;
  }

  lemma {:induction false} LogGrows<C, G, L>(engine: Engine<C, G, L>, s: State<C, G>, event: Event<G>, id: Id)
    requires Inv(engine, s) && Enabled(engine, s, event) && id in s.history.requests
    ensures
      var t := Apply(engine, s, event);
      && id in t.history.requests && t.history.requests[id] == s.history.requests[id]
      && id in s.history.log && id in t.history.log
      && |t.history.log[id]| == |s.history.log[id]| + if id in SampledRows(s, event) then 1 else 0
  {
    InvKnows(engine, s);
    hide Inv, RowsCompute, PositionsAgree, TokensCancelled, Acceptable, Extended, CompletedRows, Continuing;
    if event.Commit? {
      CommitLogs(engine, s, event.caller, event.dropped, id);
    } else {
      OtherEventsKeepLogs(engine, s, event, id);
    }
  }

  /** Only admission raises the remaining budget, and every other event lowers it by the tokens it hands out. */
  lemma {:induction false} EventSpends<C, G, L>(engine: Engine<C, G, L>, s: State<C, G>, event: Event<G>, ids: seq<Id>)
    requires Inv(engine, s) && Enabled(engine, s, event) && Lists(ids, s.history.requests.Keys)
    ensures
      var t := Apply(engine, s, event);
      && (forall i | 0 <= i < |ids| :: ids[i] in t.history.requests && ids[i] in t.history.log)
      && Remaining(t.history, ids) == Remaining(s.history, ids) - |SampledRows(s, event)|
  {
    SampledAreKnown(engine, s, event);
    hide Inv, Enabled, Apply, Remaining, SampledRows;
    var t := Apply(engine, s, event);
    forall i | 0 <= i < |ids|
      ensures ids[i] in t.history.requests && ids[i] in t.history.log && ids[i] in s.history.log
      ensures t.history.requests[ids[i]] == s.history.requests[ids[i]]
      ensures |t.history.log[ids[i]]| == |s.history.log[ids[i]]| + if ids[i] in SampledRows(s, event) then 1 else 0
    {
      LogGrows(engine, s, event, ids[i]);
    }
    RemainingFalls(s.history, t.history, ids, SampledRows(s, event));
  }

  lemma {:induction false} SampledAreKnown<C, G, L>(engine: Engine<C, G, L>, s: State<C, G>, event: Event<G>)
    requires Inv(engine, s)
    ensures SampledRows(s, event) <= s.history.requests.Keys
  {
    hide Inv;
    match event {
      case Commit(caller, _) =>
        if caller in s.flights && s.flights[caller].Prepared? {
          FlightIsKnown(engine, s, caller);
        }
      case _ =>
    }
  }

  lemma {:induction false} FlightIsKnown<C, G, L>(engine: Engine<C, G, L>, s: State<C, G>, caller: nat)
    requires Inv(engine, s) && caller in s.flights && s.flights[caller].Prepared?
    ensures s.flights[caller].sampled <= s.history.requests.Keys
  {
    assert FlightGood(engine, s.history, s.active, s.flights[caller]) &&
           Roster(s.flights[caller]) <= s.history.requests.Keys;
  }

  /**
   Conservation over whole runs: the tokens handed out and the budget that is left always add up to
   the budgets admitted, so no run hands out more than it admitted.
   */
  lemma {:induction false} TokensAreConserved<C(!new), G(!new), L(!new)>(engine: Engine<C, G, L>, events: seq<Event<G>>)
    requires EngineLaws(engine) && Run(engine, Initial(), events)
    ensures Lists(AdmittedIds(events), After(engine, Initial(), events).history.requests.Keys)
    ensures After(engine, Initial(), events).history.log.Keys == After(engine, Initial(), events).history.requests.Keys
    ensures HandedOut(engine, Initial(), events)
            + Remaining(After(engine, Initial(), events).history, AdmittedIds(events)) == AdmittedBudget(events)
    ensures Remaining(After(engine, Initial(), events).history, AdmittedIds(events)) >= 0
    decreases |events|
  {
    hide EngineLaws, Inv, Enabled, Apply;
    var s := After(engine, Initial(), events);
    ReachableInv(engine, s, events);
    InvKnows(engine, s);
    if events == [] {
    } else {
      var before, last := events[..|events| - 1], events[|events| - 1];
      var prior := After(engine, Initial(), before);
      TokensAreConserved(engine, before);
      ReachableInv(engine, prior, before);
      EventSpends(engine, prior, last, AdmittedIds(before));
      AdmissionLists(engine, prior, last, AdmittedIds(before));
      if last.Admit? {
        var ids := AdmittedIds(events);
        assert ids[..|ids| - 1] == AdmittedIds(before);
      }
    }
    RemainingIsNatural(engine, s, AdmittedIds(events));
  }

  lemma {:induction false} InvKnows<C, G, L>(engine: Engine<C, G, L>, s: State<C, G>)
    requires Inv(engine, s)
    ensures s.history.log.Keys == s.history.requests.Keys
  {
  }

  lemma {:induction false} AdmissionLists<C, G, L>(engine: Engine<C, G, L>, s: State<C, G>, event: Event<G>,
                                                   ids: seq<Id>)
    requires Enabled(engine, s, event) && Lists(ids, s.history.requests.Keys)
    ensures
      var t := Apply(engine, s, event);
      if event.Admit? then
        && Lists(ids + [event.id], t.history.requests.Keys)
        && t.history.requests[event.id] == event.request && event.id in t.history.log && t.history.log[event.id] == []
      else Lists(ids, t.history.requests.Keys)
  {
    hide RowsCompute, PositionsAgree, TokensCancelled, Acceptable;
  }

  lemma {:induction false} RemainingIsNatural<C, G, L>(engine: Engine<C, G, L>, s: State<C, G>, ids: seq<Id>)
    requires Inv(engine, s) && forall i | 0 <= i < |ids| :: ids[i] in s.history.requests && ids[i] in s.history.log
    ensures Remaining(s.history, ids) >= 0
    decreases |ids|
  {
    hide AloneRun, OneFlight, Covered, AllGood, FlightGood;
    if ids == [] {
    } else {
      assert LogGood(engine, s.history, ids[|ids| - 1]);
      RemainingIsNatural(engine, s, ids[..|ids| - 1]);
    }
  }
}
