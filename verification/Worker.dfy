/**
 The generation worker: one loop that admits queued jobs, steps the batch, streams text, and lets go of
 jobs that end. It never waits for a permit and never meets a row it does not know.
 */
module Worker {
  import opened Wrappers
  import opened StopDecoder
  import opened Generation
  import opened Scheduler
  import opened Runs
  import opened ContinuousBatch

  /** What the worker keeps for an admitted job; its decoder is held as the two texts of IncrementalDecoder. */
  datatype ActiveJob = ActiveJob(stop: seq<string>, decoded: string, emitted: string, eos: seq<nat>, firstStep: bool)

  datatype GenerationJob<G> = GenerationJob(requestId: Id, request: Request<G>, stop: seq<string>)

  datatype DoneReason = Stop | Length

  datatype GenerationEvent = GenerationEvent(id: Id, text: string, token: nat, reason: Option<DoneReason>,
                                             firstStep: bool)

  predicate NonEmptyStops(stops: seq<string>) {
    forall stop | stop in stops :: stop != ""
  }

  /** The tokenizer's answer for a row of a step and its token. */
  type Detokenized = (nat, nat) -> Result<Option<string>>

  /** What one row means for its job: the updated job, and what is streamed. */
  datatype RowEffect = RowEffect(job: ActiveJob, event: GenerationEvent, hit: bool)

  /** A row whose token the tokenizer decodes to `chunk`. */
  function Effect(job: ActiveJob, row: RowOutput, chunk: string): (effect: Result<RowEffect>)
  {
    match PushSpec(job.stop, job.decoded, job.emitted, chunk, row.completed)
    case Err(error) => Err(error)
    case Ok(pushed) =>
      var reason := if !row.completed && !pushed.hit then None
                    else if pushed.hit || row.token in job.eos then Some(Stop) else Some(Length);
      Ok(RowEffect(job.(decoded := pushed.decoded, emitted := job.emitted + pushed.delta, firstStep := false),
                   GenerationEvent(row.id, pushed.delta, row.token, reason, job.firstStep), pushed.hit))
  }

  /** A row whose token the tokenizer decodes, holds back, or fails to decode. */
  function Outcome(job: ActiveJob, row: RowOutput, detokenized: Result<Option<string>>): Option<RowEffect> {
    if detokenized.Err? then None
    else
      match Effect(job, row, Chunk(detokenized.value))
      case Err(_) => None
      case Ok(effect) => Some(effect)
  }

  /** The job after a row; a row that cannot be decoded leaves it as it was. */
  function JobAfter(job: ActiveJob, row: RowOutput, text: Result<Option<string>>): ActiveJob {
    match Outcome(job, row, text)
    case None => job
    case Some(effect) => effect.job
  }

  /** A job ends with its last token, a stop sequence, an undecodable token, or a receiver that is gone. */
  predicate RowEnds(job: ActiveJob, row: RowOutput, text: Result<Option<string>>, lost: bool) {
    row.completed || lost || Outcome(job, row, text).None? || Outcome(job, row, text).value.hit
  }

  /** The events of a step's rows, in row order. */
  function EventsOf(jobs: map<Id, ActiveJob>, rows: seq<RowOutput>, texts: Detokenized): seq<GenerationEvent>
    requires forall r | 0 <= r < |rows| :: rows[r].id in jobs
    decreases rows
  {
    if rows == [] then []
    else
      var last := |rows| - 1;
      var earlier := EventsOf(jobs, rows[..last], texts);
      match Outcome(jobs[rows[last].id], rows[last], texts(last, rows[last].token))
      case None => earlier
      case Some(effect) => earlier + [effect.event]
  }

  /** The last row of a member. */
  function IndexOf(rows: seq<RowOutput>, id: Id): (index: Option<nat>)
    ensures index.Some? ==> index.value < |rows| && rows[index.value].id == id
    decreases rows
  {
    if rows == [] then None
    else if rows[|rows| - 1].id == id then Some(|rows| - 1)
    else IndexOf(rows[..|rows| - 1], id)
  }

  /** The jobs that go on after a step, each after its row if it had one. */
  function JobsLeft(jobs: map<Id, ActiveJob>, rows: seq<RowOutput>, texts: Detokenized,
                    lost: nat -> bool): map<Id, ActiveJob>
  {
    map id | id in jobs && (match IndexOf(rows, id)
                            case None => true
                            case Some(r) => !RowEnds(jobs[id], rows[r], texts(r, rows[r].token), lost(r))) ::
      match IndexOf(rows, id)
      case None => jobs[id]
      case Some(r) => JobAfter(jobs[id], rows[r], texts(r, rows[r].token))
  }

  predicate OpenJob(job: ActiveJob) {
    Open(job.stop, job.decoded, job.emitted)
  }

  /** A job that streams on keeps its decoder open; one that ends has streamed everything up to its stop sequence. */
  lemma {:induction false} EffectOfOpenJob(job: ActiveJob, row: RowOutput, chunk: string)
    requires OpenJob(job)
    ensures Effect(job, row, chunk).Ok?
    ensures
      var effect, text := Effect(job, row, chunk).value, job.decoded + chunk;
      && effect.job.decoded == text && effect.job.emitted == job.emitted + effect.event.text
      && (effect.hit <==> exists start: nat :: StopAt(text, job.stop, start))
      && (effect.event.reason.None? <==> !row.completed && !effect.hit)
      && (effect.event.reason == Some(Length) <==> row.completed && !effect.hit && row.token !in job.eos)
      && (effect.hit ==> effect.job.emitted == WholeOutput(job.stop, text))
      && (!effect.hit && row.completed ==> effect.job.emitted == text)
      && (effect.event.reason.None? ==> OpenJob(effect.job))
  {
    hide EarliestStop, Open, HeldStopPrefix, StopAt;
    OpenDecoderPushes(job.stop, job.decoded, job.emitted, chunk, row.completed);
  }

  /** What decides an admission besides the request: a caller that is gone, a cancelled wait, and Power's answer. */
  datatype Admission = Admission(abandoned: bool, cancelled: bool, willing: bool)

  predicate Admissible<C, G, L>(engine: Engine<C, G, L>, conditions: Admission, request: Request<G>) {
    !conditions.abandoned && !conditions.cancelled && conditions.willing && Acceptable(engine, request)
  }

  /** What becomes of a queued job: it gets a place, its caller is gone, or its caller gets an error. */
  datatype Seat = Seated | Abandoned | Rejected

  function SeatOf<C, G, L>(engine: Engine<C, G, L>, conditions: Admission, request: Request<G>): Seat {
    if conditions.abandoned then Abandoned
    else if Admissible(engine, conditions, request) then Seated else Rejected
  }

  /** The jobs that get a place among the first `n` of the queue. */
  function SeatedJobs<C, G, L>(engine: Engine<C, G, L>, queue: seq<GenerationJob<G>>, admissions: nat -> Admission,
                               n: nat): map<Id, ActiveJob>
    requires n <= |queue|
  {
    if n == 0 then map[]
    else
      var earlier, job := SeatedJobs(engine, queue, admissions, n - 1), queue[n - 1];
      if SeatOf(engine, admissions(n - 1), job.request) == Seated then earlier[job.requestId := NewJob(job)]
        else earlier
  }

  /** The callers among the first `n` of the queue that get an error, in queue order. */
  function RejectedJobs<C, G, L>(engine: Engine<C, G, L>, queue: seq<GenerationJob<G>>, admissions: nat -> Admission,
                                 n: nat): seq<Id>
    requires n <= |queue|
  {
    if n == 0 then []
    else
      var earlier, job := RejectedJobs(engine, queue, admissions, n - 1), queue[n - 1];
      if SeatOf(engine, admissions(n - 1), job.request) == Rejected then earlier + [job.requestId] else earlier
  }

  /** The lifecycle's members after an admission. */
  function Entered(members: map<Id, Entry>, id: Id, admitted: bool): map<Id, Entry> {
    if admitted then members[id := Entry(0, false)] else members
  }

  /** The batch's history after an admission: the request itself is recorded, and nothing was handed out for it. */
  function Opened<G>(history: History<G>, id: Id, request: Request<G>, admitted: bool): History<G> {
    if admitted then Admitted(history, id, request) else history
  }

  lemma {:induction false} OpenedKeys<G>(history: History<G>, id: Id, request: Request<G>)
    ensures Opened(history, id, request, true).requests.Keys == history.requests.Keys + {id}
  {
  }

  lemma {:induction false} NobodyOpened<G>(history: History<G>, id: Id, request: Request<G>)
    ensures Opened(history, id, request, false) == history
  {
  }

  /** The history after the first `n` jobs of the queue were seated or not. */
  function SeatedHistory<C, G, L>(engine: Engine<C, G, L>, history: History<G>, queue: seq<GenerationJob<G>>,
                                  admissions: nat -> Admission, n: nat): History<G>
    requires n <= |queue|
  {
    if n == 0 then history
    else
      var earlier, job := SeatedHistory(engine, history, queue, admissions, n - 1), queue[n - 1];
      Opened(earlier, job.requestId, job.request, SeatOf(engine, admissions(n - 1), job.request) == Seated)
  }

  lemma {:induction false} NobodyEntered(members: map<Id, Entry>, id: Id)
    ensures Entered(members, id, false) == members
  {
  }

  lemma {:induction false} EnteredAmong(members: map<Id, Entry>, ids: set<Id>, id: Id)
    requires members.Keys <= ids
    ensures Entered(members, id, true).Keys <= ids + {id} && Entered(members, id, false) == members
  {
  }

  /** The places of newly seated jobs in the lifecycle. */
  function NewEntries(jobs: map<Id, ActiveJob>): map<Id, Entry> {
    map id | id in jobs :: Entry(0, false)
  }

  /**
   What a round meets: jobs found gone, answers to admissions, the step's circumstances, decoded texts and lost
   receivers.
   */
  datatype Conditions = Conditions(
    goneBefore: set<Id>,
    admissions: nat -> Admission,
    goneAfter: set<Id>,
    step: Circumstances,
    texts: Detokenized,
    lost: nat -> bool)

  datatype RoundReport = Idle | Failed(errors: seq<Id>) | Streamed(rows: seq<RowOutput>, events: seq<GenerationEvent>)

  function NewJob<G>(job: GenerationJob<G>): ActiveJob {
    ActiveJob(job.stop, "", "", job.request.eos, true)
  }

  /** The job is new and has joined the others. */
  predicate Joins<G>(before: map<Id, ActiveJob>, job: GenerationJob<G>, after: map<Id, ActiveJob>) {
    job.requestId !in before && after == before[job.requestId := NewJob(job)]
  }

  /** Requests are numbered once: queued ones are new to the batch, admitted ones are active or released. */
  ghost predicate Numbered<G>(queue: seq<GenerationJob<G>>, next: nat, admitted: set<Id>, active: set<Id>,
                              released: set<Id>)
  {
    && (forall i | 0 <= i < |queue| ::
        queue[i].requestId < next && queue[i].requestId !in admitted && NonEmptyStops(queue[i].stop))
    && (forall i, j | 0 <= i < j < |queue| :: queue[i].requestId != queue[j].requestId)
    && (forall id | id in admitted :: id < next)
    && admitted == active + released && active !! released
  }

  predicate JobsOpen(active: map<Id, ActiveJob>) {
    forall id | id in active :: OpenJob(active[id])
  }

  lemma {:induction false} NumberedSubmit<G>(queue: seq<GenerationJob<G>>, next: nat, admitted: set<Id>,
                                             active: set<Id>, released: set<Id>, job: GenerationJob<G>)
    requires Numbered(queue, next, admitted, active, released) && job.requestId == next && NonEmptyStops(job.stop)
    ensures Numbered(queue, next + 1, admitted, active, released)
    ensures Numbered(queue + [job], next + 1, admitted, active, released)
  {
  }

  /** Taking the first job leaves the rest numbered, whether the job is then admitted or dropped. */
  lemma {:induction false} NumberedTake<G>(queue: seq<GenerationJob<G>>, next: nat, admitted: set<Id>, active: set<Id>,
                                           released: set<Id>)
    requires Numbered(queue, next, admitted, active, released) && queue != []
    ensures queue[0].requestId !in admitted && queue[0].requestId !in active && NonEmptyStops(queue[0].stop)
    ensures Numbered(queue[1..], next, admitted, active, released)
    ensures Numbered(queue[1..], next, admitted + {queue[0].requestId}, active + {queue[0].requestId}, released)
  {
  }

  lemma {:induction false} NumberedRelease<G>(queue: seq<GenerationJob<G>>, next: nat, admitted: set<Id>,
                                              active: set<Id>, released: set<Id>, ids: set<Id>)
    requires Numbered(queue, next, admitted, active, released) && ids <= active
    ensures Numbered(queue, next, admitted, active - ids, released + ids)
  {
    assert admitted == (active - ids) + (released + ids);
  }

  class Worker<C(!new), G(!new), L(!new)> {
    const batch: ContinuousBatch<C, G, L>
    const maximum: nat
    const queueCapacity: nat
    var active: map<Id, ActiveJob>
    var queue: seq<GenerationJob<G>>
    var nextRequest: nat
    ghost var released: set<Id>

    /** The batch is idle, and it has no active member that the worker does not know. */
    ghost predicate Attached()
      reads this, batch, batch.lifecycle
    {
      batch.Valid() && !batch.inStep && batch.lifecycle.active.Keys <= active.Keys
    }

    ghost predicate Valid()
      reads this, batch, batch.lifecycle
    {
      && Attached()
      && maximum > 0 && |active| <= maximum
      && Numbered(queue, nextRequest, batch.history.requests.Keys, active.Keys, released)
      && JobsOpen(active)
    }

    constructor (engine: Engine<C, G, L>, maximum: nat, queueCapacity: nat)
      requires EngineLaws(engine) && maximum > 0
      ensures Valid() && fresh(batch) && fresh(batch.lifecycle) && active == map[] && released == {}
    {
      this.maximum, this.queueCapacity := maximum, queueCapacity;
      batch := new ContinuousBatch(engine);
      active, queue, nextRequest, released := map[], [], 1, {};
    }

    /** Callers queue requests under a fresh number; a full queue refuses. */
    method Submit(request: Request<G>, stop: seq<string>) returns (result: Result<Id>)
      requires Valid() && NonEmptyStops(stop)
      modifies `queue, `nextRequest
      ensures Valid()
      ensures result.Ok? <==> |old(queue)| < queueCapacity
      ensures result.Ok? ==>
              queue == old(queue) + [GenerationJob(result.value, request, stop)] && result.value == old(nextRequest)
      ensures result.Err? ==> queue == old(queue)
    {
      hide ContinuousBatch.Valid, Numbered, JobsOpen, NonEmptyStops;
      var requestId := nextRequest;
      NumberedSubmit(queue, nextRequest, batch.history.requests.Keys, active.Keys, released,
                     GenerationJob(requestId, request, stop));
      nextRequest := nextRequest + 1;
      if |queue| >= queueCapacity {
        return Err(Power);
      }
      queue := queue + [GenerationJob(requestId, request, stop)];
      result := Ok(requestId);
    }

    /** Power's admission: every active member holds a permit, and a caller blocks while none is free. */
    method BeginWait(cancelled: bool) returns (granted: bool)
      requires |batch.lifecycle.active| < maximum
      ensures granted <==> !cancelled
    {
      granted := !cancelled;
    }

    /** Admits the first queued job. Fewer jobs than permits are active, so the wait for a permit is over at once. */
    method AdmitJob(conditions: Admission) returns (seat: Seat)
      requires Valid() && queue != [] && |active| < maximum
      modifies `active, `queue, batch, batch.lifecycle
      ensures Valid() && queue == old(queue)[1..]
      ensures seat == SeatOf(batch.engine, conditions, old(queue)[0].request)
      ensures if seat == Seated then Joins(old(active), old(queue)[0], active) else active == old(active)
      ensures batch.lifecycle.active == Entered(old(batch.lifecycle.active), old(queue)[0].requestId, seat == Seated)
      ensures batch.history == Opened(old(batch.history), old(queue)[0].requestId, old(queue)[0].request,
                                      seat == Seated)
    {
      hide ContinuousBatch.Valid, Numbered, JobsOpen, NonEmptyStops, Acceptable, NewJob, Entered, Opened, Joins;
      var job := queue[0];
      NumberedTake(queue, nextRequest, batch.history.requests.Keys, active.Keys, released);
      queue := queue[1..];
      NobodyOpened(batch.history, job.requestId, job.request);
      if conditions.abandoned {
        NobodyEntered(batch.lifecycle.active, job.requestId);
        return Abandoned;
      }
      EnteredAmong(batch.lifecycle.active, active.Keys, job.requestId);
      var admitted := WaitAndAdmit(job, conditions);
      if !admitted {
        return Rejected;
      }
      OpenedKeys(old(batch.history), job.requestId, job.request);
      TakePlace(job);
      seat := Seated;
    }

    /** The place of a job whose request was just admitted. */
    method TakePlace(job: GenerationJob<G>)
      requires batch.Valid() && !batch.inStep && batch.lifecycle.active.Keys <= active.Keys + {job.requestId}
      requires job.requestId !in active && |active| < maximum && JobsOpen(active) && NonEmptyStops(job.stop)
      requires Numbered(queue, nextRequest, batch.history.requests.Keys, active.Keys + {job.requestId}, released)
      modifies `active
      ensures Valid() && Joins(old(active), job, active)
    {
      hide ContinuousBatch.Valid, Numbered, JobsOpen, NonEmptyStops, NewJob;
      NewJobIsOpen(active, job);
      Grows(active, job.requestId, NewJob(job));
      active := active[job.requestId := NewJob(job)];
      assert active.Keys == old(active).Keys + {job.requestId};
    }

    method WaitAndAdmit(job: GenerationJob<G>, conditions: Admission) returns (admitted: bool)
      requires Attached() && job.requestId !in batch.history.requests && |active| < maximum
      modifies batch, batch.lifecycle
      ensures batch.Valid() && !batch.inStep
      ensures admitted <==> !conditions.cancelled && conditions.willing && Acceptable(batch.engine, job.request)
      ensures batch.history == Opened(old(batch.history), job.requestId, job.request, admitted)
      ensures batch.lifecycle.active == Entered(old(batch.lifecycle.active), job.requestId, admitted)
    {
      hide ContinuousBatch.Valid, Acceptable;
      Subset(batch.lifecycle.active, active);
      admitted := BeginWait(conditions.cancelled);
      if admitted {
        admitted := AdmitMember(job, conditions.willing);
      }
    }

    /** Hands a job's request to the batch. */
    method AdmitMember(job: GenerationJob<G>, willing: bool) returns (admitted: bool)
      requires Attached() && job.requestId !in batch.history.requests
      modifies batch, batch.lifecycle
      ensures batch.Valid() && !batch.inStep
      ensures admitted <==> willing && Acceptable(batch.engine, job.request)
      ensures batch.history == Opened(old(batch.history), job.requestId, job.request, admitted)
      ensures batch.lifecycle.active == Entered(old(batch.lifecycle.active), job.requestId, admitted)
    {
      hide Inv, EngineLaws, Acceptable;
      ghost var before := batch.State();
      FreshIsUnknown(batch.engine, before, job.requestId);
      var result := batch.Admit(job.requestId, job.request, willing);
      admitted := result.Ok?;
      if admitted {
        AdmissionAdds(batch.engine, before, job.requestId, job.request);
      } else {
        assert batch.State() == before;
      }
    }

    /** A caller cancels its request between two rounds; the worker finds out later and can go on. */
    method CancelToken(id: Id)
      requires Valid()
      modifies batch.lifecycle
      ensures Valid() && batch.lifecycle.active.Keys == old(batch.lifecycle.active).Keys
      ensures id in old(batch.lifecycle.active) ==> batch.lifecycle.active[id].cancelled
    {
      hide Inv, EngineLaws, Numbered, JobsOpen;
      batch.CancelToken(id);
    }

    /** Lets go of a job, cancelling its member if it still has one. */
    method Release(id: Id)
      requires Valid() && id in active
      modifies `active, `released, batch, batch.lifecycle
      ensures Valid()
      ensures active == old(active) - {id} && released == old(released) + {id} && batch.history == old(batch.history)
      ensures batch.lifecycle.active == old(batch.lifecycle.active) - {id}
    {
      hide Inv, EngineLaws, Numbered, JobsOpen, Apply, Enabled;
      NumberedRelease(queue, nextRequest, batch.history.requests.Keys, active.Keys, released, {id});
      FewerJobs(active, {id});
      CancelMember(id);
      active := active - {id};
      released := released + {id};
      assert active.Keys == old(active).Keys - {id};
    }

    /** Cancels a member; afterwards it is not active, whether or not it was, and the others are as before. */
    method CancelMember(id: Id)
      requires Attached()
      modifies batch, batch.lifecycle
      ensures Attached() && batch.history == old(batch.history)
      ensures batch.lifecycle.active == old(batch.lifecycle.active) - {id}
    {
      hide Inv, EngineLaws;
      ghost var before := batch.State();
      var cancelled := batch.Cancel(id);
      assert cancelled.Err? ==> batch.State() == before;
    }

    /** Lets go of several jobs in turn. */
    method ReleaseAll(ids: set<Id>) returns (order: seq<Id>)
      requires Valid() && ids <= active.Keys
      modifies `active, `released, batch, batch.lifecycle
      ensures Valid()
      ensures active == old(active) - ids && released == old(released) + ids && batch.history == old(batch.history)
      ensures batch.lifecycle.active == old(batch.lifecycle.active) - ids
      ensures Lists(order, ids)
    {
      hide Worker.Valid, Lists;
      var left := ids;
      ghost var before, releasedBefore, members, done: set<Id> := active, released, batch.lifecycle.active, {};
      order := [];
      NothingListed();
      while left != {}
        invariant Valid() && done !! left && done + left == ids && batch.history == old(batch.history)
        invariant active == before - done && released == releasedBefore + done &&
                  batch.lifecycle.active == members - done
        invariant Lists(order, done)
        decreases left
      {
        var id :| id in left;
        OneMoreListed(order, done, id);
        MinusMore(before, done, id);
        MinusMore(members, done, id);
        Release(id);
        left, done := left - {id}, done + {id};
        order := order + [id];
      }
      assert done == ids;
    }

    /** Jobs whose token is cancelled or whose receiver is gone are let go of. */
    method ReapCancelled(gone: set<Id>)
      requires Valid()
      modifies `active, `released, batch, batch.lifecycle
      ensures Valid()
      ensures active == old(active) - gone && released == old(released) + old(active).Keys * gone
      ensures batch.history == old(batch.history)
      ensures batch.lifecycle.active == old(batch.lifecycle.active) - gone
    {
      hide ContinuousBatch.Valid, Numbered, JobsOpen;
      ghost var before, members := active, batch.lifecycle.active;
      var order := ReleaseAll(active.Keys * gone);
      assert before - before.Keys * gone == before - gone && members - before.Keys * gone == members - gone;
    }

    /** After a failed step every job gets one error and is let go of. */
    method FailActive() returns (errors: seq<Id>)
      requires Valid()
      modifies `active, `released, batch, batch.lifecycle
      ensures Valid() && active == map[] && released == old(released) + old(active).Keys
      ensures batch.lifecycle.active.Keys == {} && batch.history == old(batch.history)
      ensures Lists(errors, old(active).Keys)
    {
      hide ContinuousBatch.Valid, Numbered, JobsOpen;
      errors := ReleaseAll(active.Keys);
    }

    /** One row of a step: its job streams on, or ends; a member that goes on without its job is cancelled. */
    method ProcessRow(row: RowOutput, text: Result<Option<string>>, disconnected: bool)
      returns (ends: bool, event: Option<GenerationEvent>)
      requires Attached() && row.id in active && OpenJob(active[row.id])
      requires row.completed ==> row.id !in batch.lifecycle.active
      modifies `active, batch, batch.lifecycle
      ensures Attached() && batch.history == old(batch.history)
      ensures var outcome := Outcome(old(active)[row.id], row, text);
              && active == old(active)[row.id := JobAfter(old(active)[row.id], row, text)]
              && ends == RowEnds(old(active)[row.id], row, text, disconnected)
              && event == (if outcome.Some? then Some(outcome.value.event) else None)
              && (outcome.Some? <==> text.Ok?)
      ensures batch.lifecycle.active == if ends then old(batch.lifecycle.active) - {row.id}
              else old(batch.lifecycle.active)
      ensures !ends ==> OpenJob(active[row.id])
    {
      hide ContinuousBatch.Valid, OpenJob, PushSpec;
      var job := active[row.id];
      var decoder := new IncrementalDecoder.Resume(job.stop, job.decoded, job.emitted);
      var pushed := decoder.Push(text, row.completed);
      if pushed.Err? {
        if text.Ok? {
          EffectOfOpenJob(job, row, Chunk(text.value));
          assert false;
        }
        if !row.completed {
          CancelMember(row.id);
        }
        assert active == old(active)[row.id := old(active)[row.id]];
        return true, None;
      }
      EffectOfOpenJob(job, row, Chunk(text.value));
      var (delta, hit) := pushed.value;
      var reason := if !row.completed &&
          !hit then None else if hit || row.token in job.eos then Some(Stop) else Some(Length);
      active := active[row.id := job.(decoded := decoder.decoded, emitted := decoder.emitted, firstStep := false)];
      assert active.Keys == old(active).Keys;
      if (hit || disconnected) && !row.completed {
        CancelMember(row.id);
      }
      ends, event := row.completed || hit
        || disconnected, Some(GenerationEvent(row.id, delta, row.token, reason, job.firstStep));
    }

    /** The rows of a step in turn, with the jobs that end; the worker knows every row. */
    method ProcessRows(rows: seq<RowOutput>, texts: Detokenized, lost: nat -> bool)
      returns (remove: set<Id>, events: seq<GenerationEvent>)
      requires Attached() && OwnRows(active, rows) && Progress(active, active, {}, rows, texts, lost, 0)
      requires CompletedHaveLeft(rows, batch.lifecycle.active)
      modifies `active, batch, batch.lifecycle
      ensures Attached() && batch.history == old(batch.history)
      ensures OwnRows(old(active), rows) && Progress(old(active), active, remove, rows, texts, lost, |rows|)
      ensures batch.lifecycle.active == old(batch.lifecycle.active) - remove
      ensures events == EventsOf(old(active), rows, texts)
    {
      hide ContinuousBatch.Valid, OpenJob, Outcome, Progress, JobAfter, RowEnds;
      remove, events := {}, [];
      ghost var before, members := active, batch.lifecycle.active;
      for r := 0 to |rows|
        invariant Attached() && batch.history == old(batch.history)
        invariant batch.lifecycle.active == members - remove
        invariant Progress(before, active, remove, rows, texts, lost, r)
        invariant events == EventsOf(before, rows[..r], texts)
      {
        var row := rows[r];
        ProgressRow(before, active, remove, rows, texts, lost, r);
        if row.id !in active {
          assert false;
        }
        assert rows[..r + 1][..r] == rows[..r];
        ghost var jobs := active;
        var ends, event := ProcessRow(row, texts(r, rows[r].token), lost(r));
        if event.Some? {
          events := events + [event.value];
        }
        ProgressNext(before, jobs, remove, rows, texts, lost, r);
        if ends {
          MinusMore(members, remove, row.id);
          remove := remove + {row.id};
        }
      }
      assert rows[..|rows|] == rows;
    }

    /** A step's rows, and then the removal of the jobs that ended. */
    method ProcessStep(rows: seq<RowOutput>, texts: Detokenized, lost: nat -> bool)
      returns (events: seq<GenerationEvent>)
      requires Valid() && OwnRows(active, rows) && CompletedHaveLeft(rows, batch.lifecycle.active)
      modifies `active, `released, batch, batch.lifecycle
      ensures Valid()
      ensures events == EventsOf(old(active), rows, texts)
      ensures active == JobsLeft(old(active), rows, texts, lost)
      ensures released == old(released) + (old(active).Keys - active.Keys)
      ensures batch.lifecycle.active.Keys == old(batch.lifecycle.active).Keys * active.Keys
      ensures batch.history == old(batch.history)
    {
      hide ContinuousBatch.Valid, Numbered, JobsOpen, Progress, JobsLeft, EventsOf, OwnRows, CompletedHaveLeft;
      ProgressStarts(active, rows, texts, lost);
      var remove;
      remove, events := ProcessRows(rows, texts, lost);
      ProgressEnds(old(active), active, remove, rows, texts, lost);
      WhoLeft(old(active), remove);
      WhoStays(old(batch.lifecycle.active), old(active), remove);
      SameSize(old(active), active);
      RemoveJobs(remove);
    }

    /** Removes jobs whose members are no longer active. */
    method RemoveJobs(remove: set<Id>)
      requires Attached() && remove <= active.Keys && remove !! batch.lifecycle.active.Keys
      requires maximum > 0 && |active| <= maximum && JobsOpen(active - remove)
      requires Numbered(queue, nextRequest, batch.history.requests.Keys, active.Keys, released)
      modifies `active, `released
      ensures Valid() && active == old(active) - remove && released == old(released) + remove
    {
      hide ContinuousBatch.Valid, Numbered, JobsOpen;
      RemovalFits(queue, nextRequest, batch.history.requests.Keys, active, released, remove, batch.lifecycle.active);
      active, released := active - remove, released + remove;
      assert Attached();
    }

    /**
     One round of the loop: cancelled jobs go, queued jobs are seated while there is room, and the rest
     take one step. Its invariant is Valid: the worker can go on, whatever was cancelled or failed.
     `stepping` are the lifecycle's members when the step begins: those before the round and those just
     seated, without the ones that were found gone.
     */
    method Round(conditions: Conditions)
      returns (rejected: seq<Id>, report: RoundReport, ghost taken: nat, ghost seated: map<Id, ActiveJob>,
               ghost stepping: map<Id, Entry>, ghost started: History<G>)
      requires Valid()
      modifies `active, `queue, `released, batch, batch.lifecycle
      ensures Valid() && old(released) <= released
      ensures taken <= |old(queue)| && queue == old(queue)[taken..]
      ensures queue == [] || |seated| == maximum
      ensures var seats := SeatedJobs(batch.engine, old(queue), conditions.admissions, taken);
              && seated == old(active) - conditions.goneBefore + seats
              && stepping == old(batch.lifecycle.active) - conditions.goneBefore
                 + NewEntries(seats) - conditions.goneAfter
      ensures rejected == RejectedJobs(batch.engine, old(queue), conditions.admissions, taken)
      ensures started == SeatedHistory(batch.engine, old(batch.history), old(queue), conditions.admissions, taken)
      ensures Accounts(report, conditions, seated - conditions.goneAfter, stepping, active)
      ensures Records(report, started, batch.history)
      ensures Remain(report, stepping, active, batch.lifecycle.active.Keys)
    {
      hide Worker.Valid, JobsLeft, EventsOf, Accounts, Records, Remain;
      ReapCancelled(conditions.goneBefore);
      rejected, taken := SeatJobs(conditions.admissions);
      seated := active;
      ReapCancelled(conditions.goneAfter);
      stepping, started := batch.lifecycle.active, batch.history;
      report := StepJobs(conditions);
    }

    /** Seats queued jobs while there is room; whoever asks in vain and is still there gets an error. */
    method SeatJobs(admissions: nat -> Admission) returns (rejected: seq<Id>, ghost taken: nat)
      requires Valid()
      modifies `active, `queue, batch, batch.lifecycle
      ensures Valid()
      ensures taken <= |old(queue)| && queue == old(queue)[taken..]
      ensures queue == [] || |active| == maximum
      ensures var seats := SeatedJobs(batch.engine, old(queue), admissions, taken);
              && active == old(active) + seats && seats.Keys !! old(active).Keys
              && batch.lifecycle.active == old(batch.lifecycle.active) + NewEntries(seats)
      ensures batch.history == SeatedHistory(batch.engine, old(batch.history), old(queue), admissions, taken)
      ensures rejected == RejectedJobs(batch.engine, old(queue), admissions, taken)
    {
      hide ContinuousBatch.Valid, Numbered, JobsOpen, Attached, Joins, SeatOf, SeatedJobs, Seats, NewEntries;
      rejected, taken := [], 0;
      var attempts := 0;
      NobodySeated(batch.engine, active, batch.lifecycle.active, queue, admissions);
      while |active| < maximum && queue != []
        invariant Valid()
        invariant taken == attempts <= |old(queue)| && queue == old(queue)[taken..]
        invariant Seats(batch.engine, old(active), old(batch.lifecycle.active), old(queue), admissions, taken, active,
                        batch.lifecycle.active)
        invariant rejected == RejectedJobs(batch.engine, old(queue), admissions, taken)
        invariant batch.history == SeatedHistory(batch.engine, old(batch.history), old(queue), admissions, taken)
        decreases |queue|
      {
        ghost var jobs, members, first := active, batch.lifecycle.active, queue[0];
        var requestId := queue[0].requestId;
        var seat := AdmitJob(admissions(attempts));
        SeatsNext(batch.engine, old(active), old(batch.lifecycle.active), old(queue), admissions, taken, jobs, members,
                  active, batch.lifecycle.active);
        if seat == Rejected {
          rejected := rejected + [requestId];
        }
        taken, attempts := taken + 1, attempts + 1;
      }
      SeatsAre(batch.engine, old(active), old(batch.lifecycle.active), old(queue), admissions, taken, active,
               batch.lifecycle.active);
    }

    /** Steps the batch for the seated jobs, if there are any. */
    method StepJobs(conditions: Conditions) returns (report: RoundReport)
      requires Valid()
      modifies `active, `released, batch, batch.lifecycle
      ensures Valid() && old(released) <= released
      ensures Accounts(report, conditions, old(active), old(batch.lifecycle.active), active)
      ensures Records(report, old(batch.history), batch.history)
      ensures Remain(report, old(batch.lifecycle.active), active, batch.lifecycle.active.Keys)
      ensures Favourable(conditions.step) && old(active) != map[] ==>
              (report.Streamed? <==> MembersSucceed(batch.engine, old(batch.State())))
    {
      hide Worker.Valid, Accounts, Records, Remain, MembersSucceed, Favourable;
      ghost var jobs, members, history := active, batch.lifecycle.active, batch.history;
      if active == map[] {
        NobodyRemains();
        IdleAccounts(conditions, history);
        return Idle;
      }
      var stepped := StepBatch(conditions.step);
      ghost var entries := batch.lifecycle.active;
      if stepped.Some? {
        var events := ProcessStep(stepped.value, conditions.texts, conditions.lost);
        report := Streamed(stepped.value, events);
        StreamedAccounts(conditions, jobs, members, stepped.value, events, active, history, batch.history, entries,
                         batch.lifecycle.active.Keys);
      } else {
        var errors := FailActive();
        report := Failed(errors);
        FailedAccounts(conditions, jobs, members, errors, history);
      }
    }

    /** Without jobs there are no members. */
    ghost method NobodyRemains()
      requires Valid() && active == map[]
      ensures batch.lifecycle.active.Keys == {}
    {
      hide ContinuousBatch.Valid, Numbered, JobsOpen;
    }

    /**
     The batch's step, seen from the worker: rows it knows, each once, one for every member whose token is not
     cancelled.
     */
    method StepBatch(circumstances: Circumstances) returns (rows: Option<seq<RowOutput>>)
      requires Valid()
      modifies batch, batch.lifecycle
      ensures Valid()
      ensures Favourable(circumstances) ==> (rows.Some? <==> MembersSucceed(batch.engine, old(batch.State())))
      ensures rows.Some? ==> Serves(old(batch.lifecycle.active), rows.value)
      ensures rows.Some? ==> OwnRows(active, rows.value) && CompletedHaveLeft(rows.value, batch.lifecycle.active)
      ensures rows.Some? ==> LogsExtended(old(batch.history), batch.history, rows.value)
      ensures rows.Some? ==> GoOn(old(batch.lifecycle.active), batch.lifecycle.active, rows.value)
      ensures rows.None? ==> batch.history == old(batch.history)
    {
      hide Inv, EngineLaws, Numbered, JobsOpen, Leads, Untouched, MembersSucceed, Favourable, GoOn, LogsExtended;
      IdleHasNoFlight(batch.engine, batch.State());
      var result, steps := batch.Step(0, circumstances);
      CompletedAreInactive(batch.engine, batch.State());
      if result.Stepped? {
        RowsAreOwn(batch.history, old(batch.history), batch.lifecycle.active, active, result.value,
                   old(batch.lifecycle.active));
      }
      rows := if result.Stepped? then Some(result.value) else None;
    }

    /** The end of the loop: every job still known is let go of, and then no member is left. */
    method Shutdown(refusal: Refusal) returns (errors: seq<Id>, finished: Result<()>)
      requires Valid()
      modifies `active, `released, batch, batch.lifecycle
      ensures batch.Valid() && active == map[] && batch.lifecycle.active.Keys == {}
      ensures released == batch.history.requests.Keys
      ensures Lists(errors, old(active).Keys)
      ensures finished.Ok? <==> refusal.None?
    {
      hide Inv, EngineLaws;
      errors := FailActive();
      ghost var before := batch.State();
      assert before.history.requests.Keys == released;
      ghost var event;
      finished, event := batch.Finish(refusal);
      FinishLeavesNobody(batch.engine, before, event);
    }
  }

  // ----- what a round streams -----

  /** The rows that the tokenizer decodes, in order. */
  function DecodedRows(rows: seq<RowOutput>, texts: Detokenized, count: nat): (indices: seq<nat>)
    requires count <= |rows|
    ensures forall r :: r in indices <==> 0 <= r < count && texts(r, rows[r].token).Ok?
    ensures forall i, j | 0 <= i < j < |indices| :: indices[i] < indices[j]
  {
    if count == 0 then []
    else
      var earlier := DecodedRows(rows, texts, count - 1);
      assert forall i | 0 <= i < |earlier| :: earlier[i] in earlier;
      if texts(count - 1, rows[count - 1].token).Ok? then earlier + [count - 1] else earlier
  }

  /**
   What is streamed for a row: its member and its token, the first-step mark of its job, the text that
   became certain, and a reason exactly when the job is done: "stop" for a stop sequence or an end token
   and "length" for an exhausted budget.
   */
  ghost predicate Streams(event: GenerationEvent, job: ActiveJob, row: RowOutput, chunk: string) {
    var text := job.decoded + chunk;
    var hit := exists start: nat :: StopAt(text, job.stop, start);
    && event.id == row.id && event.token == row.token && event.firstStep == job.firstStep
    && (hit ==> job.emitted + event.text == WholeOutput(job.stop, text))
    && (!hit && row.completed ==> job.emitted + event.text == text)
    && (!hit && !row.completed ==> Open(job.stop, text, job.emitted + event.text))
    && event.reason == if hit then Some(Stop) else if !row.completed then None
                       else if row.token in job.eos then Some(Stop) else Some(Length)
  }

  lemma {:induction false} EffectStreams(job: ActiveJob, row: RowOutput, chunk: string)
    requires OpenJob(job)
    ensures Effect(job, row, chunk).Ok? && Streams(Effect(job, row, chunk).value.event, job, row, chunk)
  {
    EffectOfOpenJob(job, row, chunk);
    hide EarliestStop, Open, HeldStopPrefix, StopAt, WholeOutput, PushSpec;
  }

  ghost predicate StreamsRow(event: GenerationEvent, jobs: map<Id, ActiveJob>, rows: seq<RowOutput>,
                             texts: Detokenized, r: nat)
  {
    && r < |rows| && rows[r].id in jobs && texts(r, rows[r].token).Ok?
    && Streams(event, jobs[rows[r].id], rows[r], Chunk(texts(r, rows[r].token).value))
  }

  ghost predicate StreamsRows(events: seq<GenerationEvent>, jobs: map<Id, ActiveJob>, rows: seq<RowOutput>,
                              texts: Detokenized, indices: seq<nat>)
  {
    |events| == |indices| && forall k | 0 <= k < |events| :: StreamsRow(events[k], jobs, rows, texts, indices[k])
  }

  lemma {:induction false} OneMoreEvent(events: seq<GenerationEvent>, event: GenerationEvent, jobs: map<Id, ActiveJob>,
                                        rows: seq<RowOutput>, texts: Detokenized, indices: seq<nat>, r: nat)
    requires StreamsRows(events, jobs, rows, texts, indices) && StreamsRow(event, jobs, rows, texts, r)
    ensures StreamsRows(events + [event], jobs, rows, texts, indices + [r])
  {
    hide StreamsRow;
  }

  lemma {:induction false} OutcomeStreams(job: ActiveJob, row: RowOutput, text: Result<Option<string>>)
    requires OpenJob(job)
    ensures Outcome(job, row, text).Some? <==> text.Ok?
    ensures text.Ok? ==> Streams(Outcome(job, row, text).value.event, job, row, Chunk(text.value))
  {
    if text.Ok? {
      EffectStreams(job, row, Chunk(text.value));
    }
    hide Effect, Streams, OpenJob;
  }

  /** Every decoded row has exactly one event, in row order, and there are no others. */
  lemma {:induction false} EventsAreRows(jobs: map<Id, ActiveJob>, rows: seq<RowOutput>, texts: Detokenized, count: nat)
    requires JobsOpen(jobs) && count <= |rows| && forall r | 0 <= r < |rows| :: rows[r].id in jobs
    ensures forall r | 0 <= r < count :: rows[..count][r].id in jobs
    ensures StreamsRows(EventsOf(jobs, rows[..count], texts), jobs, rows, texts, DecodedRows(rows, texts, count))
    decreases count
  {
    hide Effect, Outcome, Streams, OpenJob;
    if count == 0 {
    } else {
      var last := count - 1;
      EventsAreRows(jobs, rows, texts, last);
      assert rows[..count][..last] == rows[..last] && rows[..count][last] == rows[last];
      var row, text := rows[last], texts(last, rows[last].token);
      OutcomeStreams(jobs[row.id], row, text);
      if text.Ok? {
        OneMoreEvent(EventsOf(jobs, rows[..last], texts), Outcome(jobs[row.id], row, text).value.event, jobs, rows,
                     texts, DecodedRows(rows, texts, last), last);
      }
      hide StreamsRows;
    }
  }

  /**
   A job ends with its last token, a lost receiver, a token that cannot be decoded, or a stop sequence in its text.
   */
  predicate Ends(job: ActiveJob, row: RowOutput, text: Result<Option<string>>, lost: bool) {
    row.completed || lost || text.Err? || EarliestStop(job.decoded + Chunk(text.value), job.stop).Some?
  }

  lemma {:induction false} RowEndsIff(job: ActiveJob, row: RowOutput, text: Result<Option<string>>, lost: bool)
    requires OpenJob(job)
    ensures RowEnds(job, row, text, lost) <==> Ends(job, row, text, lost)
  {
    if text.Ok? {
      EffectOfOpenJob(job, row, Chunk(text.value));
    }
  }

  /** A job after its row: gone if the row ends it, and else with the row's text added to its own. */
  ghost predicate Follows(job: ActiveJob, row: RowOutput, text: Result<Option<string>>, lost: bool,
                          left: map<Id, ActiveJob>)
  {
    && (row.id in left <==> !Ends(job, row, text, lost))
    && (row.id in left ==> text.Ok? && Grown(job, left[row.id], Chunk(text.value)))
  }

  /** The text has grown by the chunk, and nothing but text and the first-step mark has changed. */
  predicate Grown(job: ActiveJob, after: ActiveJob, chunk: string) {
    && after.decoded == job.decoded + chunk
    && after == job.(decoded := after.decoded, emitted := after.emitted, firstStep := false)
  }

  /** Exactly the jobs go on that have no row or whose row does not end them; their texts have grown by their rows. */
  lemma {:induction false} JobsThatGoOn(jobs: map<Id, ActiveJob>, rows: seq<RowOutput>, texts: Detokenized,
                                        lost: nat -> bool)
    requires JobsOpen(jobs) && OwnRows(jobs, rows)
    ensures JobsLeft(jobs, rows, texts, lost).Keys <= jobs.Keys
    ensures forall id | id in jobs && !RowOf(rows, id) ::
              id in JobsLeft(jobs, rows, texts, lost) && JobsLeft(jobs, rows, texts, lost)[id] == jobs[id]
    ensures forall r | 0 <= r < |rows| ::
              Follows(jobs[rows[r].id], rows[r], texts(r, rows[r].token), lost(r), JobsLeft(jobs, rows, texts, lost))
  {
    hide OpenJob, Ends, RowEnds, JobAfter, Grown;
    var left := JobsLeft(jobs, rows, texts, lost);
    forall id | id in jobs && !RowOf(rows, id)
      ensures id in left && left[id] == jobs[id]
    {
      NoRow(rows, id);
    }
    forall r | 0 <= r < |rows|
      ensures Follows(jobs[rows[r].id], rows[r], texts(r, rows[r].token), lost(r), left)
    {
      var job := jobs[rows[r].id];
      RowIndex(rows, r);
      RowEndsIff(job, rows[r], texts(r, rows[r].token), lost(r));
      if !RowEnds(job, rows[r], texts(r, rows[r].token), lost(r)) {
        JobGrows(job, rows[r], texts(r, rows[r].token), lost(r));
      }
    }
  }

  lemma {:induction false} JobGrows(job: ActiveJob, row: RowOutput, text: Result<Option<string>>, lost: bool)
    requires OpenJob(job) && !RowEnds(job, row, text, lost)
    ensures text.Ok? && Grown(job, JobAfter(job, row, text), Chunk(text.value))
  {
    EffectOfOpenJob(job, row, Chunk(text.value));
  }

  // ----- progress through the rows of a step -----

  /** Every row belongs to a job of its own. */
  predicate OwnRows(jobs: map<Id, ActiveJob>, rows: seq<RowOutput>) {
    && (forall q | 0 <= q < |rows| :: rows[q].id in jobs)
    && (forall p, q | 0 <= p < q < |rows| :: rows[p].id != rows[q].id)
  }

  /** Members that completed are no longer active. */
  predicate CompletedHaveLeft(rows: seq<RowOutput>, members: map<Id, Entry>) {
    forall r | 0 <= r < |rows| && rows[r].completed :: rows[r].id !in members
  }

  lemma {:induction false} WhoLeft(before: map<Id, ActiveJob>, remove: set<Id>)
    requires remove <= before.Keys
    ensures before.Keys - (before - remove).Keys == remove
  {
  }

  lemma {:induction false} WhoStays(members: map<Id, Entry>, jobs: map<Id, ActiveJob>, remove: set<Id>)
    requires members.Keys <= jobs.Keys
    ensures (members - remove).Keys == members.Keys * (jobs - remove).Keys && (members - remove).Keys !! remove
  {
  }

  lemma {:induction false} RemovalFits<G>(queue: seq<GenerationJob<G>>, next: nat, admitted: set<Id>,
                                          jobs: map<Id, ActiveJob>, released: set<Id>, remove: set<Id>,
                                          members: map<Id, Entry>)
    requires Numbered(queue, next, admitted, jobs.Keys, released)
    requires members.Keys <= jobs.Keys && remove !! members.Keys && remove <= jobs.Keys
    ensures members.Keys <= (jobs - remove).Keys && |jobs - remove| <= |jobs|
    ensures Numbered(queue, next, admitted, (jobs - remove).Keys, released + remove)
  {
    hide Numbered;
    NumberedRelease(queue, next, admitted, jobs.Keys, released, remove);
    assert (jobs - remove).Keys == jobs.Keys - remove;
    Subset(jobs - remove, jobs);
  }

  lemma {:induction false} SameSize(before: map<Id, ActiveJob>, after: map<Id, ActiveJob>)
    requires before.Keys == after.Keys
    ensures |before| == |after|
  {
    assert |before| == |before.Keys| && |after| == |after.Keys|;
  }

  /** After the first `r` rows their jobs are updated and all others untouched. */
  ghost predicate Updated(before: map<Id, ActiveJob>, active: map<Id, ActiveJob>, rows: seq<RowOutput>,
                          texts: Detokenized, r: nat)
    requires OwnRows(before, rows) && r <= |rows|
  {
    && active.Keys == before.Keys
    && (forall q | 0 <= q < r :: active[rows[q].id] == JobAfter(before[rows[q].id], rows[q], texts(q, rows[q].token)))
    && (forall id | id in active && !RowOf(rows[..r], id) :: active[id] == before[id])
  }

  /** After the first `r` rows exactly those of their jobs are marked that end. */
  ghost predicate Marked(before: map<Id, ActiveJob>, remove: set<Id>, rows: seq<RowOutput>, texts: Detokenized,
                         lost: nat -> bool, r: nat)
    requires OwnRows(before, rows) && r <= |rows|
  {
    && remove <= before.Keys
    && (forall q | 0 <= q < r :: rows[q].id in remove <==>
        RowEnds(before[rows[q].id], rows[q], texts(q, rows[q].token), lost(q)))
    && (forall id | id in remove :: RowOf(rows[..r], id))
  }

  ghost predicate Progress(before: map<Id, ActiveJob>, active: map<Id, ActiveJob>, remove: set<Id>,
                           rows: seq<RowOutput>, texts: Detokenized, lost: nat -> bool, r: nat)
    requires OwnRows(before, rows) && r <= |rows|
  {
    && Updated(before, active, rows, texts, r) && Marked(before, remove, rows, texts, lost, r)
    && JobsOpen(active - remove)
  }

  lemma {:induction false} LaterRowIsNew(jobs: map<Id, ActiveJob>, rows: seq<RowOutput>, r: nat)
    requires OwnRows(jobs, rows) && r < |rows|
    ensures !RowOf(rows[..r], rows[r].id)
    ensures forall id :: RowOf(rows[..r + 1], id) <==> RowOf(rows[..r], id) || id == rows[r].id
  {
    var earlier, later := rows[..r], rows[..r + 1];
    assert later[r] == rows[r];
    forall id
      ensures RowOf(later, id) <==> RowOf(earlier, id) || id == rows[r].id
    {
      if RowOf(earlier, id) {
        var q :| 0 <= q < |earlier| && earlier[q].id == id;
        assert later[q].id == id;
      }
      if RowOf(later, id) && id != rows[r].id {
        var q :| 0 <= q < |later| && later[q].id == id;
        assert earlier[q].id == id;
      }
    }
  }

  lemma {:induction false} ProgressStarts(before: map<Id, ActiveJob>, rows: seq<RowOutput>, texts: Detokenized,
                                          lost: nat -> bool)
    requires JobsOpen(before) && OwnRows(before, rows)
    ensures Progress(before, before, {}, rows, texts, lost, 0)
  {
    hide OpenJob, JobAfter, RowEnds;
  }

  lemma {:induction false} ProgressRow(before: map<Id, ActiveJob>, active: map<Id, ActiveJob>, remove: set<Id>,
                                       rows: seq<RowOutput>, texts: Detokenized, lost: nat -> bool, r: nat)
    requires OwnRows(before, rows) && r < |rows| && Progress(before, active, remove, rows, texts, lost, r)
    ensures rows[r].id in active && OpenJob(active[rows[r].id]) && active[rows[r].id] == before[rows[r].id]
  {
    hide OpenJob, JobAfter, RowEnds, RowOf;
    LaterRowIsNew(before, rows, r);
    assert rows[r].id in active - remove;
  }

  lemma {:induction false} UpdatedNext(before: map<Id, ActiveJob>, active: map<Id, ActiveJob>, rows: seq<RowOutput>,
                                       texts: Detokenized, r: nat)
    requires OwnRows(before, rows) && r < |rows| && Updated(before, active, rows, texts, r)
    ensures Updated(before, active[rows[r].id := JobAfter(before[rows[r].id], rows[r], texts(r, rows[r].token))], rows,
                    texts, r + 1)
  {
    hide JobAfter, RowOf;
    LaterRowIsNew(before, rows, r);
  }

  lemma {:induction false} MarkedNext(before: map<Id, ActiveJob>, remove: set<Id>, rows: seq<RowOutput>,
                                      texts: Detokenized, lost: nat -> bool, r: nat)
    requires OwnRows(before, rows) && r < |rows| && Marked(before, remove, rows, texts, lost, r)
    ensures Marked(before, if RowEnds(before[rows[r].id], rows[r], texts(r, rows[r].token), lost(r))
                   then remove + {rows[r].id}
                   else remove, rows, texts, lost, r + 1)
  {
    hide RowEnds, RowOf;
    LaterRowIsNew(before, rows, r);
  }

  lemma {:induction false} ProgressNext(before: map<Id, ActiveJob>, active: map<Id, ActiveJob>, remove: set<Id>,
                                        rows: seq<RowOutput>, texts: Detokenized, lost: nat -> bool, r: nat)
    requires OwnRows(before, rows) && r < |rows| && Progress(before, active, remove, rows, texts, lost, r)
    requires var job := before[rows[r].id];
             RowEnds(job, rows[r], texts(r, rows[r].token), lost(r))
               || OpenJob(JobAfter(job, rows[r], texts(r, rows[r].token)))
    ensures var job := before[rows[r].id];
            Progress(before, active[rows[r].id := JobAfter(job, rows[r], texts(r, rows[r].token))],
                     if RowEnds(job, rows[r], texts(r, rows[r].token), lost(r)) then remove + {rows[r].id}
                       else remove, rows, texts, lost, r + 1)
  {
    hide OpenJob, JobAfter, RowEnds, Updated, Marked, JobsOpen;
    UpdatedNext(before, active, rows, texts, r);
    MarkedNext(before, remove, rows, texts, lost, r);
    var job := before[rows[r].id];
    OpenNext(active, remove, rows[r].id, JobAfter(job, rows[r], texts(r, rows[r].token)),
             RowEnds(job, rows[r], texts(r, rows[r].token), lost(r)));
  }

  lemma {:induction false} OpenNext(active: map<Id, ActiveJob>, remove: set<Id>, id: Id, job: ActiveJob, ends: bool)
    requires JobsOpen(active - remove) && (ends || OpenJob(job))
    ensures JobsOpen(active[id := job] - if ends then remove + {id} else remove)
  {
    hide OpenJob;
    var earlier, later := active - remove, active[id := job] - if ends then remove + {id} else remove;
    forall other | other in later
      ensures OpenJob(later[other])
    {
      assert other != id ==> other in earlier && earlier[other] == later[other];
    }
  }

  lemma {:induction false} ProgressEnds(before: map<Id, ActiveJob>, active: map<Id, ActiveJob>, remove: set<Id>,
                                        rows: seq<RowOutput>, texts: Detokenized, lost: nat -> bool)
    requires OwnRows(before, rows) && Progress(before, active, remove, rows, texts, lost, |rows|)
    ensures active.Keys == before.Keys && remove <= active.Keys && JobsOpen(active - remove)
    ensures active - remove == JobsLeft(before, rows, texts, lost)
  {
    hide OpenJob, JobAfter, RowEnds;
    assert rows[..|rows|] == rows;
    var left := JobsLeft(before, rows, texts, lost);
    forall id | id in active
      ensures id in left <==> id !in remove
      ensures id in left ==> left[id] == active[id]
    {
      if RowOf(rows, id) {
        var q :| 0 <= q < |rows| && rows[q].id == id;
        RowIndex(rows, q);
      } else {
        NoRow(rows, id);
      }
    }
  }

  lemma {:induction false} RowIndex(rows: seq<RowOutput>, q: nat)
    requires q < |rows| && forall i, j | 0 <= i < j < |rows| :: rows[i].id != rows[j].id
    ensures IndexOf(rows, rows[q].id) == Some(q)
    decreases rows
  {
    if q < |rows| - 1 {
      RowIndex(rows[..|rows| - 1], q);
    }
  }

  lemma {:induction false} NoRow(rows: seq<RowOutput>, id: Id)
    requires forall q | 0 <= q < |rows| :: rows[q].id != id
    ensures IndexOf(rows, id).None?
    decreases rows
  {
    if rows == [] {
    } else {
      NoRow(rows[..|rows| - 1], id);
    }
  }

  /** Where seating stands after the first `n` jobs of the queue. */
  ghost predicate Seats<C, G, L>(engine: Engine<C, G, L>, jobs: map<Id, ActiveJob>, members: map<Id, Entry>,
                                 queue: seq<GenerationJob<G>>, admissions: nat -> Admission, n: nat,
                                 active: map<Id, ActiveJob>, entries: map<Id, Entry>)
    requires n <= |queue|
  {
    var seats := SeatedJobs(engine, queue, admissions, n);
    active == jobs + seats && seats.Keys !! jobs.Keys && entries == members + NewEntries(seats)
  }

  lemma {:induction false} NobodySeated<C, G, L>(engine: Engine<C, G, L>, jobs: map<Id, ActiveJob>,
                                                 members: map<Id, Entry>, queue: seq<GenerationJob<G>>,
                                                 admissions: nat -> Admission)
    ensures Seats(engine, jobs, members, queue, admissions, 0, jobs, members)
  {
  }

  lemma {:induction false} SeatsNext<C, G, L>(engine: Engine<C, G, L>, jobs: map<Id, ActiveJob>,
                                              members: map<Id, Entry>, queue: seq<GenerationJob<G>>,
                                              admissions: nat -> Admission, n: nat, before: map<Id, ActiveJob>,
                                              entriesBefore: map<Id, Entry>, after: map<Id, ActiveJob>,
                                              entries: map<Id, Entry>)
    requires n < |queue| && Seats(engine, jobs, members, queue, admissions, n, before, entriesBefore)
    requires var seat := SeatOf(engine, admissions(n), queue[n].request);
             && (if seat == Seated then Joins(before, queue[n], after) else after == before)
             && entries == Entered(entriesBefore, queue[n].requestId, seat == Seated)
    ensures Seats(engine, jobs, members, queue, admissions, n + 1, after, entries)
  {
    hide SeatOf, NewJob, NewEntries;
    var seats := SeatedJobs(engine, queue, admissions, n);
    if SeatOf(engine, admissions(n), queue[n].request) == Seated {
      OneMoreSeat(jobs, members, seats, queue[n].requestId, NewJob(queue[n]));
    }
  }

  lemma {:induction false} OneMoreSeat(jobs: map<Id, ActiveJob>, members: map<Id, Entry>, seats: map<Id, ActiveJob>,
                                       id: Id, job: ActiveJob)
    requires id !in jobs
    ensures (jobs + seats)[id := job] == jobs + seats[id := job]
    ensures seats.Keys !! jobs.Keys ==> seats[id := job].Keys !! jobs.Keys
    ensures Entered(members + NewEntries(seats), id, true) == members + NewEntries(seats[id := job])
  {
  }

  lemma {:induction false} SeatsAre<C, G, L>(engine: Engine<C, G, L>, jobs: map<Id, ActiveJob>,
                                             members: map<Id, Entry>, queue: seq<GenerationJob<G>>,
                                             admissions: nat -> Admission, n: nat, active: map<Id, ActiveJob>,
                                             entries: map<Id, Entry>)
    requires n <= |queue| && Seats(engine, jobs, members, queue, admissions, n, active, entries)
    ensures var seats := SeatedJobs(engine, queue, admissions, n);
            active == jobs + seats && seats.Keys !! jobs.Keys && entries == members + NewEntries(seats)
  {
  }

  /**
   What a round's step did for its jobs: nothing without jobs; after a failure one error for each job;
   and otherwise one row for every member whose token is not cancelled, its event, and the jobs that go on.
   */
  predicate Accounts(report: RoundReport, conditions: Conditions, jobs: map<Id, ActiveJob>, members: map<Id, Entry>,
                     left: map<Id, ActiveJob>)
  {
    match report
    case Idle => jobs == map[] && left == map[]
    case Failed(errors) => Lists(errors, jobs.Keys) && left == map[]
    case Streamed(rows, events) =>
      && Serves(members, rows)
      && (forall r | 0 <= r < |rows| :: rows[r].id in jobs)
      && events == EventsOf(jobs, rows, conditions.texts)
      && left == JobsLeft(jobs, rows, conditions.texts, conditions.lost)
  }

  /** Every streamed row is the token that the batch has just handed out; no other report hands out anything. */
  ghost predicate Records<G>(report: RoundReport, before: History<G>, after: History<G>) {
    if report.Streamed? then LogsExtended(before, after, report.rows) else after == before
  }

  /** The members that remain: those with an open row whose job goes on. */
  ghost predicate Remain(report: RoundReport, members: map<Id, Entry>, left: map<Id, ActiveJob>, remaining: set<Id>) {
    if report.Streamed? then forall id :: id in remaining <==> id in members && OpenRow(report.rows, id) && id in left
    else remaining == {}
  }

  lemma {:induction false} IdleAccounts<G>(conditions: Conditions, history: History<G>)
    ensures forall members :: Accounts(Idle, conditions, map[], members, map[])
    ensures forall members :: Remain(Idle, members, map[], {})
    ensures Records(Idle, history, history)
  {
  }

  lemma {:induction false} FailedAccounts<G>(conditions: Conditions, jobs: map<Id, ActiveJob>, members: map<Id, Entry>,
                                             errors: seq<Id>, history: History<G>)
    requires Lists(errors, jobs.Keys)
    ensures Accounts(Failed(errors), conditions, jobs, members, map[])
    ensures Remain(Failed(errors), members, map[], {}) && Records(Failed(errors), history, history)
  {
  }

  lemma {:induction false} StreamedAccounts<G>(conditions: Conditions, jobs: map<Id, ActiveJob>,
                                               members: map<Id, Entry>, rows: seq<RowOutput>,
                                               events: seq<GenerationEvent>, left: map<Id, ActiveJob>,
                                               before: History<G>, after: History<G>, entries: map<Id, Entry>,
                                               remaining: set<Id>)
    requires Serves(members, rows) && OwnRows(jobs, rows) && LogsExtended(before, after, rows)
    requires events == EventsOf(jobs, rows, conditions.texts)
    requires left == JobsLeft(jobs, rows, conditions.texts, conditions.lost)
    requires GoOn(members, entries, rows) && remaining == entries.Keys * left.Keys
    ensures Accounts(Streamed(rows, events), conditions, jobs, members, left)
    ensures Records(Streamed(rows, events), before, after)
    ensures Remain(Streamed(rows, events), members, left, remaining)
  {
    hide Serves, LogsExtended, EventsOf, JobsLeft, OpenRow;
  }

  /** A request that was never admitted is unknown to the coordinator and to Power. */
  lemma {:induction false} FreshIsUnknown<C, G, L>(engine: Engine<C, G, L>, s: State<C, G>, id: Id)
    requires Inv(engine, s) && id !in s.history.requests
    ensures id !in s.members && id !in s.active
  {
    hide Covered, HistoryGood, FlightGood, OnPath;
    assert forall other | other in s.members :: Good(engine, s.history, other, s.members[other]);
  }

  lemma {:induction false} MinusMore<T>(items: map<Id, T>, done: set<Id>, id: Id)
    ensures items - done - {id} == items - (done + {id})
  {
  }

  lemma {:induction false} NothingListed()
    ensures Lists([], {})
  {
  }

  lemma {:induction false} OneMoreListed(ids: seq<Id>, keys: set<Id>, id: Id)
    requires Lists(ids, keys) && id !in keys
    ensures Lists(ids + [id], keys + {id})
  {
  }

  lemma {:induction false} IdleHasNoFlight<C, G, L>(engine: Engine<C, G, L>, s: State<C, G>)
    requires Inv(engine, s) && !s.inStep
    ensures s.flights.Keys == {}
  {
    hide Covered, HistoryGood, AllGood, FlightGood;
  }

  /** The rows of a step belong to known jobs, each to its own, and members that completed are gone. */
  lemma {:induction false} RowsAreOwn<G>(after: History<G>, before: History<G>, members: map<Id, Entry>,
                                         jobs: map<Id, ActiveJob>, rows: seq<RowOutput>, serving: map<Id, Entry>)
    requires LogsExtended(before, after, rows) && Serves(serving, rows) && serving.Keys <= jobs.Keys
    requires after.completed !! members.Keys
    ensures OwnRows(jobs, rows) && CompletedHaveLeft(rows, members) && after.requests == before.requests
  {
  }

  lemma {:induction false} CompletedAreInactive<C, G, L>(engine: Engine<C, G, L>, s: State<C, G>)
    requires Inv(engine, s)
    ensures s.history.completed !! s.active.Keys
  {
    hide Covered, HistoryGood, AllGood, FlightGood;
  }

  lemma {:induction false} FinishLeavesNobody<C, G, L>(engine: Engine<C, G, L>, s: State<C, G>, event: Event<G>)
    requires s.active.Keys == {} && Enabled(engine, s, event) && (event.Finish? || event.BeginFails?)
    ensures Apply(engine, s, event).active.Keys == {} && Apply(engine, s, event).history == s.history
  {
  }

  lemma {:induction false} AdmissionAdds<C, G, L>(engine: Engine<C, G, L>, s: State<C, G>, id: Id, request: Request<G>)
    requires Enabled(engine, s, Event.Admit(id, request))
    ensures
      var t := Apply(engine, s, Event.Admit(id, request));
      && t.history == Opened(s.history, id, request, true) && t.active == Entered(s.active, id, true)
      && t.inStep == s.inStep && t.flights == s.flights
  {
  }

  lemma {:induction false} NewJobIsOpen<G>(active: map<Id, ActiveJob>, job: GenerationJob<G>)
    requires JobsOpen(active) && NonEmptyStops(job.stop)
    ensures JobsOpen(active[job.requestId := NewJob(job)])
  {
    hide Open;
    EmptyTextIsOpen(job.stop);
  }

  lemma {:induction false} FewerJobs(active: map<Id, ActiveJob>, ids: set<Id>)
    requires JobsOpen(active)
    ensures JobsOpen(active - ids) && |active - ids| <= |active|
  {
    hide OpenJob;
    Subset(active - ids, active);
  }

  lemma {:induction false} Grows<T>(items: map<Id, T>, id: Id, item: T)
    requires id !in items
    ensures |items[id := item]| == |items| + 1
  {
    assert items[id := item].Keys == items.Keys + {id};
    assert |items[id := item]| == |items[id := item].Keys| && |items| == |items.Keys|;
  }

  lemma {:induction false} Subset<S, T>(small: map<Id, S>, large: map<Id, T>)
    requires small.Keys <= large.Keys
    ensures |small| <= |large|
  {
    SubsetSize(small.Keys, large.Keys);
    assert |small| == |small.Keys| && |large| == |large.Keys|;
  }

  lemma {:induction false} SubsetSize(small: set<Id>, large: set<Id>)
    requires small <= large
    ensures |small| <= |large|
  {
    assert large == small + (large - small);
  }
}
