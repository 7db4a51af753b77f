/** The merchant-visible delivery row against the job that drives it:
  * `crates/webhooks/worker.rs` on top of the queue. */
module DeliveryMirror {
  import opened Prelude
  import opened JobQueue

  /** What a worker has in hand of a job: nothing, a claim, an attempt under way with
    * what its handler read from the delivery row, or a handled attempt whose outcome
    * is not yet written to the job. */
  datatype Grip =
    | Loose
    | Held
    | InFlight(startedAt: int, handledAt: int, attempt: nat)
    | InHand(startedAt: int, handledAt: int, outcome: Outcome)

  function GripOf(s: Queue, w: nat, id: nat): Grip {
    if !Holds(s, w, id) then Loose
    else
      var x := s.workers[w];
      if x.items[0].id == id then Grasp(x.stage) else Held
  }

  function Grasp(stage: Stage): Grip {
    match stage
    case Sending(startedAt, handledAt, attempt) => InFlight(startedAt, handledAt, attempt)
    case Handled(startedAt, handledAt, outcome) => InHand(startedAt, handledAt, outcome)
    case _ => Held
  }

  function GripOn(s: Queue, job: Job, id: nat): Grip {
    if job.lockedBy.Some? then GripOf(s, job.lockedBy.value, id) else Loose
  }

  /** The row of an attempt that is about to be made, the first or a later one. */
  predicate Unrecorded(attempts: nat, d: Delivery) {
    d.attempt == attempts && d.status == if attempts == 1 then Waiting else Failed
  }

  /** The row after an attempt: one rung up the same ladder, or finished. */
  predicate RecordedAs(attempts: nat, d: Delivery, outcome: Outcome, now: int) {
    match outcome
    case Succeeds => d == Delivery(attempts, Delivered, None)
    case FailsForGood => d == Delivery(attempts, GivenUp, None)
    case FailsForNow =>
      && d.nextRetryAt == NextRetryAt(attempts, now)
      && if attempts < MAX_ATTEMPTS then d.status == Failed && d.attempt == attempts + 1 else d.status == GivenUp && d.attempt == attempts
  }

  /** Job and row were rescheduled by the ladder's interval for this attempt, each
    * from its own reading of the clock. */
  predicate SameRung(job: Job, d: Delivery, last: Readings) {
    && 1 <= job.attempts <= |LADDER| && last.startedAt <= last.handledAt
    && job.runAt == last.startedAt + LADDER[job.attempts - 1]
    && d.nextRetryAt == Some(last.handledAt + LADDER[job.attempts - 1])
  }

  function LastReadings(s: Queue, id: nat): Option<Readings> {
    if id in s.readings then Some(s.readings[id]) else None
  }

  ghost predicate Mirrored(job: Job, d: Delivery, grip: Grip, last: Option<Readings>) {
    match job.state
    case Pending =>
      && Unrecorded(job.attempts + 1, d)
      && if job.attempts > 0 then last.Some? && SameRung(job, d, last.value) else d.nextRetryAt == Some(job.runAt)
    case Running =>
      (match grip
       case Held => Unrecorded(job.attempts, d)
       case InFlight(startedAt, handledAt, attempt) => startedAt <= handledAt && attempt == d.attempt && Unrecorded(job.attempts, d)
       case InHand(startedAt, handledAt, outcome) =>
         last == Some(Readings(startedAt, handledAt)) && startedAt <= handledAt && RecordedAs(job.attempts, d, outcome, handledAt)
       case Loose => Unrecorded(job.attempts, d) || exists outcome, now :: RecordedAs(job.attempts, d, outcome, now))
    case Completed => d == Delivery(job.attempts, Delivered, None)
    case Dead => d == Delivery(job.attempts, GivenUp, None)
  }

  ghost predicate RowMirrored(s: Queue, id: nat)
    requires id in s.jobs && id in s.deliveries
  {
    Mirrored(s.jobs[id], s.deliveries[id], GripOn(s, s.jobs[id], id), LastReadings(s, id))
  }

  /** Holds of every delivery job that no reaper has touched. */
  ghost predicate MirrorAt(s: Queue, id: nat) {
    id in s.jobs && s.jobs[id].webhook ==> id in s.deliveries && (id !in s.reaped ==> RowMirrored(s, id))
  }

  ghost predicate MirrorHolds(s: Queue) {
    forall id :: MirrorAt(s, id)
  }

  // ------------------------------------------------------------ preservation

  lemma DeliveriesStep(cfg: Config, s: Queue, e: Event, id: nat)
    requires id in s.jobs && s.jobs[id].webhook && id in s.deliveries
    ensures var next, handled := Do(cfg, s, e), Enabled(cfg, s, e) && e.Handle? && AtHead(s, e, id);
            && id in next.deliveries
            && next.deliveries[id] == (if handled then Recorded(s.workers[e.worker].stage.attempt, e.outcome, s.workers[e.worker].stage.handledAt)
                                       else s.deliveries[id])
            && LastReadings(next, id) ==
                 if handled then Some(Readings(s.workers[e.worker].stage.startedAt, s.workers[e.worker].stage.handledAt)) else LastReadings(s, id)
  {
  }

  lemma HeldByItsLock(cfg: Config, s: Queue, w: nat, id: nat)
    requires LeasesHold(cfg, s) && AtHead(s, Handle(w, Succeeds), id) && id !in s.reaped
    ensures Holds(s, w, id) && id in s.jobs && s.jobs[id].lockedBy == Some(w) && s.jobs[id].attempts == s.workers[w].items[0].attempts
    ensures s.jobs[id].state == Running
  {
    HeadItem(cfg, s, w);
    assert s.workers[w].items[0].id == id;
  }

  /** While a row does not change, its grip can only be lost. */
  lemma GripStays(cfg: Config, s: Queue, e: Event, w: nat, id: nat)
    requires LeasesHold(cfg, s) && id in s.jobs && s.jobs[id].lockedBy == Some(w)
    requires !(Enabled(cfg, s, e) && AtHead(s, e, id))
    ensures GripOf(Do(cfg, s, e), w, id) in {GripOf(s, w, id), Loose}
  {
    hide JobSound, ItemSound, InBounds;
    if w in s.workers {
      if Enabled(cfg, s, e) && e.Claim? && e.worker == w {
        ClaimSkips(cfg, s, w, e.ids, id);
      } else {
        assert WorkerSound(cfg, s, w);
        ItemsOnlyShrink(cfg, s, e, w, id);
      }
    }
  }

  lemma ClaimSkips(cfg: Config, s: Queue, w: nat, ids: seq<nat>, id: nat)
    requires JobsSound(cfg, s) && Enabled(cfg, s, Claim(w, ids)) && id in s.jobs && s.jobs[id].lockedBy.Some?
    ensures GripOf(Do(cfg, s, Claim(w, ids)), w, id) == Loose
  {
    assert JobSoundAt(cfg, s, id) && id !in ids;
    var next := Do(cfg, s, Claim(w, ids));
    if next.workers[w].Working? {
      assert forall i :: 0 <= i < |ids| ==> next.workers[w].items[i].id == ids[i] && ids[i] in ids;
    }
  }

  lemma ItemsOnlyShrink(cfg: Config, s: Queue, e: Event, w: nat, id: nat)
    requires w in s.workers && WorkerSound(cfg, s, w) && !(Enabled(cfg, s, e) && e.Claim? && e.worker == w)
    requires !(Enabled(cfg, s, e) && AtHead(s, e, id))
    ensures GripOf(Do(cfg, s, e), w, id) in {GripOf(s, w, id), Loose}
  {
  }

  /** Acting on a job moves its worker's grip on from one stage to the next. */
  lemma GripMovesOn(cfg: Config, s: Queue, e: Event, id: nat)
    requires Enabled(cfg, s, e) && AtHead(s, e, id) && !e.Finish?
    ensures var next := Do(cfg, s, e);
            GripOf(next, e.worker, id) == Grasp(next.workers[e.worker].stage)
  {
    var next := Do(cfg, s, e);
    assert next.workers[e.worker].items == s.workers[e.worker].items && next.workers[e.worker].items[0].id == id;
    assert Holds(next, e.worker, id);
  }

  /** The ways a row changes, on the values alone. */
  lemma ClaimMirrors(job: Job, d: Delivery, w: nat, now: int, grip: Grip, last: Option<Readings>)
    requires job.state == Pending && Mirrored(job, d, Loose, last) && (grip.Held? || grip.Loose?)
    ensures Mirrored(Claimed(job, w, now), d, grip, last)
  {
  }

  lemma BeginMirrors(job: Job, d: Delivery, last: Option<Readings>)
    requires Mirrored(job, d, Held, last)
    ensures Mirrored(job.(runs := job.runs + 1), d, Held, last)
  {
  }

  lemma ReadMirrors(job: Job, d: Delivery, startedAt: int, now: int, last: Option<Readings>)
    requires job.state == Running && startedAt <= now && Mirrored(job, d, Held, last)
    ensures Mirrored(job, d, InFlight(startedAt, now, d.attempt), last)
  {
  }

  lemma HandleMirrors(job: Job, d: Delivery, startedAt: int, handledAt: int, attempt: nat, outcome: Outcome, last: Option<Readings>)
    requires job.state == Running && JobSound(job) && job.webhook && Mirrored(job, d, InFlight(startedAt, handledAt, attempt), last)
    ensures Mirrored(job, Recorded(attempt, outcome, handledAt), InHand(startedAt, handledAt, outcome), Some(Readings(startedAt, handledAt)))
  {
  }

  lemma FinishMirrors(job: Job, d: Delivery, startedAt: int, handledAt: int, outcome: Outcome, last: Option<Readings>)
    requires job.state == Running && JobSound(job) && job.webhook
    requires Mirrored(job, d, InHand(startedAt, handledAt, outcome), last)
    ensures Mirrored(Finished(job, outcome, job.attempts, startedAt), d, Loose, last)
  {
  }

  lemma LosingGripMirrors(job: Job, d: Delivery, grip: Grip, last: Option<Readings>)
    requires Mirrored(job, d, grip, last)
    ensures Mirrored(job, d, Loose, last)
  {
  }

  lemma GripIrrelevant(job: Job, d: Delivery, grip: Grip, other: Grip, last: Option<Readings>)
    requires Mirrored(job, d, grip, last) && job.state != Running
    ensures Mirrored(job, d, other, last)
  {
  }

  lemma NewClaimIsUnhandled(cfg: Config, s: Queue, w: nat, ids: seq<nat>, id: nat)
    requires Enabled(cfg, s, Claim(w, ids)) && id in s.jobs && s.jobs[id].state == Pending
    ensures var grip := GripOf(Do(cfg, s, Claim(w, ids)), w, id); grip.Held? || grip.Loose?
  {
  }

  lemma MirrorKept(cfg: Config, s: Queue, e: Event, id: nat)
    requires LeasesHold(cfg, s) && MirrorAt(s, id)
    ensures MirrorAt(Do(cfg, s, e), id)
  {
    if id in s.jobs {
      OldJobMirrored(cfg, s, e, id);
    } else {
      NewJobMirrored(cfg, s, e, id);
    }
  }

  lemma NewJobMirrored(cfg: Config, s: Queue, e: Event, id: nat)
    requires id !in s.jobs
    ensures MirrorAt(Do(cfg, s, e), id)
  {
  }

  lemma OldJobMirrored(cfg: Config, s: Queue, e: Event, id: nat)
    requires LeasesHold(cfg, s) && MirrorAt(s, id) && id in s.jobs
    ensures MirrorAt(Do(cfg, s, e), id)
  {
    hide Do, RowMirrored, AtHead, Enabled, LeasesHold;
    RowsRemain(cfg, s, e);
    ReapedGrows(cfg, s, e, id);
    KindStays(cfg, s, e, id);
    if s.jobs[id].webhook {
      DeliveriesStep(cfg, s, e, id);
      if id !in Do(cfg, s, e).reaped {
        if Enabled(cfg, s, e) && AtHead(s, e, id) {
          HeadMirrored(cfg, s, e, id);
        } else {
          ElsewhereMirrored(cfg, s, e, id);
        }
      }
    }
  }

  lemma HeadMirrored(cfg: Config, s: Queue, e: Event, id: nat)
    requires LeasesHold(cfg, s) && id in s.jobs && s.jobs[id].webhook && id in s.deliveries && id !in s.reaped
    requires Enabled(cfg, s, e) && AtHead(s, e, id) && RowMirrored(s, id)
    requires id in Do(cfg, s, e).jobs && id in Do(cfg, s, e).deliveries
    ensures RowMirrored(Do(cfg, s, e), id)
  {
    hide Mirrored, JobSound, ItemSound, Recorded, Finished, InBounds, JobsSound;
    var next, job, d, w := Do(cfg, s, e), s.jobs[id], s.deliveries[id], e.worker;
    var x, last := s.workers[w], LastReadings(s, id);
    HeldByItsLock(cfg, s, w, id);
    SoundJob(cfg, s, id);
    assert WorkerSound(cfg, s, w);
    if e.BeginJob? {
      GripMovesOn(cfg, s, e, id);
      BeginMirrors(job, d, last);
    } else if e.BeginHandler? {
      GripMovesOn(cfg, s, e, id);
      ReadMirrors(job, d, x.stage.startedAt, s.clock, last);
    } else if e.Handle? {
      GripMovesOn(cfg, s, e, id);
      HandleMirrors(job, d, x.stage.startedAt, x.stage.handledAt, x.stage.attempt, e.outcome, last);
    } else {
      FinishMirrors(job, d, x.stage.startedAt, x.stage.handledAt, x.stage.outcome, last);
      FinishedIsNotRunning(job, x.stage.outcome, job.attempts, x.stage.startedAt);
      GripIrrelevant(next.jobs[id], d, Loose, GripOn(next, next.jobs[id], id), last);
    }
  }

  lemma FinishedIsNotRunning(job: Job, outcome: Outcome, attempts: nat, now: int)
    ensures Finished(job, outcome, attempts, now).state != Running
  {
  }

  lemma OtherChangesAreClaims(cfg: Config, s: Queue, e: Event, id: nat)
    requires id in s.jobs && id in Do(cfg, s, e).jobs && Do(cfg, s, e).jobs[id] != s.jobs[id]
    requires !(Enabled(cfg, s, e) && AtHead(s, e, id)) && id !in Do(cfg, s, e).reaped
    ensures e.Claim? && Enabled(cfg, s, e) && s.jobs[id].state == Pending
    ensures Do(cfg, s, e).jobs[id] == Claimed(s.jobs[id], e.worker, s.workers[e.worker].now)
  {
  }

  lemma ElsewhereMirrored(cfg: Config, s: Queue, e: Event, id: nat)
    requires LeasesHold(cfg, s) && id in s.jobs && s.jobs[id].webhook && id in s.deliveries && RowMirrored(s, id)
    requires !(Enabled(cfg, s, e) && AtHead(s, e, id))
    requires id in Do(cfg, s, e).jobs && id in Do(cfg, s, e).deliveries && id !in Do(cfg, s, e).reaped
    ensures RowMirrored(Do(cfg, s, e), id)
  {
    hide Do, Mirrored, ItemSound, Recorded, Finished, GripOf, LeasesHold, LastReadings;
    var next, job, d, last := Do(cfg, s, e), s.jobs[id], s.deliveries[id], LastReadings(s, id);
    DeliveriesStep(cfg, s, e, id);
    SoundJob(cfg, s, id);
    if next.jobs[id] == job {
      if job.state == Running {
        GripStays(cfg, s, e, job.lockedBy.value, id);
        LosingGripMirrors(job, d, GripOn(s, job, id), last);
      } else {
        GripIrrelevant(job, d, GripOn(s, job, id), GripOn(next, job, id), last);
      }
    } else {
      OtherChangesAreClaims(cfg, s, e, id);
      GripIrrelevant(job, d, GripOn(s, job, id), Loose, last);
      NewClaimIsUnhandled(cfg, s, e.worker, e.ids, id);
      ClaimMirrors(job, d, e.worker, s.workers[e.worker].now, GripOn(next, next.jobs[id], id), last);
    }
  }

  // ---------------------------------------------------------------- theorems

  lemma {:induction false} MirrorAlwaysHolds(cfg: Config, events: seq<Event>)
    ensures MirrorHolds(Execution(cfg, events))
  {
    if events == [] {
    } else {
      hide Do, MirrorAt, LeasesHold;
      var before, e := Execution(cfg, events[..|events| - 1]), events[|events| - 1];
      MirrorAlwaysHolds(cfg, events[..|events| - 1]);
      LeasesAlwaysHold(cfg, events[..|events| - 1]);
      forall id ensures MirrorAt(Do(cfg, before, e), id) {
        MirrorKept(cfg, before, e, id);
      }
    }
  }

  /** In every reachable state, whatever the lease, the delivery row of an unreaped
    * job shows what its job does: the same attempt while a worker has claimed it,
    * one ahead while it waits; after a failed attempt both times are that
    * attempt's interval of the ladder after the clock readings of the worker and
    * of its handler; delivered exactly when the job is completed and given up
    * exactly when it is dead. */
  lemma DeliveryRowMirrorsItsJob(cfg: Config, events: seq<Event>, id: nat)
    requires var s := Execution(cfg, events); id in s.jobs && s.jobs[id].webhook && id !in s.reaped
    ensures id in Execution(cfg, events).deliveries
    ensures var s := Execution(cfg, events);
            var job, d := s.jobs[id], s.deliveries[id];
            && (job.state == Pending ==> d.attempt == job.attempts + 1)
            && (job.state == Pending && job.attempts > 0 ==> id in s.readings && SameRung(job, d, s.readings[id]))
            && (GripOn(s, job, id).Held? || GripOn(s, job, id).InFlight? ==> job.state == Running && d.attempt == job.attempts)
            && (job.state != Running ==> (job.state == Dead <==> d.status == GivenUp))
            && (job.state != Running ==> (job.state == Completed <==> d.status == Delivered))
            && (Terminal(job) ==> d.attempt == job.attempts && d.nextRetryAt == None)
            && (job.state == Pending && job.attempts == 0 ==> d == Delivery(1, Waiting, Some(job.runAt)))
  {
    hide Execution;
    var s := Execution(cfg, events);
    MirrorAlwaysHolds(cfg, events);
    assert MirrorAt(s, id);
    LeasesAlwaysHold(cfg, events);
    if GripOn(s, s.jobs[id], id) != Loose {
      HeldItem(cfg, s, s.jobs[id].lockedBy.value, id);
    }
  }

  /** The readings are those of the last execution: nothing but handling the job
    * writes them, with the readings of the worker and of the handler it called. */
  lemma ReadingsAreTheLastAttempt(cfg: Config, s: Queue, e: Event, id: nat)
    requires id in Do(cfg, s, e).readings && (id !in s.readings || Do(cfg, s, e).readings[id] != s.readings[id])
    ensures e.Handle? && Enabled(cfg, s, e) && AtHead(s, e, id)
    ensures Do(cfg, s, e).readings[id] == Readings(s.workers[e.worker].stage.startedAt, s.workers[e.worker].stage.handledAt)
  {
  }

  /** The retry ladder in force: an unreaped delivery job is leased for its next attempt
    * no earlier than 1 or 5 minutes, half an hour, 2, 6 or 24 hours after its last one
    * started, according to how many it has had. */
  lemma RetriesWaitTheirTime(cfg: Config, events: seq<Event>, e: Event, id: nat)
    requires var s := Execution(cfg, events);
             && id in s.jobs && s.jobs[id].webhook && id !in s.reaped && s.jobs[id].attempts > 0
             && s.jobs[id].state != Running && id in Do(cfg, s, e).jobs && Do(cfg, s, e).jobs[id].state == Running
    ensures var s := Execution(cfg, events);
            var job, leased := s.jobs[id], Do(cfg, s, e).jobs[id];
            var waits := [60, 300, 1_800, 7_200, 21_600, 86_400];
            && 1 <= job.attempts <= 6 && id in s.readings && leased.lockedAt.Some?
            && leased.lockedAt.value >= s.readings[id].startedAt + waits[job.attempts - 1]
  {
    hide Execution, Do;
    DeliveryRowMirrorsItsJob(cfg, events, id);
    LeasedWhenDue(cfg, Execution(cfg, events), e, id);
  }
}
