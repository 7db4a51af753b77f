/** No job is lost: `crates/queue/worker.rs` and `crates/store/src/job.rs` again, for
  * what the workers can still do from wherever they are. */
module JobProgress {
  import opened Prelude
  import opened JobQueue
  import opened DeliveryMirror

  /** A job that may still be attempted, with somebody to handle it. */
  predicate Attemptable(cfg: Config, s: Queue, id: nat) {
    && cfg.batch > 0 && id in s.jobs && !Terminal(s.jobs[id]) && s.jobs[id].attempts < s.jobs[id].maxAttempts
    && (s.jobs[id].webhook || cfg.otherHandlers)
  }

  /** The same tables, with no worker left at work. */
  predicate Stopped(s: Queue, t: Queue) {
    && t.clock == s.clock && t.jobs == s.jobs && t.deliveries == s.deliveries && t.workers.Keys == s.workers.Keys
    && forall w :: w in t.workers ==> t.workers[w].Crashed?
  }

  lemma {:induction false} EverybodyStops(cfg: Config, events: seq<Event>, left: set<nat>) returns (more: seq<Event>)
    requires left <= Execution(cfg, events).workers.Keys
    requires forall w :: w in Execution(cfg, events).workers && w !in left ==> Execution(cfg, events).workers[w].Crashed?
    ensures Stopped(Execution(cfg, events), Execution(cfg, events + more))
    decreases |left|
  {
    hide Execution;
    if left == {} {
      more := [];
      assert events + more == events;
    } else {
      var w :| w in left;
      Extend(cfg, events, Crash(w));
      var rest := EverybodyStops(cfg, events + [Crash(w)], left - {w});
      more := [Crash(w)] + rest;
      assert events + [Crash(w)] + rest == events + more;
    }
  }

  lemma {:induction false} Unused(used: set<nat>) returns (n: nat)
    ensures forall w :: w in used ==> w < n
    decreases |used|
  {
    if used == {} {
      n := 0;
    } else {
      var w :| w in used;
      var m := Unused(used - {w});
      n := if m > w then m else w + 1;
      assert forall u :: u in used ==> u == w || u in used - {w};
    }
  }

  /** How long until the job is due and any lease on it is over. */
  function Wait(cfg: Config, s: Queue, job: Job): nat {
    var due := if job.runAt > s.clock then job.runAt - s.clock else 0;
    var stale := if job.lockedAt.Some? && job.lockedAt.value + cfg.lease >= s.clock then job.lockedAt.value + cfg.lease + 1 - s.clock else 0;
    if due > stale then due else stale
  }

  /** Worker `v` is idle, every other one dead, and the job within reach. */
  predicate WithinReach(cfg: Config, s: Queue, v: nat, id: nat) {
    && Attemptable(cfg, s, id) && JobSound(s.jobs[id]) && (s.jobs[id].webhook ==> id in s.deliveries)
    && v in s.workers && s.workers[v].Idle?
    && s.jobs[id].runAt <= s.clock && (s.jobs[id].lockedAt.Some? ==> s.jobs[id].lockedAt.value < s.clock - cfg.lease)
  }

  lemma WaitingBringsItWithinReach(cfg: Config, s: Queue, v: nat, id: nat)
    requires Attemptable(cfg, s, id) && JobSound(s.jobs[id]) && (s.jobs[id].webhook ==> id in s.deliveries)
    requires v !in s.workers && forall w :: w in s.workers ==> s.workers[w].Crashed?
    ensures WithinReach(cfg, Do(cfg, Do(cfg, s, Advance(Wait(cfg, s, s.jobs[id]))), Wake(v)), v, id)
  {
  }

  lemma ReapingGivesItBack(cfg: Config, s: Queue, v: nat, id: nat)
    requires WithinReach(cfg, s, v, id)
    ensures var t := Do(cfg, Do(cfg, s, BeginTick(v)), Reap(v));
            && Attemptable(cfg, t, id) && id in t.jobs && t.jobs[id].state == Pending && t.jobs[id].runAt <= t.clock && t.deliveries == s.deliveries
            && t.jobs[id].attempts == s.jobs[id].attempts && t.jobs[id].webhook == s.jobs[id].webhook
            && v in t.workers && t.workers[v] == Claiming(t.clock)
  {
    var mid := Do(cfg, s, BeginTick(v));
    assert Enabled(cfg, mid, Reap(v)) && mid.jobs == s.jobs;
  }

  /** Worker `v` has these jobs in hand, all of them with a handler, the first as far
    * as `stage`. */
  predicate InHandOf(cfg: Config, s: Queue, v: nat, items: seq<Item>, stage: Stage) {
    && v in s.workers && s.workers[v].Working? && s.workers[v].items == items && s.workers[v].stage == stage && items != []
    && forall i :: 0 <= i < |items| ==> Doable(cfg, s, items[i].id)
  }

  predicate Doable(cfg: Config, s: Queue, id: nat) {
    id in s.jobs && (s.jobs[id].webhook || cfg.otherHandlers) && (s.jobs[id].webhook ==> id in s.deliveries)
  }

  predicate Done(s: Queue, id: nat) {
    id in s.jobs && s.jobs[id].state == Completed && (s.jobs[id].webhook ==> id in s.deliveries && s.deliveries[id].status == Delivered)
  }

  /** Nothing about any other job has changed. */
  predicate OnlyTouches(s: Queue, t: Queue, id: nat) {
    && t.clock == s.clock && t.jobs.Keys == s.jobs.Keys && t.deliveries.Keys == s.deliveries.Keys
    && (forall other :: other in s.jobs && other != id ==> t.jobs[other] == s.jobs[other])
    && (forall other :: other in s.deliveries && other != id ==> t.deliveries[other] == s.deliveries[other])
    && (id in s.jobs ==> t.jobs[id].attempts == s.jobs[id].attempts && t.jobs[id].webhook == s.jobs[id].webhook)
  }

  lemma ClaimingTakesIt(cfg: Config, s: Queue, v: nat, id: nat)
    requires Attemptable(cfg, s, id) && s.jobs[id].state == Pending && s.jobs[id].runAt <= s.clock
    requires (s.jobs[id].webhook ==> id in s.deliveries) && v in s.workers && s.workers[v] == Claiming(s.clock)
    ensures var t := Do(cfg, s, Claim(v, [id]));
            && InHandOf(cfg, t, v, [Item(id, s.jobs[id].attempts + 1)], NotStarted)
            && id in t.jobs && t.jobs[id].attempts == s.jobs[id].attempts + 1 && t.jobs[id].webhook == s.jobs[id].webhook
  {
    hide NextRetryAt;
    assert Enabled(cfg, s, Claim(v, [id]));
  }

  lemma HandlingSucceeds(cfg: Config, s: Queue, v: nat, items: seq<Item>)
    requires InHandOf(cfg, s, v, items, NotStarted)
    ensures var t, id := Do(cfg, Do(cfg, Do(cfg, s, BeginJob(v)), BeginHandler(v)), Handle(v, Succeeds)), items[0].id;
            && InHandOf(cfg, t, v, items, Handled(s.clock, s.clock, Succeeds)) && OnlyTouches(s, t, id)
            && (s.jobs[id].webhook ==> t.deliveries[id].status == Delivered)
  {
    hide NextRetryAt;
    assert Doable(cfg, s, items[0].id);
    JobIsBegun(cfg, s, v, items);
    var s1 := Do(cfg, s, BeginJob(v));
    HandlerIsBegun(cfg, s1, v, items, s.clock);
    HandlerReturns(cfg, Do(cfg, s1, BeginHandler(v)), v, items, s.clock, s.clock);
  }

  lemma JobIsBegun(cfg: Config, s: Queue, v: nat, items: seq<Item>)
    requires InHandOf(cfg, s, v, items, NotStarted)
    ensures var t := Do(cfg, s, BeginJob(v)); InHandOf(cfg, t, v, items, Started(s.clock)) && OnlyTouches(s, t, items[0].id)
  {
    hide NextRetryAt;
    assert Doable(cfg, s, items[0].id);
  }

  lemma HandlerIsBegun(cfg: Config, s: Queue, v: nat, items: seq<Item>, startedAt: int)
    requires InHandOf(cfg, s, v, items, Started(startedAt))
    ensures var t := Do(cfg, s, BeginHandler(v));
            && t.workers.Keys == s.workers.Keys && t.workers[v].Working? && t.workers[v].stage.Sending?
            && t.workers[v].stage.startedAt == startedAt && t.workers[v].stage.handledAt == s.clock
            && InHandOf(cfg, t, v, items, t.workers[v].stage) && OnlyTouches(s, t, items[0].id)
  {
    hide NextRetryAt;
    assert Doable(cfg, s, items[0].id);
  }

  lemma HandlerReturns(cfg: Config, s: Queue, v: nat, items: seq<Item>, startedAt: int, handledAt: int)
    requires v in s.workers && s.workers[v].Working? && s.workers[v].stage.Sending?
    requires s.workers[v].stage.startedAt == startedAt && s.workers[v].stage.handledAt == handledAt
    requires InHandOf(cfg, s, v, items, s.workers[v].stage)
    ensures var t, id := Do(cfg, s, Handle(v, Succeeds)), items[0].id;
            && InHandOf(cfg, t, v, items, Handled(startedAt, handledAt, Succeeds)) && OnlyTouches(s, t, id)
            && (s.jobs[id].webhook ==> t.deliveries[id].status == Delivered)
  {
    hide NextRetryAt;
    assert Doable(cfg, s, items[0].id);
  }

  lemma FinishingCompletes(cfg: Config, s: Queue, v: nat, items: seq<Item>, at: int)
    requires InHandOf(cfg, s, v, items, Handled(at, at, Succeeds))
    ensures var t, id := Do(cfg, s, Finish(v)), items[0].id;
            && t.jobs[id].state == Completed && t.deliveries == s.deliveries && OnlyTouches(s, t, id)
            && if |items| == 1 then v in t.workers && t.workers[v] == Idle else InHandOf(cfg, t, v, items[1..], NotStarted)
  {
    hide NextRetryAt;
    assert Doable(cfg, s, items[0].id);
    assert forall i :: 0 <= i < |items| - 1 ==> items[1..][i] == items[i + 1];
  }

  /** One job after the other: the first of the batch is done, the rest still to do. */
  lemma FirstIsDone(cfg: Config, events: seq<Event>, v: nat, items: seq<Item>) returns (more: seq<Event>)
    requires InHandOf(cfg, Execution(cfg, events), v, items, NotStarted)
    ensures var s, t := Execution(cfg, events), Execution(cfg, events + more);
            && Done(t, items[0].id) && OnlyTouches(s, t, items[0].id)
            && if |items| == 1 then v in t.workers && t.workers[v] == Idle else InHandOf(cfg, t, v, items[1..], NotStarted)
  {
    hide Do, Execution, Enabled;
    var work := [BeginJob(v), BeginHandler(v), Handle(v, Succeeds)];
    ExtendByThree(cfg, events, BeginJob(v), BeginHandler(v), Handle(v, Succeeds));
    HandlingSucceeds(cfg, Execution(cfg, events), v, items);
    Extend(cfg, events + work, Finish(v));
    FinishingCompletes(cfg, Execution(cfg, events + work), v, items, Execution(cfg, events).clock);
    more := work + [Finish(v)];
    assert events + work + [Finish(v)] == events + more;
  }

  ghost predicate DoneBy(cfg: Config, events: seq<Event>, more: seq<Event>, id: nat) {
    var s, t := Execution(cfg, events), Execution(cfg, events + more);
    && id in s.jobs && id in t.jobs && t.jobs[id].state == Completed && t.jobs[id].attempts == s.jobs[id].attempts + 1
    && (s.jobs[id].webhook ==> id in t.deliveries && t.deliveries[id].status == Delivered)
  }

  /** One tick of an idle worker completes a job within its reach. */
  lemma OneTickDoesIt(cfg: Config, events: seq<Event>, v: nat, id: nat) returns (more: seq<Event>)
    requires WithinReach(cfg, Execution(cfg, events), v, id)
    ensures DoneBy(cfg, events, more, id)
  {
    hide Do, Execution, Enabled, WithinReach, Attemptable, InHandOf;
    var s := Execution(cfg, events);
    var reap := [BeginTick(v), Reap(v)];
    ExtendByTwo(cfg, events, BeginTick(v), Reap(v));
    ReachableRow(cfg, s, v, id);
    ReapingGivesItBack(cfg, s, v, id);
    Extend(cfg, events + reap, Claim(v, [id]));
    ClaimingTakesIt(cfg, Execution(cfg, events + reap), v, id);
    var rest := FirstIsDone(cfg, events + reap + [Claim(v, [id])], v, [Item(id, s.jobs[id].attempts + 1)]);
    more := reap + [Claim(v, [id])] + rest;
    assert events + reap + [Claim(v, [id])] + rest == events + more;
  }

  lemma ReachableRow(cfg: Config, s: Queue, v: nat, id: nat)
    requires WithinReach(cfg, s, v, id)
    ensures id in s.jobs && (s.jobs[id].webhook ==> id in s.deliveries)
    ensures Attemptable(cfg, s, id)
  {
  }

  /** No job is lost. In every reachable state, whatever the workers hold and however
    * many have died, a job that is not finished and has an attempt left can still be
    * completed by its next attempt, and its delivery delivered: a lease without an
    * owner runs out, a reaper returns the job, and a worker claims it when it is due. */
  lemma UnfinishedJobsCanComplete(cfg: Config, events: seq<Event>, id: nat)
    requires Attemptable(cfg, Execution(cfg, events), id)
    ensures exists more :: DoneBy(cfg, events, more, id)
  {
    hide Execution, Do, WithinReach, JobSound;
    var s := Execution(cfg, events);
    LeasesAlwaysHold(cfg, events);
    SoundJob(cfg, s, id);
    MirrorAlwaysHolds(cfg, events);
    assert MirrorAt(s, id);
    var stop := EverybodyStops(cfg, events, s.workers.Keys);
    var t := Execution(cfg, events + stop);
    var v := Unused(t.workers.Keys);
    var wait := Wait(cfg, t, t.jobs[id]);
    ExtendByTwo(cfg, events + stop, Advance(wait), Wake(v));
    WaitingBringsItWithinReach(cfg, t, v, id);
    WaitingKeepsRows(cfg, t, wait, v);
    var rest := OneTickDoesIt(cfg, events + stop + [Advance(wait), Wake(v)], v, id);
    assert events + stop + [Advance(wait), Wake(v)] + rest == events + (stop + [Advance(wait), Wake(v)] + rest);
    assert DoneBy(cfg, events, stop + [Advance(wait), Wake(v)] + rest, id);
  }

  lemma WaitingKeepsRows(cfg: Config, s: Queue, wait: nat, v: nat)
    ensures Do(cfg, Do(cfg, s, Advance(wait)), Wake(v)).jobs == s.jobs
  {
  }

  // ------------------------------------------------------------ whole batches

  lemma {:induction false} WorkOff(cfg: Config, events: seq<Event>, v: nat, items: seq<Item>) returns (more: seq<Event>)
    requires InHandOf(cfg, Execution(cfg, events), v, items, NotStarted)
    requires forall i, j :: 0 <= i < j < |items| ==> items[i].id != items[j].id
    ensures var s, t := Execution(cfg, events), Execution(cfg, events + more);
            && (forall i :: 0 <= i < |items| ==> Done(t, items[i].id))
            && (forall id :: id in s.jobs && (forall i :: 0 <= i < |items| ==> items[i].id != id) ==>
                  id in t.jobs && t.jobs[id] == s.jobs[id] && (id in s.deliveries ==> id in t.deliveries && t.deliveries[id] == s.deliveries[id]))
            && v in t.workers && t.workers[v] == Idle
    decreases |items|
  {
    hide Execution, InHandOf;
    assert items != [] by { HasItems(cfg, Execution(cfg, events), v, items); }
    more := FirstIsDone(cfg, events, v, items);
    if |items| > 1 {
      var rest := WorkOff(cfg, events + more, v, items[1..]);
      assert events + more + rest == events + (more + rest);
      assert forall i :: 0 <= i < |items| - 1 ==> items[1..][i] == items[i + 1];
      more := more + rest;
    }
  }

  lemma HasItems(cfg: Config, s: Queue, v: nat, items: seq<Item>)
    requires InHandOf(cfg, s, v, items, NotStarted)
    ensures items != []
  {
  }

  /** In every reachable state a worker that is about to start on a job can complete
    * everything it has in hand, job after job, and is then idle again. */
  lemma BatchesCanBeWorkedOff(cfg: Config, events: seq<Event>, v: nat)
    requires var s := Execution(cfg, events);
             && v in s.workers && s.workers[v].Working? && s.workers[v].stage.NotStarted?
             && (cfg.otherHandlers || forall i :: 0 <= i < |s.workers[v].items| && s.workers[v].items[i].id in s.jobs ==>
                                        s.jobs[s.workers[v].items[i].id].webhook)
    ensures var s := Execution(cfg, events);
            exists more :: var t := Execution(cfg, events + more);
              && (forall i :: 0 <= i < |s.workers[v].items| ==> Done(t, s.workers[v].items[i].id))
              && v in t.workers && t.workers[v] == Idle
  {
    hide Execution;
    var s := Execution(cfg, events);
    LeasesAlwaysHold(cfg, events);
    assert WorkerSound(cfg, s, v);
    AlwaysWired(cfg, events);
    MirrorAlwaysHolds(cfg, events);
    forall i | 0 <= i < |s.workers[v].items| ensures Doable(cfg, s, s.workers[v].items[i].id) {
      assert MirrorAt(s, s.workers[v].items[i].id);
    }
    var more := WorkOff(cfg, events, v, s.workers[v].items);
  }

  /** A write that fails changes no row, and the worker goes on as after one that
    * succeeded: what is lost is left to the reaper. */
  lemma LostWritesLoseNothingElse(cfg: Config, s: Queue, v: nat)
    ensures Enabled(cfg, s, Finish(v)) ==>
              Do(cfg, s, LoseFinish(v)).jobs == s.jobs && Do(cfg, s, LoseFinish(v)).workers == Do(cfg, s, Finish(v)).workers
    ensures Enabled(cfg, s, Reap(v)) ==>
              Do(cfg, s, LoseReap(v)).jobs == s.jobs && Do(cfg, s, LoseReap(v)).workers == Do(cfg, s, Reap(v)).workers
  {
    hide NextRetryAt;
  }
}
