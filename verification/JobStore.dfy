/** The `jobs` table and a worker's tick, as one worker runs them. `JobQueue`
  * interleaves the same statements for many workers. */
module JobStore {
  import opened Prelude
  import opened JobQueue

  /** The earliest of some jobs. */
  lemma {:induction false} EarliestExists(jobs: map<nat, Job>, ids: set<nat>)
    requires ids != {} && ids <= jobs.Keys
    ensures exists id :: id in ids && forall c :: c in ids ==> jobs[id].runAt <= jobs[c].runAt
    decreases |ids|
  {
    var some :| some in ids;
    var rest := ids - {some};
    if rest == {} {
      assert ids == {some};
    } else {
      EarliestExists(jobs, rest);
      var first :| first in rest && forall c :: c in rest ==> jobs[first].runAt <= jobs[c].runAt;
      if jobs[first].runAt <= jobs[some].runAt {
        assert first in ids && forall c :: c in ids ==> jobs[first].runAt <= jobs[c].runAt;
      } else {
        assert some in ids && forall c :: c in ids ==> jobs[some].runAt <= jobs[c].runAt;
      }
    }
  }

  /** Up to `limit` pending jobs whose time has come, and none left out while there is
    * room for it or while a later one is taken. */
  predicate OldestDue(jobs: map<nat, Job>, ids: seq<nat>, limit: nat, now: int) {
    && |ids| <= limit && Distinct(ids)
    && (forall id :: id in ids ==> id in jobs && jobs[id].state == Pending && jobs[id].runAt <= now)
    && (forall id :: id in jobs && jobs[id].state == Pending && jobs[id].runAt <= now && id !in ids ==>
          |ids| == limit && forall c :: c in ids ==> c in jobs && jobs[c].runAt <= jobs[id].runAt)
  }

  /** A leased row: everything else about the job is as it was. */
  predicate Leased(before: Job, after: Job, worker: nat, now: int) {
    && after.state == Running && after.lockedAt == Some(now) && after.lockedBy == Some(worker)
    && after.attempts == before.attempts + 1
    && after == before.(state := after.state, lockedAt := after.lockedAt, lockedBy := after.lockedBy, attempts := after.attempts)
  }

  /** What a reaper makes of a row: a lease taken before the deadline is given up. */
  predicate GivenBack(before: Job, after: Job, deadline: int) {
    if before.state == Running && before.lockedAt.Some? && before.lockedAt.value < deadline then
      && after.state == Pending && after.lockedAt == None && after.lockedBy == None
      && after == before.(state := after.state, lockedAt := after.lockedAt, lockedBy := after.lockedBy)
    else after == before
  }

  /** The waits between attempts: 1 and 5 minutes, half an hour, 2, 6 and 24 hours. */
  const RETRY_WAITS := [60, 300, 1_800, 7_200, 21_600, 86_400]

  /** A row after its `attempts`-th attempt: done, dead, or pending again once the
    * wait for that attempt, counted from when it started, is over. */
  predicate EndsAs(before: Job, after: Job, outcome: Outcome, attempts: nat, startedAt: int) {
    && after == before.(state := after.state, runAt := after.runAt, lockedAt := None, lockedBy := None, attempts := after.attempts)
    && match outcome
       case Succeeds => after.state == Completed && after.runAt == before.runAt
       case FailsForGood => after.state == Dead && after.runAt == before.runAt
       case FailsForNow =>
         if 1 <= attempts <= 6 then after.state == Pending && after.runAt == startedAt + RETRY_WAITS[attempts - 1]
         else if attempts >= 7 then after.state == Dead && after.runAt == before.runAt
         else after.state == Pending && after.runAt == startedAt
  }

  lemma FinishedEndsAs(job: Job, outcome: Outcome, attempts: nat, startedAt: int)
    ensures EndsAs(job, Finished(job, outcome, attempts, startedAt), outcome, attempts, startedAt)
    ensures Finished(job, outcome, attempts, startedAt).attempts == job.attempts
  {
  }

  class Store {
    var jobs: map<nat, Job>
    var deliveries: map<nat, Delivery>

    constructor ()
      ensures jobs == map[] && deliveries == map[]
    {
      jobs, deliveries := map[], map[];
    }

    method Enqueue(id: nat, webhook: bool, runAt: int, maxAttempts: nat)
      modifies this`jobs
      ensures jobs == old(jobs)[id := Enqueued(webhook, runAt, maxAttempts)]
    {
      jobs := jobs[id := Enqueued(webhook, runAt, maxAttempts)];
    }

    method ReapStaleLeases(before: int) returns (affected: nat)
      modifies this`jobs
      ensures jobs == ReapedJobs(old(jobs), before)
      ensures jobs.Keys == old(jobs).Keys && forall id :: id in jobs ==> GivenBack(old(jobs)[id], jobs[id], before)
      ensures affected == |set id | id in jobs && jobs[id] != old(jobs)[id]|
    {
      var stale := set id | id in jobs && Stale(jobs[id], before);
      affected := |stale|;
      jobs := ReapedJobs(jobs, before);
      assert stale == set id | id in jobs && jobs[id] != old(jobs)[id];
    }

    /** The inner SELECT of the claim: due jobs by `run_at`, up to the limit. */
    method SelectDue(limit: nat, now: int) returns (ids: seq<nat>)
      ensures OldestDue(jobs, ids, limit, now)
    {
      ids := [];
      var left := set id | id in jobs && Claimable(jobs[id], now);
      while |ids| < limit && left != {}
        invariant left <= jobs.Keys && |ids| <= limit && Distinct(ids)
        invariant forall id :: id in jobs && Claimable(jobs[id], now) <==> id in left || id in ids
        invariant forall id :: id in ids ==> id !in left
        invariant forall id, c :: id in left && c in ids ==> jobs[c].runAt <= jobs[id].runAt
        decreases left
      {
        EarliestExists(jobs, left);
        var first :| first in left && forall c :: c in left ==> jobs[first].runAt <= jobs[c].runAt;
        ids, left := ids + [first], left - {first};
      }
    }

    /** `claim_batch`; `None` when the CHECK on attempts refuses the statement. */
    method ClaimBatch(worker: nat, limit: nat, now: int) returns (claimed: Option<seq<Item>>, ghost ids: seq<nat>)
      modifies this`jobs
      ensures OldestDue(old(jobs), ids, limit, now)
      ensures claimed.None? <==> exists id :: id in ids && old(jobs)[id].attempts + 1 > old(jobs)[id].maxAttempts
      ensures claimed.None? ==> jobs == old(jobs)
      ensures claimed.Some? ==> jobs == ClaimedJobs(old(jobs), ids, worker, now) && claimed.value == Items(jobs, ids)
      ensures jobs.Keys == old(jobs).Keys
      ensures claimed.Some? ==> forall id :: id in jobs ==>
                                  if id in ids then Leased(old(jobs)[id], jobs[id], worker, now) else jobs[id] == old(jobs)[id]
    {
      var picked := SelectDue(limit, now);
      ids := picked;
      if exists id :: id in picked && TripsCheck(jobs[id]) {
        return None, ids;
      }
      jobs := ClaimedJobs(jobs, picked, worker, now);
      return Some(Items(jobs, picked)), ids;
    }

    method Complete(id: nat)
      modifies this`jobs
      ensures jobs == if id in old(jobs) then old(jobs)[id := Finished(old(jobs)[id], Succeeds, 0, 0)] else old(jobs)
    {
      if id in jobs {
        jobs := jobs[id := jobs[id].(state := Completed, lockedAt := None, lockedBy := None)];
      }
    }

    method FailAndReschedule(id: nat, retryAt: Option<int>)
      modifies this`jobs
      ensures id !in old(jobs) ==> jobs == old(jobs)
      ensures id in old(jobs) ==>
                && jobs.Keys == old(jobs).Keys && (forall other :: other in jobs && other != id ==> jobs[other] == old(jobs)[other])
                && jobs[id] == old(jobs)[id].(lockedAt := None, lockedBy := None, state := if retryAt.Some? then Pending else Dead,
                                              runAt := if retryAt.Some? then retryAt.value else old(jobs)[id].runAt)
    {
      if id in jobs {
        var job := jobs[id].(lockedAt := None, lockedBy := None);
        match retryAt {
          case Some(at) => jobs := jobs[id := job.(state := Pending, runAt := at)];
          case None => jobs := jobs[id := job.(state := Dead)];
        }
      }
    }

    /** The webhook handler's writes after a send. */
    method Deliver(id: nat, outcome: Outcome, now: int)
      requires id in deliveries
      modifies this`deliveries
      ensures deliveries == old(deliveries)[id := Recorded(old(deliveries)[id].attempt, outcome, now)]
      ensures var attempt, d := old(deliveries)[id].attempt, deliveries[id];
              && (outcome.Succeeds? ==> d == Delivery(attempt, Delivered, None))
              && (outcome.FailsForGood? || (outcome.FailsForNow? && attempt >= 7) ==> d == Delivery(attempt, GivenUp, None))
              && (outcome.FailsForNow? && 1 <= attempt <= 6 ==> d == Delivery(attempt + 1, Failed, Some(now + RETRY_WAITS[attempt - 1])))
    {
      var d := deliveries[id];
      match outcome {
        case Succeeds => deliveries := deliveries[id := Delivery(d.attempt, Delivered, None)];
        case FailsForGood => deliveries := deliveries[id := Delivery(d.attempt, GivenUp, None)];
        case FailsForNow =>
          var next := NextRetryAt(d.attempt, now);
          var status, attempt := if next.Some? then Failed else GivenUp, if next.Some? then d.attempt + 1 else d.attempt;
          deliveries := deliveries[id := Delivery(attempt, status, next)];
      }
    }

    /** `execute`: run the handler, then record what became of the job. */
    method Execute(item: Item, outcome: Outcome, startedAt: int)
      requires item.id in jobs
      modifies this`jobs
      ensures jobs == old(jobs)[item.id := Finished(old(jobs)[item.id], outcome, item.attempts, startedAt)]
      ensures EndsAs(old(jobs)[item.id], jobs[item.id], outcome, item.attempts, startedAt)
      ensures jobs[item.id].attempts == old(jobs)[item.id].attempts
    {
      FinishedEndsAs(jobs[item.id], outcome, item.attempts, startedAt);
      match outcome {
        case Succeeds => Complete(item.id);
        case FailsForGood => FailAndReschedule(item.id, None);
        case FailsForNow => FailAndReschedule(item.id, NextRetryAt(item.attempts, startedAt));
      }
    }

    /** The loop over a claimed batch: each job once, as its handler decided. */
    method ExecuteAll(items: seq<Item>, startedAt: nat -> int, outcomes: nat -> Outcome)
      requires forall i :: 0 <= i < |items| ==> items[i].id in jobs && jobs[items[i].id].attempts == items[i].attempts
      requires forall i, j :: 0 <= i < j < |items| ==> items[i].id != items[j].id
      modifies this`jobs
      ensures jobs == ExecutedJobs(old(jobs), ItemIds(items), startedAt, outcomes)
    {
      hide Finished;
      ghost var before, done := jobs, {};
      for i := 0 to |items|
        invariant done == ItemIds(items[..i])
        invariant jobs == ExecutedJobs(before, done, startedAt, outcomes)
      {
        OneMoreItem(items, i);
        Execute(items[i], outcomes(items[i].id), startedAt(items[i].id));
        done := done + {items[i].id};
      }
      assert items[..|items|] == items;
    }

    /** `tick`: reap, claim, then execute the batch. It leaves every claimed job as
      * its handler decided and every other job as the reaper left it; what it
      * claimed are the oldest due jobs, unless the CHECK refused them all. */
    method Tick(worker: nat, batch: nat, lease: nat, now: int, startedAt: nat -> int, outcomes: nat -> Outcome)
      returns (claimed: bool, ghost ids: seq<nat>)
      modifies this`jobs
      ensures OldestDue(ReapedJobs(old(jobs), now - lease), ids, batch, now)
      ensures claimed <==> forall id :: id in ids ==> old(jobs)[id].attempts < old(jobs)[id].maxAttempts
      ensures var reaped := ReapedJobs(old(jobs), now - lease);
              jobs == if claimed then ExecutedJobs(ClaimedJobs(reaped, ids, worker, now), Members(ids), startedAt, outcomes) else reaped
      ensures TickDid(old(jobs), jobs, claimed, ids, now - lease, startedAt, outcomes)
    {
      hide *;
      var _ := ReapStaleLeases(now - lease);
      ghost var before, reaped := old(jobs), jobs;
      ReapingKeepsAttempts(before, now - lease);
      var batchItems;
      batchItems, ids := ClaimBatch(worker, batch, now);
      if batchItems.None? {
        ReapedTick(before, worker, now - lease, now, ids, startedAt, outcomes);
        return false, ids;
      }
      var items := batchItems.value;
      ClaimedItems(reaped, ids, batch, worker, now);
      ExecuteAll(items, startedAt, outcomes);
      ReapedTick(before, worker, now - lease, now, ids, startedAt, outcomes);
      return true, ids;
    }
  }

  /** A tick, row by row: a claimed job ends its next attempt as its handler decided,
    * and the reaper alone has touched any other. */
  predicate TickDid(before: map<nat, Job>, after: map<nat, Job>, claimed: bool, ids: seq<nat>, deadline: int,
                    startedAt: nat -> int, outcomes: nat -> Outcome)
  {
    after.Keys == before.Keys
    && forall id :: id in before ==>
         if claimed && id in ids then
           && after[id].attempts == before[id].attempts + 1
           && EndsAs(before[id], after[id], outcomes(id), after[id].attempts, startedAt(id))
         else GivenBack(before[id], after[id], deadline)
  }

  lemma ReapingKeepsAttempts(jobs: map<nat, Job>, deadline: int)
    ensures var reaped := ReapedJobs(jobs, deadline);
            && reaped.Keys == jobs.Keys
            && forall id :: id in jobs ==> reaped[id].attempts == jobs[id].attempts && reaped[id].maxAttempts == jobs[id].maxAttempts
  {
  }

  lemma ReapedTick(jobs: map<nat, Job>, worker: nat, deadline: int, now: int, ids: seq<nat>,
                   startedAt: nat -> int, outcomes: nat -> Outcome)
    ensures var reaped := ReapedJobs(jobs, deadline);
            var executed := ExecutedJobs(ClaimedJobs(reaped, ids, worker, now), Members(ids), startedAt, outcomes);
            && TickDid(jobs, reaped, false, ids, deadline, startedAt, outcomes)
            && TickDid(jobs, executed, true, ids, deadline, startedAt, outcomes)
  {
    hide Finished, EndsAs;
    var claimed := ClaimedJobs(ReapedJobs(jobs, deadline), ids, worker, now);
    forall id | id in jobs && id in ids
      ensures EndsAs(jobs[id], Finished(claimed[id], outcomes(id), claimed[id].attempts, startedAt(id)), outcomes(id),
                     jobs[id].attempts + 1, startedAt(id))
      ensures Finished(claimed[id], outcomes(id), claimed[id].attempts, startedAt(id)).attempts == jobs[id].attempts + 1
    {
      FinishedEndsAs(claimed[id], outcomes(id), claimed[id].attempts, startedAt(id));
      SameExceptLease(jobs[id], claimed[id], Finished(claimed[id], outcomes(id), claimed[id].attempts, startedAt(id)),
                      outcomes(id), startedAt(id));
    }
  }

  lemma SameExceptLease(before: Job, claimed: Job, after: Job, outcome: Outcome, startedAt: int)
    requires claimed.(state := before.state, lockedAt := before.lockedAt, lockedBy := before.lockedBy, attempts := before.attempts) == before
    requires EndsAs(claimed, after, outcome, claimed.attempts, startedAt)
    ensures EndsAs(before, after, outcome, claimed.attempts, startedAt)
  {
  }

  function Members(ids: seq<nat>): set<nat> {
    set id | id in ids
  }

  function ItemIds(items: seq<Item>): set<nat> {
    set i | 0 <= i < |items| :: items[i].id
  }

  lemma OneMoreItem(items: seq<Item>, i: nat)
    requires i < |items| && forall k, j :: 0 <= k < j < |items| ==> items[k].id != items[j].id
    ensures ItemIds(items[..i + 1]) == ItemIds(items[..i]) + {items[i].id} && items[i].id !in ItemIds(items[..i])
  {
  }

  lemma ClaimedItems(jobs: map<nat, Job>, ids: seq<nat>, limit: nat, worker: nat, now: int)
    requires OldestDue(jobs, ids, limit, now)
    ensures var claimed := ClaimedJobs(jobs, ids, worker, now);
            && (forall id :: id in ids ==> id in claimed)
            && var items := Items(claimed, ids);
            && (forall i :: 0 <= i < |items| ==> items[i].id in claimed && claimed[items[i].id].attempts == items[i].attempts)
            && (forall i, j :: 0 <= i < j < |items| ==> items[i].id != items[j].id)
            && ItemIds(items) == Members(ids)
  {
    var claimed := ClaimedJobs(jobs, ids, worker, now);
    var items := Items(claimed, ids);
    forall i | 0 <= i < |ids| ensures items[i] == Item(ids[i], claimed[ids[i]].attempts) {
      assert ids[i] in ids;
    }
    forall id ensures id in ItemIds(items) <==> id in Members(ids) {
      if id in ids {
        var i :| 0 <= i < |ids| && ids[i] == id;
        assert items[i].id == id;
      }
    }
  }

  function ExecutedJobs(jobs: map<nat, Job>, ids: set<nat>, startedAt: nat -> int, outcomes: nat -> Outcome): map<nat, Job> {
    map id | id in jobs :: if id in ids then Finished(jobs[id], outcomes(id), jobs[id].attempts, startedAt(id)) else jobs[id]
  }
}
