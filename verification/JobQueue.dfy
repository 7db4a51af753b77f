/** The job queue and the webhook delivery rows that mirror it:
  * `crates/store/src/job.rs`, `crates/queue/worker.rs`, `crates/queue/scheduler.rs`
  * and `crates/webhooks/worker.rs`, with any number of workers that tick, claim,
  * execute, reschedule, die and get reaped on one advancing clock. */
module JobQueue {
  import opened Prelude

  // --------------------------------------------------------------- scheduler

  const LADDER := [60, 300, 1_800, 7_200, 21_600, 86_400]
  const MAX_ATTEMPTS := 7

  /** When to run again after `attempts` attempts; `None` when the ladder is used up. */
  function NextRetryAt(attempts: nat, now: int): (r: Option<int>)
    ensures r.Some? <==> attempts < MAX_ATTEMPTS
    ensures r.Some? ==> r.value >= now
  {
    if attempts < 1 then Some(now)
    else if attempts - 1 < |LADDER| then Some(now + LADDER[attempts - 1])
    else None
  }

  // -------------------------------------------------------------------- rows

  datatype JobState = Pending | Running | Completed | Dead

  /** A row of `jobs`. `runs` counts the executions begun, those cut
    * off by a crash included; no statement reads it. */
  datatype Job = Job(
    webhook: bool, state: JobState, runAt: int, attempts: nat, maxAttempts: nat,
    lockedAt: Option<int>, lockedBy: Option<nat>, runs: nat)

  datatype DeliveryStatus = Waiting | Delivered | Failed | GivenUp

  /** A row of `webhook_deliveries`, under the number of its one job. */
  datatype Delivery = Delivery(attempt: nat, status: DeliveryStatus, nextRetryAt: Option<int>)

  // -------------------------------------------------------------- statements

  function Enqueued(webhook: bool, runAt: int, maxAttempts: nat): Job {
    Job(webhook, Pending, runAt, 0, maxAttempts, None, None, 0)
  }

  predicate Claimable(job: Job, now: int) {
    job.state == Pending && job.runAt <= now
  }

  /** The table's CHECK on attempts, violated by claiming an exhausted job. */
  predicate TripsCheck(job: Job) {
    job.attempts + 1 > job.maxAttempts
  }

  function Claimed(job: Job, worker: nat, now: int): Job {
    job.(state := Running, lockedAt := Some(now), lockedBy := Some(worker), attempts := job.attempts + 1)
  }

  /** `complete` and `fail_and_reschedule`: keyed on the job id alone. */
  function Finished(job: Job, outcome: Outcome, attempts: nat, now: int): Job {
    var free := job.(lockedAt := None, lockedBy := None);
    match outcome
    case Succeeds => free.(state := Completed)
    case FailsForGood => free.(state := Dead)
    case FailsForNow =>
      match NextRetryAt(attempts, now)
      case Some(at) => free.(state := Pending, runAt := at)
      case None => free.(state := Dead)
  }

  predicate Stale(job: Job, before: int) {
    job.state == Running && job.lockedAt.Some? && job.lockedAt.value < before
  }

  function Reaped(job: Job): Job {
    job.(state := Pending, lockedAt := None, lockedBy := None)
  }

  /** What the handler writes to the delivery row, from the attempt it read there. */
  function Recorded(attempt: nat, outcome: Outcome, now: int): Delivery {
    match outcome
    case Succeeds => Delivery(attempt, Delivered, None)
    case FailsForGood => Delivery(attempt, GivenUp, None)
    case FailsForNow =>
      match NextRetryAt(attempt, now)
      case Some(at) => Delivery(attempt + 1, Failed, Some(at))
      case None => Delivery(attempt, GivenUp, None)
  }

  // ------------------------------------------------------------- the machine

  /** A webhook handler delivers, fails for now, or finds its endpoint disabled. */
  datatype Outcome = Succeeds | FailsForNow | FailsForGood

  /** A claimed job as the worker holds it, with the attempts it was handed. */
  datatype Item = Item(id: nat, attempts: nat)

  /** How far the first item is: the worker has read the clock for it, its handler
    * has read the clock and the delivery row, or the handler has returned. */
  datatype Stage =
    | NotStarted
    | Started(startedAt: int)
    | Sending(startedAt: int, handledAt: int, attempt: nat)
    | Handled(startedAt: int, handledAt: int, outcome: Outcome)

  datatype Phase =
    | Idle
    | Reaping(now: int)
    | Claiming(now: int)
    | Working(claimedAt: int, deadline: int, items: seq<Item>, stage: Stage)
    | Crashed

  /** The clock as the worker and then its handler read it for one attempt. */
  datatype Readings = Readings(startedAt: int, handledAt: int)

  /** `reaped` and `reapedAtMax` remember jobs that a reaper returned, and those
    * it returned with no attempt left; `readings` remembers each job's last
    * attempt. No step below reads them. */
  datatype Queue = Queue(
    clock: int, jobs: map<nat, Job>, deliveries: map<nat, Delivery>, workers: map<nat, Phase>,
    reaped: set<nat>, reapedAtMax: set<nat>, readings: map<nat, Readings>)

  const EMPTY := Queue(0, map[], map[], map[], {}, {}, map[])

  /** `setup` bounds the time from reading the clock to a committed claim, and
    * `perJob` the time one claimed job takes. `otherHandlers` says whether a handler
    * is registered for jobs that are not webhooks; the server registers none. */
  datatype Config = Config(batch: nat, lease: nat, setup: nat, perJob: nat, otherHandlers: bool)

  datatype Event =
    | Enqueue(added: set<nat>, runAt: int, maxAttempts: nat)
    | EnqueueWebhooks(added: set<nat>, now: int)
    | Wake(worker: nat)
    | BeginTick(worker: nat)
    | Reap(worker: nat)
    | LoseReap(worker: nat)
    | Claim(worker: nat, ids: seq<nat>)
    | BeginJob(worker: nat)
    | BeginHandler(worker: nat)
    | Handle(worker: nat, outcome: Outcome)
    | Finish(worker: nat)
    | LoseFinish(worker: nat)
    | Crash(worker: nat)
    | Advance(elapsed: nat)

  predicate Distinct(ids: seq<nat>) {
    forall i, j :: 0 <= i < j < |ids| ==> ids[i] != ids[j]
  }

  predicate InTime(cfg: Config, phase: Phase, clock: int) {
    match phase
    case Reaping(now) => clock <= now + cfg.setup
    case Claiming(now) => clock <= now + cfg.setup
    case Working(_, deadline, _, _) => clock <= deadline
    case _ => true
  }

  predicate AtWork(s: Queue, w: nat) {
    w in s.workers && s.workers[w].Working? && s.workers[w].items != [] && s.workers[w].items[0].id in s.jobs
  }

  predicate RowExists(s: Queue, w: nat)
    requires AtWork(s, w)
  {
    var id := s.workers[w].items[0].id;
    s.jobs[id].webhook ==> id in s.deliveries
  }

  /** A job without a registered handler fails for good. */
  predicate MayEnd(cfg: Config, job: Job, outcome: Outcome) {
    job.webhook || cfg.otherHandlers || outcome == FailsForGood
  }

  /** A claim may pick any of the due jobs, up to the batch size. The reap and the
    * write that ends a job may fail, which the worker only logs. */
  predicate Enabled(cfg: Config, s: Queue, e: Event) {
    match e
    case Enqueue(added, _, _) => added !! s.jobs.Keys
    case EnqueueWebhooks(added, _) => added !! s.jobs.Keys
    case Wake(w) => w !in s.workers
    case BeginTick(w) => w in s.workers && s.workers[w].Idle?
    case Reap(w) => w in s.workers && s.workers[w].Reaping?
    case LoseReap(w) => w in s.workers && s.workers[w].Reaping?
    case Claim(w, ids) =>
      && w in s.workers && s.workers[w].Claiming? && |ids| <= cfg.batch && Distinct(ids)
      && forall id :: id in ids ==> id in s.jobs && Claimable(s.jobs[id], s.workers[w].now)
    case BeginJob(w) => AtWork(s, w) && s.workers[w].stage.NotStarted?
    case BeginHandler(w) => AtWork(s, w) && s.workers[w].stage.Started? && RowExists(s, w)
    case Handle(w, outcome) =>
      AtWork(s, w) && s.workers[w].stage.Sending? && RowExists(s, w) && MayEnd(cfg, s.jobs[s.workers[w].items[0].id], outcome)
    case Finish(w) => AtWork(s, w) && s.workers[w].stage.Handled?
    case LoseFinish(w) => AtWork(s, w) && s.workers[w].stage.Handled?
    case Crash(w) => w in s.workers
    case Advance(elapsed) => forall w :: w in s.workers ==> InTime(cfg, s.workers[w], s.clock + elapsed)
  }

  function At(s: Queue, w: nat, phase: Phase): Queue {
    s.(workers := s.workers[w := phase])
  }

  function NextItem(x: Phase): Phase
    requires x.Working? && x.items != []
  {
    var rest := x.items[1..];
    if rest == [] then Idle else x.(items := rest, stage := NotStarted)
  }

  function ReapedJobs(jobs: map<nat, Job>, before: int): map<nat, Job> {
    map id | id in jobs :: if Stale(jobs[id], before) then Reaped(jobs[id]) else jobs[id]
  }

  function ClaimedJobs(jobs: map<nat, Job>, ids: seq<nat>, w: nat, now: int): map<nat, Job> {
    map id | id in jobs :: if id in ids then Claimed(jobs[id], w, now) else jobs[id]
  }

  function Items(jobs: map<nat, Job>, ids: seq<nat>): seq<Item>
    requires forall id :: id in ids ==> id in jobs
  {
    seq(|ids|, i requires 0 <= i < |ids| => assert ids[i] in ids; Item(ids[i], jobs[ids[i]].attempts))
  }

  function Do(cfg: Config, s: Queue, e: Event): Queue {
    if !Enabled(cfg, s, e) then s
    else match e
      case Enqueue(added, runAt, maxAttempts) =>
        s.(jobs := s.jobs + map id | id in added :: Enqueued(false, runAt, maxAttempts))
      case EnqueueWebhooks(added, now) =>
        s.(jobs := s.jobs + (map id | id in added :: Enqueued(true, now, MAX_ATTEMPTS)),
           deliveries := s.deliveries + map id | id in added :: Delivery(1, Waiting, Some(now)))
      case Wake(w) => At(s, w, Idle)
      case BeginTick(w) => At(s, w, Reaping(s.clock))
      case Reap(w) =>
        var before := s.workers[w].now - cfg.lease;
        var stale := set id | id in s.jobs && Stale(s.jobs[id], before);
        At(s, w, Claiming(s.workers[w].now)).(
          jobs := ReapedJobs(s.jobs, before), reaped := s.reaped + stale,
          reapedAtMax := s.reapedAtMax + set id | id in stale && TripsCheck(s.jobs[id]))
      case LoseReap(w) => At(s, w, Claiming(s.workers[w].now))
      case Claim(w, ids) =>
        var now := s.workers[w].now;
        if ids == [] || exists id :: id in ids && TripsCheck(s.jobs[id]) then At(s, w, Idle)
        else
          var jobs := ClaimedJobs(s.jobs, ids, w, now);
          At(s, w, Working(now, now + cfg.setup + |ids| * cfg.perJob, Items(jobs, ids), NotStarted)).(jobs := jobs)
      case BeginJob(w) =>
        var x, id := s.workers[w], s.workers[w].items[0].id;
        At(s, w, x.(stage := Started(s.clock))).(jobs := s.jobs[id := s.jobs[id].(runs := s.jobs[id].runs + 1)])
      case BeginHandler(w) =>
        var x, id := s.workers[w], s.workers[w].items[0].id;
        var attempt := if s.jobs[id].webhook then s.deliveries[id].attempt else 0;
        At(s, w, x.(stage := Sending(x.stage.startedAt, s.clock, attempt)))
      case Handle(w, outcome) =>
        var x, id := s.workers[w], s.workers[w].items[0].id;
        var startedAt, handledAt := x.stage.startedAt, x.stage.handledAt;
        At(s, w, x.(stage := Handled(startedAt, handledAt, outcome))).(
          readings := s.readings[id := Readings(startedAt, handledAt)],
          deliveries := if s.jobs[id].webhook then s.deliveries[id := Recorded(x.stage.attempt, outcome, handledAt)] else s.deliveries)
      case LoseFinish(w) => At(s, w, NextItem(s.workers[w]))
      case Finish(w) =>
        var x, item := s.workers[w], s.workers[w].items[0];
        At(s, w, NextItem(x)).(
          jobs := s.jobs[item.id := Finished(s.jobs[item.id], x.stage.outcome, item.attempts, x.stage.startedAt)])
      case Crash(w) => At(s, w, Crashed)
      case Advance(elapsed) => s.(clock := s.clock + elapsed)
  }

  function Execution(cfg: Config, events: seq<Event>): Queue {
    if events == [] then EMPTY else Do(cfg, Execution(cfg, events[..|events| - 1]), events[|events| - 1])
  }

  // -------------------------------------------------------------- invariants

  /** A whole batch, executed one job after another, ends within the lease. */
  predicate LeaseCoversBatch(cfg: Config) {
    cfg.batch == 0 || cfg.setup + cfg.batch * cfg.perJob <= cfg.lease
  }

  /** Jobs whose claim nobody can take away: all of them when batches fit into
    * the lease, and otherwise those no reaper has returned so far. */
  predicate Protected(cfg: Config, s: Queue, id: nat) {
    LeaseCoversBatch(cfg) || id !in s.reaped
  }

  predicate JobSound(job: Job) {
    && job.attempts <= job.maxAttempts
    && (job.webhook ==> job.maxAttempts == MAX_ATTEMPTS)
    && (job.state == Running <==> job.lockedAt.Some?) && (job.state == Running <==> job.lockedBy.Some?)
    && (job.state == Running ==> job.attempts >= 1)
  }

  predicate JobSoundAt(cfg: Config, s: Queue, id: nat)
    requires id in s.jobs
  {
    JobSound(s.jobs[id]) && (Protected(cfg, s, id) ==> s.jobs[id].runs <= s.jobs[id].attempts)
  }

  predicate JobsSound(cfg: Config, s: Queue) {
    forall id :: id in s.jobs ==> JobSoundAt(cfg, s, id)
  }

  /** The row behind an item: running, leased to this worker, and not
    * executed for this attempt unless the worker has begun it. */
  predicate ItemSound(s: Queue, w: nat, claimedAt: int, item: Item, begun: bool) {
    && item.id in s.jobs
    && var job := s.jobs[item.id];
    && job.state == Running && job.lockedBy == Some(w) && job.lockedAt == Some(claimedAt)
    && job.attempts == item.attempts
    && (!begun ==> job.runs < job.attempts)
  }

  predicate WorkerSound(cfg: Config, s: Queue, w: nat)
    requires w in s.workers
  {
    match s.workers[w]
    case Reaping(now) => now <= s.clock
    case Claiming(now) => now <= s.clock
    case Working(claimedAt, deadline, items, stage) =>
      && claimedAt <= s.clock <= deadline && (LeaseCoversBatch(cfg) ==> deadline <= claimedAt + cfg.lease) && items != []
      && (forall i, j :: 0 <= i < j < |items| ==> items[i].id != items[j].id)
      && (forall i :: 0 <= i < |items| && Protected(cfg, s, items[i].id) ==>
            ItemSound(s, w, claimedAt, items[i], i == 0 && !stage.NotStarted?))
      && (stage.Started? ==> stage.startedAt <= s.clock)
      && (stage.Sending? || stage.Handled? ==> stage.startedAt <= stage.handledAt <= s.clock)
    case _ => true
  }

  predicate InBounds(cfg: Config, s: Queue) {
    forall w :: w in s.workers ==> InTime(cfg, s.workers[w], s.clock)
  }

  predicate WorkersSound(cfg: Config, s: Queue) {
    forall w :: w in s.workers ==> WorkerSound(cfg, s, w)
  }

  predicate LeasesHold(cfg: Config, s: Queue) {
    JobsSound(cfg, s) && InBounds(cfg, s) && WorkersSound(cfg, s)
  }

  lemma JobsKept(cfg: Config, s: Queue, e: Event)
    requires LeasesHold(cfg, s)
    ensures JobsSound(cfg, Do(cfg, s, e))
  {
    hide JobSoundAt, InBounds, WorkersSound;
    var next := Do(cfg, s, e);
    forall id | id in next.jobs ensures JobSoundAt(cfg, next, id) {
      JobKept(cfg, s, e, id);
    }
  }

  /** The ways a step can change one row. */
  predicate RowStep(cfg: Config, s: Queue, e: Event, id: nat, after: Job)
    requires id in s.jobs
  {
    var before := s.jobs[id];
    || after == before
    || (e.Claim? && e.worker in s.workers && s.workers[e.worker].Claiming?
        && var now := s.workers[e.worker].now;
           cfg.batch > 0 && Claimable(before, now) && !TripsCheck(before) && after == Claimed(before, e.worker, now))
    || (e.Reap? && e.worker in s.workers && s.workers[e.worker].Reaping?
        && var stale := s.workers[e.worker].now - cfg.lease;
           Stale(before, stale) && after == Reaped(before))
    || (AtHead(s, e, id) && e.BeginJob? && s.workers[e.worker].stage.NotStarted? && after == before.(runs := before.runs + 1))
    || (AtHead(s, e, id) && e.Finish? && s.workers[e.worker].stage.Handled?
        && var x := s.workers[e.worker];
           after == Finished(before, x.stage.outcome, x.items[0].attempts, x.stage.startedAt))
  }

  predicate OnHead(e: Event) {
    e.BeginJob? || e.BeginHandler? || e.Handle? || e.Finish?
  }

  predicate AtHead(s: Queue, e: Event, id: nat) {
    && OnHead(e) && e.worker in s.workers && s.workers[e.worker].Working?
    && s.workers[e.worker].items != [] && s.workers[e.worker].items[0].id == id
  }

  lemma StepsAreRowSteps(cfg: Config, s: Queue, e: Event, id: nat)
    requires id in Do(cfg, s, e).jobs
    ensures id in s.jobs ==> RowStep(cfg, s, e, id, Do(cfg, s, e).jobs[id])
    ensures id !in s.jobs ==>
              || (e.Enqueue? && Do(cfg, s, e).jobs[id] == Enqueued(false, e.runAt, e.maxAttempts))
              || (e.EnqueueWebhooks? && Do(cfg, s, e).jobs[id] == Enqueued(true, e.now, MAX_ATTEMPTS))
  {
  }

  lemma RowsRemain(cfg: Config, s: Queue, e: Event)
    ensures s.jobs.Keys <= Do(cfg, s, e).jobs.Keys
  {
  }

  lemma JobKept(cfg: Config, s: Queue, e: Event, id: nat)
    requires LeasesHold(cfg, s) && id in Do(cfg, s, e).jobs
    ensures JobSoundAt(cfg, Do(cfg, s, e), id)
  {
    hide Do, Enabled, JobSound, WorkerSound, InBounds;
    JobStaysSound(cfg, s, e, id);
    StepsAreRowSteps(cfg, s, e, id);
    assert id in s.jobs ==> JobSoundAt(cfg, s, id);
    if Protected(cfg, Do(cfg, s, e), id) {
      ProtectedBefore(cfg, s, e, id);
      if AtHead(s, e, id) {
        HeadItem(cfg, s, e.worker);
      }
    }
  }

  lemma JobStaysSound(cfg: Config, s: Queue, e: Event, id: nat)
    requires JobsSound(cfg, s) && id in Do(cfg, s, e).jobs
    ensures JobSound(Do(cfg, s, e).jobs[id])
  {
    hide Do, Enabled, Protected;
    StepsAreRowSteps(cfg, s, e, id);
    assert id in s.jobs ==> JobSoundAt(cfg, s, id);
  }

  lemma HeadItem(cfg: Config, s: Queue, w: nat)
    requires WorkersSound(cfg, s) && w in s.workers && s.workers[w].Working?
    ensures s.workers[w].items != []
    ensures Protected(cfg, s, s.workers[w].items[0].id) ==>
              ItemSound(s, w, s.workers[w].claimedAt, s.workers[w].items[0], !s.workers[w].stage.NotStarted?)
  {
    assert WorkerSound(cfg, s, w);
  }

  /** The reaper's notes record exactly the rows it returned. */
  lemma ReapedGrows(cfg: Config, s: Queue, e: Event, id: nat)
    ensures var next := Do(cfg, s, e);
            && (id in next.reaped <==> id in s.reaped || (id in s.jobs && IsReaped(cfg, s, e, s.jobs[id])))
            && (id in next.reapedAtMax <==>
                  id in s.reapedAtMax || (id in s.jobs && IsReaped(cfg, s, e, s.jobs[id]) && TripsCheck(s.jobs[id])))
    ensures id in s.jobs && IsReaped(cfg, s, e, s.jobs[id]) ==> Do(cfg, s, e).jobs[id] == Reaped(s.jobs[id])
  {
  }

  predicate IsReaped(cfg: Config, s: Queue, e: Event, job: Job) {
    e.Reap? && e.worker in s.workers && s.workers[e.worker].Reaping? && Stale(job, s.workers[e.worker].now - cfg.lease)
  }

  lemma BoundsKept(cfg: Config, s: Queue, e: Event)
    requires LeasesHold(cfg, s)
    ensures InBounds(cfg, Do(cfg, s, e))
  {
    hide JobSound, ItemSound;
    if Enabled(cfg, s, e) && e.Claim? {
      BatchTime(cfg, |e.ids|);
    }
  }

  lemma BatchTime(cfg: Config, n: nat)
    ensures n * cfg.perJob >= 0
    ensures 1 <= n <= cfg.batch && LeaseCoversBatch(cfg) ==> cfg.setup + n * cfg.perJob <= cfg.lease
  {
  }

  /** Nothing but its own worker touches a protected job while that worker lives. */
  lemma ItemKept(cfg: Config, s: Queue, e: Event, v: nat, claimedAt: int, item: Item, begun: bool)
    requires LeasesHold(cfg, s) && ItemSound(s, v, claimedAt, item, begun)
    requires Protected(cfg, Do(cfg, s, e), item.id) && (LeaseCoversBatch(cfg) ==> s.clock <= claimedAt + cfg.lease)
    requires (e.BeginJob? || e.Finish?) && e.worker == v ==>
               v in s.workers && s.workers[v].Working? && (s.workers[v].items != [] ==> s.workers[v].items[0].id != item.id)
    ensures ItemSound(Do(cfg, s, e), v, claimedAt, item, begun)
  {
    hide JobSound, InTime, Do, Enabled;
    RowsRemain(cfg, s, e);
    StepsAreRowSteps(cfg, s, e, item.id);
    ReapedGrows(cfg, s, e, item.id);
    if AtHead(s, e, item.id) {
      HeadItem(cfg, s, e.worker);
    }
    if e.Reap? && e.worker in s.workers {
      assert WorkerSound(cfg, s, e.worker);
    }
  }

  lemma ProtectedBefore(cfg: Config, s: Queue, e: Event, id: nat)
    requires Protected(cfg, Do(cfg, s, e), id)
    ensures Protected(cfg, s, id)
  {
    ReapedGrows(cfg, s, e, id);
  }

  /** All the items a worker keeps through a step that does not act on them. */
  lemma ItemsKept(cfg: Config, s: Queue, e: Event, v: nat, from: nat)
    requires LeasesHold(cfg, s) && v in s.workers && s.workers[v].Working? && from <= |s.workers[v].items|
    requires (e.BeginJob? || e.Finish?) && e.worker == v ==> from >= 1
    ensures var x := s.workers[v];
            forall i :: from <= i < |x.items| && Protected(cfg, Do(cfg, s, e), x.items[i].id) ==>
              ItemSound(Do(cfg, s, e), v, x.claimedAt, x.items[i], i == 0 && !x.stage.NotStarted?)
  {
    hide JobSound, ItemSound, Do, InBounds;
    var x := s.workers[v];
    assert WorkerSound(cfg, s, v);
    forall i | from <= i < |x.items| && Protected(cfg, Do(cfg, s, e), x.items[i].id)
      ensures ItemSound(Do(cfg, s, e), v, x.claimedAt, x.items[i], i == 0 && !x.stage.NotStarted?)
    {
      ProtectedBefore(cfg, s, e, x.items[i].id);
      ItemKept(cfg, s, e, v, x.claimedAt, x.items[i], i == 0 && !x.stage.NotStarted?);
    }
  }

  lemma BystanderKept(cfg: Config, s: Queue, e: Event, v: nat)
    requires LeasesHold(cfg, s) && v in s.workers && v in Do(cfg, s, e).workers
    requires Do(cfg, s, e).workers[v] == s.workers[v] && InBounds(cfg, Do(cfg, s, e))
    requires !(Enabled(cfg, s, e) && (e.BeginJob? || e.Finish?) && e.worker == v)
    ensures WorkerSound(cfg, Do(cfg, s, e), v)
  {
    hide JobSound, ItemSound;
    var next, x := Do(cfg, s, e), s.workers[v];
    assert WorkerSound(cfg, s, v);
    ClockAdvances(cfg, s, e);
    assert InTime(cfg, next.workers[v], next.clock);
    if x.Working? && Enabled(cfg, s, e) {
      ItemsKept(cfg, s, e, v, 0);
    }
  }

  lemma ClockAdvances(cfg: Config, s: Queue, e: Event)
    ensures s.clock <= Do(cfg, s, e).clock
  {
  }

  predicate Acts(e: Event, v: nat) {
    !e.Enqueue? && !e.EnqueueWebhooks? && !e.Advance? && e.worker == v
  }

  lemma ActorKept(cfg: Config, s: Queue, e: Event, v: nat)
    requires LeasesHold(cfg, s) && Enabled(cfg, s, e) && Acts(e, v) && v in Do(cfg, s, e).workers
    ensures WorkerSound(cfg, Do(cfg, s, e), v)
  {
    match e
    case Claim(_, ids) => ClaimKept(cfg, s, v, ids);
    case BeginJob(_) => StartKept(cfg, s, v);
    case BeginHandler(_) => HandleKept(cfg, s, e, v);
    case Handle(_, _) => HandleKept(cfg, s, e, v);
    case Finish(_) => FinishKept(cfg, s, e, v);
    case LoseFinish(_) => FinishKept(cfg, s, e, v);
    case _ =>
  }

  lemma ClaimKept(cfg: Config, s: Queue, v: nat, ids: seq<nat>)
    requires LeasesHold(cfg, s) && Enabled(cfg, s, Claim(v, ids))
    ensures WorkerSound(cfg, Do(cfg, s, Claim(v, ids)), v)
  {
    hide NextRetryAt, Stale;
    BatchTime(cfg, |ids|);
    assert WorkerSound(cfg, s, v) && InTime(cfg, s.workers[v], s.clock);
    forall i | 0 <= i < |ids| ensures ids[i] in s.jobs && JobSoundAt(cfg, s, ids[i]) {
      assert ids[i] in ids;
    }
  }

  lemma StartKept(cfg: Config, s: Queue, v: nat)
    requires LeasesHold(cfg, s) && Enabled(cfg, s, BeginJob(v))
    ensures WorkerSound(cfg, Do(cfg, s, BeginJob(v)), v)
  {
    hide JobSound;
    assert WorkerSound(cfg, s, v);
    HeadItem(cfg, s, v);
    ItemsKept(cfg, s, BeginJob(v), v, 1);
  }

  lemma HandleKept(cfg: Config, s: Queue, e: Event, v: nat)
    requires LeasesHold(cfg, s) && Enabled(cfg, s, e) && (e.BeginHandler? || e.Handle?) && e.worker == v
    ensures WorkerSound(cfg, Do(cfg, s, e), v)
  {
    hide JobSound, ItemSound;
    assert WorkerSound(cfg, s, v);
    ItemsKept(cfg, s, e, v, 0);
  }

  lemma FinishKept(cfg: Config, s: Queue, e: Event, v: nat)
    requires LeasesHold(cfg, s) && Enabled(cfg, s, e) && (e == Finish(v) || e == LoseFinish(v))
    ensures WorkerSound(cfg, Do(cfg, s, e), v)
  {
    hide JobSound, ItemSound;
    assert WorkerSound(cfg, s, v);
    ItemsKept(cfg, s, e, v, 1);
  }

  lemma WorkersKept(cfg: Config, s: Queue, e: Event)
    requires LeasesHold(cfg, s)
    ensures WorkersSound(cfg, Do(cfg, s, e))
  {
    hide WorkerSound, JobSound, JobsSound, InBounds;
    var next := Do(cfg, s, e);
    BoundsKept(cfg, s, e);
    forall v | v in next.workers ensures WorkerSound(cfg, next, v) {
      if Enabled(cfg, s, e) && Acts(e, v) {
        ActorKept(cfg, s, e, v);
      } else {
        BystanderKept(cfg, s, e, v);
      }
    }
  }

  lemma {:induction false} LeasesAlwaysHold(cfg: Config, events: seq<Event>)
    ensures LeasesHold(cfg, Execution(cfg, events))
  {
    if events == [] {
    } else {
      hide Do, JobsSound, InBounds, WorkersSound;
      var before, e := Execution(cfg, events[..|events| - 1]), events[|events| - 1];
      LeasesAlwaysHold(cfg, events[..|events| - 1]);
      JobsKept(cfg, before, e);
      BoundsKept(cfg, before, e);
      WorkersKept(cfg, before, e);
    }
  }

  // ------------------------------------------------------------------- due times

  /** No job is claimed before its time: whatever the lease, a running job was leased
    * at a moment that `run_at` allows. */
  lemma {:induction false} RunningJobsWereDue(cfg: Config, events: seq<Event>, id: nat)
    requires var s := Execution(cfg, events); id in s.jobs && s.jobs[id].state == Running
    ensures var job := Execution(cfg, events).jobs[id]; job.lockedAt.Some? && job.lockedAt.value >= job.runAt
  {
    if events != [] {
      hide Do;
      var most, e := events[..|events| - 1], events[|events| - 1];
      var s := Execution(cfg, most);
      StepsAreRowSteps(cfg, s, e, id);
      if id in s.jobs && s.jobs[id].state == Running {
        RunningJobsWereDue(cfg, most, id);
      }
    }
  }

  /** A step leases a job only if it is pending and its time has come, and an attempt
    * is left. */
  lemma LeasedWhenDue(cfg: Config, s: Queue, e: Event, id: nat)
    requires id in s.jobs && id in Do(cfg, s, e).jobs
    requires s.jobs[id].state != Running && Do(cfg, s, e).jobs[id].state == Running
    ensures var before, after := s.jobs[id], Do(cfg, s, e).jobs[id];
            && before.state == Pending && after.lockedAt.Some? && before.runAt <= after.lockedAt.value
            && before.attempts < before.maxAttempts && after.attempts == before.attempts + 1
  {
    hide Do, NextRetryAt;
    StepsAreRowSteps(cfg, s, e, id);
  }

  // ------------------------------------------------------------ lease safety

  predicate Holds(s: Queue, w: nat, id: nat) {
    w in s.workers && s.workers[w].Working? && exists i :: 0 <= i < |s.workers[w].items| && s.workers[w].items[i].id == id
  }

  /** The next reap of `r` takes no job away from a worker that is still alive. */
  ghost predicate ReapsOnlyTheDead(cfg: Config, s: Queue, r: nat)
    requires r in s.workers && s.workers[r].Reaping?
  {
    forall w, id :: Holds(s, w, id) && id in s.jobs ==> !Stale(s.jobs[id], s.workers[r].now - cfg.lease)
  }

  ghost predicate NeverReapsTheLiving(cfg: Config) {
    forall events, r ::
      var s := Execution(cfg, events);
      r in s.workers && s.workers[r].Reaping? ==> ReapsOnlyTheDead(cfg, s, r)
  }

  lemma HeldItem(cfg: Config, s: Queue, w: nat, id: nat)
    requires LeasesHold(cfg, s) && Holds(s, w, id) && Protected(cfg, s, id)
    ensures id in s.jobs && s.jobs[id].state == Running && s.jobs[id].lockedBy == Some(w) && s.jobs[id].lockedAt.Some?
    ensures LeaseCoversBatch(cfg) ==> s.clock <= s.jobs[id].lockedAt.value + cfg.lease
  {
    assert WorkerSound(cfg, s, w);
  }

  function UpTo(n: nat): (ids: seq<nat>)
    ensures |ids| == n && forall i :: 0 <= i < n ==> ids[i] == i
  {
    seq(n, i => i)
  }

  /** A full batch that may outlast its lease: the clock passes the lease while
    * the worker is still inside its time. */
  function OverlongBatch(cfg: Config): seq<Event> {
    [EnqueueWebhooks(set id | id in UpTo(cfg.batch), 0), Wake(0), BeginTick(0), Reap(0), Claim(0, UpTo(cfg.batch)),
     Advance(cfg.lease + 1), Wake(1), BeginTick(1)]
  }

  lemma Extend(cfg: Config, events: seq<Event>, e: Event)
    ensures Execution(cfg, events + [e]) == Do(cfg, Execution(cfg, events), e)
  {
  }

  lemma BatchReady(cfg: Config)
    ensures var s := Execution(cfg, OverlongBatch(cfg)[..4]);
            && s.clock == 0 && s.workers == map[0 := Claiming(0)]
            && forall id :: id in UpTo(cfg.batch) ==> id in s.jobs && s.jobs[id] == Enqueued(true, 0, MAX_ATTEMPTS)
  {
    hide JobSound, UpTo;
    var es := OverlongBatch(cfg);
    BatchEnqueued(cfg);
    hide Execution;
    assert es[..2] == es[..1] + [es[1]] && es[..3] == es[..2] + [es[2]] && es[..4] == es[..3] + [es[3]];
    Extend(cfg, es[..1], es[1]);
    Extend(cfg, es[..2], es[2]);
    Extend(cfg, es[..3], es[3]);
  }

  lemma BatchEnqueued(cfg: Config)
    ensures var s := Execution(cfg, OverlongBatch(cfg)[..1]);
            && s.clock == 0 && s.workers == map[]
            && forall id :: id in UpTo(cfg.batch) ==> id in s.jobs && s.jobs[id] == Enqueued(true, 0, MAX_ATTEMPTS)
  {
  }

  lemma BatchClaimed(cfg: Config)
    requires cfg.batch > 0
    ensures var s := Execution(cfg, OverlongBatch(cfg)[..5]);
            && s.clock == 0 && s.workers.Keys == {0} && s.workers[0].Working?
            && s.workers[0].deadline == cfg.setup + cfg.batch * cfg.perJob
            && |s.workers[0].items| == cfg.batch && s.workers[0].items[0].id == 0
            && 0 in s.jobs && s.jobs[0].state == Running && s.jobs[0].lockedAt == Some(0)
  {
    var es, ids := OverlongBatch(cfg), UpTo(cfg.batch);
    hide Execution, UpTo, JobSound, ReapedJobs;
    assert es[..5] == es[..4] + [es[4]];
    BatchReady(cfg);
    Extend(cfg, es[..4], es[4]);
    assert ids[0] in ids;
    assert Enabled(cfg, Execution(cfg, es[..4]), Claim(0, ids));
  }

  lemma OverlongBatchIsReaped(cfg: Config)
    requires !LeaseCoversBatch(cfg)
    ensures var s := Execution(cfg, OverlongBatch(cfg));
            && 1 in s.workers && s.workers[1].Reaping? && !ReapsOnlyTheDead(cfg, s, 1)
  {
    hide Execution, ItemSound, JobSound;
    var es := OverlongBatch(cfg);
    BatchClaimed(cfg);
    assert es[..6] == es[..5] + [es[5]] && es[..7] == es[..6] + [es[6]] && es == es[..7] + [es[7]];
    Extend(cfg, es[..5], es[5]);
    Extend(cfg, es[..6], es[6]);
    Extend(cfg, es[..7], es[7]);
    assert Holds(Execution(cfg, es), 0, 0);
  }

  /** No live worker ever loses a job to a reaper exactly when a whole batch fits
    * into the lease. */
  lemma LeaseSafeIffBatchFits(cfg: Config)
    ensures NeverReapsTheLiving(cfg) <==> LeaseCoversBatch(cfg)
  {
    hide Execution;
    if LeaseCoversBatch(cfg) {
      forall events, r | r in Execution(cfg, events).workers && Execution(cfg, events).workers[r].Reaping?
        ensures ReapsOnlyTheDead(cfg, Execution(cfg, events), r)
      {
        LeasesAlwaysHold(cfg, events);
        NothingHeldIsStale(cfg, Execution(cfg, events), r);
      }
    } else {
      OverlongBatchIsReaped(cfg);
    }
  }

  lemma NothingHeldIsStale(cfg: Config, s: Queue, r: nat)
    requires LeaseCoversBatch(cfg) && LeasesHold(cfg, s) && r in s.workers && s.workers[r].Reaping?
    ensures ReapsOnlyTheDead(cfg, s, r)
  {
    assert WorkerSound(cfg, s, r);
    forall w, id | Holds(s, w, id) && id in s.jobs ensures !Stale(s.jobs[id], s.workers[r].now - cfg.lease) {
      HeldItem(cfg, s, w, id);
    }
  }

  /** No job is ever in the hands of two live workers, unless batches may outlast
    * the lease and a reaper has returned that very job. */
  lemma OneLiveWorkerPerJob(cfg: Config, events: seq<Event>, v: nat, w: nat, id: nat)
    requires Protected(cfg, Execution(cfg, events), id)
    requires Holds(Execution(cfg, events), v, id) && Holds(Execution(cfg, events), w, id)
    ensures v == w
  {
    hide Execution, Holds;
    LeasesAlwaysHold(cfg, events);
    HeldItem(cfg, Execution(cfg, events), v, id);
    HeldItem(cfg, Execution(cfg, events), w, id);
  }

  // -------------------------------------------------------------- one step on a job

  predicate Terminal(job: Job) {
    job.state == Completed || job.state == Dead
  }

  /** Attempts still to come, then how far the current one has got. */
  function Measure(job: Job): int {
    match job.state
    case Running => 2 * (job.maxAttempts - job.attempts) + 2
    case Pending => 2 * (job.maxAttempts - job.attempts) + 1
    case _ => 0
  }

  /** Any step leaves a job alone, counts one execution of a running job, or moves
    * it strictly closer to its end; a finished job never changes. */
  predicate JobMoves(before: Job, after: Job) {
    || after == before
    || (before.state == Running && before.runs < before.attempts && after == before.(runs := before.runs + 1))
    || (Measure(after) < Measure(before) && after.maxAttempts == before.maxAttempts && after.webhook == before.webhook && !Terminal(before))
  }

  lemma StepsMoveJobs(cfg: Config, s: Queue, e: Event, id: nat)
    requires LeasesHold(cfg, s) && id in s.jobs && Protected(cfg, Do(cfg, s, e), id)
    ensures id in Do(cfg, s, e).jobs && JobMoves(s.jobs[id], Do(cfg, s, e).jobs[id])
  {
    hide Do, Enabled;
    RowsRemain(cfg, s, e);
    StepsAreRowSteps(cfg, s, e, id);
    ProtectedBefore(cfg, s, e, id);
    assert JobSoundAt(cfg, s, id);
    if AtHead(s, e, id) {
      HeadItem(cfg, s, e.worker);
    }
  }

  predicate Moved(before: Job, after: Job) {
    before.(runs := 0) != after.(runs := 0)
  }

  /** How many of the steps `more` change the row, executions aside. */
  function Moves(cfg: Config, events: seq<Event>, more: seq<Event>, id: nat): nat {
    if more == [] then 0
    else
      var most := more[..|more| - 1];
      var before, after := Execution(cfg, events + most), Execution(cfg, events + more);
      Moves(cfg, events, most, id)
      + if id in before.jobs && id in after.jobs && Moved(before.jobs[id], after.jobs[id]) then 1 else 0
  }

  /** One step, against the measure. */
  lemma StepUsesMeasure(cfg: Config, s: Queue, e: Event, id: nat)
    requires LeasesHold(cfg, s) && id in s.jobs && Protected(cfg, Do(cfg, s, e), id)
    ensures id in Do(cfg, s, e).jobs
    ensures var before, after := s.jobs[id], Do(cfg, s, e).jobs[id];
            && Measure(after) <= Measure(before) - (if Moved(before, after) then 1 else 0)
            && (Terminal(before) ==> after == before) && after.maxAttempts == before.maxAttempts
  {
    hide Do, LeasesHold;
    StepsMoveJobs(cfg, s, e, id);
  }

  lemma MeasureEnds(cfg: Config, s: Queue, id: nat)
    requires LeasesHold(cfg, s) && id in s.jobs && Protected(cfg, s, id)
    ensures var job := s.jobs[id];
            && 0 <= Measure(job) <= 2 * job.maxAttempts + 1 && (Measure(job) == 0 <==> Terminal(job))
            && job.runs <= job.attempts <= job.maxAttempts
  {
    hide LeasesHold;
    SoundJob(cfg, s, id);
  }

  /** Every change of a protected job's row uses up some of its measure, so over
    * any further steps there are at most twice `max_attempts` and one of them;
    * finished jobs stay as they are, and no job is executed more often than it
    * may be attempted. */
  lemma {:induction false} JobsComeToAnEnd(cfg: Config, events: seq<Event>, more: seq<Event>, id: nat)
    requires id in Execution(cfg, events).jobs && Protected(cfg, Execution(cfg, events + more), id)
    ensures id in Execution(cfg, events + more).jobs
    ensures var before, after := Execution(cfg, events).jobs[id], Execution(cfg, events + more).jobs[id];
            && 0 <= Measure(after) <= Measure(before) - Moves(cfg, events, more, id)
            && Measure(before) <= 2 * before.maxAttempts + 1
            && (Measure(after) == 0 <==> Terminal(after))
            && (Terminal(before) ==> after == before)
            && after.runs <= after.attempts <= after.maxAttempts == before.maxAttempts
    decreases |more|
  {
    hide Do, Execution, LeasesHold, Protected, Measure, Terminal, Moved;
    LeasesAlwaysHold(cfg, events + more);
    if more == [] {
      assert events + more == events;
    } else {
      var most, e := more[..|more| - 1], more[|more| - 1];
      Extend(cfg, events + most, e);
      assert events + more == (events + most) + [e];
      ProtectedBefore(cfg, Execution(cfg, events + most), e, id);
      JobsComeToAnEnd(cfg, events, most, id);
      LeasesAlwaysHold(cfg, events + most);
      StepUsesMeasure(cfg, Execution(cfg, events + most), e, id);
    }
    MeasureEnds(cfg, Execution(cfg, events + more), id);
  }

  lemma SoundJob(cfg: Config, s: Queue, id: nat)
    requires LeasesHold(cfg, s) && id in s.jobs
    ensures JobSound(s.jobs[id]) && (Protected(cfg, s, id) ==> s.jobs[id].runs <= s.jobs[id].attempts)
  {
    assert JobSoundAt(cfg, s, id);
  }

  // ------------------------------------------------------- the attempts CHECK

  /** A pending job that no claim can take: the CHECK refuses the next attempt. */
  predicate Stuck(job: Job) {
    job.state == Pending && TripsCheck(job)
  }

  /** Rescheduling alone cannot use up the attempts of such a job: its limit covers
    * the ladder, no handler asks for a retry, or nothing is ever claimed. */
  predicate Outlasts(cfg: Config, webhook: bool, maxAttempts: nat) {
    maxAttempts >= MAX_ATTEMPTS || (maxAttempts >= 1 && (cfg.batch == 0 || !(webhook || cfg.otherHandlers)))
  }

  predicate StuckAt(cfg: Config, s: Queue, id: nat) {
    && (id in s.reapedAtMax ==> id in s.reaped)
    && (id in s.reaped ==> id in s.jobs)
    && (LeaseCoversBatch(cfg) && id in s.reapedAtMax ==> Stuck(s.jobs[id]))
    && OnlyReapedStick(cfg, s, id)
  }

  predicate OnlyReapedStick(cfg: Config, s: Queue, id: nat) {
    Protected(cfg, s, id) && id in s.jobs && Outlasts(cfg, s.jobs[id].webhook, s.jobs[id].maxAttempts) && Stuck(s.jobs[id])
    ==> id in s.reapedAtMax
  }

  ghost predicate StuckExplained(cfg: Config, s: Queue) {
    forall id :: StuckAt(cfg, s, id)
  }

  /** Without a handler a job fails for good at its first attempt. */
  predicate JobWired(cfg: Config, s: Queue, id: nat)
    requires id in s.jobs
  {
    var job := s.jobs[id];
    && (cfg.batch == 0 ==> job.attempts == 0)
    && (!job.webhook && !cfg.otherHandlers && id !in s.reaped ==> job.attempts <= 1 && (job.state == Pending ==> job.attempts == 0))
  }

  predicate OutcomeWired(cfg: Config, s: Queue, w: nat)
    requires w in s.workers
  {
    AtWork(s, w) && s.workers[w].stage.Handled? ==> MayEnd(cfg, s.jobs[s.workers[w].items[0].id], s.workers[w].stage.outcome)
  }

  predicate AllAtWork(s: Queue) {
    forall w :: w in s.workers && s.workers[w].Working? ==> forall i :: 0 <= i < |s.workers[w].items| ==> s.workers[w].items[i].id in s.jobs
  }

  predicate Wired(cfg: Config, s: Queue) {
    (forall id :: id in s.jobs ==> JobWired(cfg, s, id)) && (forall w :: w in s.workers ==> OutcomeWired(cfg, s, w)) && AllAtWork(s)
  }

  lemma JobWiredKept(cfg: Config, s: Queue, e: Event, id: nat)
    requires Wired(cfg, s) && id in Do(cfg, s, e).jobs
    ensures JobWired(cfg, Do(cfg, s, e), id)
  {
    hide Do;
    StepsAreRowSteps(cfg, s, e, id);
    ReapedGrows(cfg, s, e, id);
    if id in s.jobs && AtHead(s, e, id) {
      assert OutcomeWired(cfg, s, e.worker);
    }
  }

  lemma KindStays(cfg: Config, s: Queue, e: Event, id: nat)
    requires id in s.jobs && id in Do(cfg, s, e).jobs
    ensures Do(cfg, s, e).jobs[id].webhook == s.jobs[id].webhook
  {
    hide Do, NextRetryAt;
    StepsAreRowSteps(cfg, s, e, id);
  }

  /** A worker comes to have handled an item by handling it. */
  lemma HandledBefore(cfg: Config, s: Queue, e: Event, w: nat)
    requires w in Do(cfg, s, e).workers && Do(cfg, s, e).workers[w].Working? && Do(cfg, s, e).workers[w].stage.Handled?
    ensures w in s.workers && s.workers[w].Working? && s.workers[w].items == Do(cfg, s, e).workers[w].items
    ensures var x, y := s.workers[w], Do(cfg, s, e).workers[w];
            || (x.stage.Handled? && x.stage.outcome == y.stage.outcome)
            || (e.Handle? && Enabled(cfg, s, e) && e.worker == w && e.outcome == y.stage.outcome)
  {
    hide Recorded, Finished, Claimed, Stale, Enqueued;
  }

  lemma OutcomeWiredKept(cfg: Config, s: Queue, e: Event, w: nat)
    requires Wired(cfg, s) && w in Do(cfg, s, e).workers
    ensures OutcomeWired(cfg, Do(cfg, s, e), w)
  {
    hide Do, JobWired;
    var next := Do(cfg, s, e);
    if AtWork(next, w) && next.workers[w].stage.Handled? {
      HandledBefore(cfg, s, e, w);
      assert OutcomeWired(cfg, s, w) && s.workers[w].items[0].id in s.jobs;
      KindStays(cfg, s, e, s.workers[w].items[0].id);
    }
  }

  lemma AllAtWorkKept(cfg: Config, s: Queue, e: Event)
    requires AllAtWork(s)
    ensures AllAtWork(Do(cfg, s, e))
  {
  }

  lemma {:induction false} AlwaysWired(cfg: Config, events: seq<Event>)
    ensures Wired(cfg, Execution(cfg, events))
  {
    if events == [] {
    } else {
      hide Do, JobWired, OutcomeWired;
      var before, e := Execution(cfg, events[..|events| - 1]), events[|events| - 1];
      AlwaysWired(cfg, events[..|events| - 1]);
      hide Execution;
      AllAtWorkKept(cfg, before, e);
      forall id | id in Do(cfg, before, e).jobs ensures JobWired(cfg, Do(cfg, before, e), id) {
        JobWiredKept(cfg, before, e, id);
      }
      forall w | w in Do(cfg, before, e).workers ensures OutcomeWired(cfg, Do(cfg, before, e), w) {
        OutcomeWiredKept(cfg, before, e, w);
      }
    }
  }

  lemma StuckKept(cfg: Config, s: Queue, e: Event)
    requires LeasesHold(cfg, s) && Wired(cfg, s) && StuckExplained(cfg, s)
    ensures StuckExplained(cfg, Do(cfg, s, e))
  {
    hide JobSound, JobsSound, InBounds, WorkersSound, StuckAt, Stuck, Wired;
    var next := Do(cfg, s, e);
    forall id ensures StuckAt(cfg, next, id) {
      assert StuckAt(cfg, s, id);
      StuckJobKept(cfg, s, e, id);
    }
  }

  lemma StuckJobKept(cfg: Config, s: Queue, e: Event, id: nat)
    requires LeasesHold(cfg, s) && Wired(cfg, s) && StuckAt(cfg, s, id)
    ensures StuckAt(cfg, Do(cfg, s, e), id)
  {
    hide Do, Enabled, Wired, OnlyReapedStick;
    OnlyReapedStickKept(cfg, s, e, id);
    assert id in s.jobs ==> JobSoundAt(cfg, s, id);
    RowsRemain(cfg, s, e);
    if id in s.jobs {
      StepsAreRowSteps(cfg, s, e, id);
    }
    ReapedGrows(cfg, s, e, id);
    if AtHead(s, e, id) {
      HeadItem(cfg, s, e.worker);
    }
  }

  lemma OnlyReapedStickKept(cfg: Config, s: Queue, e: Event, id: nat)
    requires LeasesHold(cfg, s) && Wired(cfg, s) && OnlyReapedStick(cfg, s, id)
    ensures OnlyReapedStick(cfg, Do(cfg, s, e), id)
  {
    hide Do, Enabled, Wired, AtWork;
    if id in Do(cfg, s, e).jobs && Protected(cfg, Do(cfg, s, e), id) {
      StepsAreRowSteps(cfg, s, e, id);
      assert id in s.jobs ==> JobSoundAt(cfg, s, id);
      ReapedGrows(cfg, s, e, id);
      if AtHead(s, e, id) {
        HeadItem(cfg, s, e.worker);
      }
      RowWired(cfg, s, e, id);
    }
  }

  lemma RowWired(cfg: Config, s: Queue, e: Event, id: nat)
    requires Wired(cfg, s)
    ensures id in s.jobs && cfg.batch == 0 ==> s.jobs[id].attempts == 0
    ensures id in s.jobs && AtHead(s, e, id) && s.workers[e.worker].stage.Handled? ==> MayEnd(cfg, s.jobs[id], s.workers[e.worker].stage.outcome)
  {
    assert id in s.jobs ==> JobWired(cfg, s, id);
    if AtHead(s, e, id) {
      assert OutcomeWired(cfg, s, e.worker);
    }
  }

  lemma {:induction false} StuckAlwaysExplained(cfg: Config, events: seq<Event>)
    ensures StuckExplained(cfg, Execution(cfg, events))
  {
    if events == [] {
    } else {
      hide Do, StuckExplained, JobsSound, InBounds, WorkersSound, Wired;
      StuckAlwaysExplained(cfg, events[..|events| - 1]);
      AlwaysWired(cfg, events[..|events| - 1]);
      LeasesAlwaysHold(cfg, events[..|events| - 1]);
      StuckKept(cfg, Execution(cfg, events[..|events| - 1]), events[|events| - 1]);
    }
  }

  /** Whatever the lease, a delivery job that no reaper has returned is pending
    * with at most six attempts, so no claim of it trips the CHECK, and it is
    * executed at most seven times. */
  lemma UnreapedJobsNeverTrip(cfg: Config, events: seq<Event>, id: nat)
    requires var s := Execution(cfg, events); id in s.jobs && s.jobs[id].webhook && id !in s.reaped
    ensures var job := Execution(cfg, events).jobs[id];
            && (job.state == Pending ==> job.attempts <= 6 && !TripsCheck(job))
            && job.runs <= job.attempts <= 7
  {
    hide Execution;
    var s := Execution(cfg, events);
    StuckAlwaysExplained(cfg, events);
    assert StuckAt(cfg, s, id);
    LeasesAlwaysHold(cfg, events);
    SoundJob(cfg, s, id);
  }

  /** With batches that fit into the lease, a delivery job trips the CHECK exactly
    * when a reaper returned it after its last attempt. */
  lemma AttemptsCheckTripsIffReapedAtMax(cfg: Config, events: seq<Event>, id: nat)
    requires LeaseCoversBatch(cfg) && id in Execution(cfg, events).jobs && Execution(cfg, events).jobs[id].webhook
    ensures var s := Execution(cfg, events);
            && (s.jobs[id].state == Pending && TripsCheck(s.jobs[id]) <==> id in s.reapedAtMax)
            && (s.jobs[id].state == Pending && id !in s.reaped ==> s.jobs[id].attempts <= 6)
            && s.jobs[id].runs <= 7
  {
    hide Execution;
    StuckAlwaysExplained(cfg, events);
    assert StuckAt(cfg, Execution(cfg, events), id);
    LeasesAlwaysHold(cfg, events);
    SoundJob(cfg, Execution(cfg, events), id);
  }

  /** The ladder does not look at `max_attempts`: rescheduling leaves a job that
    * the CHECK will refuse exactly when its own limit, shorter than the ladder,
    * has been reached. */
  lemma ShortLimitsTripToo(job: Job, now: int)
    requires JobSound(job) && job.state == Running
    ensures Stuck(Finished(job, FailsForNow, job.attempts, now)) <==> job.attempts == job.maxAttempts && job.maxAttempts < MAX_ATTEMPTS
  {
  }

  /** As the server is wired, with no handler but the one for webhooks, any other job
    * that may be attempted at all dies at its first attempt unless a reaper returns
    * it, and so never trips the CHECK; with batches that fit into the lease it does
    * exactly when a reaper returned it after its last attempt. */
  lemma OtherJobsDieAtOnce(cfg: Config, events: seq<Event>, id: nat)
    requires !cfg.otherHandlers && id in Execution(cfg, events).jobs
    requires var job := Execution(cfg, events).jobs[id]; !job.webhook && job.maxAttempts >= 1
    ensures var s := Execution(cfg, events);
            && (id !in s.reaped ==> s.jobs[id].runs <= s.jobs[id].attempts <= 1 && (s.jobs[id].state == Pending ==> s.jobs[id].attempts == 0))
            && (id !in s.reaped ==> !Stuck(s.jobs[id]))
            && (LeaseCoversBatch(cfg) ==> (Stuck(s.jobs[id]) <==> id in s.reapedAtMax))
  {
    hide Execution;
    var s := Execution(cfg, events);
    AlwaysWired(cfg, events);
    StuckAlwaysExplained(cfg, events);
    assert JobWired(cfg, s, id) && StuckAt(cfg, s, id);
    LeasesAlwaysHold(cfg, events);
    SoundJob(cfg, s, id);
  }

  /** Some run leaves a job with this limit, not a webhook and never reaped, where
    * the CHECK refuses every claim of it. */
  ghost predicate TripsUnreaped(cfg: Config, maxAttempts: nat) {
    exists events, id :: var s := Execution(cfg, events);
      id in s.jobs && !s.jobs[id].webhook && s.jobs[id].maxAttempts == maxAttempts && id !in s.reaped && Stuck(s.jobs[id])
  }

  const LONGEST := 86_400

  const CLAIMS := [BeginTick(0), Reap(0), Claim(0, [0])]
  const RETRIES := [BeginJob(0), BeginHandler(0), Handle(0, FailsForNow)]
  const WAITS := [Finish(0), Advance(LONGEST)]

  /** Round after round, worker 0 claims job 0, its handler asks for a retry, and the
    * longest rung of the ladder passes. */
  function ShortRun(maxAttempts: nat, rounds: nat): seq<Event> {
    if rounds == 0 then [Enqueue({0}, 0, maxAttempts)] + [Wake(0)] else ShortRun(maxAttempts, rounds - 1) + CLAIMS + RETRIES + WAITS
  }

  predicate OnlyJob(s: Queue, maxAttempts: nat, attempts: nat) {
    s.reaped == {} && s.jobs.Keys == {0} && !s.jobs[0].webhook && s.jobs[0].maxAttempts == maxAttempts && s.jobs[0].attempts == attempts
  }

  /** Between rounds: one idle worker, and job 0 due. */
  predicate Between(s: Queue, maxAttempts: nat, attempts: nat) {
    OnlyJob(s, maxAttempts, attempts) && s.workers == map[0 := Idle] && s.jobs[0].state == Pending && s.jobs[0].runAt <= s.clock
  }

  predicate Underway(s: Queue, maxAttempts: nat, attempts: nat, stage: Stage) {
    && OnlyJob(s, maxAttempts, attempts) && s.workers.Keys == {0} && s.workers[0].Working?
    && s.workers[0].items == [Item(0, attempts)] && s.workers[0].stage == stage
  }

  lemma RoundReaps(cfg: Config, s: Queue, maxAttempts: nat, attempts: nat)
    requires Between(s, maxAttempts, attempts)
    ensures var t := Do(cfg, Do(cfg, s, BeginTick(0)), Reap(0));
            t.clock == s.clock && t.reaped == {} && t.jobs == s.jobs && t.workers == map[0 := Claiming(s.clock)]
  {
    hide NextRetryAt;
    var t := Do(cfg, s, BeginTick(0));
    assert Enabled(cfg, t, Reap(0)) && t.jobs == s.jobs;
  }

  lemma RoundClaims(cfg: Config, s: Queue, maxAttempts: nat, attempts: nat)
    requires Between(s, maxAttempts, attempts) && attempts < maxAttempts && cfg.batch > 0
    ensures var t := Do(cfg, Do(cfg, Do(cfg, s, BeginTick(0)), Reap(0)), Claim(0, [0]));
            t.clock == s.clock && Underway(t, maxAttempts, attempts + 1, NotStarted)
  {
    RoundReaps(cfg, s, maxAttempts, attempts);
    var t := Do(cfg, Do(cfg, s, BeginTick(0)), Reap(0));
    hide Do;
    assert At(t, 0, Idle).workers == s.workers;
    JobIsClaimed(cfg, t, maxAttempts, attempts);
  }

  lemma JobIsClaimed(cfg: Config, s: Queue, maxAttempts: nat, attempts: nat)
    requires Between(At(s, 0, Idle), maxAttempts, attempts) && attempts < maxAttempts && cfg.batch > 0
    requires s.workers == map[0 := Claiming(s.clock)]
    ensures var t := Do(cfg, s, Claim(0, [0]));
            t.clock == s.clock && Underway(t, maxAttempts, attempts + 1, NotStarted)
  {
    hide NextRetryAt;
    assert Enabled(cfg, s, Claim(0, [0]));
  }

  lemma RoundRetries(cfg: Config, s: Queue, maxAttempts: nat, attempts: nat)
    requires Underway(s, maxAttempts, attempts, NotStarted) && cfg.otherHandlers
    ensures var t := Do(cfg, Do(cfg, Do(cfg, s, BeginJob(0)), BeginHandler(0)), Handle(0, FailsForNow));
            t.clock == s.clock && Underway(t, maxAttempts, attempts, Handled(s.clock, s.clock, FailsForNow))
  {
  }

  lemma RoundWaits(cfg: Config, s: Queue, maxAttempts: nat, attempts: nat)
    requires Underway(s, maxAttempts, attempts, Handled(s.clock, s.clock, FailsForNow)) && 1 <= attempts <= |LADDER|
    ensures Between(Do(cfg, Do(cfg, s, Finish(0)), Advance(LONGEST)), maxAttempts, attempts)
  {
    var t := Do(cfg, s, Finish(0));
    assert t.workers == map[0 := Idle] && t.jobs[0].runAt == s.clock + LADDER[attempts - 1];
    assert Enabled(cfg, t, Advance(LONGEST));
  }

  lemma ExtendByTwo(cfg: Config, events: seq<Event>, d: Event, e: Event)
    ensures Execution(cfg, events + [d, e]) == Do(cfg, Do(cfg, Execution(cfg, events), d), e)
  {
    hide Do, Execution;
    Extend(cfg, events, d);
    Extend(cfg, events + [d], e);
    assert events + [d] + [e] == events + [d, e];
  }

  lemma ExtendByThree(cfg: Config, events: seq<Event>, d: Event, e: Event, f: Event)
    ensures Execution(cfg, events + [d, e, f]) == Do(cfg, Do(cfg, Do(cfg, Execution(cfg, events), d), e), f)
  {
    hide Do, Execution;
    ExtendByTwo(cfg, events, d, e);
    Extend(cfg, events + [d, e], f);
    assert events + [d, e] + [f] == events + [d, e, f];
  }

  lemma OneRound(cfg: Config, events: seq<Event>, maxAttempts: nat, attempts: nat)
    requires cfg.otherHandlers && cfg.batch > 0 && attempts < maxAttempts < MAX_ATTEMPTS
    requires Between(Execution(cfg, events), maxAttempts, attempts)
    ensures Between(Execution(cfg, events + CLAIMS + RETRIES + WAITS), maxAttempts, attempts + 1)
  {
    hide Do, Execution, Enabled, Between, Underway, OnlyJob, ShortRun;
    ExtendByThree(cfg, events, BeginTick(0), Reap(0), Claim(0, [0]));
    RoundClaims(cfg, Execution(cfg, events), maxAttempts, attempts);
    ExtendByThree(cfg, events + CLAIMS, BeginJob(0), BeginHandler(0), Handle(0, FailsForNow));
    RoundRetries(cfg, Execution(cfg, events + CLAIMS), maxAttempts, attempts + 1);
    ExtendByTwo(cfg, events + CLAIMS + RETRIES, Finish(0), Advance(LONGEST));
    RoundWaits(cfg, Execution(cfg, events + CLAIMS + RETRIES), maxAttempts, attempts + 1);
  }

  lemma {:induction false} RoundsRun(cfg: Config, maxAttempts: nat, rounds: nat)
    requires cfg.otherHandlers && cfg.batch > 0 && rounds <= maxAttempts < MAX_ATTEMPTS
    ensures Between(Execution(cfg, ShortRun(maxAttempts, rounds)), maxAttempts, rounds)
  {
    if rounds == 0 {
      FirstRound(cfg, maxAttempts);
    } else {
      RoundsRun(cfg, maxAttempts, rounds - 1);
      hide Execution, Between;
      OneRound(cfg, ShortRun(maxAttempts, rounds - 1), maxAttempts, rounds - 1);
    }
  }

  lemma FirstRound(cfg: Config, maxAttempts: nat)
    ensures Between(Execution(cfg, ShortRun(maxAttempts, 0)), maxAttempts, 0)
  {
    Extend(cfg, [], Enqueue({0}, 0, maxAttempts));
    assert [] + [Enqueue({0}, 0, maxAttempts)] == [Enqueue({0}, 0, maxAttempts)];
    Extend(cfg, [Enqueue({0}, 0, maxAttempts)], Wake(0));
  }

  /** For every limit: a job that no reaper has touched can be left unclaimable
    * exactly when its limit is zero, or shorter than the ladder with a handler that
    * asks for retries and a worker that claims. */
  lemma UnreapedTripsIff(cfg: Config, maxAttempts: nat)
    ensures TripsUnreaped(cfg, maxAttempts) <==> !Outlasts(cfg, false, maxAttempts)
  {
    hide Execution;
    if Outlasts(cfg, false, maxAttempts) {
      forall events, id | id in Execution(cfg, events).jobs && !Execution(cfg, events).jobs[id].webhook
                          && Execution(cfg, events).jobs[id].maxAttempts == maxAttempts && id !in Execution(cfg, events).reaped
        ensures !Stuck(Execution(cfg, events).jobs[id])
      {
        StuckAlwaysExplained(cfg, events);
        assert StuckAt(cfg, Execution(cfg, events), id);
      }
    } else if maxAttempts == 0 {
      EnqueuedExhausted(cfg);
    } else {
      RoundsRun(cfg, maxAttempts, maxAttempts);
      assert 0 in Execution(cfg, ShortRun(maxAttempts, maxAttempts)).jobs;
    }
  }

  lemma EnqueuedExhausted(cfg: Config)
    ensures TripsUnreaped(cfg, 0)
  {
    Extend(cfg, [], Enqueue({0}, 0, 0));
    assert 0 in Execution(cfg, [] + [Enqueue({0}, 0, 0)]).jobs;
  }
}
