/** Idempotency keys: `crates/store/src/idempotency.rs` and the middleware half in
  * `crates/api/middleware/idempotency.rs`, run by any number of clients under an
  * advancing clock, with requests that die at any point and a purge at any time. */
module Idempotency {
  import opened Prelude

  datatype Key = Key(merchant: nat, name: string)

  datatype Response = Response(status: nat, body: string)

  predicate ServerError(response: Response) {
    response.status >= 500
  }

  /** A row of `idempotency_keys`. `owner` is the request whose INSERT created it;
    * the table has no such column and no statement below reads it. */
  datatype Row = Row(owner: nat, hash: string, completed: bool, status: Option<nat>, body: Option<string>, expiresAt: int)

  type Rows = map<Key, Row>

  // ------------------------------------------------------------- statements

  function Inserted(rows: Rows, key: Key, row: Row): Rows {
    if key in rows then rows else rows[key := row]
  }

  /** `complete`: keyed on the merchant and the key alone. */
  function Completed(rows: Rows, key: Key, response: Response): Rows {
    if key !in rows then rows
    else rows[key := rows[key].(completed := true, status := Some(response.status), body := Some(response.body))]
  }

  /** `release`: likewise, but only while in progress. */
  function Released(rows: Rows, key: Key): Rows {
    if key in rows && !rows[key].completed then rows - {key} else rows
  }

  function Expired(rows: Rows, now: int): set<Key> {
    set key | key in rows && rows[key].expiresAt < now
  }

  datatype Answer =
    | Executed(response: Response)
    | Replay(status: nat, body: Option<string>)
    | Mismatch
    | InFlight
    | Unavailable

  /** The SELECT after a conflicting INSERT; the row may be gone by then. */
  function Selected(rows: Rows, key: Key, hash: string): Answer {
    if key !in rows then Unavailable
    else
      var row := rows[key];
      if !row.completed then InFlight
      else if row.hash == hash then Replay(if row.status.Some? then row.status.value else 200, row.body)
      else Mismatch
  }

  // ------------------------------------------------------------- the machine

  datatype Phase = Arrived | Stamped(now: int) | Conflicted | Executing | Responded | Answered(answer: Answer) | Dead

  datatype Call = Call(key: Key, hash: string, arrived: int, phase: Phase, response: Option<Response>, committed: bool)

  datatype Entry = Did(call: nat, key: Key, response: Response) | Purged(keys: set<Key>)

  datatype Server = Server(clock: int, rows: Rows, calls: map<nat, Call>, log: seq<Entry>)

  const IDLE := Server(0, map[], map[], [])

  /** The request time budget and the lifetime of a key, on one clock; the largest
    * response that is recorded; and whether handlers are `tidy`: whatever commits
    * answers below 500 and within that size. */
  datatype Config = Config(timeout: nat, ttl: nat, limit: nat, tidy: bool)

  /** What `record` stores; for anything else it releases the key. */
  predicate Recordable(limit: nat, response: Response) {
    !ServerError(response) && |response.body| <= limit
  }

  /** What the caller gets: a response too large to record loses its body. */
  function Returned(limit: nat, response: Response): Response {
    if |response.body| <= limit then response else Response(response.status, "")
  }

  datatype Event =
    | Arrive(call: nat, key: Key, hash: string)
    | ReadClock(call: nat)
    | Insert(call: nat)
    | Select(call: nat)
    | Execute(call: nat, response: Response)
    | Respond(call: nat, response: Response)
    | Record(call: nat)
    | Die(call: nat)
    | Purge(now: int)
    | Tick(elapsed: nat)

  /** The timeout layer drops a request at the end of its budget. */
  predicate Alive(cfg: Config, s: Server, c: nat) {
    c in s.calls && s.clock <= s.calls[c].arrived + cfg.timeout
  }

  predicate Enabled(cfg: Config, s: Server, e: Event) {
    match e
    case Arrive(c, _, _) => c !in s.calls
    case ReadClock(c) => Alive(cfg, s, c) && s.calls[c].phase.Arrived?
    case Insert(c) => Alive(cfg, s, c) && s.calls[c].phase.Stamped?
    case Select(c) => Alive(cfg, s, c) && s.calls[c].phase.Conflicted?
    case Execute(c, response) => Alive(cfg, s, c) && s.calls[c].phase.Executing? && (cfg.tidy ==> Recordable(cfg.limit, response))
    case Respond(c, _) => Alive(cfg, s, c) && s.calls[c].phase.Executing?
    case Record(c) => Alive(cfg, s, c) && s.calls[c].phase.Responded? && s.calls[c].response.Some?
    case Die(c) => c in s.calls
    case Purge(now) => now <= s.clock
    case Tick(_) => true
  }

  function At(s: Server, c: nat, phase: Phase): Server
    requires c in s.calls
  {
    s.(calls := s.calls[c := s.calls[c].(phase := phase)])
  }

  function Do(cfg: Config, s: Server, e: Event): Server {
    if !Enabled(cfg, s, e) then s
    else match e
      case Arrive(c, key, hash) => s.(calls := s.calls[c := Call(key, hash, s.clock, Arrived, None, false)])
      case ReadClock(c) => At(s, c, Stamped(s.clock))
      case Insert(c) =>
        var x := s.calls[c];
        var row := Row(c, x.hash, false, None, None, x.phase.now + cfg.ttl);
        At(s, c, if x.key in s.rows then Conflicted else Executing).(rows := Inserted(s.rows, x.key, row))
      case Select(c) => At(s, c, Answered(Selected(s.rows, s.calls[c].key, s.calls[c].hash)))
      case Execute(c, response) =>
        var x := s.calls[c];
        s.(calls := s.calls[c := x.(phase := Responded, response := Some(response), committed := true)],
           log := s.log + [Did(c, x.key, response)])
      case Respond(c, response) => s.(calls := s.calls[c := s.calls[c].(phase := Responded, response := Some(response))])
      case Record(c) =>
        var x := s.calls[c];
        var response := x.response.value;
        var rows := if Recordable(cfg.limit, response) then Completed(s.rows, x.key, response) else Released(s.rows, x.key);
        At(s, c, Answered(Executed(Returned(cfg.limit, response)))).(rows := rows)
      case Die(c) => At(s, c, Dead)
      case Purge(now) => s.(rows := s.rows - Expired(s.rows, now), log := s.log + [Purged(Expired(s.rows, now))])
      case Tick(elapsed) => s.(clock := s.clock + elapsed)
  }

  function Execution(cfg: Config, events: seq<Event>): Server {
    if events == [] then IDLE else Do(cfg, Execution(cfg, events[..|events| - 1]), events[|events| - 1])
  }

  /** The commits of requests on `key` since the key was last purged. */
  function Commits(log: seq<Entry>, key: Key): seq<Entry> {
    if log == [] then [] else Grown(Commits(log[..|log| - 1], key), log[|log| - 1], key)
  }

  function Grown(before: seq<Entry>, e: Entry, key: Key): seq<Entry> {
    if e.Did? then before + if e.key == key then [e] else []
    else if key in e.keys then []
    else before
  }

  function SincePurge(log: seq<Entry>, key: Key): nat {
    |Commits(log, key)|
  }

  ghost predicate AtMostOnce(s: Server) {
    forall key :: SincePurge(s.log, key) <= 1
  }

  // ------------------------------------------------------------- invariants

  predicate Owning(x: Call) {
    x.phase.Executing? || x.phase.Responded?
  }

  predicate CallSound(cfg: Config, s: Server, x: Call) {
    && x.arrived <= s.clock
    && (x.phase.Stamped? ==> x.arrived <= x.phase.now <= s.clock)
    && (x.phase.Responded? ==> x.response.Some?)
    && (x.response.None? ==> !x.committed)
    && (x.phase.Executing? ==> x.response.None?)
    && (x.phase.Arrived? || x.phase.Stamped? || x.phase.Conflicted? ==> x.response.None?)
    && (cfg.tidy && x.response.Some? && !Recordable(cfg.limit, x.response.value) ==> !x.committed)
  }

  predicate RowSound(cfg: Config, s: Server, key: Key, row: Row) {
    && row.owner in s.calls
    && var x := s.calls[row.owner];
    && x.key == key && x.hash == row.hash && x.arrived + cfg.ttl <= row.expiresAt
    && !(x.phase.Arrived? || x.phase.Stamped? || x.phase.Conflicted?)
    && (row.completed ==>
          && x.response.Some? && Recordable(cfg.limit, x.response.value)
          && row.status == Some(x.response.value.status) && row.body == Some(x.response.value.body))
  }

  predicate OwnRow(s: Server, c: nat)
    requires c in s.calls
  {
    s.calls[c].key in s.rows && s.rows[s.calls[c].key].owner == c && !s.rows[s.calls[c].key].completed
  }

  /** What the row's own request has committed, as the log should show it. */
  function CommitOfOwner(s: Server, key: Key): seq<Entry>
    requires key in s.rows ==> s.rows[key].owner in s.calls
  {
    if key !in s.rows then []
    else
      var owner := s.rows[key].owner;
      var x := s.calls[owner];
      if x.committed && x.response.Some? then [Did(owner, key, x.response.value)] else []
  }

  /** A replay answers with what the first request answered, for the same body. */
  ghost predicate ReplaysSomebody(limit: nat, s: Server, x: Call) {
    x.phase.Answered? && x.phase.answer.Replay? ==>
      exists c :: c in s.calls && Recorded(limit, s.calls[c], x)
  }

  predicate Recorded(limit: nat, first: Call, x: Call)
    requires x.phase.Answered? && x.phase.answer.Replay?
  {
    && first.key == x.key && first.hash == x.hash && first.response.Some? && Recordable(limit, first.response.value)
    && x.phase.answer == Replay(first.response.value.status, Some(first.response.value.body))
  }

  predicate CallsSound(cfg: Config, s: Server) {
    forall c :: c in s.calls ==> CallSound(cfg, s, s.calls[c])
  }

  predicate RowsSound(cfg: Config, s: Server) {
    forall key :: key in s.rows ==> RowSound(cfg, s, key, s.rows[key])
  }

  ghost predicate OwnersHold(cfg: Config, s: Server) {
    forall c :: Alive(cfg, s, c) && Owning(s.calls[c]) ==> OwnRow(s, c)
  }

  ghost predicate CountsMatch(cfg: Config, s: Server)
    requires RowsSound(cfg, s)
  {
    cfg.tidy ==> forall key :: Commits(s.log, key) == CommitOfOwner(s, key)
  }

  ghost predicate ReplaysExplained(cfg: Config, s: Server) {
    forall c :: c in s.calls ==> ReplaysSomebody(cfg.limit, s, s.calls[c])
  }

  ghost predicate Inv(cfg: Config, s: Server) {
    CallsSound(cfg, s) && RowsSound(cfg, s) && OwnersHold(cfg, s) && CountsMatch(cfg, s) && ReplaysExplained(cfg, s)
  }

  lemma LogGrows(log: seq<Entry>, e: Entry, key: Key)
    ensures Commits(log + [e], key) == Grown(Commits(log, key), e, key)
  {
  }

  /** Calls keep their key, hash and response, so replays stay explained. */
  lemma ReplaysStay(limit: nat, s: Server, next: Server)
    requires forall c :: c in s.calls ==> c in next.calls && next.calls[c].key == s.calls[c].key && next.calls[c].hash == s.calls[c].hash
    requires forall c :: c in s.calls && s.calls[c].response.Some? ==> next.calls[c].response == s.calls[c].response
    ensures forall x :: ReplaysSomebody(limit, s, x) ==> ReplaysSomebody(limit, next, x)
  {
  }

  lemma CallsKept(cfg: Config, s: Server, e: Event)
    requires CallsSound(cfg, s)
    ensures CallsSound(cfg, Do(cfg, s, e))
  {
  }

  lemma RowsKept(cfg: Config, s: Server, e: Event)
    requires cfg.timeout <= cfg.ttl && CallsSound(cfg, s) && RowsSound(cfg, s) && OwnersHold(cfg, s)
    ensures RowsSound(cfg, Do(cfg, s, e))
  {
    hide Commits, Selected, Recordable;
    if Enabled(cfg, s, e) && e.Record? {
      assert OwnRow(s, e.call);
    }
  }

  lemma OwnersKept(cfg: Config, s: Server, e: Event)
    requires cfg.timeout <= cfg.ttl && CallsSound(cfg, s) && RowsSound(cfg, s) && OwnersHold(cfg, s)
    ensures OwnersHold(cfg, Do(cfg, s, e))
  {
    hide Commits, Selected, Recordable;
    var next := Do(cfg, s, e);
    forall c | Alive(cfg, next, c) && Owning(next.calls[c]) ensures OwnRow(next, c) {
      OwnerKept(cfg, s, e, c);
    }
  }

  /** A live owner keeps its row: nobody else's statement hits it, and it has not
    * expired. */
  lemma OwnerKept(cfg: Config, s: Server, e: Event, c: nat)
    requires cfg.timeout <= cfg.ttl && CallsSound(cfg, s) && RowsSound(cfg, s) && OwnersHold(cfg, s)
    requires Alive(cfg, Do(cfg, s, e), c) && Owning(Do(cfg, s, e).calls[c])
    ensures OwnRow(Do(cfg, s, e), c)
  {
    hide Commits, Selected, Recordable;
    if Enabled(cfg, s, e) {
      if e.Insert? && e.call == c {
      } else {
        assert OwnRow(s, c);
        if e.Record? {
          assert OwnRow(s, e.call);
        }
      }
    }
  }

  lemma CountsKept(cfg: Config, s: Server, e: Event)
    requires cfg.timeout <= cfg.ttl && CallsSound(cfg, s) && RowsSound(cfg, s) && OwnersHold(cfg, s) && CountsMatch(cfg, s)
    requires RowsSound(cfg, Do(cfg, s, e))
    ensures CountsMatch(cfg, Do(cfg, s, e))
  {
    if cfg.tidy {
      var next := Do(cfg, s, e);
      forall key ensures Commits(next.log, key) == CommitOfOwner(next, key) {
        CountKept(cfg, s, e, key);
      }
    }
  }

  lemma CountKept(cfg: Config, s: Server, e: Event, key: Key)
    requires cfg.timeout <= cfg.ttl && CallsSound(cfg, s) && RowsSound(cfg, s) && OwnersHold(cfg, s) && CountsMatch(cfg, s)
    requires cfg.tidy && RowsSound(cfg, Do(cfg, s, e))
    ensures Commits(Do(cfg, s, e).log, key) == CommitOfOwner(Do(cfg, s, e), key)
  {
    hide Commits, Selected;
    if Enabled(cfg, s, e) {
      match e
      case Execute(c, response) =>
        assert OwnRow(s, c);
        LogGrows(s.log, Did(c, s.calls[c].key, response), key);
      case Record(c) => assert OwnRow(s, c);
      case Purge(now) => LogGrows(s.log, Purged(Expired(s.rows, now)), key);
      case _ =>
    }
  }

  lemma ReplaysKept(cfg: Config, s: Server, e: Event)
    requires CallsSound(cfg, s) && RowsSound(cfg, s) && ReplaysExplained(cfg, s)
    ensures ReplaysExplained(cfg, Do(cfg, s, e))
  {
    hide Do, RowsSound, CallsSound, ReplaysSomebody;
    var next := Do(cfg, s, e);
    ResponsesStay(cfg, s, e);
    ReplaysStay(cfg.limit, s, next);
    forall c | c in next.calls ensures ReplaysSomebody(cfg.limit, next, next.calls[c]) {
      if Enabled(cfg, s, e) && e == Select(c) {
        SelectExplained(cfg, s, c);
      } else {
        OtherAnswers(cfg, s, e, c);
      }
    }
  }

  lemma ResponsesStay(cfg: Config, s: Server, e: Event)
    requires CallsSound(cfg, s)
    ensures var next := Do(cfg, s, e);
            && (forall c :: c in s.calls ==>
                  c in next.calls && next.calls[c].key == s.calls[c].key && next.calls[c].hash == s.calls[c].hash)
            && (forall c :: c in s.calls && s.calls[c].response.Some? ==> next.calls[c].response == s.calls[c].response)
  {
    hide Commits, Expired, Inserted, Completed, Released, Selected;
  }

  lemma OtherAnswers(cfg: Config, s: Server, e: Event, c: nat)
    requires ReplaysExplained(cfg, s) && c in Do(cfg, s, e).calls && !(Enabled(cfg, s, e) && e == Select(c))
    ensures ReplaysSomebody(cfg.limit, s, Do(cfg, s, e).calls[c])
  {
  }

  lemma SelectExplained(cfg: Config, s: Server, c: nat)
    requires RowsSound(cfg, s) && Enabled(cfg, s, Select(c))
    ensures ReplaysSomebody(cfg.limit, Do(cfg, s, Select(c)), Do(cfg, s, Select(c)).calls[c])
  {
    var next := Do(cfg, s, Select(c));
    var x := next.calls[c];
    if x.phase.answer.Replay? {
      assert Recorded(cfg.limit, next.calls[s.rows[x.key].owner], x);
    }
  }

  lemma StepKeeps(cfg: Config, s: Server, e: Event)
    requires cfg.timeout <= cfg.ttl && Inv(cfg, s)
    ensures Inv(cfg, Do(cfg, s, e))
  {
    hide CallsSound, RowsSound, OwnersHold, CountsMatch, ReplaysExplained, Do;
    CallsKept(cfg, s, e);
    RowsKept(cfg, s, e);
    OwnersKept(cfg, s, e);
    CountsKept(cfg, s, e);
    ReplaysKept(cfg, s, e);
  }

  lemma {:induction false} InvAlways(cfg: Config, events: seq<Event>)
    requires cfg.timeout <= cfg.ttl
    ensures Inv(cfg, Execution(cfg, events))
  {
    if events == [] {
    } else {
      hide Inv, Do;
      InvAlways(cfg, events[..|events| - 1]);
      StepKeeps(cfg, Execution(cfg, events[..|events| - 1]), events[|events| - 1]);
    }
  }

  // ---------------------------------------------------------------- theorems

  ghost predicate AlwaysAtMostOnce(cfg: Config) {
    forall events :: AtMostOnce(Execution(cfg, events))
  }

  /** The answer to a SELECT by the row it finds, in any state: `InFlight` exactly while
    * the row is in progress, `Mismatch` exactly for a recorded answer to something
    * else, a replay exactly for one to the same, and otherwise the row is gone. */
  lemma SelectByTheRow(cfg: Config, s: Server, d: nat)
    requires Enabled(cfg, s, Select(d))
    ensures var x := Do(cfg, s, Select(d)).calls[d];
            && x.phase.Answered? && x.key == s.calls[d].key
            && (x.phase.answer == Unavailable <==> x.key !in s.rows)
            && (x.key in s.rows ==>
                  var row := s.rows[x.key];
                  && (x.phase.answer == InFlight <==> !row.completed)
                  && (x.phase.answer == Mismatch <==> row.completed && row.hash != s.calls[d].hash)
                  && (x.phase.answer.Replay? <==> row.completed && row.hash == s.calls[d].hash))
  {
  }

  /** In every run, while the request that inserted the row still works on it or has yet
    * to record, whoever else comes with the key is told it is in progress, whatever
    * it asks for. */
  lemma WorkInProgressIsInFlight(cfg: Config, events: seq<Event>, c: nat, d: nat)
    requires cfg.timeout <= cfg.ttl
    requires var s := Execution(cfg, events);
             Alive(cfg, s, c) && Owning(s.calls[c]) && Enabled(cfg, s, Select(d)) && s.calls[d].key == s.calls[c].key
    ensures var x := Execution(cfg, events + [Select(d)]).calls; d in x && x[d].phase == Answered(InFlight)
  {
    hide Execution;
    Extend(cfg, events, Select(d));
    InvAlways(cfg, events);
    assert OwnRow(Execution(cfg, events), c);
  }

  /** In every run, recording an answer below 500 that fits completes the row with it,
    * and any other answer frees the key. The caller gets the answer, without its body
    * if that is too large. */
  lemma RecordingKeepsTheAnswer(cfg: Config, events: seq<Event>, c: nat)
    requires cfg.timeout <= cfg.ttl && Enabled(cfg, Execution(cfg, events), Record(c))
    ensures var s, next := Execution(cfg, events), Execution(cfg, events + [Record(c)]);
            var x, response := s.calls[c], s.calls[c].response.value;
            if response.status < 500 && |response.body| <= cfg.limit then
              && x.key in next.rows && next.rows[x.key].completed && next.rows[x.key].hash == s.rows[x.key].hash == x.hash
              && next.rows[x.key].status == Some(response.status) && next.rows[x.key].body == Some(response.body)
            else x.key !in next.rows
    ensures var next, response := Execution(cfg, events + [Record(c)]), Execution(cfg, events).calls[c].response.value;
            && c in next.calls
            && next.calls[c].phase ==
                 Answered(Executed(if |response.body| <= cfg.limit then response else Response(response.status, "")))
  {
    hide Execution, Commits;
    Extend(cfg, events, Record(c));
    InvAlways(cfg, events);
    assert OwnRow(Execution(cfg, events), c);
    var s := Execution(cfg, events);
    assert RowSound(cfg, s, s.calls[c].key, s.rows[s.calls[c].key]);
  }

  /** The answer to `d` is what the request owning the row answered, to the same
    * key and hash; and if that request committed, it is the key's one commit
    * since the last purge. */
  ghost predicate RepeatsOwner(cfg: Config, s: Server, d: nat, answer: Answer) {
    && d in s.calls && s.calls[d].key in s.rows
    && var key := s.calls[d].key;
       var owner := s.rows[key].owner;
    && owner in s.calls
    && var first := s.calls[owner];
    && first.key == key && first.hash == s.calls[d].hash
    && first.response.Some? && Recordable(cfg.limit, first.response.value)
    && answer == Replay(first.response.value.status, Some(first.response.value.body))
    && (cfg.tidy ==> Commits(s.log, key) == if first.committed then [Did(owner, key, first.response.value)] else [])
  }

  lemma SelectRepeatsOwner(cfg: Config, s: Server, d: nat)
    requires Inv(cfg, s) && Enabled(cfg, s, Select(d)) && Selected(s.rows, s.calls[d].key, s.calls[d].hash).Replay?
    ensures RepeatsOwner(cfg, s, d, Selected(s.rows, s.calls[d].key, s.calls[d].hash))
  {
    hide Commits, OwnersHold, ReplaysExplained;
    var key := s.calls[d].key;
    assert RowSound(cfg, s, key, s.rows[key]) && CallSound(cfg, s, s.calls[s.rows[key].owner]);
    assert cfg.tidy ==> Commits(s.log, key) == CommitOfOwner(s, key);
  }

  /** Whenever the SELECT finds a recorded answer for this hash, the request gets
    * exactly what the owner of that row answered. */
  lemma SelectReplaysTheOwner(cfg: Config, events: seq<Event>, d: nat)
    requires cfg.timeout <= cfg.ttl && Enabled(cfg, Execution(cfg, events), Select(d))
    requires var s := Execution(cfg, events); Selected(s.rows, s.calls[d].key, s.calls[d].hash).Replay?
    ensures var s, next := Execution(cfg, events), Execution(cfg, events + [Select(d)]);
            && d in next.calls && next.calls[d].phase.Answered? && RepeatsOwner(cfg, s, d, next.calls[d].phase.answer)
  {
    hide Inv, Execution, RepeatsOwner;
    InvAlways(cfg, events);
    Extend(cfg, events, Select(d));
    SelectRepeatsOwner(cfg, Execution(cfg, events), d);
  }

  /** The `n`-th step of the run gave `d` its replay, from the row as it then was. */
  ghost predicate ReplayedAt(cfg: Config, events: seq<Event>, n: nat, d: nat, answer: Answer) {
    && n < |events| && events[n] == Select(d)
    && Enabled(cfg, Execution(cfg, events[..n]), Select(d))
    && RepeatsOwner(cfg, Execution(cfg, events[..n]), d, answer)
  }

  /** Every replay in any run was given by a SELECT, and repeats the status and body
    * that the request owning the row at that moment had answered to the same key
    * and hash, whose commit, if any, was the key's only one since its last purge. */
  lemma {:induction false} ReplaysAreTheOriginal(cfg: Config, events: seq<Event>, d: nat)
    requires cfg.timeout <= cfg.ttl
    requires var s := Execution(cfg, events); d in s.calls && s.calls[d].phase.Answered? && s.calls[d].phase.answer.Replay?
    ensures var s := Execution(cfg, events); exists c :: c in s.calls && Recorded(cfg.limit, s.calls[c], s.calls[d])
    ensures exists n :: ReplayedAt(cfg, events, n, d, Execution(cfg, events).calls[d].phase.answer)
  {
    hide Inv, Do, RepeatsOwner;
    var most, e := events[..|events| - 1], events[|events| - 1];
    var s, next := Execution(cfg, most), Execution(cfg, events);
    SomebodyAnswered(cfg, events, d);
    InvAlways(cfg, most);
    AnswersComeFromSelect(cfg, s, e, d);
    if Enabled(cfg, s, e) && e == Select(d) {
      SelectRepeatsOwner(cfg, s, d);
      assert ReplayedAt(cfg, events, |most|, d, next.calls[d].phase.answer);
    } else {
      ReplaysAreTheOriginal(cfg, most, d);
      var n: nat :| ReplayedAt(cfg, most, n, d, s.calls[d].phase.answer);
      assert most[..n] == events[..n];
      assert ReplayedAt(cfg, events, n, d, next.calls[d].phase.answer);
    }
  }

  lemma SomebodyAnswered(cfg: Config, events: seq<Event>, d: nat)
    requires cfg.timeout <= cfg.ttl
    requires var s := Execution(cfg, events); d in s.calls && s.calls[d].phase.Answered? && s.calls[d].phase.answer.Replay?
    ensures var s := Execution(cfg, events); exists c :: c in s.calls && Recorded(cfg.limit, s.calls[c], s.calls[d])
  {
    hide Execution;
    InvAlways(cfg, events);
    assert ReplaysSomebody(cfg.limit, Execution(cfg, events), Execution(cfg, events).calls[d]);
  }

  lemma AnswersComeFromSelect(cfg: Config, s: Server, e: Event, d: nat)
    requires var next := Do(cfg, s, e); d in next.calls && next.calls[d].phase.Answered? && next.calls[d].phase.answer.Replay?
    ensures if Enabled(cfg, s, e) && e == Select(d)
            then Do(cfg, s, e).calls[d].phase.answer == Selected(s.rows, s.calls[d].key, s.calls[d].hash)
            else d in s.calls && s.calls[d].phase == Do(cfg, s, e).calls[d].phase
  {
    hide Selected, Inserted, Completed, Released, Expired;
  }

  const LATE := Response(200, "")

  /** The run that charges twice when a request may outlive its key: the first
    * request is still working when its row expires and is purged. */
  function DoubleCharge(cfg: Config): seq<Event> {
    var key := Key(0, "key");
    [Arrive(0, key, "h"), ReadClock(0), Insert(0), Tick(cfg.ttl + 1), Purge(cfg.ttl + 1),
     Arrive(1, key, "h"), ReadClock(1), Insert(1), Execute(1, LATE), Execute(0, LATE)]
  }

  lemma Extend(cfg: Config, events: seq<Event>, e: Event)
    ensures Execution(cfg, events + [e]) == Do(cfg, Execution(cfg, events), e)
  {
  }

  /** A first request inserts its row. */
  function FirstInsert(): seq<Event> {
    [Arrive(0, Key(0, "key"), "h"), ReadClock(0), Insert(0)]
  }

  lemma FirstInsertState(cfg: Config)
    ensures var key := Key(0, "key");
            Execution(cfg, FirstInsert())
            == Server(0, map[key := Row(0, "h", false, None, None, cfg.ttl)], map[0 := Call(key, "h", 0, Executing, None, false)], [])
  {
    hide Commits, Selected, Completed, Released, Recordable, Expired;
    var es, key := FirstInsert(), Key(0, "key");
    assert es[..1] == [] + [es[0]] && es[..2] == es[..1] + [es[1]] && es == es[..2] + [es[2]];
    Extend(cfg, [], es[0]);
    assert Execution(cfg, es[..1]) == Server(0, map[], map[0 := Call(key, "h", 0, Arrived, None, false)], []);
    Extend(cfg, es[..1], es[1]);
    Extend(cfg, es[..2], es[2]);
  }

  /** Its row has been purged while it is still working. */
  lemma DoubleChargeStart(cfg: Config)
    requires cfg.timeout > cfg.ttl
    ensures var key := Key(0, "key");
            var s := Execution(cfg, DoubleCharge(cfg)[..5]);
            && s.clock == cfg.ttl + 1 && s.rows == map[]
            && s.calls == map[0 := Call(key, "h", 0, Executing, None, false)] && s.log == [Purged({key})]
  {
    hide Execution, Commits, Selected, Completed, Released, Recordable;
    var es, key := DoubleCharge(cfg), Key(0, "key");
    FirstInsertState(cfg);
    assert es[..3] == FirstInsert() && es[..4] == es[..3] + [es[3]] && es[..5] == es[..4] + [es[4]];
    Extend(cfg, es[..3], es[3]);
    Extend(cfg, es[..4], es[4]);
    assert Expired(map[key := Row(0, "h", false, None, None, cfg.ttl)], cfg.ttl + 1) == {key};
  }

  /** The second half: a retry finds the key free, and both handlers run. */
  lemma DoubleChargeRetry(cfg: Config)
    requires cfg.timeout > cfg.ttl
    ensures var key := Key(0, "key");
            var first, second := Call(key, "h", 0, Executing, None, false), Call(key, "h", cfg.ttl + 1, Executing, None, false);
            var s := Execution(cfg, DoubleCharge(cfg)[..8]);
            && s.clock == cfg.ttl + 1 && s.calls == map[0 := first, 1 := second] && s.log == [Purged({key})]
            && key in s.rows && s.rows[key].owner == 1
  {
    hide Commits, Expired, Selected, Completed, Released;
    var es, key := DoubleCharge(cfg), Key(0, "key");
    DoubleChargeStart(cfg);
    assert es[..6] == es[..5] + [es[5]] && es[..7] == es[..6] + [es[6]] && es[..8] == es[..7] + [es[7]];
    Extend(cfg, es[..5], es[5]);
    Extend(cfg, es[..6], es[6]);
    Extend(cfg, es[..7], es[7]);
  }

  lemma PurgedLog(key: Key)
    ensures Commits([Purged({key})], key) == []
  {
  }

  lemma DoubleChargeHappens(cfg: Config)
    requires cfg.timeout > cfg.ttl
    ensures SincePurge(Execution(cfg, DoubleCharge(cfg)).log, Key(0, "key")) == 2
  {
    hide Commits, Execution, Expired, Selected, Completed, Released, Inserted;
    var es, key := DoubleCharge(cfg), Key(0, "key");
    DoubleChargeRetry(cfg);
    assert es[..9] == es[..8] + [es[8]] && es == es[..9] + [es[9]];
    Extend(cfg, es[..8], es[8]);
    Extend(cfg, es[..9], es[9]);
    PurgedLog(key);
    LogGrows([Purged({key})], Did(1, key, LATE), key);
    LogGrows([Purged({key})] + [Did(1, key, LATE)], Did(0, key, LATE), key);
    assert Execution(cfg, es).log == [Purged({key})] + [Did(1, key, LATE)] + [Did(0, key, LATE)];
  }

  /** Whenever a request records its answer, the row under its key is the one it
    * inserted, still in progress: `complete` and `release` name the key alone. */
  ghost predicate RecordsHitOwnRows(cfg: Config) {
    forall events, c :: Enabled(cfg, Execution(cfg, events), Record(c)) ==> OwnRow(Execution(cfg, events), c)
  }

  lemma OwnerIsKnown(cfg: Config, events: seq<Event>, c: nat)
    requires cfg.timeout <= cfg.ttl && Alive(cfg, Execution(cfg, events), c) && Owning(Execution(cfg, events).calls[c])
    ensures OwnRow(Execution(cfg, events), c)
  {
    hide Execution;
    InvAlways(cfg, events);
  }

  /** The retry of `DoubleCharge` holds the row when the first request, which has
    * outlived its own, is about to record. */
  function LateRecord(cfg: Config): seq<Event> {
    DoubleCharge(cfg)[..8] + [Execute(0, LATE)]
  }

  lemma LateRecordHitsTheSuccessor(cfg: Config)
    requires cfg.timeout > cfg.ttl
    ensures var s := Execution(cfg, LateRecord(cfg));
            && Enabled(cfg, s, Record(0)) && 1 in s.calls && s.calls[1].phase.Executing?
            && s.calls[0].key in s.rows && s.rows[s.calls[0].key].owner == 1
  {
    hide Execution, Commits, Expired, Selected, Completed, Released, Inserted;
    DoubleChargeRetry(cfg);
    Extend(cfg, DoubleCharge(cfg)[..8], Execute(0, LATE));
  }

  /** In every run `complete` and `release` only ever hit the row their own request
    * inserted, exactly when no request may outlive its key. */
  lemma RecordTouchesOwnRow(cfg: Config)
    ensures RecordsHitOwnRows(cfg) <==> cfg.timeout <= cfg.ttl
  {
    hide Execution;
    if cfg.timeout > cfg.ttl {
      LateRecordHitsTheSuccessor(cfg);
      assert !OwnRow(Execution(cfg, LateRecord(cfg)), 0);
    } else {
      forall events, c | Enabled(cfg, Execution(cfg, events), Record(c)) ensures OwnRow(Execution(cfg, events), c) {
        OwnerIsKnown(cfg, events, c);
      }
    }
  }

  /** Two live requests never run handlers under the same key. */
  ghost predicate HandlersExclude(cfg: Config) {
    forall events, c, d ::
      var s := Execution(cfg, events);
      Alive(cfg, s, c) && Alive(cfg, s, d) && Owning(s.calls[c]) && Owning(s.calls[d]) && s.calls[c].key == s.calls[d].key ==> c == d
  }

  /** So it is in every run, again exactly when no request may outlive its key. */
  lemma OneHandlerPerKey(cfg: Config)
    ensures HandlersExclude(cfg) <==> cfg.timeout <= cfg.ttl
  {
    hide Execution;
    if cfg.timeout > cfg.ttl {
      DoubleChargeRetry(cfg);
      var s := Execution(cfg, DoubleCharge(cfg)[..8]);
      assert Alive(cfg, s, 0) && Alive(cfg, s, 1) && Owning(s.calls[0]) && Owning(s.calls[1]);
    } else {
      forall events, c, d | var s := Execution(cfg, events);
                            Alive(cfg, s, c) && Alive(cfg, s, d) && Owning(s.calls[c]) && Owning(s.calls[d])
                            && s.calls[c].key == s.calls[d].key
        ensures c == d
      {
        OwnerIsKnown(cfg, events, c);
        OwnerIsKnown(cfg, events, d);
      }
    }
  }

  /** The run that charges twice when a handler commits and then answers 500 or
    * too much to record: the key is released, and a retry commits again. */
  function ReleasedCharge(): seq<Event> {
    var key := Key(0, "key");
    [Arrive(0, key, "h"), ReadClock(0), Insert(0), Execute(0, Response(500, "")), Record(0),
     Arrive(1, key, "h"), ReadClock(1), Insert(1), Execute(1, LATE)]
  }

  lemma ReleasedChargeStart(cfg: Config)
    requires !cfg.tidy
    ensures var key := Key(0, "key");
            var s := Execution(cfg, ReleasedCharge()[..5]);
            && s.clock == 0 && s.rows == map[] && s.calls.Keys == {0} && s.log == [Did(0, key, Response(500, ""))]
  {
    hide Execution, Commits, Expired, Selected, Completed;
    var es := ReleasedCharge();
    FirstInsertState(cfg);
    assert es[..3] == FirstInsert() && es[..4] == es[..3] + [es[3]] && es[..5] == es[..4] + [es[4]];
    Extend(cfg, es[..3], es[3]);
    Extend(cfg, es[..4], es[4]);
  }

  lemma ReleasedChargeHappens(cfg: Config)
    requires !cfg.tidy
    ensures SincePurge(Execution(cfg, ReleasedCharge()).log, Key(0, "key")) == 2
  {
    hide Commits, Execution, Expired, Selected, Completed, Released;
    var es, key := ReleasedCharge(), Key(0, "key");
    ReleasedChargeStart(cfg);
    assert es[..6] == es[..5] + [es[5]] && es[..7] == es[..6] + [es[6]] && es[..8] == es[..7] + [es[7]] && es == es[..8] + [es[8]];
    Extend(cfg, es[..5], es[5]);
    Extend(cfg, es[..6], es[6]);
    Extend(cfg, es[..7], es[7]);
    Extend(cfg, es[..8], es[8]);
    OneInLog(key);
    LogGrows([Did(0, key, Response(500, ""))], Did(1, key, LATE), key);
  }

  lemma OneInLog(key: Key)
    ensures SincePurge([Did(0, key, Response(500, ""))], key) == 1
  {
    LogGrows([], Did(0, key, Response(500, "")), key);
    assert [] + [Did(0, key, Response(500, ""))] == [Did(0, key, Response(500, ""))];
  }

  /** Between purges a key's request commits at most once, in every run, exactly
    * when no request may outlive its key and whatever commits is recorded. */
  lemma AtMostOnceIffTimelyAndTidy(cfg: Config)
    ensures AlwaysAtMostOnce(cfg) <==> cfg.timeout <= cfg.ttl && cfg.tidy
  {
    hide Execution, Commits;
    if cfg.timeout > cfg.ttl {
      DoubleChargeHappens(cfg);
      assert !AtMostOnce(Execution(cfg, DoubleCharge(cfg)));
    } else if !cfg.tidy {
      ReleasedChargeHappens(cfg);
      assert !AtMostOnce(Execution(cfg, ReleasedCharge()));
    } else {
      forall events ensures AtMostOnce(Execution(cfg, events)) {
        InvAlways(cfg, events);
      }
    }
  }
}
