/** The cache of authentication decisions in `crates/api/auth.rs`, under any
  * interleaving of lookups, slow database reads, stores, revocations and
  * invalidations. */
module AuthCaching {
  import opened Prelude

  datatype Outcome = Resolved(key: nat, merchant: nat) | Rejected

  datatype Entry = Entry(outcome: Outcome, expiresAt: int)

  type Entries = map<string, Entry>

  type Touches = map<nat, int>

  datatype Settings = Settings(ttl: nat, capacity: nat, touchInterval: nat) {
    predicate IsEnabled() {
      ttl > 0 && capacity > 0
    }
  }

  // ------------------------------------------------------------ cache contents

  function LookUp(c: Settings, entries: Entries, hash: string, now: int): Option<Outcome> {
    if c.IsEnabled() && hash in entries && entries[hash].expiresAt > now then Some(entries[hash].outcome) else None
  }

  function Swept(entries: Entries, now: int): Entries {
    map hash | hash in entries && entries[hash].expiresAt > now :: entries[hash]
  }

  /** Space for one more: sweep when full, drop everything when that is no help. */
  function Room(c: Settings, entries: Entries, now: int): Entries {
    if |entries| < c.capacity then entries
    else
      var live := Swept(entries, now);
      if |live| >= c.capacity then map[] else live
  }

  function Stored(c: Settings, entries: Entries, hash: string, outcome: Outcome, now: int): Entries {
    if !c.IsEnabled() then entries else Room(c, entries, now)[hash := Entry(outcome, now + c.ttl)]
  }

  predicate ResolvesTo(e: Entry, key: nat) {
    e.outcome.Resolved? && e.outcome.key == key
  }

  function Without(entries: Entries, key: nat): Entries {
    map hash | hash in entries && !ResolvesTo(entries[hash], key) :: entries[hash]
  }

  /** Time since, never negative. */
  function Since(last: int, now: int): nat {
    if now <= last then 0 else now - last
  }

  predicate MayTouch(c: Settings, touches: Touches, key: nat, now: int) {
    c.touchInterval == 0 || key !in touches || Since(touches[key], now) >= c.touchInterval
  }

  /** The size at which the table of touches is swept. */
  function Bound(c: Settings): nat {
    if c.capacity >= 1 then c.capacity else 1
  }

  function WithinInterval(c: Settings, touches: Touches, now: int): Touches {
    map k | k in touches && Since(touches[k], now) < c.touchInterval :: touches[k]
  }

  function Touched(c: Settings, touches: Touches, key: nat, now: int): Touches {
    if c.touchInterval == 0 || !MayTouch(c, touches, key, now) then touches
    else
      (if |touches| >= Bound(c) then WithinInterval(c, touches, now) else touches)[key := now]
  }

  /** The entries still worth having. */
  function Live(entries: Entries, now: int): set<string> {
    set hash | hash in entries && now < entries[hash].expiresAt
  }

  /** Storing under one hash leaves every other entry alone while there is room, drops
    * the expired ones when there is none, and everything when that makes none. */
  ghost predicate KeepsWhatFits(before: Entries, after: Entries, stored: string, capacity: nat, now: int) {
    forall hash :: hash != stored ==>
      && (hash in after <==>
            hash in before && (|before| < capacity || (now < before[hash].expiresAt && |Live(before, now)| < capacity)))
      && (hash in after ==> after[hash] == before[hash])
  }

  class AuthCache {
    const settings: Settings
    var entries: Entries
    var touches: Touches

    constructor (settings: Settings)
      ensures this.settings == settings && entries == map[] && touches == map[]
    {
      this.settings, entries, touches := settings, map[], map[];
    }

    predicate Bounded()
      reads this
    {
      |entries| <= settings.capacity
    }

    method Lookup(hash: string, now: int) returns (r: Option<Outcome>)
      ensures r == LookUp(settings, entries, hash, now)
      ensures r == if settings.ttl > 0 && settings.capacity > 0 && hash in entries && now < entries[hash].expiresAt
                   then Some(entries[hash].outcome) else None
    {
      if !settings.IsEnabled() || hash !in entries {
        return None;
      }
      var entry := entries[hash];
      return if entry.expiresAt > now then Some(entry.outcome) else None;
    }

    method Store(hash: string, outcome: Outcome, now: int)
      requires Bounded()
      modifies this`entries
      ensures entries == Stored(settings, old(entries), hash, outcome, now) && Bounded()
      ensures settings.ttl == 0 || settings.capacity == 0 ==> entries == old(entries)
      ensures settings.ttl > 0 && settings.capacity > 0 ==>
                && hash in entries && entries[hash] == Entry(outcome, now + settings.ttl)
                && KeepsWhatFits(old(entries), entries, hash, settings.capacity, now)
    {
      if !settings.IsEnabled() {
        return;
      }
      assert Swept(entries, now).Keys == Live(entries, now);
      if |entries| >= settings.capacity {
        entries := Swept(entries, now);
        if |entries| >= settings.capacity {
          entries := map[];
        }
      }
      InsertGrowsByOne(entries, hash, Entry(outcome, now + settings.ttl));
      entries := entries[hash := Entry(outcome, now + settings.ttl)];
    }

    method InvalidateKey(key: nat)
      modifies this
      ensures entries == Without(old(entries), key) && touches == old(touches) - {key}
      ensures forall hash :: hash in entries <==>
                hash in old(entries) && !(old(entries)[hash].outcome.Resolved? && old(entries)[hash].outcome.key == key)
      ensures forall hash :: hash in entries ==> entries[hash] == old(entries)[hash]
      ensures old(Bounded()) ==> Bounded()
    {
      FewerEntries(entries, key);
      entries := Without(entries, key);
      touches := touches - {key};
    }

    method InvalidateAll()
      modifies this
      ensures entries == map[] && touches == map[]
    {
      entries, touches := map[], map[];
    }

    method ShouldTouch(key: nat, now: int) returns (granted: bool)
      modifies this`touches
      ensures granted <==> MayTouch(settings, old(touches), key, now)
      ensures granted <==> settings.touchInterval == 0 || key !in old(touches) || now - old(touches)[key] >= settings.touchInterval
      ensures !granted || settings.touchInterval == 0 ==> touches == old(touches)
      ensures granted && settings.touchInterval > 0 ==>
                && key in touches && touches[key] == now
                && forall other :: other != key ==>
                     && (other in touches <==>
                           && other in old(touches)
                           && (|old(touches)| < settings.capacity || old(touches) == map[]
                               || now - old(touches)[other] < settings.touchInterval))
                     && (other in touches ==> touches[other] == old(touches)[other])
      ensures touches == Touched(settings, old(touches), key, now)
    {
      if settings.touchInterval == 0 {
        return true;
      }
      if key in touches {
        if Since(touches[key], now) < settings.touchInterval {
          return false;
        }
      }
      if |touches| >= Bound(settings) {
        touches := WithinInterval(settings, touches, now);
      }
      touches := touches[key := now];
      return true;
    }
  }

  lemma InsertGrowsByOne<K, V>(m: map<K, V>, k: K, v: V)
    ensures |m[k := v]| <= |m| + 1
  {
  }

  lemma FewerEntries(entries: Entries, key: nat)
    ensures |Without(entries, key)| <= |entries|
  {
    assert Without(entries, key).Keys <= entries.Keys;
    SubsetIsSmaller(Without(entries, key).Keys, entries.Keys);
  }

  lemma {:induction false} SubsetIsSmaller<T>(a: set<T>, b: set<T>)
    requires a <= b
    ensures |a| <= |b|
    decreases |a|
  {
    if a != {} {
      var x :| x in a;
      SubsetIsSmaller(a - {x}, b - {x});
    }
  }

  // ------------------------------------------------------ many requests at once

  /** What the database would have answered for a hash at an instant: any history
    * of key creation, revocation and scope changes. */
  type Database = (int, string) -> Outcome

  /** A request under way: when it read the clock, whether the cache missed, and
    * what the database answered. */
  datatype Resolve = Resolve(hash: string, now: int, missed: bool, answer: Option<Outcome>)

  /** An answer from the cache, to a request that read the clock at `began`. */
  datatype Served = Served(hash: string, outcome: Outcome, began: int, at: int)

  datatype State = State(clock: int, entries: Entries, resolves: map<nat, Resolve>, served: seq<Served>)

  const IDLE := State(0, map[], map[], [])

  datatype Event =
    | Start(id: nat, hash: string)
    | Probe(id: nat)
    | Query(id: nat)
    | Finish(id: nat)
    | RevokeKey(key: nat)
    | RevokeAll
    | Tick(elapsed: nat)

  /** `resolve`: read the clock, probe the cache, serve a hit; on a miss read the
    * database some time later and store what it said under the first reading. */
  function Do(c: Settings, db: Database, s: State, e: Event): State {
    match e
    case Start(id, hash) =>
      if id in s.resolves then s else s.(resolves := s.resolves[id := Resolve(hash, s.clock, false, None)])
    case Probe(id) =>
      if id !in s.resolves || s.resolves[id].missed then s
      else
        var x := s.resolves[id];
        (match LookUp(c, s.entries, x.hash, x.now)
         case Some(outcome) =>
           s.(served := s.served + [Served(x.hash, outcome, x.now, s.clock)], resolves := s.resolves - {id})
         case None => s.(resolves := s.resolves[id := x.(missed := true)]))
    case Query(id) =>
      if id !in s.resolves || !s.resolves[id].missed then s
      else
        var x := s.resolves[id];
        s.(resolves := s.resolves[id := x.(answer := Some(db(s.clock, x.hash)))])
    case Finish(id) =>
      if id !in s.resolves || s.resolves[id].answer.None? then s
      else
        var x := s.resolves[id];
        s.(entries := Stored(c, s.entries, x.hash, x.answer.value, x.now), resolves := s.resolves - {id})
    case RevokeKey(key) => s.(entries := Without(s.entries, key))
    case RevokeAll => s.(entries := map[])
    case Tick(elapsed) => s.(clock := s.clock + elapsed)
  }

  function Execution(c: Settings, db: Database, events: seq<Event>): State {
    if events == [] then IDLE else Do(c, db, Execution(c, db, events[..|events| - 1]), events[|events| - 1])
  }

  /** The database said so at some instant of an interval. */
  ghost predicate WasTrue(db: Database, hash: string, outcome: Outcome, from: int, to: int) {
    exists i: int :: from <= i <= to && db(i, hash) == outcome
  }

  ghost predicate EntriesRecent(c: Settings, db: Database, entries: Entries, clock: int) {
    forall hash :: hash in entries ==> WasTrue(db, hash, entries[hash].outcome, entries[hash].expiresAt - c.ttl, clock)
  }

  ghost predicate Recent(c: Settings, db: Database, s: State) {
    && EntriesRecent(c, db, s.entries, s.clock)
    && (forall id :: id in s.resolves ==>
          && s.resolves[id].now <= s.clock
          && (s.resolves[id].answer.Some? ==>
                WasTrue(db, s.resolves[id].hash, s.resolves[id].answer.value, s.resolves[id].now, s.clock)))
    && (forall x :: x in s.served ==>
          x.began <= x.at <= s.clock && WasTrue(db, x.hash, x.outcome, x.began - c.ttl + 1, x.at))
    && (c.capacity > 0 ==> |s.entries| <= c.capacity)
  }

  lemma TrueNow(db: Database, hash: string, from: int, clock: int)
    requires from <= clock
    ensures WasTrue(db, hash, db(clock, hash), from, clock)
  {
  }

  lemma StepKeeps(c: Settings, db: Database, s: State, e: Event)
    requires Recent(c, db, s)
    ensures Recent(c, db, Do(c, db, s, e))
  {
    match e
    case Start(_, _) =>
    case Probe(id) => ProbeKeeps(c, db, s, id);
    case Query(id) =>
      if id in s.resolves {
        TrueNow(db, s.resolves[id].hash, s.resolves[id].now, s.clock);
      }
      hide WasTrue;
      assert Recent(c, db, Do(c, db, s, e));
    case Finish(id) => FinishKeeps(c, db, s, id);
    case RevokeKey(key) => FewerEntries(s.entries, key);
    case RevokeAll =>
    case Tick(elapsed) => TickKeeps(c, db, s, elapsed);
  }

  lemma ProbeKeeps(c: Settings, db: Database, s: State, id: nat)
    requires Recent(c, db, s)
    ensures Recent(c, db, Do(c, db, s, Probe(id)))
  {
  }

  lemma FinishKeeps(c: Settings, db: Database, s: State, id: nat)
    requires Recent(c, db, s)
    ensures Recent(c, db, Do(c, db, s, Finish(id)))
  {
  }

  lemma TickKeeps(c: Settings, db: Database, s: State, elapsed: nat)
    requires Recent(c, db, s)
    ensures Recent(c, db, Do(c, db, s, Tick(elapsed)))
  {
  }

  lemma {:induction false} AlwaysRecent(c: Settings, db: Database, events: seq<Event>)
    ensures Recent(c, db, Execution(c, db, events))
  {
    if events == [] {
    } else {
      hide Recent, Do;
      AlwaysRecent(c, db, events[..|events| - 1]);
      StepKeeps(c, db, Execution(c, db, events[..|events| - 1]), events[|events| - 1]);
    }
  }

  /** Every answer served from the cache to a request that began at time `t` was
    * the database's own answer at some instant after `t - ttl` and not later than
    * the answer, whatever was revoked, invalidated or read late in between; and
    * the cache never outgrows its capacity. */
  lemma CachedAnswersAreRecent(c: Settings, db: Database, events: seq<Event>, x: Served)
    requires x in Execution(c, db, events).served
    ensures exists i: int :: x.began - c.ttl < i <= x.at && db(i, x.hash) == x.outcome
    ensures c.capacity > 0 ==> |Execution(c, db, events).entries| <= c.capacity
  {
    hide Execution;
    AlwaysRecent(c, db, events);
    var i: int :| x.began - c.ttl + 1 <= i <= x.at && db(i, x.hash) == x.outcome;
  }

  // ------------------------------------------------------------- revocation

  /** Nothing that could still answer with this key is cached or on its way. */
  predicate Forgotten(s: State, key: nat) {
    && (forall hash :: hash in s.entries ==> !ResolvesTo(s.entries[hash], key))
    && (forall id :: id in s.resolves ==> s.resolves[id].answer != None ==> !IsKey(s.resolves[id].answer.value, key))
  }

  predicate IsKey(outcome: Outcome, key: nat) {
    outcome.Resolved? && outcome.key == key
  }

  /** Once a key is revoked in the database and invalidated here, and no request
    * had read it before the revocation, it is never served again. */
  lemma {:induction false} RevocationIsFinal(c: Settings, db: Database, events: seq<Event>, more: seq<Event>, key: nat)
    requires Forgotten(Execution(c, db, events), key)
    requires forall i, hash :: i >= Execution(c, db, events).clock ==> !IsKey(db(i, hash), key)
    ensures Forgotten(Execution(c, db, events + more), key)
    ensures Execution(c, db, events + more).clock >= Execution(c, db, events).clock
    ensures forall x :: x in Execution(c, db, events + more).served && x !in Execution(c, db, events).served ==> !IsKey(x.outcome, key)
    decreases |more|
  {
    if more == [] {
      assert events + more == events;
    } else {
      hide Do, Forgotten, LookUp;
      var most := more[..|more| - 1];
      RevocationIsFinal(c, db, events, most, key);
      assert (events + more)[..|events + more| - 1] == events + most;
      ForgottenKept(c, db, Execution(c, db, events + most), more[|more| - 1], key);
    }
  }

  lemma ForgottenKept(c: Settings, db: Database, s: State, e: Event, key: nat)
    requires Forgotten(s, key) && forall hash :: !IsKey(db(s.clock, hash), key)
    ensures var next := Do(c, db, s, e);
            && Forgotten(next, key) && next.clock >= s.clock
            && forall x :: x in next.served && x !in s.served ==> !IsKey(x.outcome, key)
  {
  }

  /** The invalidation the revoke handler makes, of the key or of everything, brings
    * that about exactly when no request under way has read the key from the
    * database, and leaves what is cached of other keys alone. */
  lemma InvalidationForgets(c: Settings, db: Database, s: State, key: nat)
    ensures Forgotten(Do(c, db, s, RevokeKey(key)), key)
            <==> forall id :: id in s.resolves && s.resolves[id].answer.Some? ==> !IsKey(s.resolves[id].answer.value, key)
    ensures Forgotten(Do(c, db, s, RevokeAll), key) <==> Forgotten(Do(c, db, s, RevokeKey(key)), key)
    ensures forall hash :: hash in s.entries && !IsKey(s.entries[hash].outcome, key) ==>
              hash in Do(c, db, s, RevokeKey(key)).entries && Do(c, db, s, RevokeKey(key)).entries[hash] == s.entries[hash]
  {
    assert Do(c, db, s, RevokeKey(key)).resolves == s.resolves == Do(c, db, s, RevokeAll).resolves;
  }

  /** A request that read the database before the revocation stores after the
    * invalidation. Some time later another one comes with the same hash, reads the
    * clock, and looks into the cache after a pause. */
  function LateStore(id: nat, key: nat, elapsed: nat, asker: nat, hash: string, pause: nat): seq<Event> {
    [RevokeKey(key), Finish(id), Tick(elapsed), Start(asker, hash), Tick(pause), Probe(asker)]
  }

  lemma Extend(c: Settings, db: Database, events: seq<Event>, e: Event)
    ensures Execution(c, db, events + [e]) == Do(c, db, Execution(c, db, events), e)
  {
    hide Do;
  }

  lemma LateStoreSteps(c: Settings, db: Database, events: seq<Event>, id: nat, key: nat, elapsed: nat, asker: nat, hash: string, pause: nat)
    ensures var stored := Do(c, db, Do(c, db, Execution(c, db, events), RevokeKey(key)), Finish(id));
            Execution(c, db, events + LateStore(id, key, elapsed, asker, hash, pause))
            == Do(c, db, Do(c, db, Do(c, db, Do(c, db, stored, Tick(elapsed)), Start(asker, hash)), Tick(pause)), Probe(asker))
  {
    hide Do, Execution;
    var es := LateStore(id, key, elapsed, asker, hash, pause);
    Extend(c, db, events, es[0]);
    Extend(c, db, events + [es[0]], es[1]);
    Extend(c, db, events + [es[0]] + [es[1]], es[2]);
    Extend(c, db, events + [es[0]] + [es[1]] + [es[2]], es[3]);
    Extend(c, db, events + [es[0]] + [es[1]] + [es[2]] + [es[3]], es[4]);
    Extend(c, db, events + [es[0]] + [es[1]] + [es[2]] + [es[3]] + [es[4]], es[5]);
    assert events + [es[0]] + [es[1]] + [es[2]] + [es[3]] + [es[4]] + [es[5]] == events + es;
  }

  /** Such a late store undoes the invalidation. Whatever the database says by then,
    * the other request is served the revoked key from the cache exactly if it read
    * the clock before the TTL, counted from the clock reading of the request that
    * stored it, was over. */
  lemma LateStoreRevivesTheKey(c: Settings, db: Database, events: seq<Event>, id: nat, key: nat, elapsed: nat, asker: nat, pause: nat)
    requires var s := Execution(c, db, events);
             && id in s.resolves && s.resolves[id].answer.Some? && IsKey(s.resolves[id].answer.value, key) && asker !in s.resolves
    ensures var s := Execution(c, db, events);
            var x, later := s.resolves[id], s.clock + elapsed;
            Execution(c, db, events + LateStore(id, key, elapsed, asker, x.hash, pause)).served
            == s.served + if c.IsEnabled() && later < x.now + c.ttl then [Served(x.hash, x.answer.value, later, later + pause)] else []
  {
    hide Execution;
    var s := Execution(c, db, events);
    var x := s.resolves[id];
    LateStoreSteps(c, db, events, id, key, elapsed, asker, x.hash, pause);
    var stored := Do(c, db, Do(c, db, s, RevokeKey(key)), Finish(id));
    Revived(c, db, s, id, key);
    hide LookUp;
    Asked(c, db, stored, elapsed, asker, x.hash, pause);
  }

  lemma Revived(c: Settings, db: Database, s: State, id: nat, key: nat)
    requires id in s.resolves && s.resolves[id].answer.Some?
    ensures var x, t := s.resolves[id], Do(c, db, Do(c, db, s, RevokeKey(key)), Finish(id));
            && t.clock == s.clock && t.served == s.served && t.resolves == s.resolves - {id}
            && forall now :: LookUp(c, t.entries, x.hash, now)
                             == if c.IsEnabled() && now < x.now + c.ttl then Some(x.answer.value) else None
  {
    hide Room, Without;
  }

  lemma Asked(c: Settings, db: Database, s: State, elapsed: nat, asker: nat, hash: string, pause: nat)
    requires asker !in s.resolves
    ensures var later := s.clock + elapsed;
            var answer := LookUp(c, s.entries, hash, later);
            Do(c, db, Do(c, db, Do(c, db, Do(c, db, s, Tick(elapsed)), Start(asker, hash)), Tick(pause)), Probe(asker)).served
            == s.served + if answer.Some? then [Served(hash, answer.value, later, later + pause)] else []
  {
    hide LookUp;
  }

  // ---------------------------------------------------------------- touches

  datatype TouchEvent = Touch(key: nat, now: int) | Forget(key: nat) | ForgetAll

  function TouchesAfter(c: Settings, events: seq<TouchEvent>): Touches {
    if events == [] then map[]
    else
      var before := TouchesAfter(c, events[..|events| - 1]);
      match events[|events| - 1]
      case Touch(key, now) => Touched(c, before, key, now)
      case Forget(key) => before - {key}
      case ForgetAll => map[]
  }

  /** When the key was last granted a touch since it was last invalidated. */
  function LastGrant(c: Settings, events: seq<TouchEvent>, key: nat): Option<int> {
    if events == [] then None
    else
      var earlier := events[..|events| - 1];
      match events[|events| - 1]
      case Touch(k, now) => if k == key && MayTouch(c, TouchesAfter(c, earlier), k, now) then Some(now) else LastGrant(c, earlier, key)
      case Forget(k) => if k == key then None else LastGrant(c, earlier, key)
      case ForgetAll => None
  }

  predicate InOrder(events: seq<TouchEvent>) {
    forall i, j :: 0 <= i < j < |events| && events[i].Touch? && events[j].Touch? ==> events[i].now <= events[j].now
  }

  lemma {:induction false} GrantsAreRemembered(c: Settings, events: seq<TouchEvent>, key: nat, now: int)
    requires c.touchInterval > 0 && InOrder(events) && forall i :: 0 <= i < |events| && events[i].Touch? ==> events[i].now <= now
    ensures LastGrant(c, events, key).Some? ==>
              var last := LastGrant(c, events, key).value;
              last <= now && if key in TouchesAfter(c, events) then TouchesAfter(c, events)[key] == last else now - last >= c.touchInterval
    ensures key in TouchesAfter(c, events) ==> LastGrant(c, events, key).Some?
  {
    if events != [] {
      var earlier, e := events[..|events| - 1], events[|events| - 1];
      GrantsAreRemembered(c, earlier, key, if e.Touch? then e.now else now);
    }
  }

  /** With calls in time order, two granted touches of one key without an
    * invalidation between them are at least the interval apart. */
  lemma GrantsAreSpaced(c: Settings, events: seq<TouchEvent>, key: nat, now: int)
    requires InOrder(events + [Touch(key, now)]) && MayTouch(c, TouchesAfter(c, events), key, now)
    ensures LastGrant(c, events, key).Some? ==> now - LastGrant(c, events, key).value >= c.touchInterval
  {
    var all := events + [Touch(key, now)];
    forall i, j | 0 <= i < j < |events| && events[i].Touch? && events[j].Touch? ensures events[i].now <= events[j].now {
      assert all[i] == events[i] && all[j] == events[j];
    }
    forall i | 0 <= i < |events| && events[i].Touch? ensures events[i].now <= now {
      assert all[i] == events[i] && all[|events|] == Touch(key, now);
    }
    if c.touchInterval > 0 {
      GrantsAreRemembered(c, events, key, now);
    } else {
      LastGrantInPast(c, events, key, now);
    }
  }

  lemma {:induction false} LastGrantInPast(c: Settings, events: seq<TouchEvent>, key: nat, now: int)
    requires forall i :: 0 <= i < |events| && events[i].Touch? ==> events[i].now <= now
    ensures LastGrant(c, events, key).Some? ==> LastGrant(c, events, key).value <= now
  {
    if events != [] {
      LastGrantInPast(c, events[..|events| - 1], key, now);
    }
  }

  lemma {:induction false} KeptGrantIsTheLast(c: Settings, events: seq<TouchEvent>, key: nat)
    requires c.touchInterval > 0 && key in TouchesAfter(c, events)
    ensures LastGrant(c, events, key) == Some(TouchesAfter(c, events)[key])
  {
    var earlier := events[..|events| - 1];
    if key in TouchesAfter(c, earlier) {
      KeptGrantIsTheLast(c, earlier, key);
    }
  }

  lemma {:induction false} NothingKeptUnthrottled(c: Settings, events: seq<TouchEvent>)
    requires c.touchInterval == 0
    ensures TouchesAfter(c, events) == map[]
  {
    if events != [] {
      NothingKeptUnthrottled(c, events[..|events| - 1]);
    }
  }

  /** In any order of calls, a touch that would come too early is granted exactly
    * when the table no longer remembers the key. */
  lemma EarlyExactlyWhenForgotten(c: Settings, events: seq<TouchEvent>, key: nat, now: int)
    requires LastGrant(c, events, key).Some? && now - LastGrant(c, events, key).value < c.touchInterval
    ensures MayTouch(c, TouchesAfter(c, events), key, now) <==> key !in TouchesAfter(c, events)
  {
    if c.touchInterval == 0 {
      NothingKeptUnthrottled(c, events);
    } else if key in TouchesAfter(c, events) {
      KeptGrantIsTheLast(c, events, key);
    }
  }

  // -------------------------------------------------- the size of the touch table

  predicate AllWithinInterval(c: Settings, touches: Touches, now: int) {
    forall k :: k in touches ==> Since(touches[k], now) < c.touchInterval
  }

  /** A table at its bound grows, by one, exactly when a key it does not know comes
    * while it remembers nothing but touches within the interval. */
  lemma FullTableGrowsIff(c: Settings, touches: Touches, key: nat, now: int)
    requires |touches| >= Bound(c)
    ensures |Touched(c, touches, key, now)| > |touches| <==>
              c.touchInterval > 0 && key !in touches && AllWithinInterval(c, touches, now)
    ensures |Touched(c, touches, key, now)| <= |touches| + 1
  {
    var kept := WithinInterval(c, touches, now);
    KeptSize(c, touches, now);
    if c.touchInterval > 0 && MayTouch(c, touches, key, now) {
      assert key !in kept && kept[key := now].Keys == kept.Keys + {key};
      assert |kept[key := now]| == |kept| + 1;
    }
  }

  lemma KeptSize(c: Settings, touches: Touches, now: int)
    ensures |WithinInterval(c, touches, now)| <= |touches|
    ensures |WithinInterval(c, touches, now)| == |touches| <==> AllWithinInterval(c, touches, now)
  {
    var kept := WithinInterval(c, touches, now);
    assert kept.Keys <= touches.Keys;
    SubsetIsSmaller(kept.Keys, touches.Keys);
    if |kept| == |touches| {
      SameSizeSubset(kept.Keys, touches.Keys);
      assert forall k :: k in touches ==> k in kept.Keys;
    }
    if AllWithinInterval(c, touches, now) {
      assert kept == touches;
    }
  }

  lemma SameSizeSubset<T>(a: set<T>, b: set<T>)
    requires a <= b && |a| == |b|
    ensures a == b
  {
    if a != b {
      var x :| x in b && x !in a;
      SubsetIsSmaller(a, b - {x});
    }
  }

  /** The first `n` keys, all touched at one instant. */
  function Fill(n: nat): seq<TouchEvent> {
    if n == 0 then [] else Fill(n - 1) + [Touch(n - 1, 0)]
  }

  /** Exactly the first `n` keys are remembered, as touched at the start. */
  ghost predicate AllTouched(touches: Touches, n: nat) {
    forall k: nat :: (k in touches <==> k < n) && (k in touches ==> touches[k] == 0)
  }

  lemma NextKey(touches: Touches, n: nat)
    requires AllTouched(touches, n)
    ensures AllTouched(touches[n := 0], n + 1) && |touches[n := 0]| == |touches| + 1
  {
    assert touches[n := 0].Keys == touches.Keys + {n};
  }

  /** Nothing bounds the table: `n` keys touched within one interval are all kept,
    * however small the capacity. */
  lemma {:induction false} TouchTableIsUnbounded(c: Settings, n: nat)
    requires c.touchInterval > 0
    ensures AllTouched(TouchesAfter(c, Fill(n)), n) && |TouchesAfter(c, Fill(n))| == n
    ensures forall k: nat :: k < n ==> LastGrant(c, Fill(n), k) == Some(0)
  {
    if n > 0 {
      hide Touched, LastGrant, TouchesAfter, Fill, MayTouch;
      TouchTableIsUnbounded(c, n - 1);
      var before := TouchesAfter(c, Fill(n - 1));
      FillGrows(n);
      TouchesStep(c, Fill(n));
      OneMoreTouch(c, before, n - 1);
      NextKey(before, n - 1);
      hide AllTouched;
      forall k: nat | k < n ensures LastGrant(c, Fill(n), k) == Some(0) {
        LastGrantStep(c, Fill(n), k);
      }
    }
  }

  lemma OneMoreTouch(c: Settings, touches: Touches, key: nat)
    requires c.touchInterval > 0 && key !in touches && forall k :: k in touches ==> touches[k] == 0
    ensures MayTouch(c, touches, key, 0) && Touched(c, touches, key, 0) == touches[key := 0]
  {
    assert WithinInterval(c, touches, 0) == touches;
  }

  lemma TouchesStep(c: Settings, events: seq<TouchEvent>)
    requires events != [] && events[|events| - 1].Touch?
    ensures var e := events[|events| - 1];
            TouchesAfter(c, events) == Touched(c, TouchesAfter(c, events[..|events| - 1]), e.key, e.now)
  {
  }

  lemma FillGrows(n: nat)
    requires n > 0
    ensures |Fill(n)| == n && Fill(n)[..n - 1] == Fill(n - 1) && Fill(n)[n - 1] == Touch(n - 1, 0)
  {
    FillLength(n - 1);
  }

  lemma LastGrantStep(c: Settings, events: seq<TouchEvent>, key: nat)
    requires events != [] && events[|events| - 1].Touch?
    ensures var earlier, e := events[..|events| - 1], events[|events| - 1];
            LastGrant(c, events, key) == if e.key == key && MayTouch(c, TouchesAfter(c, earlier), key, e.now)
                                         then Some(e.now) else LastGrant(c, earlier, key)
  {
  }

  lemma {:induction false} FillLength(n: nat)
    ensures |Fill(n)| == n
  {
    if n > 0 {
      FillLength(n - 1);
    }
  }

  /** Time order is needed, whatever the capacity: a full table forgets its keys
    * once their interval is over, and a request that read the clock before that,
    * here at the very instant of the first grant, is then granted again. */
  lemma LateCallerIsGrantedEarly(c: Settings)
    requires c.touchInterval > 0
    ensures var events := Fill(Bound(c)) + [Touch(Bound(c), c.touchInterval)];
            LastGrant(c, events, 0) == Some(0) && MayTouch(c, TouchesAfter(c, events), 0, 0)
  {
    var n := Bound(c);
    var events, full := Fill(n) + [Touch(n, c.touchInterval)], TouchesAfter(c, Fill(n));
    TouchTableIsUnbounded(c, n);
    assert events[..|events| - 1] == Fill(n);
    assert forall k :: k in full ==> Since(full[k], c.touchInterval) == c.touchInterval;
    assert 0 !in TouchesAfter(c, events);
    LastGrantStep(c, events, 0);
  }
}
