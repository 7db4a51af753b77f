/** Any number of the engine's transactions at once, interleaved statement by
  * statement on a READ COMMITTED database with row locks. Every reachable state
  * of the tables is the result of some one-after-the-other run, and the
  * transactions never deadlock. */
module Concurrency {
  import opened Prelude
  import opened Monetary
  import opened Fees
  import opened Ledger
  import opened Gateway
  import opened Effects
  import opened Changes
  import opened Books
  import opened Invariants
  import opened Runs

  // ------------------------------------------------------------- the machine

  /** What a transaction can make another one wait for. */
  datatype Lock = PaymentLock(payment: Id) | OrderLock(order: Id) | AccountKey(account: Account)

  datatype Phase =
    | LockingPayment
    | LockingOrder(payment: Option<PaymentRow>)
    | Summing(locked: PaymentRow)
    | Writing(statements: seq<Write>, done: nat)

  datatype Txn = Txn(request: Request, phase: Phase, locks: set<Lock>)

  /** Committed tables, open transactions by request number, and the requests
    * committed so far in commit order. Uncommitted statements are visible to
    * nobody else. */
  datatype State = State(db: Tables, active: map<nat, Txn>, history: seq<Request>)

  const START := State(EMPTY, map[], [])

  datatype Event =
    | Begin(request: Request)
    | TakeLock(tx: nat)
    | Sum(tx: nat)
    | Statement(tx: nat)
    | Commit(tx: nat)
    | Abort(tx: nat)

  predicate Free(s: State, t: nat, lock: Lock) {
    forall u :: u in s.active && u != t ==> lock !in s.active[u].locks
  }

  /** The lock a statement takes: updates lock their row, unless this transaction
    * inserted it; creating a merchant account claims its unique key. */
  function StatementLock(db: Tables, number: nat, w: Write): Option<Lock> {
    match w
    case UpdatePayment(id, _, _, _, _) => if id.request == number then None else Some(PaymentLock(id))
    case UpdateOrder(id, _, _) => if id.request == number then None else Some(OrderLock(id))
    case EnsureAccount(a) => if a in db.accounts then None else Some(AccountKey(a))
    case _ => None
  }

  /** The lock the next step of a transaction needs and does not have. */
  function Wants(s: State, t: nat): Option<Lock>
    requires t in s.active
  {
    var x := s.active[t];
    match x.phase
    case LockingPayment =>
      if x.request.action.CapturePayment? || x.request.action.RefundPayment?
      then Some(PaymentLock(x.request.action.payment)) else None
    case LockingOrder(Some(p)) => Some(OrderLock(p.order))
    case LockingOrder(None) => if x.request.action.CreatePayment? then Some(OrderLock(x.request.action.order)) else None
    case Summing(_) => None
    case Writing(ws, done) =>
      if done >= |ws| then None
      else
        var lock := StatementLock(s.db, t, ws[done]);
        if lock.Some? && lock.value in x.locks then None else lock
  }

  predicate Enabled(s: State, e: Event) {
    match e
    case Begin(r) => r.number !in s.active && r.number !in s.db.used
    case TakeLock(t) =>
      && t in s.active && (s.active[t].phase.LockingPayment? || s.active[t].phase.LockingOrder?)
      && (Wants(s, t).Some? ==> Free(s, t, Wants(s, t).value))
    case Sum(t) => t in s.active && s.active[t].phase.Summing?
    case Statement(t) =>
      && t in s.active && s.active[t].phase.Writing? && s.active[t].phase.done < |s.active[t].phase.statements|
      && (Wants(s, t).Some? ==> Free(s, t, Wants(s, t).value))
    case Commit(t) =>
      t in s.active && s.active[t].phase.Writing? && s.active[t].phase.done == |s.active[t].phase.statements|
    case Abort(t) => t in s.active
  }

  function Drop(s: State, t: nat): State {
    s.(active := s.active - {t})
  }

  function With(s: State, t: nat, x: Txn): State {
    s.(active := s.active[t := x])
  }

  /** The tables, and the run they stand for, after a transaction's statements. */
  ghost function CommitOf(s: State, r: Request, ws: seq<Write>): State {
    State(ApplyAll(s.db, ws).(used := s.db.used + {r.number}), s.active - {r.number}, s.history + [r])
  }

  /** Continue with the planned statements, or roll back on a refusal. */
  function WriteOrDrop(s: State, t: nat, r: Request, locks: set<Lock>, plan: Result<seq<Write>, EngineError>): State {
    match plan
    case Ok(ws) => With(s, t, Txn(r, Writing(ws, 0), locks))
    case Err(_) => Drop(s, t)
  }

  /** Creating an order is one INSERT of its own, committed or refused at once. */
  ghost function Start(s: State, r: Request): State {
    match r.action
    case CreateOrder(_, _, _, _) =>
      (match PlanCreateOrder(r, s.db.orders)
       case Ok(ws) => CommitOf(s, r, ws)
       case Err(_) => s)
    case CreatePayment(_, _, _, _, _) => With(s, r.number, Txn(r, LockingOrder(None), {}))
    case _ => With(s, r.number, Txn(r, LockingPayment, {}))
  }

  ghost function Locked(s: State, t: nat): State
    requires t in s.active
  {
    var x := s.active[t];
    match x.phase
    case LockingPayment =>
      if x.request.action.CapturePayment? then
        (var pid := x.request.action.payment;
         match CheckCapturable(x.request, Find(s.db.payments, pid))
         case Ok(p) => With(s, t, Txn(x.request, LockingOrder(Some(p)), x.locks + {PaymentLock(pid)}))
         case Err(_) => Drop(s, t))
      else if x.request.action.RefundPayment? then
        (var pid := x.request.action.payment;
         match CheckRefundable(x.request, Find(s.db.payments, pid))
         case Ok(p) => With(s, t, Txn(x.request, Summing(p), x.locks + {PaymentLock(pid)}))
         case Err(_) => Drop(s, t))
      else s
    case LockingOrder(Some(p)) =>
      if x.request.action.CapturePayment? then
        WriteOrDrop(s, t, x.request, x.locks + {OrderLock(p.order)}, PlanCapture(x.request, p, Find(s.db.orders, p.order)))
      else s
    case LockingOrder(None) =>
      if x.request.action.CreatePayment? then
        var oid := x.request.action.order;
        WriteOrDrop(s, t, x.request, x.locks + {OrderLock(oid)}, PlanCreatePayment(x.request, Find(s.db.orders, oid)))
      else s
    case _ => s
  }

  ghost function Do(s: State, e: Event): State {
    if !Enabled(s, e) then s
    else match e
      case Begin(r) => Start(s, r)
      case TakeLock(t) => Locked(s, t)
      case Sum(t) =>
        var x := s.active[t];
        if x.request.action.RefundPayment? then
          WriteOrDrop(s, t, x.request, x.locks,
                      PlanRefund(x.request, x.phase.locked, SumForPayment(s.db.refunds, x.request.action.payment)))
        else s
      case Statement(t) =>
        var x := s.active[t];
        var taken := if Wants(s, t).Some? then {Wants(s, t).value} else {};
        With(s, t, Txn(x.request, x.phase.(done := x.phase.done + 1), x.locks + taken))
      case Commit(t) =>
        var x := s.active[t];
        CommitOf(s, x.request, x.phase.statements)
      case Abort(t) => Drop(s, t)
  }

  ghost function Execution(events: seq<Event>): State {
    if events == [] then START else Do(Execution(events[..|events| - 1]), events[|events| - 1])
  }

  // ------------------------------------------------- what statements touch

  /** A row touched by a request is one it has locked or one it inserts itself. */
  predicate Allowed(number: nat, locks: set<Lock>, w: Write) {
    match w
    case InsertOrder(id, _) => id.request == number
    case InsertPayment(id, _) => id.request == number
    case UpdateOrder(id, _, _) => OrderLock(id) in locks || id.request == number
    case UpdatePayment(id, _, _, _, _) => PaymentLock(id) in locks || id.request == number
    case InsertRefund(f) => PaymentLock(f.payment) in locks
    case _ => true
  }

  predicate AllAllowed(number: nat, locks: set<Lock>, ws: seq<Write>) {
    forall w :: w in ws ==> Allowed(number, locks, w)
  }

  /** Statements that only append to a log. */
  predicate Appends(w: Write) {
    w.Post? || w.InsertEvent? || w.InsertDelivery? || w.EnqueueJob? || w.InsertAttempt?
  }

  predicate AllAppend(ws: seq<Write>) {
    forall w :: w in ws ==> Appends(w)
  }

  predicate NoAccount(ws: seq<Write>) {
    forall w :: w in ws ==> !w.EnsureAccount?
  }

  predicate OneAccountAtMost(ws: seq<Write>) {
    forall i, j :: 0 <= i < j < |ws| ==> !(ws[i].EnsureAccount? && ws[j].EnsureAccount?)
  }

  /** Statements within the locks that create no account. */
  predicate Local(number: nat, locks: set<Lock>, ws: seq<Write>) {
    AllAllowed(number, locks, ws) && NoAccount(ws)
  }

  lemma LocalConcat(number: nat, locks: set<Lock>, a: seq<Write>, b: seq<Write>)
    requires Local(number, locks, a) && Local(number, locks, b)
    ensures Local(number, locks, a + b)
  {
  }

  lemma AppendsAreLocal(number: nat, locks: set<Lock>, ws: seq<Write>)
    requires AllAppend(ws)
    ensures Local(number, locks, ws)
  {
  }

  lemma OneAccountBetween(number: nat, locks: set<Lock>, a: seq<Write>, account: Account, b: seq<Write>)
    requires Local(number, locks, a) && Local(number, locks, b)
    ensures AllAllowed(number, locks, a + [EnsureAccount(account)] + b)
    ensures OneAccountAtMost(a + [EnsureAccount(account)] + b)
  {
  }

  lemma NoAccountAtAll(ws: seq<Write>)
    requires NoAccount(ws)
    ensures OneAccountAtMost(ws)
  {
  }

  lemma {:induction false} FanOutAppends(event: Id, kind: EventKind, endpoints: seq<Endpoint>, slot: nat, now: Time)
    ensures AllAppend(FanOut(event, kind, endpoints, slot, now))
    decreases |endpoints|
  {
    if endpoints != [] {
      FanOutAppends(event, kind, endpoints[1..], slot + 1, now);
    }
  }

  lemma {:induction false} EmitAllAppends(r: Request, n: nat, kinds: seq<EventKind>)
    ensures AllAppend(EmitAll(r, n, kinds))
    decreases |kinds|
  {
    if kinds != [] {
      FanOutAppends(Id(r.number, n), kinds[0], r.endpoints, 0, r.now);
      EmitAllAppends(r, n + 1, kinds[1..]);
    }
  }

  lemma {:induction false} PostsAppend(ts: seq<BalancedTransaction>)
    ensures AllAppend(Posts(ts))
  {
    if ts != [] {
      PostsAppend(ts[1..]);
    }
  }

  /** The row locks under which a request writes. */
  function PlanLocks(db: Tables, r: Request): set<Lock> {
    match r.action
    case CreateOrder(_, _, _, _) => {}
    case CreatePayment(oid, _, _, _, _) => {OrderLock(oid)}
    case CapturePayment(pid) => {PaymentLock(pid)} + if pid in db.payments then {OrderLock(db.payments[pid].order)} else {}
    case RefundPayment(pid, _, _) => {PaymentLock(pid)}
  }

  ghost predicate Disciplined(db: Tables, r: Request, ws: seq<Write>) {
    AllAllowed(r.number, PlanLocks(db, r), ws) && OneAccountAtMost(ws)
  }

  lemma SettleIsDisciplined(number: nat, locks: set<Lock>, r: Request, pid: Id, p: PaymentRow, before: seq<Write>, after: seq<Write>)
    requires p.amount.minor > 0 && OrderLock(p.order) in locks && (PaymentLock(pid) in locks || pid.request == number)
    requires Local(number, locks, before) && AllAppend(after)
    ensures AllAllowed(number, locks, before + SettleWrites(r, pid, p) + after)
    ensures OneAccountAtMost(before + SettleWrites(r, pid, p) + after)
  {
    hide CaptureTransactions;
    var rows := [UpdatePayment(pid, Captured, Some(r.now), p.amountRefunded, None), UpdateOrder(p.order, Paid, p.amount.minor)];
    var account := Pending(p.merchant, p.amount.currency);
    var posts, events := Posts(CaptureTransactions(p.merchant, p.amount)), EmitAll(r, 1, [PaymentWasCaptured(pid), OrderWasPaid(p.order)]);
    PostsAppend(CaptureTransactions(p.merchant, p.amount));
    EmitAllAppends(r, 1, [PaymentWasCaptured(pid), OrderWasPaid(p.order)]);
    assert Local(number, locks, rows);
    SettleTailIsLocal(number, locks, posts, events, after);
    hide Local, Posts, EmitAll, AllAllowed, AllAppend, OneAccountAtMost;
    LocalConcat(number, locks, before, rows);
    OneAccountBetween(number, locks, before + rows, account, posts + events + after);
    assert before + SettleWrites(r, pid, p) + after == (before + rows) + [EnsureAccount(account)] + (posts + events + after);
  }

  lemma SettleTailIsLocal(number: nat, locks: set<Lock>, a: seq<Write>, b: seq<Write>, c: seq<Write>)
    requires AllAppend(a) && AllAppend(b) && AllAppend(c)
    ensures Local(number, locks, a + b + c)
  {
  }

  lemma CreatePaymentIsDisciplined(db: Tables, r: Request, ws: seq<Write>)
    requires Sound(db) && Accepts(db, r) && r.action.CreatePayment? && Plan(db, r) == Ok(ws)
    ensures Disciplined(db, r, ws)
  {
    hide SettleWrites, Plan, EmitAll;
    CreatePaymentPlan(db, r);
    var pid := Id(r.number, 0);
    var p := NewPayment(r, r.action.order, db.orders[r.action.order].(status := Attempted));
    var start, rest := StartWrites(db, r), OutcomeWrites(r, pid, p, r.action.outcome);
    EmitAllAppends(r, 1, [PaymentWasAuthorized(pid)]);
    EmitAllAppends(r, 1, [PaymentHasFailed(pid)]);
    match r.action.outcome
    case Capture =>
      SettleIsDisciplined(r.number, PlanLocks(db, r), r, pid, p, start, []);
      assert ws == start + SettleWrites(r, pid, p) + [];
    case CaptureThenDispute =>
      var job := [EnqueueJob(JobRow(OpenDispute(pid), r.now + 60, 3))];
      SettleIsDisciplined(r.number, PlanLocks(db, r), r, pid, p, start, job);
      Associative(start, SettleWrites(r, pid, p), job);
    case _ => NoAccountAtAll(ws);
  }

  lemma CaptureIsDisciplined(db: Tables, r: Request, ws: seq<Write>)
    requires Sound(db) && Accepts(db, r) && r.action.CapturePayment? && Plan(db, r) == Ok(ws)
    ensures Disciplined(db, r, ws)
  {
    hide SettleWrites, PlanSettle;
    var pid := r.action.payment;
    var p := db.payments[pid];
    SettleSucceeds(r, pid, p, db.orders[p.order]);
    SettleIsDisciplined(r.number, PlanLocks(db, r), r, pid, p, [], []);
    assert ws == [] + SettleWrites(r, pid, p) + [];
  }

  lemma RefundWritesAreDisciplined(number: nat, locks: set<Lock>, r: Request, p: PaymentRow)
    requires MayRefund(r, p) && PaymentLock(r.action.payment) in locks
    ensures AllAllowed(number, locks, RefundWrites(r, p)) && OneAccountAtMost(RefundWrites(r, p))
  {
    hide RefundTransactions, FeeOf;
    var q, account := AfterRefund(r, p), Pending(r.merchant, p.amount.currency);
    var ts, kinds := RefundTransactions(r.merchant, p.amount, p.amountRefunded, q.amountRefunded), [RefundWasProcessed(Id(r.number, 0))];
    PostsAppend(ts);
    EmitAllAppends(r, 1, kinds);
    var row := [InsertRefund(RefundRowFor(r, p))];
    var update := [UpdatePayment(r.action.payment, q.status, p.capturedAt, q.amountRefunded, None)];
    assert Local(number, locks, row) && Local(number, locks, update);
    AppendsAreLocal(number, locks, Posts(ts));
    AppendsAreLocal(number, locks, EmitAll(r, 1, kinds));
    hide Local, Posts, EmitAll, AllAllowed, AllAppend;
    LocalConcat(number, locks, Posts(ts), update);
    LocalConcat(number, locks, Posts(ts) + update, EmitAll(r, 1, kinds));
    OneAccountBetween(number, locks, row, account, Posts(ts) + update + EmitAll(r, 1, kinds));
    assert RefundWrites(r, p) == row + [EnsureAccount(account)] + (Posts(ts) + update + EmitAll(r, 1, kinds));
  }

  lemma RefundIsDisciplined(db: Tables, r: Request, ws: seq<Write>)
    requires Sound(db) && Accepts(db, r) && r.action.RefundPayment? && Plan(db, r) == Ok(ws)
    ensures Disciplined(db, r, ws)
  {
    hide PlanRefund, RefundWrites, SumForPayment, AllAllowed, OneAccountAtMost;
    var p := db.payments[r.action.payment];
    RefundPlan(r, p);
    RefundWritesAreDisciplined(r.number, PlanLocks(db, r), r, p);
  }

  /** Every plan stays within its locks and creates one account at most. */
  lemma PlansAreDisciplined(db: Tables, r: Request, ws: seq<Write>)
    requires Sound(db) && Plan(db, r) == Ok(ws)
    ensures Disciplined(db, r, ws)
  {
    hide Sound, Plan, Accepts, Disciplined;
    RequestsAreDecidedByAccepts(db, r);
    match r.action
    case CreateOrder(_, _, _, _) => OrderIsDisciplined(db, r, ws);
    case CreatePayment(_, _, _, _, _) => CreatePaymentIsDisciplined(db, r, ws);
    case CapturePayment(_) => CaptureIsDisciplined(db, r, ws);
    case RefundPayment(_, _, _) => RefundIsDisciplined(db, r, ws);
  }

  lemma OrderIsDisciplined(db: Tables, r: Request, ws: seq<Write>)
    requires r.action.CreateOrder? && Plan(db, r) == Ok(ws)
    ensures Disciplined(db, r, ws)
  {
  }

  // ------------------------------------------------------------- stability

  /** What a transaction has read stays what it read: rows it locked, and the sum
    * of refunds of a payment it locked. */
  ghost predicate SameFor(a: Tables, b: Tables, lock: Lock) {
    match lock
    case PaymentLock(id) =>
      && Find(a.payments, id) == Find(b.payments, id)
      && SumForPayment(a.refunds, id) == SumForPayment(b.refunds, id)
    case OrderLock(id) => Find(a.orders, id) == Find(b.orders, id)
    case AccountKey(_) => true
  }

  /** The row behind the lock belongs to nobody else's request. */
  predicate Foreign(number: nat, lock: Lock) {
    match lock
    case PaymentLock(id) => id.request != number
    case OrderLock(id) => id.request != number
    case AccountKey(_) => true
  }

  lemma StatementRespects(db: Tables, number: nat, locks: set<Lock>, w: Write, lock: Lock)
    requires Allowed(number, locks, w) && lock !in locks && Foreign(number, lock)
    ensures SameFor(db, ApplyWrite(db, w), lock)
  {
  }

  lemma {:induction false} StatementsRespect(db: Tables, number: nat, locks: set<Lock>, ws: seq<Write>, lock: Lock)
    requires AllAllowed(number, locks, ws) && lock !in locks && Foreign(number, lock)
    ensures SameFor(db, ApplyAll(db, ws), lock)
    decreases |ws|
  {
    hide ApplyWrite, SumForPayment;
    if ws != [] {
      assert ws[0] in ws && forall w :: w in ws[1..] ==> w in ws;
      StatementRespects(db, number, locks, ws[0], lock);
      StatementsRespect(ApplyWrite(db, ws[0]), number, locks, ws[1..], lock);
    }
  }

  // ------------------------------------------------------------- invariants

  /** What a transaction knows in each phase, against the committed tables. */
  ghost predicate Knows(db: Tables, t: nat, x: Txn) {
    && x.request.number == t && t !in db.used
    && match x.phase
       case LockingPayment => x.locks == {} && (x.request.action.CapturePayment? || x.request.action.RefundPayment?)
       case LockingOrder(None) => x.locks == {} && x.request.action.CreatePayment?
       case LockingOrder(Some(p)) =>
         && x.request.action.CapturePayment?
         && x.locks == {PaymentLock(x.request.action.payment)}
         && CheckCapturable(x.request, Find(db.payments, x.request.action.payment)) == Ok(p)
       case Summing(p) =>
         && x.request.action.RefundPayment?
         && x.locks == {PaymentLock(x.request.action.payment)}
         && CheckRefundable(x.request, Find(db.payments, x.request.action.payment)) == Ok(p)
       case Writing(ws, done) =>
         && done <= |ws| && Plan(db, x.request) == Ok(ws) && !x.request.action.CreateOrder?
         && PlanLocks(db, x.request) <= x.locks
         && (forall lock :: lock in x.locks && !lock.AccountKey? ==> lock in PlanLocks(db, x.request))
         && (forall lock :: lock in x.locks && lock.AccountKey? ==> EnsureAccount(lock.account) in ws[..done])
         && (forall a :: EnsureAccount(a) in ws[..done] && a !in db.accounts ==> AccountKey(a) in x.locks)
  }

  ghost predicate AllKnow(s: State) {
    forall t :: t in s.active ==> Knows(s.db, t, s.active[t])
  }

  ghost predicate Exclusive(s: State) {
    forall t, u, lock :: Holds(s, t, lock) && Holds(s, u, lock) ==> t == u
  }

  predicate Holds(s: State, t: nat, lock: Lock) {
    t in s.active && lock in s.active[t].locks
  }

  ghost predicate WellFormed(s: State) {
    s.db == Run(s.history) && Exclusive(s) && AllKnow(s)
  }

  /** A row a transaction holds was committed by some earlier request. */
  lemma LockedRowsAreCommitted(db: Tables, t: nat, x: Txn, lock: Lock)
    requires Sound(db) && IdsUsed(db) && Knows(db, t, x) && lock in x.locks
    ensures lock.PaymentLock? ==> lock.payment in db.payments && lock.payment.request in db.used
    ensures lock.OrderLock? ==> lock.order in db.orders && lock.order.request in db.used
  {
  }

  lemma PlanDependsOnLocks(a: Tables, b: Tables, r: Request)
    requires forall lock :: lock in PlanLocks(a, r) ==> SameFor(a, b, lock)
    requires r.number !in a.used && r.number !in b.used && !r.action.CreateOrder?
    ensures Plan(a, r) == Plan(b, r)
    ensures Plan(a, r).Ok? ==> PlanLocks(a, r) == PlanLocks(b, r)
  {
    hide PlanSettle, PlanRefund, PlanCreatePayment, SumForPayment;
    match r.action
    case CreatePayment(oid, _, _, _, _) => assert SameFor(a, b, OrderLock(oid));
    case CapturePayment(pid) =>
      assert SameFor(a, b, PaymentLock(pid));
      if pid in a.payments {
        assert SameFor(a, b, OrderLock(a.payments[pid].order));
      }
    case RefundPayment(pid, _, _) => assert SameFor(a, b, PaymentLock(pid));
  }

  /** A transaction about to commit: its statements are those planned on these tables. */
  ghost predicate Ready(db: Tables, u: nat, y: Txn) {
    && y.request.number == u && u !in db.used && y.phase.Writing?
    && Plan(db, y.request) == Ok(y.phase.statements) && PlanLocks(db, y.request) <= y.locks
  }

  ghost function Committed(db: Tables, y: Txn): Tables
    requires y.phase.Writing?
  {
    ApplyAll(db, y.phase.statements).(used := db.used + {y.request.number})
  }

  /** One transaction's commit is invisible through another one's locks. */
  lemma CommitRespects(db: Tables, t: nat, x: Txn, u: nat, y: Txn, lock: Lock)
    requires Sound(db) && IdsUsed(db) && Knows(db, t, x) && Ready(db, u, y)
    requires lock in x.locks && lock !in y.locks
    ensures SameFor(db, Committed(db, y), lock)
  {
    hide Plan, ApplyAll, Disciplined, SumForPayment;
    PlansAreDisciplined(db, y.request, y.phase.statements);
    LockedRowsAreCommitted(db, t, x, lock);
    assert AllAllowed(u, PlanLocks(db, y.request), y.phase.statements) by { DisciplinedParts(db, y.request, y.phase.statements); }
    StatementsRespect(db, u, PlanLocks(db, y.request), y.phase.statements, lock);
  }

  lemma DisciplinedParts(db: Tables, r: Request, ws: seq<Write>)
    requires Disciplined(db, r, ws)
    ensures AllAllowed(r.number, PlanLocks(db, r), ws) && OneAccountAtMost(ws)
  {
  }

  lemma KnowledgeSurvives(db: Tables, t: nat, x: Txn, u: nat, y: Txn)
    requires Sound(db) && IdsUsed(db) && Knows(db, t, x) && Ready(db, u, y) && t != u
    requires x.locks !! y.locks
    ensures Knows(Committed(db, y), t, x)
  {
    hide Plan, Committed, SumForPayment, Sound, IdsUsed;
    var next := Committed(db, y);
    forall lock | lock in x.locks ensures SameFor(db, next, lock) {
      CommitRespects(db, t, x, u, y, lock);
    }
    assert next.used == db.used + {u} && db.accounts <= next.accounts by { CommittedUses(db, y); }
    match x.phase
    case Writing(_, _) => PlanDependsOnLocks(db, next, x.request);
    case LockingOrder(Some(_)) => assert SameFor(db, next, PaymentLock(x.request.action.payment));
    case Summing(_) => assert SameFor(db, next, PaymentLock(x.request.action.payment));
    case _ =>
  }

  lemma CommittedUses(db: Tables, y: Txn)
    requires y.phase.Writing?
    ensures Committed(db, y).used == db.used + {y.request.number} && db.accounts <= Committed(db, y).accounts
  {
    AccountsGrow(db, y.phase.statements);
  }

  lemma {:induction false} AccountsGrow(db: Tables, ws: seq<Write>)
    ensures db.accounts <= ApplyAll(db, ws).accounts
    decreases |ws|
  {
    if ws != [] {
      AccountsGrow(ApplyWrite(db, ws[0]), ws[1..]);
    }
  }

  /** Committing what is ready and holds nobody else's locks keeps everything. */
  lemma ReadyCommitKeeps(s: State, t: nat, y: Txn)
    requires WellFormed(s) && Ready(s.db, t, y)
    requires forall u, lock :: u != t && Holds(s, u, lock) ==> lock !in y.locks
    ensures WellFormed(CommitOf(s, y.request, y.phase.statements))
  {
    hide Run, Apply, Sound, IdsUsed, Plan, ApplyAll, Knows;
    var next := CommitOf(s, y.request, y.phase.statements);
    InvAlways(s.history);
    InvParts(s.db);
    CommitExtendsTheRun(s.db, s.history, t, y);
    forall u | u in next.active ensures Knows(next.db, u, next.active[u]) {
      assert forall lock :: lock in s.active[u].locks ==> Holds(s, u, lock);
      KnowledgeSurvives(s.db, u, s.active[u], t, y);
    }
    forall u, v, lock | Holds(next, u, lock) && Holds(next, v, lock) ensures u == v {
      assert Holds(s, u, lock) && Holds(s, v, lock);
    }
  }

  lemma CommitKeeps(s: State, t: nat)
    requires WellFormed(s) && Enabled(s, Commit(t))
    ensures WellFormed(Do(s, Commit(t)))
  {
    hide Run, Plan, ApplyAll;
    var x := s.active[t];
    assert Knows(s.db, t, x);
    forall u, lock | u != t && Holds(s, u, lock) ensures lock !in x.locks {
      assert lock in x.locks ==> Holds(s, t, lock);
    }
    ReadyCommitKeeps(s, t, x);
  }

  lemma InvParts(db: Tables)
    requires Inv(db)
    ensures Sound(db) && IdsUsed(db)
  {
  }

  lemma CommitExtendsTheRun(db: Tables, history: seq<Request>, t: nat, x: Txn)
    requires db == Run(history) && Ready(db, t, x)
    ensures Committed(db, x) == Run(history + [x.request])
  {
  }

  lemma BeginKeeps(s: State, r: Request)
    requires WellFormed(s) && Enabled(s, Begin(r))
    ensures WellFormed(Do(s, Begin(r)))
  {
    hide Run, PlanCreateOrder, PlanCreatePayment, PlanCapture, PlanRefund, Committed;
    var next := Do(s, Begin(r));
    if r.action.CreateOrder? {
      OrderCommitKeeps(s, r);
    } else {
      forall u, v, lock | Holds(next, u, lock) && Holds(next, v, lock) ensures u == v {
        assert Holds(s, u, lock) && Holds(s, v, lock);
      }
    }
  }

  lemma OrderCommitKeeps(s: State, r: Request)
    requires WellFormed(s) && Enabled(s, Begin(r)) && r.action.CreateOrder?
    ensures WellFormed(Start(s, r))
  {
    hide WellFormed, PlanCreateOrder, CommitOf;
    var plan := PlanCreateOrder(r, s.db.orders);
    if plan.Ok? {
      ReadyCommitKeeps(s, r.number, Txn(r, Writing(plan.value, 0), {}));
    }
  }

  lemma AbortKeeps(s: State, t: nat)
    requires WellFormed(s) && t in s.active
    ensures WellFormed(Drop(s, t))
  {
    hide Run, Plan;
    var next := Drop(s, t);
    forall u, v, lock | Holds(next, u, lock) && Holds(next, v, lock) ensures u == v {
      assert Holds(s, u, lock) && Holds(s, v, lock);
    }
  }

  /** Replacing one transaction keeps the rest, if it takes free locks only. */
  lemma UpdateKeeps(s: State, t: nat, x: Txn)
    requires WellFormed(s) && t in s.active && Knows(s.db, t, x)
    requires forall lock :: lock in x.locks ==> lock in s.active[t].locks || Free(s, t, lock)
    ensures WellFormed(With(s, t, x))
  {
    hide Run, Plan, Knows;
    var next := With(s, t, x);
    assert forall u, lock :: Holds(next, u, lock) ==> Holds(s, u, lock) || (u == t && Free(s, t, lock));
  }

  lemma WriteOrDropKeeps(s: State, t: nat, locks: set<Lock>, plan: Result<seq<Write>, EngineError>)
    requires WellFormed(s) && t in s.active
    requires forall lock :: lock in locks ==> lock in s.active[t].locks || Free(s, t, lock)
    requires plan.Ok? ==> Knows(s.db, t, Txn(s.active[t].request, Writing(plan.value, 0), locks))
    ensures WellFormed(WriteOrDrop(s, t, s.active[t].request, locks, plan))
  {
    hide WellFormed, Knows;
    if plan.Ok? {
      UpdateKeeps(s, t, Txn(s.active[t].request, Writing(plan.value, 0), locks));
    } else {
      AbortKeeps(s, t);
    }
  }

  lemma TakeLockKeeps(s: State, t: nat)
    requires WellFormed(s) && Enabled(s, TakeLock(t))
    ensures WellFormed(Do(s, TakeLock(t)))
  {
    hide Run, Free, PlanSettle, SumForPayment, PlanRefund;
    var x := s.active[t];
    assert Knows(s.db, t, x);
    match x.phase
    case LockingPayment => PaymentLockKeeps(s, t);
    case LockingOrder(Some(p)) =>
      WriteOrDropKeeps(s, t, x.locks + {OrderLock(p.order)}, PlanCapture(x.request, p, Find(s.db.orders, p.order)));
    case LockingOrder(None) =>
      var oid := x.request.action.order;
      WriteOrDropKeeps(s, t, x.locks + {OrderLock(oid)}, PlanCreatePayment(x.request, Find(s.db.orders, oid)));
  }

  lemma PaymentLockKeeps(s: State, t: nat)
    requires WellFormed(s) && Enabled(s, TakeLock(t)) && s.active[t].phase.LockingPayment?
    ensures WellFormed(Do(s, TakeLock(t)))
  {
    hide Run, Free, Plan, CheckCapturable, CheckRefundable;
    var x := s.active[t];
    assert Knows(s.db, t, x);
    var pid := x.request.action.payment;
    AbortKeeps(s, t);
    if x.request.action.CapturePayment? {
      var found := CheckCapturable(x.request, Find(s.db.payments, pid));
      if found.Ok? {
        UpdateKeeps(s, t, Txn(x.request, LockingOrder(Some(found.value)), x.locks + {PaymentLock(pid)}));
      }
    } else {
      var found := CheckRefundable(x.request, Find(s.db.payments, pid));
      if found.Ok? {
        UpdateKeeps(s, t, Txn(x.request, Summing(found.value), x.locks + {PaymentLock(pid)}));
      }
    }
  }

  lemma SumKeeps(s: State, t: nat)
    requires WellFormed(s) && Enabled(s, Sum(t))
    ensures WellFormed(Do(s, Sum(t)))
  {
    hide Run, Free, PlanRefund, SumForPayment;
    var x := s.active[t];
    assert Knows(s.db, t, x);
    WriteOrDropKeeps(s, t, x.locks,
      PlanRefund(x.request, x.phase.locked, SumForPayment(s.db.refunds, x.request.action.payment)));
  }

  /** Updates only ever need locks the transaction already has, so a statement
    * waits, if at all, for a merchant account's unique key. */
  lemma StatementsOnlyWaitForAccounts(s: State, t: nat)
    requires WellFormed(s) && t in s.active && s.active[t].phase.Writing? && Wants(s, t).Some?
    ensures Wants(s, t).value.AccountKey?
    ensures var x := s.active[t].phase; x.done < |x.statements| && x.statements[x.done] == EnsureAccount(Wants(s, t).value.account)
  {
    hide Run, Plan, Disciplined;
    var x := s.active[t];
    assert Knows(s.db, t, x);
    InvAlways(s.history);
    InvParts(s.db);
    PlansAreDisciplined(s.db, x.request, x.phase.statements);
    DisciplinedParts(s.db, x.request, x.phase.statements);
    assert Allowed(t, PlanLocks(s.db, x.request), x.phase.statements[x.phase.done]);
  }

  /** A statement adds at most the account key it claims. */
  lemma StatementKnows(s: State, t: nat)
    requires WellFormed(s) && Enabled(s, Statement(t))
    ensures Knows(s.db, t, Do(s, Statement(t)).active[t])
  {
    hide Run, Plan, Free, PlanLocks;
    var x := s.active[t];
    assert Knows(s.db, t, x);
    var ws, done := x.phase.statements, x.phase.done;
    assert ws[..done + 1] == ws[..done] + [ws[done]];
    if Wants(s, t).Some? {
      StatementsOnlyWaitForAccounts(s, t);
    }
  }

  lemma StatementKeeps(s: State, t: nat)
    requires WellFormed(s) && Enabled(s, Statement(t))
    ensures WellFormed(Do(s, Statement(t)))
  {
    hide WellFormed, Knows;
    StatementKnows(s, t);
    UpdateKeeps(s, t, Do(s, Statement(t)).active[t]);
  }

  lemma StepKeeps(s: State, e: Event)
    requires WellFormed(s)
    ensures WellFormed(Do(s, e))
  {
    hide WellFormed, Enabled;
    if Enabled(s, e) {
      match e
      case Begin(r) => BeginKeeps(s, r);
      case TakeLock(t) => TakeLockKeeps(s, t);
      case Sum(t) => SumKeeps(s, t);
      case Statement(t) => StatementKeeps(s, t);
      case Commit(t) => CommitKeeps(s, t);
      case Abort(t) => AbortIsEnabled(s, t);
    }
  }

  lemma AbortIsEnabled(s: State, t: nat)
    requires WellFormed(s) && Enabled(s, Abort(t))
    ensures WellFormed(Do(s, Abort(t)))
  {
    AbortKeeps(s, t);
  }

  // ---------------------------------------------------------------- theorems

  /** Serializability: however transactions interleave and abort, the tables are
    * those of the committed requests run one after the other in commit order,
    * and no lock is held twice. */
  lemma {:induction false} EveryExecutionIsSerial(events: seq<Event>)
    ensures WellFormed(Execution(events))
    ensures Execution(events).db == Run(Execution(events).history)
  {
    if events == [] {
      assert WellFormed(START);
    } else {
      hide WellFormed, Do;
      EveryExecutionIsSerial(events[..|events| - 1]);
      StepKeeps(Execution(events[..|events| - 1]), events[|events| - 1]);
      SerialPart(Execution(events));
    }
  }

  lemma SerialPart(s: State)
    requires WellFormed(s)
    ensures s.db == Run(s.history)
  {
  }

  /** Concurrent refunds of one payment never exceed it, the row carries their
    * sum, and it is Refunded exactly when nothing is left. */
  lemma ConcurrentRefundsStayWithin(events: seq<Event>, payment: Id)
    requires payment in Execution(events).db.payments
    ensures var db := Execution(events).db;
            var p, total := db.payments[payment], SumForPayment(db.refunds, payment);
            0 <= total <= p.amount.minor && p.amountRefunded == total && (p.status == Refunded <==> total == p.amount.minor)
  {
    hide Execution, Run, SumForPayment, WellFormed;
    EveryExecutionIsSerial(events);
    RefundsNeverExceedThePayment(Execution(events).history, payment);
  }

  /** A refund that has locked its payment is refused, when it reads the sum, for
    * the service's own reasons only: no transition, fee or ledger error is left. */
  lemma ConcurrentRefundsFailOnlyByValidation(events: seq<Event>, t: nat)
    requires t in Execution(events).active && Execution(events).active[t].phase.Summing?
    ensures var s := Execution(events);
            var x := s.active[t];
            && x.request.action.RefundPayment?
            && var plan := PlanRefund(x.request, x.phase.locked, SumForPayment(s.db.refunds, x.request.action.payment));
               plan.Ok? || plan.error.Validation?
  {
    hide Execution, Run, PlanRefund, SumForPayment;
    EveryExecutionIsSerial(events);
    var s := Execution(events);
    assert Knows(s.db, t, s.active[t]);
    InvAlways(s.history);
    InvParts(s.db);
    LockedRefundsFailOnlyByValidation(s.db, s.active[t].request, s.active[t].phase.locked);
  }

  lemma LockedRefundsFailOnlyByValidation(db: Tables, r: Request, p: PaymentRow)
    requires Sound(db) && r.action.RefundPayment? && CheckRefundable(r, Find(db.payments, r.action.payment)) == Ok(p)
    ensures var plan := PlanRefund(r, p, SumForPayment(db.refunds, r.action.payment)); plan.Ok? || plan.error.Validation?
  {
    hide PlanReturn, RefundWrites, SumForPayment;
    if MayRefund(r, p) {
      RefundPlan(r, p);
    }
  }

  /** The unique key on accounts: of the open transactions, one at most has inserted an
    * account that is not committed yet. */
  lemma OneInserterPerAccount(events: seq<Event>, t: nat, u: nat, a: Account)
    requires a !in Execution(events).db.accounts
    requires HasInserted(Execution(events), t, a) && HasInserted(Execution(events), u, a)
    ensures t == u
  {
    hide Execution, Run, Plan;
    EveryExecutionIsSerial(events);
    var s := Execution(events);
    assert Knows(s.db, t, s.active[t]) && Knows(s.db, u, s.active[u]);
    assert Holds(s, t, AccountKey(a)) && Holds(s, u, AccountKey(a));
  }

  predicate HasInserted(s: State, t: nat, a: Account) {
    && t in s.active && s.active[t].phase.Writing? && s.active[t].phase.done <= |s.active[t].phase.statements|
    && EnsureAccount(a) in s.active[t].phase.statements[..s.active[t].phase.done]
  }

  /** Racing captures and automatic captures of one order settle it once. */
  lemma ConcurrentCapturesSettleOnce(events: seq<Event>, order: Id)
    requires order in Execution(events).db.orders
    ensures var db := Execution(events).db;
            && (forall a, b :: SettledFor(db, a, b) ==> a == b)
            && (db.orders[order].status == Paid <==> HasSettledPayment(db, order))
            && db.orders[order].amountPaid == (if HasSettledPayment(db, order) then db.orders[order].amount.minor else 0)
  {
    hide Execution, Run, WellFormed, SettledFor, HasSettledPayment;
    EveryExecutionIsSerial(events);
    AtMostOnePaymentSettles(Execution(events).history, order);
  }

  /** In every reachable state every account holds its closed form. */
  lemma ConcurrentBalances(events: seq<Event>, a: Account)
    ensures var db := Execution(events).db;
            Balance(db.posted, a) == ClosedForm(db.payments, a) && PostedTotal(db.posted, a.currency) == 0
  {
    hide Execution, Run, WellFormed, ClosedForm;
    EveryExecutionIsSerial(events);
    BalancesFollowPaymentRows(Execution(events).history, a);
  }

  // ---------------------------------------------------------------- deadlock

  predicate WaitsFor(s: State, t: nat, u: nat) {
    && t in s.active && u in s.active && t != u
    && Wants(s, t).Some? && Wants(s, t).value in s.active[u].locks
  }

  /** The rank of what a transaction wants next: payment, order, account, nothing. */
  function WantRank(s: State, t: nat): nat
    requires t in s.active
  {
    match Wants(s, t)
    case Some(PaymentLock(_)) => 1
    case Some(OrderLock(_)) => 2
    case Some(AccountKey(_)) => 3
    case None => 4
  }

  /** Whoever holds a lock wants only locks of higher rank. */
  lemma WaitingIsOrdered(s: State, t: nat, u: nat)
    requires WellFormed(s) && WaitsFor(s, t, u)
    ensures WantRank(s, t) < WantRank(s, u)
  {
    hide Run, Plan, SumForPayment, PlanLocks;
    var x := s.active[u];
    assert Knows(s.db, u, x);
    if x.phase.Writing? {
      if Wants(s, u).Some? {
        StatementsOnlyWaitForAccounts(s, u);
        HolderOfAnAccountWantsNone(s, u, Wants(s, t).value);
      }
    }
  }

  lemma HolderOfAnAccountWantsNone(s: State, u: nat, held: Lock)
    requires WellFormed(s) && u in s.active && s.active[u].phase.Writing? && held in s.active[u].locks
    ensures held.AccountKey? ==> Wants(s, u) == None
  {
    hide Run, Plan, Disciplined;
    var x := s.active[u];
    assert Knows(s.db, u, x);
    var ws, done := x.phase.statements, x.phase.done;
    InvAlways(s.history);
    InvParts(s.db);
    PlansAreDisciplined(s.db, x.request, x.phase.statements);
    DisciplinedParts(s.db, x.request, ws);
    if held.AccountKey? && done < |ws| {
      var i :| 0 <= i < done && ws[i] == EnsureAccount(held.account);
      assert !(ws[i].EnsureAccount? && ws[done].EnsureAccount?);
      assert Allowed(u, PlanLocks(s.db, x.request), ws[done]);
    }
  }

  ghost predicate WaitPath(s: State, path: seq<nat>) {
    forall i :: 0 <= i < |path| - 1 ==> WaitsFor(s, path[i], path[i + 1])
  }

  lemma {:induction false} RankGrowsAlong(s: State, path: seq<nat>, i: nat, j: nat)
    requires WellFormed(s) && WaitPath(s, path) && |path| >= 2 && i <= j < |path|
    ensures path[i] in s.active && path[j] in s.active
    ensures WantRank(s, path[j]) >= WantRank(s, path[i]) + (j - i)
    decreases j
  {
    hide WellFormed, WantRank;
    assert i == 0 ==> WaitsFor(s, path[0], path[1]);
    assert i > 0 ==> WaitsFor(s, path[i - 1], path[i]);
    if i < j {
      RankGrowsAlong(s, path, i, j - 1);
      assert WaitsFor(s, path[j - 1], path[j]);
      WaitingIsOrdered(s, path[j - 1], path[j]);
    }
  }

  lemma PathsAreShort(s: State, path: seq<nat>)
    requires WellFormed(s) && WaitPath(s, path) && |path| >= 2
    ensures |path| <= 4
    ensures forall i, j :: 0 <= i < j < |path| ==> path[i] != path[j]
  {
    hide WellFormed;
    forall i, j | 0 <= i < j < |path| ensures path[i] != path[j] {
      RankGrowsAlong(s, path, i, j);
    }
    RankGrowsAlong(s, path, 0, |path| - 1);
  }

  /** Deadlock freedom: in no reachable state does a chain of transactions waiting
    * for one another close, and it never holds more than four of them. */
  lemma WaitingNeverCloses(events: seq<Event>, path: seq<nat>)
    requires WaitPath(Execution(events), path) && |path| >= 2
    ensures |path| <= 4
    ensures forall i, j :: 0 <= i < j < |path| ==> path[i] != path[j]
  {
    hide WellFormed, Execution;
    EveryExecutionIsSerial(events);
    PathsAreShort(Execution(events), path);
  }

  /** The step of a transaction that brings it closer to its end. */
  function NextStep(s: State, t: nat): Event
    requires t in s.active
  {
    match s.active[t].phase
    case LockingPayment => TakeLock(t)
    case LockingOrder(_) => TakeLock(t)
    case Summing(_) => Sum(t)
    case Writing(ws, done) => if done < |ws| then Statement(t) else Commit(t)
  }

  /** Follow what `t` waits for until somebody can go on. */
  lemma {:induction false} WaitingEnds(s: State, t: nat) returns (u: nat)
    requires WellFormed(s) && t in s.active
    ensures u in s.active && Enabled(s, NextStep(s, u))
    decreases 4 - WantRank(s, t)
  {
    hide WellFormed;
    if Enabled(s, NextStep(s, t)) {
      return t;
    }
    DisabledMeansWaiting(s, t);
    var v :| WaitsFor(s, t, v);
    WaitingIsOrdered(s, t, v);
    u := WaitingEnds(s, v);
  }

  lemma DisabledMeansWaiting(s: State, t: nat)
    requires WellFormed(s) && t in s.active && !Enabled(s, NextStep(s, t))
    ensures exists u :: WaitsFor(s, t, u)
  {
    hide Run, Plan;
    assert Knows(s.db, t, s.active[t]);
    var u :| u in s.active && u != t && Wants(s, t).value in s.active[u].locks;
    assert WaitsFor(s, t, u);
  }

  /** While any transaction is open, one of them can take its next step. */
  lemma SomebodyCanAlwaysGoOn(events: seq<Event>)
    requires Execution(events).active != map[]
    ensures var s := Execution(events); exists t :: t in s.active && Enabled(s, NextStep(s, t))
  {
    hide WellFormed, Execution, Enabled;
    EveryExecutionIsSerial(events);
    var s := Execution(events);
    var t :| t in s.active;
    var u := WaitingEnds(s, t);
  }

  // ---------------------------------------------------------- getting through

  /** The state after some further steps. */
  ghost function After(s: State, more: seq<Event>): State {
    if more == [] then s else Do(After(s, more[..|more| - 1]), more[|more| - 1])
  }

  lemma AfterOneMore(s: State, more: seq<Event>, e: Event)
    ensures After(s, more + [e]) == Do(After(s, more), e)
  {
  }

  lemma {:induction false} ExecutionGoesOn(events: seq<Event>, more: seq<Event>)
    ensures Execution(events + more) == After(Execution(events), more)
    decreases |more|
  {
    hide Do;
    if more == [] {
      assert events + more == events;
    } else {
      var most := more[..|more| - 1];
      ExecutionGoesOn(events, most);
      assert (events + more)[..|events + more| - 1] == events + most;
    }
  }

  predicate NoAborts(more: seq<Event>) {
    forall e :: e in more ==> !e.Abort?
  }

  /** The unique keys a request's statements may have to claim. */
  ghost function Claims(db: Tables, r: Request): set<Lock> {
    if Plan(db, r).Ok? then set w | w in Plan(db, r).value && w.EnsureAccount? :: AccountKey(w.account) else {}
  }

  /** Nobody holds a row or a key that the request will ask for. */
  ghost predicate Unhindered(s: State, r: Request) {
    forall u, lock :: Holds(s, u, lock) ==> lock !in PlanLocks(s.db, r) && lock !in Claims(s.db, r)
  }

  /** The request's transaction, open beside the ones in `s`. */
  ghost predicate Opened(s: State, r: Request, x: Txn) {
    r.number !in s.active && x.request == r && WellFormed(With(s, r.number, x)) && Unhindered(s, r)
  }

  lemma FreeOfOthers(s: State, r: Request, x: Txn, lock: Lock)
    requires Opened(s, r, x) && (lock in PlanLocks(s.db, r) || lock in Claims(s.db, r))
    ensures Free(With(s, r.number, x), r.number, lock)
  {
    hide WellFormed, Plan;
    forall u | u in s.active ensures lock !in s.active[u].locks {
      assert lock in s.active[u].locks ==> Holds(s, u, lock);
    }
  }

  lemma CommitStep(s: State, r: Request, x: Txn)
    requires r.number !in s.active && x.request == r && x.phase.Writing? && x.phase.done == |x.phase.statements|
    ensures Do(With(s, r.number, x), Commit(r.number)) == CommitOf(s, r, x.phase.statements)
  {
    hide ApplyAll;
    assert s.active[r.number := x] - {r.number} == s.active && s.active - {r.number} == s.active;
  }

  lemma StatementStep(s: State, r: Request, x: Txn) returns (y: Txn)
    requires Opened(s, r, x) && x.phase.Writing? && x.phase.done < |x.phase.statements|
    ensures Do(With(s, r.number, x), Statement(r.number)) == With(s, r.number, y)
    ensures Opened(s, r, y) && y.phase == x.phase.(done := x.phase.done + 1)
  {
    hide WellFormed, Unhindered;
    StatementIsFree(s, r, x);
    StatementKeeps(With(s, r.number, x), r.number);
    y := Do(With(s, r.number, x), Statement(r.number)).active[r.number];
    assert s.active[r.number := x][r.number := y] == s.active[r.number := y];
  }

  lemma DoneIsWithin(s: State, r: Request, x: Txn)
    requires Opened(s, r, x) && x.phase.Writing?
    ensures x.phase.done <= |x.phase.statements| && Plan(s.db, r) == Ok(x.phase.statements)
  {
    hide Run, Plan, PlanLocks;
    PhaseIsKnown(With(s, r.number, x), r.number);
  }

  /** A transaction that has planned its statements executes and commits them. */
  lemma {:induction false} WritesGoOut(s: State, r: Request, x: Txn) returns (more: seq<Event>)
    requires Opened(s, r, x) && x.phase.Writing?
    ensures NoAborts(more)
    ensures After(With(s, r.number, x), more) == CommitOf(s, r, x.phase.statements)
    decreases |x.phase.statements| - x.phase.done
  {
    hide Opened, Do, CommitOf, With;
    DoneIsWithin(s, r, x);
    var now := With(s, r.number, x);
    if x.phase.done == |x.phase.statements| {
      CommitsNow(s, r, x);
      more := [Commit(r.number)];
    } else {
      var y := StatementStep(s, r, x);
      var rest := WritesGoOut(s, r, y);
      more := [Statement(r.number)] + rest;
      AfterFirst(now, Statement(r.number), rest);
    }
  }

  lemma CommitsNow(s: State, r: Request, x: Txn)
    requires Opened(s, r, x) && x.phase.Writing? && x.phase.done == |x.phase.statements|
    ensures After(With(s, r.number, x), [Commit(r.number)]) == CommitOf(s, r, x.phase.statements)
  {
    hide WellFormed, Unhindered, Do, CommitOf;
    CommitStep(s, r, x);
    AfterOneMore(With(s, r.number, x), [], Commit(r.number));
    assert [] + [Commit(r.number)] == [Commit(r.number)];
  }

  lemma {:induction false} AfterFirst(s: State, e: Event, more: seq<Event>)
    ensures After(s, [e] + more) == After(Do(s, e), more)
    decreases |more|
  {
    hide Do;
    if more == [] {
      AfterOneMore(s, [], e);
      assert [] + [e] == [e] + more;
    } else {
      var most := more[..|more| - 1];
      AfterFirst(s, e, most);
      assert ([e] + more)[..|[e] + more| - 1] == [e] + most;
    }
  }

  lemma PhaseIsKnown(s: State, t: nat)
    requires WellFormed(s) && t in s.active
    ensures Knows(s.db, t, s.active[t])
  {
  }

  lemma StatementIsFree(s: State, r: Request, x: Txn)
    requires Opened(s, r, x) && x.phase.Writing? && x.phase.done < |x.phase.statements|
    ensures Enabled(With(s, r.number, x), Statement(r.number))
  {
    hide WellFormed, Free, PlanLocks;
    var now := With(s, r.number, x);
    PhaseIsKnown(now, r.number);
    if Wants(now, r.number).Some? {
      StatementsOnlyWaitForAccounts(now, r.number);
      assert x.phase.statements[x.phase.done] in Plan(s.db, r).value;
      FreeOfOthers(s, r, x, Wants(now, r.number).value);
    }
  }

  /** A step that leaves the transaction `y` open where `x` was. */
  ghost predicate StepsTo(s: State, r: Request, x: Txn, e: Event, y: Txn) {
    Do(With(s, r.number, x), e) == With(s, r.number, y) && Opened(s, r, y)
  }

  lemma Stepped(s: State, r: Request, x: Txn, e: Event, y: Txn)
    requires Opened(s, r, x) && y.request == r && Do(With(s, r.number, x), e) == With(With(s, r.number, x), r.number, y)
    ensures StepsTo(s, r, x, e, y)
  {
    hide WellFormed, Unhindered, Do;
    StepKeeps(With(s, r.number, x), e);
    assert s.active[r.number := x][r.number := y] == s.active[r.number := y];
  }

  /** How a transaction is planned on what it has locked and read, when accepted. */
  ghost predicate Planned(s: State, r: Request) {
    Plan(s.db, r).Ok? && !r.action.CreateOrder?
  }

  lemma CreateTakesItsOrder(s: State, r: Request, x: Txn) returns (y: Txn)
    requires Opened(s, r, x) && Planned(s, r) && r.action.CreatePayment? && x.phase == LockingOrder(None)
    ensures StepsTo(s, r, x, TakeLock(r.number), y) && y.phase.Writing?
  {
    hide WellFormed, Free, PlanCreatePayment, Claims;
    var lock := OrderLock(r.action.order);
    FreeOfOthers(s, r, x, lock);
    var plan := PlanCreatePayment(r, Find(s.db.orders, r.action.order));
    y := Txn(r, Writing(plan.value, 0), x.locks + {lock});
    Stepped(s, r, x, TakeLock(r.number), y);
  }

  lemma CaptureTakesItsPayment(s: State, r: Request, x: Txn) returns (y: Txn)
    requires Opened(s, r, x) && Planned(s, r) && r.action.CapturePayment? && x.phase == LockingPayment
    ensures StepsTo(s, r, x, TakeLock(r.number), y) && y.phase.LockingOrder? && y.phase.payment == Find(s.db.payments, r.action.payment)
    ensures y.phase.payment.Some? && CheckCapturable(r, y.phase.payment) == Ok(y.phase.payment.value)
  {
    hide WellFormed, Free, PlanCapture, Claims;
    var lock := PaymentLock(r.action.payment);
    FreeOfOthers(s, r, x, lock);
    var p := CheckCapturable(r, Find(s.db.payments, r.action.payment)).value;
    y := Txn(r, LockingOrder(Some(p)), x.locks + {lock});
    Stepped(s, r, x, TakeLock(r.number), y);
  }

  lemma CaptureTakesItsOrder(s: State, r: Request, x: Txn) returns (y: Txn)
    requires Opened(s, r, x) && Planned(s, r) && r.action.CapturePayment? && x.phase.LockingOrder?
    requires x.phase.payment == Find(s.db.payments, r.action.payment) && x.phase.payment.Some?
    requires CheckCapturable(r, x.phase.payment) == Ok(x.phase.payment.value)
    ensures StepsTo(s, r, x, TakeLock(r.number), y) && y.phase.Writing?
  {
    hide WellFormed, Free, PlanSettle, Claims, CheckCapturable;
    var p := x.phase.payment.value;
    FreeOfOthers(s, r, x, OrderLock(p.order));
    var plan := PlanCapture(r, p, Find(s.db.orders, p.order));
    y := Txn(r, Writing(plan.value, 0), x.locks + {OrderLock(p.order)});
    Stepped(s, r, x, TakeLock(r.number), y);
  }

  lemma RefundTakesItsPayment(s: State, r: Request, x: Txn) returns (y: Txn)
    requires Opened(s, r, x) && Planned(s, r) && r.action.RefundPayment? && x.phase == LockingPayment
    ensures StepsTo(s, r, x, TakeLock(r.number), y)
    ensures y.phase.Summing? && CheckRefundable(r, Find(s.db.payments, r.action.payment)) == Ok(y.phase.locked)
  {
    hide WellFormed, Free, PlanRefund, Claims, CheckRefundable;
    var lock := PaymentLock(r.action.payment);
    FreeOfOthers(s, r, x, lock);
    var p := CheckRefundable(r, Find(s.db.payments, r.action.payment)).value;
    y := Txn(r, Summing(p), x.locks + {lock});
    Stepped(s, r, x, TakeLock(r.number), y);
  }

  lemma RefundSums(s: State, r: Request, x: Txn) returns (y: Txn)
    requires Opened(s, r, x) && Planned(s, r) && r.action.RefundPayment? && x.phase.Summing?
    requires CheckRefundable(r, Find(s.db.payments, r.action.payment)) == Ok(x.phase.locked)
    ensures StepsTo(s, r, x, Sum(r.number), y) && y.phase.Writing?
  {
    hide WellFormed, PlanRefund, Claims, CheckRefundable;
    var plan := PlanRefund(r, x.phase.locked, SumForPayment(s.db.refunds, r.action.payment));
    y := Txn(r, Writing(plan.value, 0), x.locks);
    Stepped(s, r, x, Sum(r.number), y);
  }

  lemma Begins(s: State, r: Request) returns (x: Txn)
    requires WellFormed(s) && r.number !in s.active && r.number !in s.db.used && !r.action.CreateOrder? && Unhindered(s, r)
    ensures Do(s, Begin(r)) == With(s, r.number, x) && Opened(s, r, x)
    ensures x.phase == if r.action.CreatePayment? then LockingOrder(None) else LockingPayment
  {
    hide WellFormed, Unhindered;
    x := Txn(r, if r.action.CreatePayment? then LockingOrder(None) else LockingPayment, {});
    BeginKeeps(s, r);
  }

  /** Two steps and then the rest. */
  lemma AfterTwo(s: State, d: Event, e: Event, more: seq<Event>)
    ensures After(s, [d, e] + more) == After(Do(Do(s, d), e), more)
  {
    hide Do, After;
    AfterFirst(Do(s, d), e, more);
    AfterFirst(s, d, [e] + more);
    assert [d] + ([e] + more) == [d, e] + more;
  }

  lemma PaymentCreationGetsThrough(s: State, r: Request) returns (more: seq<Event>)
    requires WellFormed(s) && r.number !in s.active && r.number !in s.db.used && Unhindered(s, r)
    requires Planned(s, r) && r.action.CreatePayment?
    ensures NoAborts(more) && After(s, more) == CommitOf(s, r, Plan(s.db, r).value)
  {
    hide WellFormed, Opened, Do, Plan, CommitOf, With, Unhindered, After;
    var x := Begins(s, r);
    var y := CreateTakesItsOrder(s, r, x);
    var rest := WritesGoOut(s, r, y);
    DoneIsWithin(s, r, y);
    more := [Begin(r), TakeLock(r.number)] + rest;
    AfterTwo(s, Begin(r), TakeLock(r.number), rest);
  }

  lemma CaptureGetsThrough(s: State, r: Request) returns (more: seq<Event>)
    requires WellFormed(s) && r.number !in s.active && r.number !in s.db.used && Unhindered(s, r)
    requires Planned(s, r) && r.action.CapturePayment?
    ensures NoAborts(more) && After(s, more) == CommitOf(s, r, Plan(s.db, r).value)
  {
    hide WellFormed, Opened, Do, Plan, CommitOf, With, Unhindered, After, CheckCapturable;
    var x := Begins(s, r);
    var y := CaptureTakesItsPayment(s, r, x);
    var z := CaptureTakesItsOrder(s, r, y);
    var rest := WritesGoOut(s, r, z);
    DoneIsWithin(s, r, z);
    more := [Begin(r), TakeLock(r.number)] + ([TakeLock(r.number)] + rest);
    AfterTwo(s, Begin(r), TakeLock(r.number), [TakeLock(r.number)] + rest);
    AfterFirst(With(s, r.number, y), TakeLock(r.number), rest);
  }

  lemma RefundGetsThrough(s: State, r: Request) returns (more: seq<Event>)
    requires WellFormed(s) && r.number !in s.active && r.number !in s.db.used && Unhindered(s, r)
    requires Planned(s, r) && r.action.RefundPayment?
    ensures NoAborts(more) && After(s, more) == CommitOf(s, r, Plan(s.db, r).value)
  {
    hide WellFormed, Opened, Do, Plan, CommitOf, With, Unhindered, After, CheckRefundable;
    var x := Begins(s, r);
    var y := RefundTakesItsPayment(s, r, x);
    var z := RefundSums(s, r, y);
    var rest := WritesGoOut(s, r, z);
    DoneIsWithin(s, r, z);
    more := [Begin(r), TakeLock(r.number)] + ([Sum(r.number)] + rest);
    AfterTwo(s, Begin(r), TakeLock(r.number), [Sum(r.number)] + rest);
    AfterFirst(With(s, r.number, y), Sum(r.number), rest);
  }

  lemma OrderGetsThrough(s: State, r: Request) returns (more: seq<Event>)
    requires r.number !in s.active && r.number !in s.db.used && Plan(s.db, r).Ok? && r.action.CreateOrder?
    ensures NoAborts(more) && After(s, more) == CommitOf(s, r, Plan(s.db, r).value)
  {
    hide CommitOf, PlanCreateOrder;
    more := [Begin(r)];
    AfterOneMore(s, [], Begin(r));
    assert [] + more == more;
  }

  lemma CommitOfIsApply(s: State, r: Request)
    requires r.number !in s.active && Plan(s.db, r).Ok?
    ensures CommitOf(s, r, Plan(s.db, r).value) == State(Apply(s.db, r), s.active, s.history + [r])
  {
    hide Plan;
    assert s.active - {r.number} == s.active;
  }

  lemma GetsThrough(s: State, r: Request) returns (more: seq<Event>)
    requires WellFormed(s) && r.number !in s.active && Accepts(s.db, r) && Unhindered(s, r)
    ensures NoAborts(more) && After(s, more) == State(Apply(s.db, r), s.active, s.history + [r])
  {
    AcceptedIsPlanned(s, r);
    hide WellFormed, Plan, Accepts, Unhindered, After, CommitOf, Apply;
    CommitOfIsApply(s, r);
    match r.action
    case CreateOrder(_, _, _, _) => more := OrderGetsThrough(s, r);
    case CreatePayment(_, _, _, _, _) => more := PaymentCreationGetsThrough(s, r);
    case CapturePayment(_) => more := CaptureGetsThrough(s, r);
    case RefundPayment(_, _, _) => more := RefundGetsThrough(s, r);
  }

  lemma AcceptedIsPlanned(s: State, r: Request)
    requires WellFormed(s) && Accepts(s.db, r)
    ensures Plan(s.db, r).Ok? && r.number !in s.db.used
  {
    hide Run, Plan, Apply, ChangeOf, Changed;
    InvAlways(s.history);
    InvParts(s.db);
    RequestsAreDecidedByAccepts(s.db, r);
  }

  /** The refusal ends the transaction where it is found out. */
  lemma Refuses(s: State, r: Request, x: Txn, e: Event)
    requires Opened(s, r, x) && Do(With(s, r.number, x), e) == Drop(With(s, r.number, x), r.number)
    ensures Do(With(s, r.number, x), e) == s
  {
    hide WellFormed, Unhindered, Do;
    assert s.active[r.number := x] - {r.number} == s.active;
  }

  lemma CreateIsRefused(s: State, r: Request, x: Txn)
    requires Opened(s, r, x) && Plan(s.db, r).Err? && r.number !in s.db.used && r.action.CreatePayment? && x.phase == LockingOrder(None)
    ensures Do(With(s, r.number, x), TakeLock(r.number)) == s
  {
    FreeOfOthers(s, r, x, OrderLock(r.action.order));
    hide WellFormed, Free, PlanCreatePayment, Claims, Unhindered;
    Refuses(s, r, x, TakeLock(r.number));
  }

  /** The payment may be out of order, or its order is. */
  lemma CaptureIsRefused(s: State, r: Request, x: Txn) returns (rest: seq<Event>)
    requires Opened(s, r, x) && Plan(s.db, r).Err? && r.number !in s.db.used && r.action.CapturePayment? && x.phase == LockingPayment
    ensures NoAborts(rest) && After(With(s, r.number, x), rest) == s
  {
    FreeOfOthers(s, r, x, PaymentLock(r.action.payment));
    hide WellFormed, Free, PlanSettle, Claims, Unhindered, After;
    var found := CheckCapturable(r, Find(s.db.payments, r.action.payment));
    if found.Err? {
      Refuses(s, r, x, TakeLock(r.number));
      rest := [TakeLock(r.number)];
      OneStep(With(s, r.number, x), TakeLock(r.number));
    } else {
      var y := Txn(r, LockingOrder(Some(found.value)), x.locks + {PaymentLock(r.action.payment)});
      Stepped(s, r, x, TakeLock(r.number), y);
      FreeOfOthers(s, r, y, OrderLock(found.value.order));
      Refuses(s, r, y, TakeLock(r.number));
      rest := [TakeLock(r.number)] + [TakeLock(r.number)];
      OneStep(With(s, r.number, y), TakeLock(r.number));
      AfterFirst(With(s, r.number, x), TakeLock(r.number), [TakeLock(r.number)]);
    }
  }

  lemma RefundIsRefused(s: State, r: Request, x: Txn) returns (rest: seq<Event>)
    requires Opened(s, r, x) && Plan(s.db, r).Err? && r.number !in s.db.used && r.action.RefundPayment? && x.phase == LockingPayment
    ensures NoAborts(rest) && After(With(s, r.number, x), rest) == s
  {
    FreeOfOthers(s, r, x, PaymentLock(r.action.payment));
    hide WellFormed, Free, PlanRefund, Claims, Unhindered, After;
    var found := CheckRefundable(r, Find(s.db.payments, r.action.payment));
    if found.Err? {
      Refuses(s, r, x, TakeLock(r.number));
      rest := [TakeLock(r.number)];
      OneStep(With(s, r.number, x), TakeLock(r.number));
    } else {
      var y := Txn(r, Summing(found.value), x.locks + {PaymentLock(r.action.payment)});
      Stepped(s, r, x, TakeLock(r.number), y);
      Refuses(s, r, y, Sum(r.number));
      rest := [TakeLock(r.number)] + [Sum(r.number)];
      OneStep(With(s, r.number, y), Sum(r.number));
      AfterFirst(With(s, r.number, x), TakeLock(r.number), [Sum(r.number)]);
    }
  }

  lemma OneStep(s: State, e: Event)
    ensures After(s, [e]) == Do(s, e)
  {
    AfterOneMore(s, [], e);
    assert [] + [e] == [e];
  }

  lemma EndsRefused(s: State, r: Request) returns (rest: seq<Event>)
    requires WellFormed(s) && r.number !in s.active && r.number !in s.db.used && Plan(s.db, r).Err? && Unhindered(s, r)
    ensures NoAborts(rest) && After(Do(s, Begin(r)), rest) == s
  {
    hide WellFormed, Plan, Unhindered, Opened;
    if r.action.CreateOrder? {
      rest := [];
      OrderIsRefused(s, r);
    } else {
      hide Do;
      var x := Begins(s, r);
      match r.action
      case CreatePayment(_, _, _, _, _) =>
        CreateIsRefused(s, r, x);
        OneStep(With(s, r.number, x), TakeLock(r.number));
        rest := [TakeLock(r.number)];
      case CapturePayment(_) => rest := CaptureIsRefused(s, r, x);
      case RefundPayment(_, _, _) => rest := RefundIsRefused(s, r, x);
    }
  }

  lemma OrderIsRefused(s: State, r: Request)
    requires r.action.CreateOrder? && r.number !in s.db.used && Plan(s.db, r).Err?
    ensures Do(s, Begin(r)) == s
  {
    hide PlanCreateOrder;
  }

  /** Every transaction still open is rolled back. */
  lemma {:induction false} EverybodyAborts(s: State) returns (more: seq<Event>)
    ensures After(s, more) == s.(active := map[])
    decreases |s.active|
  {
    if s.active == map[] {
      more := [];
    } else {
      var t :| t in s.active;
      assert (s.active - {t}).Keys == s.active.Keys - {t};
      var rest := EverybodyAborts(Drop(s, t));
      more := [Abort(t)] + rest;
      AfterFirst(s, Abort(t), rest);
    }
  }

  /** Progress: in every reachable state, a request that is acceptable there can be
    * brought to its commit without any transaction aborting and without touching
    * the others that are open, as long as none of them holds a row or an account
    * key that it needs. */
  lemma AcceptedRequestsGetThrough(events: seq<Event>, r: Request)
    requires r.number !in Execution(events).active && Accepts(Execution(events).db, r) && Unhindered(Execution(events), r)
    ensures var s := Execution(events);
            exists more :: NoAborts(more) && Execution(events + more) == State(Apply(s.db, r), s.active, s.history + [r])
  {
    hide WellFormed, Execution, After, Accepts, Unhindered, Apply;
    EveryExecutionIsSerial(events);
    var more := GetsThrough(Execution(events), r);
    ExecutionGoesOn(events, more);
  }

  /** A request that is not acceptable comes to its refusal by itself, under the same
    * condition, and leaves everything as it was. */
  lemma RefusedRequestsGoAway(events: seq<Event>, r: Request)
    requires var s := Execution(events);
             r.number !in s.active && r.number !in s.db.used && !Accepts(s.db, r) && Unhindered(s, r)
    ensures exists rest :: NoAborts(rest) && Execution(events + ([Begin(r)] + rest)) == Execution(events)
  {
    hide WellFormed, Execution, After, Unhindered;
    EveryExecutionIsSerial(events);
    RefusedIsNotPlanned(Execution(events), r);
    hide Accepts;
    var rest := EndsRefused(Execution(events), r);
    AfterFirst(Execution(events), Begin(r), rest);
    ExecutionGoesOn(events, [Begin(r)] + rest);
  }

  lemma RefusedIsNotPlanned(s: State, r: Request)
    requires WellFormed(s) && !Accepts(s.db, r)
    ensures Plan(s.db, r).Err?
  {
    hide Run, Plan, Apply, ChangeOf, Changed;
    InvAlways(s.history);
    InvParts(s.db);
    RequestsAreDecidedByAccepts(s.db, r);
  }

  /** The request can be committed next, with or without aborts on the way. */
  ghost predicate CanCommit(events: seq<Event>, r: Request, aborting: bool) {
    exists more :: Commits(events, more, r) && (aborting || NoAborts(more))
  }

  ghost predicate Commits(events: seq<Event>, more: seq<Event>, r: Request) {
    var s := Execution(events);
    Execution(events + more) == State(Apply(s.db, r), map[], s.history + [r])
  }

  lemma CommitsAlone(events: seq<Event>, r: Request)
    requires Accepts(Execution(events).db, r) && Execution(events).active == map[]
    ensures CanCommit(events, r, false)
  {
    hide Execution, Accepts, Apply, Claims, PlanLocks, NoAborts;
    AcceptedRequestsGetThrough(events, r);
    var s := Execution(events);
    var more :| NoAborts(more) && Execution(events + more) == State(Apply(s.db, r), s.active, s.history + [r]);
    assert Commits(events, more, r);
  }

  /** Whatever is open, some continuation commits the request: the others may have
    * to be rolled back, and if nothing is open nothing has to be. */
  lemma AcceptedRequestsCanCommit(events: seq<Event>, r: Request)
    requires Accepts(Execution(events).db, r)
    ensures CanCommit(events, r, Execution(events).active != map[])
  {
    hide Execution, Accepts, Apply, NoAborts, After;
    if Execution(events).active == map[] {
      CommitsAlone(events, r);
    } else {
      var aborts := EverybodyAborts(Execution(events));
      ExecutionGoesOn(events, aborts);
      CommitsAlone(events + aborts, r);
      var more :| Commits(events + aborts, more, r);
      assert events + aborts + more == events + (aborts + more);
      assert Commits(events, aborts + more, r);
    }
  }

  /** The converse of serializability: the tables of every run, one request after the
    * other, are those of some execution without aborts. */
  lemma {:induction false} EveryRunIsExecuted(requests: seq<Request>)
    ensures exists events :: NoAborts(events) && Execution(events).db == Run(requests) && Execution(events).active == map[]
  {
    if requests == [] {
      assert NoAborts([]) && Execution([]) == START;
    } else {
      hide Execution, Apply, Accepts, ChangeOf, Changed, Inv;
      var before, r := requests[..|requests| - 1], requests[|requests| - 1];
      EveryRunIsExecuted(before);
      var events :| NoAborts(events) && Execution(events).db == Run(before) && Execution(events).active == map[];
      InvAlways(before);
      InvParts(Run(before));
      RequestsAreDecidedByAccepts(Run(before), r);
      hide Sound, IdsUsed;
      if Accepts(Run(before), r) {
        CommitsAlone(events, r);
        var more :| Commits(events, more, r) && NoAborts(more);
        assert NoAborts(events + more);
      }
    }
  }
}
