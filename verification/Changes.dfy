/** Exactly which requests are accepted, and the one change each of them makes
  * to the tables. */
module Changes {
  import opened Prelude
  import opened Monetary
  import opened Fees
  import opened Ledger
  import opened Gateway
  import opened Effects
  import Cards

  /** The rows, table by table, that an accepted request adds or replaces. */
  datatype Change = Change(
    order: Option<(Id, OrderRow)>, payment: Option<(Id, PaymentRow)>,
    attempts: seq<AttemptRow>, refunds: seq<RefundRow>, accounts: set<Account>,
    posted: seq<BalancedTransaction>, kinds: seq<EventKind>, otherJobs: seq<JobRow>)

  function Put<T>(table: map<Id, T>, row: Option<(Id, T)>): map<Id, T> {
    if row.Some? then table[row.value.0 := row.value.1] else table
  }

  function Changed(db: Tables, r: Request, c: Change): Tables {
    var ds := EventDeliveries(r, 1, c.kinds);
    Tables(
      Put(db.orders, c.order), Put(db.payments, c.payment),
      db.attempts + c.attempts, db.refunds + c.refunds, db.accounts + c.accounts, db.posted + c.posted,
      db.events + EventRows(r, 1, c.kinds), db.deliveries + ds,
      db.jobs + WebhookJobs(ds, r.now) + c.otherJobs,
      db.used + {r.number})
  }

  // ------------------------------------------------------- sound tables

  /** The row constraints the schema states, and that amounts agree. */
  predicate OrderSound(o: OrderRow) {
    && MIN_AMOUNT_MINOR <= o.amount.minor
    && o.amountPaid == if o.status == Paid then o.amount.minor else 0
  }

  predicate PaymentSound(p: PaymentRow) {
    && MIN_AMOUNT_MINOR <= p.amount.minor
    && 0 <= p.amountRefunded <= p.amount.minor
    && (Settled(p) <==> p.capturedAt.Some?)
    && (p.status == Failed ==> p.errorCode.Some?)
    && (!Settled(p) ==> p.amountRefunded == 0)
    && (p.status == Captured ==> p.amountRefunded < p.amount.minor)
    && (p.status == Refunded ==> p.amountRefunded == p.amount.minor)
  }

  ghost predicate Sound(db: Tables) {
    && (forall id :: id in db.orders ==> OrderSound(db.orders[id]))
    && (forall id :: id in db.payments ==> PaymentSound(db.payments[id]))
    && (forall id :: id in db.payments ==>
          && db.payments[id].order in db.orders
          && db.payments[id].merchant == db.orders[db.payments[id].order].merchant
          && db.payments[id].amount == db.orders[db.payments[id].order].amount)
    && (forall id :: id in db.payments ==> SumForPayment(db.refunds, id) == db.payments[id].amountRefunded)
  }

  // ----------------------------------------------------------- acceptance

  predicate CardAccepted(r: Request)
    requires r.action.CreatePayment?
  {
    var a := r.action;
    && 12 <= |Cards.Digits(a.cardNumber)| <= 19
    && Cards.Luhn(Cards.Digits(a.cardNumber))
    && 1 <= a.expMonth <= 12
    && (a.expYear > r.year || (a.expYear == r.year && a.expMonth >= r.month))
  }

  /** The condition a caller can check beforehand. */
  predicate Accepts(db: Tables, r: Request) {
    && r.number !in db.used
    && match r.action
       case CreateOrder(amount, _, receipt, notes) =>
         && amount >= 100 && notes <= 15
         && (receipt.Some? ==> |receipt.value| <= 40)
         && !(receipt.Some? && exists id :: id in db.orders && db.orders[id].merchant == r.merchant && db.orders[id].receipt == receipt)
       case CreatePayment(oid, _, _, _, _) =>
         && oid in db.orders && db.orders[oid].merchant == r.merchant
         && (db.orders[oid].status == OrderCreated || db.orders[oid].status == Attempted)
         && CardAccepted(r)
       case CapturePayment(pid) =>
         && pid in db.payments && db.payments[pid].merchant == r.merchant
         && db.payments[pid].status == Authorized
         && db.payments[pid].order in db.orders && db.orders[db.payments[pid].order].status == Attempted
       case RefundPayment(pid, requested, reason) =>
         && (reason.Some? ==> |reason.value| <= 255)
         && pid in db.payments && db.payments[pid].merchant == r.merchant
         && db.payments[pid].status == Captured
         && (requested.Some? ==> 0 < requested.value <= db.payments[pid].amount.minor - db.payments[pid].amountRefunded)
  }

  function RefundAmount(p: PaymentRow, requested: Option<i64>): int {
    if requested.Some? then requested.value else p.amount.minor - p.amountRefunded
  }

  /** What a settled payment and its order become. */
  function CapturedRow(p: PaymentRow, now: Time): PaymentRow {
    p.(status := Captured, capturedAt := Some(now), errorCode := None)
  }

  function PaidRow(o: OrderRow): OrderRow {
    o.(status := Paid, amountPaid := o.amount.minor)
  }

  function RefundedRow(p: PaymentRow, newTotal: i64): PaymentRow {
    p.(status := if newTotal >= p.amount.minor then Refunded else p.status, amountRefunded := newTotal, errorCode := None)
  }

  function SettleChange(r: Request, pid: Id, p: PaymentRow, o: OrderRow, attempts: seq<AttemptRow>, jobs: seq<JobRow>): Change
    requires p.amount.minor > 0
  {
    Change(Some((p.order, PaidRow(o))), Some((pid, CapturedRow(p, r.now))), attempts, [],
           {Pending(p.merchant, p.amount.currency)}, CaptureTransactions(p.merchant, p.amount),
           [PaymentWasCaptured(pid), OrderWasPaid(p.order)], jobs)
  }

  /** The change an accepted request makes. */
  ghost function ChangeOf(db: Tables, r: Request): Change
    requires Sound(db) && Accepts(db, r)
  {
    match r.action
    case CreateOrder(amount, currency, receipt, _) =>
      Change(Some((Id(r.number, 0), OrderRow(r.merchant, Money(amount, currency), 0, OrderCreated, receipt))), None,
             [], [], {}, [], [], [])
    case CreatePayment(oid, _, _, _, outcome) =>
      var pid, o := Id(r.number, 0), db.orders[oid].(status := Attempted);
      var p := PaymentRow(oid, r.merchant, o.amount, 0, PaymentCreated, None, None);
      (match outcome
       case Capture => SettleChange(r, pid, p, o, [AttemptRow(pid, "success")], [])
       case CaptureThenDispute =>
         SettleChange(r, pid, p, o, [AttemptRow(pid, "success")], [JobRow(OpenDispute(pid), r.now + 60, 3)])
       case Authorize =>
         Change(Some((oid, o)), Some((pid, p.(status := Authorized))), [AttemptRow(pid, "authorized")], [], {}, [],
                [PaymentWasAuthorized(pid)], [])
       case Decline(code) =>
         Change(Some((oid, o)), Some((pid, p.(status := Failed, errorCode := Some(code)))), [AttemptRow(pid, "declined")], [], {}, [],
                [PaymentHasFailed(pid)], [])
       case RequireAction =>
         Change(Some((oid, o)), Some((pid, p.(status := RequiresAction))), [AttemptRow(pid, "requires_action")], [], {}, [], [], [])
       case RiskHold =>
         Change(Some((oid, o)), Some((pid, p)), [AttemptRow(pid, "risk_hold")], [], {}, [], [],
                [JobRow(ResolveRiskReview(pid), r.now + 30, 3)]))
    case CapturePayment(pid) =>
      var p := db.payments[pid];
      SettleChange(r, pid, p, db.orders[p.order], [], [])
    case RefundPayment(pid, requested, _) =>
      var p := db.payments[pid];
      var back, rid := RefundAmount(p, requested), Id(r.number, 0);
      var newTotal := p.amountRefunded + back;
      Change(None, Some((pid, RefundedRow(p, newTotal))), [],
             [RefundRow(rid, pid, r.merchant, Money(back, p.amount.currency), RefundProcessed)],
             {Pending(r.merchant, p.amount.currency)},
             RefundTransactions(r.merchant, p.amount, p.amountRefunded, newTotal),
             [RefundWasProcessed(rid)], [])
  }

  // ------------------------------------------------ plans make the change

  lemma EmitOneAndTwo(r: Request, k: EventKind, l: EventKind)
    ensures EmitAll(r, 1, [k]) == Emit(r, 1, r.merchant, k)
    ensures EmitAll(r, 1, [k, l]) == Emit(r, 1, r.merchant, k) + Emit(r, 2, r.merchant, l)
  {
    assert [k][1..] == [] && [k, l][1..] == [l] && [l][1..] == [];
    assert EmitAll(r, 2, [l]) == Emit(r, 2, r.merchant, l) + EmitAll(r, 3, []);
    assert EmitAll(r, 1, [k]) == Emit(r, 1, r.merchant, k) + EmitAll(r, 2, []);
  }

  function Settling(db: Tables, r: Request, pid: Id, p: PaymentRow, o: OrderRow): Tables
    requires p.amount.minor > 0
  {
    var rows := db.(payments := db.payments[pid := CapturedRow(p, r.now)], orders := db.orders[p.order := PaidRow(o)]);
    var books := rows.(accounts := rows.accounts + {Pending(p.merchant, p.amount.currency)},
                       posted := rows.posted + CaptureTransactions(p.merchant, p.amount));
    WithEvents(books, r, 1, [PaymentWasCaptured(pid), OrderWasPaid(p.order)])
  }

  function SettleWrites(r: Request, pid: Id, p: PaymentRow): seq<Write>
    requires p.amount.minor > 0
  {
    [UpdatePayment(pid, Captured, Some(r.now), p.amountRefunded, None), UpdateOrder(p.order, Paid, p.amount.minor)]
    + ([EnsureAccount(Pending(p.merchant, p.amount.currency))] + Posts(CaptureTransactions(p.merchant, p.amount)))
    + EmitAll(r, 1, [PaymentWasCaptured(pid), OrderWasPaid(p.order)])
  }

  /** `settle` succeeds whenever both rows may move. */
  lemma SettleSucceeds(r: Request, pid: Id, p: PaymentRow, o: OrderRow)
    requires p.merchant == r.merchant && p.amount.minor > 0
    requires PaymentCanMove(p.status, Captured) && OrderCanMove(o.status, Paid)
    ensures PlanSettle(r, pid, p, o) == Ok(SettleWrites(r, pid, p))
  {
    FeeExists(p.amount);
    CapturePostings(p.merchant, p.amount);
    EmitOneAndTwo(r, PaymentWasCaptured(pid), OrderWasPaid(p.order));
    var start := [UpdatePayment(pid, Captured, Some(r.now), p.amountRefunded, None), UpdateOrder(p.order, Paid, p.amount.minor)]
      + ([EnsureAccount(Pending(p.merchant, p.amount.currency))] + Posts(CaptureTransactions(p.merchant, p.amount)));
    Associative(start, Emit(r, 1, r.merchant, PaymentWasCaptured(pid)), Emit(r, 2, r.merchant, OrderWasPaid(p.order)));
  }

  lemma SettleEffect(db: Tables, r: Request, pid: Id, p: PaymentRow, o: OrderRow)
    requires pid in db.payments && db.payments[pid] == p && p.order in db.orders && db.orders[p.order] == o
    requires p.amount.minor > 0 && p.amount == o.amount
    ensures ApplyAll(db, SettleWrites(r, pid, p)) == Settling(db, r, pid, p, o)
  {
    var rows := [UpdatePayment(pid, Captured, Some(r.now), p.amountRefunded, None), UpdateOrder(p.order, Paid, p.amount.minor)];
    var account, ts := Pending(p.merchant, p.amount.currency), CaptureTransactions(p.merchant, p.amount);
    var books := [EnsureAccount(account)] + Posts(ts);
    var kinds := [PaymentWasCaptured(pid), OrderWasPaid(p.order)];
    ApplyConcat(db, rows + books, EmitAll(r, 1, kinds));
    ApplyConcat(db, rows, books);
    ApplyTwo(db, rows[0], rows[1]);
    var moved := ApplyAll(db, rows);
    assert moved == db.(payments := db.payments[pid := CapturedRow(p, r.now)], orders := db.orders[p.order := PaidRow(o)]);
    AccountThenPosts(moved, account, ts);
    EmitEffect(ApplyAll(moved, books), r, 1, kinds);
  }

  lemma AccountThenPosts(db: Tables, account: Account, ts: seq<BalancedTransaction>)
    ensures ApplyAll(db, [EnsureAccount(account)] + Posts(ts))
            == db.(accounts := db.accounts + {account}, posted := db.posted + ts)
  {
    var ws := [EnsureAccount(account)] + Posts(ts);
    assert ws[1..] == Posts(ts);
    PostsEffect(ApplyWrite(db, ws[0]), ts);
  }

  lemma NothingAppended(db: Tables, r: Request)
    ensures db.refunds + [] == db.refunds && db.posted + [] == db.posted && db.attempts + [] == db.attempts
    ensures db.accounts + {} == db.accounts
    ensures forall jobs: seq<JobRow> :: jobs + [] == jobs
    ensures WithEvents(db, r, 1, []) == db
  {
  }

  lemma CardDecision(r: Request)
    requires r.action.CreatePayment?
    ensures var card := Cards.NewCard(r.action.cardNumber, r.action.expMonth, r.action.expYear);
            CardAccepted(r) <==> card.Ok? && Cards.AssertNotExpired(card.value, r.year, r.month).Ok?
  {
    Cards.AcceptedCards(r.action.cardNumber, r.action.expMonth, r.action.expYear);
  }

  /** The tables once the order is marked and the attempt is inserted. */
  function Started(db: Tables, r: Request, oid: Id): Tables
    requires oid in db.orders
  {
    var o := db.orders[oid].(status := Attempted);
    var p := NewPayment(r, oid, o);
    db.(orders := db.orders[oid := o], payments := db.payments[Id(r.number, 0) := p])
  }

  function StartWrites(db: Tables, r: Request): seq<Write>
    requires r.action.CreatePayment? && r.action.order in db.orders
  {
    var oid, o, pid := r.action.order, db.orders[r.action.order].(status := Attempted), Id(r.number, 0);
    [UpdateOrder(oid, Attempted, o.amountPaid), InsertPayment(pid, NewPayment(r, oid, o)),
     InsertAttempt(AttemptRow(pid, OutcomeName(r.action.outcome)))]
  }

  lemma StartEffect(db: Tables, r: Request)
    requires r.action.CreatePayment? && r.action.order in db.orders
    ensures ApplyAll(db, StartWrites(db, r))
            == Started(db, r, r.action.order).(attempts := db.attempts + [AttemptRow(Id(r.number, 0), OutcomeName(r.action.outcome))])
  {
    var ws := StartWrites(db, r);
    assert ws == [ws[0], ws[1]] + [ws[2]];
    ApplyConcat(db, [ws[0], ws[1]], [ws[2]]);
    ApplyTwo(db, ws[0], ws[1]);
    var mid := ApplyAll(db, [ws[0], ws[1]]);
    assert [ws[2]][1..] == [];
    assert ApplyAll(mid, [ws[2]]) == ApplyAll(ApplyWrite(mid, ws[2]), []);
  }

  /** The statements that follow the insertion, by outcome. */
  function OutcomeWrites(r: Request, pid: Id, p: PaymentRow, outcome: Outcome): seq<Write>
    requires p.amount.minor > 0
  {
    match outcome
    case Capture => SettleWrites(r, pid, p)
    case CaptureThenDispute => SettleWrites(r, pid, p) + [EnqueueJob(JobRow(OpenDispute(pid), r.now + 60, 3))]
    case Authorize => [UpdatePayment(pid, Authorized, None, 0, None)] + EmitAll(r, 1, [PaymentWasAuthorized(pid)])
    case Decline(code) => [UpdatePayment(pid, Failed, None, 0, Some(code))] + EmitAll(r, 1, [PaymentHasFailed(pid)])
    case RequireAction => [UpdatePayment(pid, RequiresAction, None, 0, None)]
    case RiskHold => [EnqueueJob(JobRow(ResolveRiskReview(pid), r.now + 30, 3))]
  }

  lemma OutcomePlan(r: Request, pid: Id, p: PaymentRow, o: OrderRow, outcome: Outcome)
    requires p.merchant == r.merchant && p.amount.minor > 0 && p.status == PaymentCreated && o.status == Attempted
    ensures PlanOutcome(r, pid, p, o, outcome) == Ok(OutcomeWrites(r, pid, p, outcome))
  {
    hide PlanSettle, SettleWrites;
    match outcome
    case Capture => SettleSucceeds(r, pid, p, o);
    case CaptureThenDispute => SettleSucceeds(r, pid, p, o);
    case Authorize => EmitOneAndTwo(r, PaymentWasAuthorized(pid), PaymentWasAuthorized(pid));
    case Decline(_) => EmitOneAndTwo(r, PaymentHasFailed(pid), PaymentHasFailed(pid));
    case RequireAction =>
    case RiskHold =>
  }

  lemma CreatePaymentPlan(db: Tables, r: Request)
    requires Sound(db) && r.action.CreatePayment? && r.number !in db.used
    ensures Plan(db, r).Ok? <==> Accepts(db, r)
    ensures Accepts(db, r) ==>
              var p := NewPayment(r, r.action.order, db.orders[r.action.order].(status := Attempted));
              Plan(db, r) == Ok(StartWrites(db, r) + OutcomeWrites(r, Id(r.number, 0), p, r.action.outcome))
  {
    hide PlanOutcome, OutcomeWrites, Cards.NewCard, Cards.AssertNotExpired;
    CardDecision(r);
    if Accepts(db, r) {
      var o := db.orders[r.action.order].(status := Attempted);
      OutcomePlan(r, Id(r.number, 0), NewPayment(r, r.action.order, o), o, r.action.outcome);
    }
  }

  lemma OneWrite(db: Tables, w: Write)
    ensures ApplyAll(db, [w]) == ApplyWrite(db, w)
  {
  }

  lemma UpdateThenEmit(db: Tables, r: Request, pid: Id, status: PaymentStatus, code: Option<string>, kind: EventKind)
    requires pid in db.payments
    ensures var p := db.payments[pid].(status := status, capturedAt := None, amountRefunded := 0, errorCode := code);
            ApplyAll(db, [UpdatePayment(pid, status, None, 0, code)] + EmitAll(r, 1, [kind]))
            == WithEvents(db.(payments := db.payments[pid := p]), r, 1, [kind])
  {
    var w := UpdatePayment(pid, status, None, 0, code);
    ApplyConcat(db, [w], EmitAll(r, 1, [kind]));
    OneWrite(db, w);
    EmitEffect(ApplyWrite(db, w), r, 1, [kind]);
  }

  /** The effect of those statements on tables holding the fresh attempt `p`. */
  function Decided(db: Tables, r: Request, pid: Id, p: PaymentRow, o: OrderRow, outcome: Outcome): Tables
    requires p.amount.minor > 0
  {
    match outcome
    case Capture => Settling(db, r, pid, p, o)
    case CaptureThenDispute =>
      var settled := Settling(db, r, pid, p, o);
      settled.(jobs := settled.jobs + [JobRow(OpenDispute(pid), r.now + 60, 3)])
    case Authorize =>
      WithEvents(db.(payments := db.payments[pid := p.(status := Authorized)]), r, 1, [PaymentWasAuthorized(pid)])
    case Decline(code) =>
      WithEvents(db.(payments := db.payments[pid := p.(status := Failed, errorCode := Some(code))]), r, 1, [PaymentHasFailed(pid)])
    case RequireAction => db.(payments := db.payments[pid := p.(status := RequiresAction)])
    case RiskHold => db.(jobs := db.jobs + [JobRow(ResolveRiskReview(pid), r.now + 30, 3)])
  }

  lemma OutcomeEffect(db: Tables, r: Request, pid: Id, p: PaymentRow, o: OrderRow, outcome: Outcome)
    requires pid in db.payments && db.payments[pid] == p && p.order in db.orders && db.orders[p.order] == o
    requires p.amount.minor > 0 && p.amount == o.amount
    requires p.amountRefunded == 0 && p.capturedAt == None && p.errorCode == None
    ensures ApplyAll(db, OutcomeWrites(r, pid, p, outcome)) == Decided(db, r, pid, p, o, outcome)
  {
    hide ApplyAll, SettleWrites, Settling, EmitAll, WithEvents;
    match outcome
    case Capture => SettleEffect(db, r, pid, p, o);
    case CaptureThenDispute =>
      SettleEffect(db, r, pid, p, o);
      var job := EnqueueJob(JobRow(OpenDispute(pid), r.now + 60, 3));
      ApplyConcat(db, SettleWrites(r, pid, p), [job]);
      OneWrite(ApplyAll(db, SettleWrites(r, pid, p)), job);
    case Authorize => UpdateThenEmit(db, r, pid, Authorized, None, PaymentWasAuthorized(pid));
    case Decline(code) => UpdateThenEmit(db, r, pid, Failed, Some(code), PaymentHasFailed(pid));
    case RequireAction => OneWrite(db, UpdatePayment(pid, RequiresAction, None, 0, None));
    case RiskHold => OneWrite(db, EnqueueJob(JobRow(ResolveRiskReview(pid), r.now + 30, 3)));
  }

  lemma CreatePaymentChange(db: Tables, r: Request)
    requires Sound(db) && r.action.CreatePayment? && Accepts(db, r)
    ensures Apply(db, r) == Changed(db, r, ChangeOf(db, r))
  {
    CreatePaymentPlan(db, r);
    StartEffect(db, r);
    var pid, oid := Id(r.number, 0), r.action.order;
    var o := db.orders[oid].(status := Attempted);
    var p := NewPayment(r, oid, o);
    ApplyConcat(db, StartWrites(db, r), OutcomeWrites(r, pid, p, r.action.outcome));
    var mid := ApplyAll(db, StartWrites(db, r));
    OutcomeEffect(mid, r, pid, p, o, r.action.outcome);
    DecidedIsChanged(db, mid, r);
  }

  lemma PutTwice<T>(table: map<Id, T>, id: Id, first: T, second: T)
    ensures table[id := first][id := second] == table[id := second]
  {
  }

  lemma DecidedIsChanged(db: Tables, mid: Tables, r: Request)
    requires Sound(db) && r.action.CreatePayment? && Accepts(db, r)
    requires mid == Started(db, r, r.action.order).(
                      attempts := db.attempts + [AttemptRow(Id(r.number, 0), OutcomeName(r.action.outcome))])
    ensures var o := db.orders[r.action.order].(status := Attempted);
            var p := NewPayment(r, r.action.order, o);
            Decided(mid, r, Id(r.number, 0), p, o, r.action.outcome).(used := db.used + {r.number})
            == Changed(db, r, ChangeOf(db, r))
  {
    hide Settling, EventRows, EventDeliveries, WebhookJobs, CaptureTransactions, SumForPayment, CardAccepted, PaymentSound;
    NothingAppended(db, r);
    var oid, pid := r.action.order, Id(r.number, 0);
    var o := db.orders[oid].(status := Attempted);
    var p := NewPayment(r, oid, o);
    match r.action.outcome
    case Capture => SettlingIsChanged(db, mid, r, o, p, []);
    case CaptureThenDispute => SettlingIsChanged(db, mid, r, o, p, [JobRow(OpenDispute(pid), r.now + 60, 3)]);
    case Authorize => PutTwice(db.payments, pid, p, p.(status := Authorized));
    case Decline(code) => PutTwice(db.payments, pid, p, p.(status := Failed, errorCode := Some(code)));
    case RequireAction => PutTwice(db.payments, pid, p, p.(status := RequiresAction));
    case RiskHold =>
  }

  /** Settling the attempt just inserted, then enqueueing `jobs`. */
  lemma SettlingIsChanged(db: Tables, mid: Tables, r: Request, o: OrderRow, p: PaymentRow, jobs: seq<JobRow>)
    requires r.action.CreatePayment? && r.action.order in db.orders && o == db.orders[r.action.order].(status := Attempted)
    requires p == NewPayment(r, r.action.order, o) && p.amount.minor > 0
    requires mid == Started(db, r, r.action.order).(
                      attempts := db.attempts + [AttemptRow(Id(r.number, 0), OutcomeName(r.action.outcome))])
    ensures var pid := Id(r.number, 0);
            var settled := Settling(mid, r, pid, p, o);
            settled.(jobs := settled.jobs + jobs, used := db.used + {r.number})
            == Changed(db, r, SettleChange(r, pid, p, o, [AttemptRow(pid, OutcomeName(r.action.outcome))], jobs))
    ensures jobs == [] ==> var settled := Settling(mid, r, Id(r.number, 0), p, o); settled.(jobs := settled.jobs + jobs) == settled
  {
    hide EventRows, EventDeliveries, WebhookJobs, CaptureTransactions;
    NothingAppended(db, r);
    PutTwice(db.orders, r.action.order, o, PaidRow(o));
    PutTwice(db.payments, Id(r.number, 0), p, CapturedRow(p, r.now));
  }

  lemma CaptureChange(db: Tables, r: Request)
    requires Sound(db) && r.action.CapturePayment? && r.number !in db.used
    ensures Plan(db, r).Ok? <==> Accepts(db, r)
    ensures Accepts(db, r) ==> Apply(db, r) == Changed(db, r, ChangeOf(db, r))
  {
    if Accepts(db, r) {
      var pid := r.action.payment;
      var p := db.payments[pid];
      var o := db.orders[p.order];
      SettleSucceeds(r, pid, p, o);
      SettleEffect(db, r, pid, p, o);
      NothingAppended(db, r);
    }
  }

  predicate MayRefund(r: Request, p: PaymentRow) {
    && r.action.RefundPayment?
    && (r.action.reason.Some? ==> |r.action.reason.value| <= MAX_REASON_LENGTH)
    && PaymentSound(p) && p.status == Captured && p.merchant == r.merchant
    && (r.action.requested.Some? ==> 0 < r.action.requested.value <= p.amount.minor - p.amountRefunded)
  }

  function RefundRowFor(r: Request, p: PaymentRow): RefundRow
    requires MayRefund(r, p)
  {
    RefundRow(Id(r.number, 0), r.action.payment, r.merchant,
              Money(RefundAmount(p, r.action.requested), p.amount.currency), RefundProcessed)
  }

  function AfterRefund(r: Request, p: PaymentRow): PaymentRow
    requires MayRefund(r, p)
  {
    RefundedRow(p, p.amountRefunded + RefundAmount(p, r.action.requested))
  }

  function RefundWrites(r: Request, p: PaymentRow): seq<Write>
    requires MayRefund(r, p)
  {
    var q := AfterRefund(r, p);
    [InsertRefund(RefundRowFor(r, p))]
    + ReturnPostingWrites(r, p)
    + [UpdatePayment(r.action.payment, q.status, p.capturedAt, q.amountRefunded, None)]
    + EmitAll(r, 1, [RefundWasProcessed(Id(r.number, 0))])
  }

  function ReturnPostingWrites(r: Request, p: PaymentRow): seq<Write>
    requires MayRefund(r, p)
  {
    [EnsureAccount(Pending(r.merchant, p.amount.currency))]
    + Posts(RefundTransactions(r.merchant, p.amount, p.amountRefunded, AfterRefund(r, p).amountRefunded))
  }

  lemma ReturnPlan(r: Request, p: PaymentRow)
    requires MayRefund(r, p)
    ensures PlanReturn(r, p, p.amountRefunded, AfterRefund(r, p).amountRefunded)
            == RecordReturn(r, p, RefundRowFor(r, p).amount, AfterRefund(r, p).amountRefunded, ReturnPostingWrites(r, p))
  {
    RefundPostings(r.merchant, p.amount, p.amountRefunded, AfterRefund(r, p).amountRefunded);
  }

  lemma RefundPlan(r: Request, p: PaymentRow)
    requires MayRefund(r, p)
    ensures PlanRefund(r, p, p.amountRefunded) == Ok(RefundWrites(r, p))
  {
    hide PlanReturn, ReturnPostingWrites;
    ReturnPlan(r, p);
    EmitOneAndTwo(r, RefundWasProcessed(Id(r.number, 0)), RefundWasProcessed(Id(r.number, 0)));
    assert PlanRefund(r, p, p.amountRefunded)
        == PlanReturn(r, p, p.amountRefunded, AfterRefund(r, p).amountRefunded);
  }

  lemma RefundRefused(db: Tables, r: Request)
    requires Sound(db) && r.action.RefundPayment? && !Accepts(db, r)
    ensures Plan(db, r).Err?
  {
  }

  /** The tables once the refund row and its postings are in. */
  function Returning(db: Tables, refund: RefundRow, account: Account, ts: seq<BalancedTransaction>): Tables {
    db.(refunds := db.refunds + [refund], accounts := db.accounts + {account}, posted := db.posted + ts)
  }

  lemma RefundRowsEffect(db: Tables, refund: RefundRow, account: Account, ts: seq<BalancedTransaction>)
    ensures ApplyAll(db, [InsertRefund(refund)] + ([EnsureAccount(account)] + Posts(ts))) == Returning(db, refund, account, ts)
  {
    ApplyConcat(db, [InsertRefund(refund)], [EnsureAccount(account)] + Posts(ts));
    OneWrite(db, InsertRefund(refund));
    AccountThenPosts(ApplyWrite(db, InsertRefund(refund)), account, ts);
  }

  lemma RefundEffect(db: Tables, r: Request, p: PaymentRow)
    requires MayRefund(r, p) && r.action.payment in db.payments && db.payments[r.action.payment] == p
    ensures var q := AfterRefund(r, p);
            ApplyAll(db, RefundWrites(r, p))
            == WithEvents(
                 Returning(db, RefundRowFor(r, p), Pending(r.merchant, p.amount.currency),
                           RefundTransactions(r.merchant, p.amount, p.amountRefunded, q.amountRefunded)).(
                   payments := db.payments[r.action.payment := q]),
                 r, 1, [RefundWasProcessed(Id(r.number, 0))])
  {
    var pid, q, kind := r.action.payment, AfterRefund(r, p), RefundWasProcessed(Id(r.number, 0));
    var account, ts := Pending(r.merchant, p.amount.currency), RefundTransactions(r.merchant, p.amount, p.amountRefunded, q.amountRefunded);
    var rows := [InsertRefund(RefundRowFor(r, p))] + ([EnsureAccount(account)] + Posts(ts));
    var update := UpdatePayment(pid, q.status, p.capturedAt, q.amountRefunded, None);
    ApplyConcat(db, rows + [update], EmitAll(r, 1, [kind]));
    ApplyConcat(db, rows, [update]);
    RefundRowsEffect(db, RefundRowFor(r, p), account, ts);
    var posted := Returning(db, RefundRowFor(r, p), account, ts);
    OneWrite(posted, update);
    assert ApplyWrite(posted, update) == posted.(payments := db.payments[pid := q]);
    EmitEffect(posted.(payments := db.payments[pid := q]), r, 1, [kind]);
  }

  lemma RefundChange(db: Tables, r: Request)
    requires Sound(db) && r.action.RefundPayment? && Accepts(db, r)
    ensures Plan(db, r).Ok? && Apply(db, r) == Changed(db, r, ChangeOf(db, r))
  {
    hide PlanRefund, RefundTransactions;
    var p := db.payments[r.action.payment];
    RefundPlan(r, p);
    RefundEffect(db, r, p);
    NothingAppended(db, r);
  }

  /** On sound tables a request is accepted exactly when `Accepts` holds; it then
    * makes exactly the change `ChangeOf` names, and otherwise none at all. No
    * transition, fee computation or ledger build can fail on the way. */
  lemma RequestsAreDecidedByAccepts(db: Tables, r: Request)
    requires Sound(db)
    ensures Plan(db, r).Ok? <==> Accepts(db, r)
    ensures Accepts(db, r) ==> Apply(db, r) == Changed(db, r, ChangeOf(db, r))
    ensures !Accepts(db, r) ==> Apply(db, r) == db
  {
    if r.number !in db.used {
      match r.action
      case CreateOrder(_, _, _, _) =>
        if Accepts(db, r) {
          OneWrite(db, Plan(db, r).value[0]);
          NothingAppended(db, r);
        }
      case CreatePayment(_, _, _, _, _) =>
        CreatePaymentPlan(db, r);
        if Accepts(db, r) { CreatePaymentChange(db, r); }
      case CapturePayment(_) => CaptureChange(db, r);
      case RefundPayment(_, _, _) =>
        if Accepts(db, r) {
          RefundChange(db, r);
        } else {
          RefundRefused(db, r);
        }
    }
  }

  /** What is wrong with a card that is not accepted: the first of length, checksum,
    * month and expiry that fails. */
  function CardRefusal(r: Request): Cards.CardError
    requires r.action.CreatePayment?
  {
    var digits := Cards.Digits(r.action.cardNumber);
    if |digits| < 12 || |digits| > 19 then Cards.InvalidLength(|digits|)
    else if !Cards.Luhn(digits) then Cards.FailedLuhnCheck
    else if r.action.expMonth < 1 || r.action.expMonth > 12 then Cards.InvalidMonth(r.action.expMonth)
    else Cards.Expired
  }

  /** Why a request is refused: the first thing wrong with it. Somebody else's rows
    * are not found, and a status that forbids the request is named with it. */
  ghost function Refusal(db: Tables, r: Request): EngineError
    requires Sound(db)
  {
    if r.number in db.used then IdReused
    else match r.action
      case CreateOrder(amount, _, receipt, notes) =>
        if amount < 100 then Validation("amount")
        else if notes > 15 then Validation("notes")
        else if receipt.Some? && |receipt.value| > 40 then Validation("receipt")
        else Conflict("orders_merchant_receipt_idx")
      case CreatePayment(oid, _, _, _, _) =>
        if oid !in db.orders || db.orders[oid].merchant != r.merchant then NotFound("order")
        else if db.orders[oid].status == Paid || db.orders[oid].status == OrderExpired then Validation("order")
        else CardRejected(CardRefusal(r))
      case CapturePayment(pid) =>
        if pid !in db.payments || db.payments[pid].merchant != r.merchant then NotFound("payment")
        else if db.payments[pid].status != Authorized then InvalidPaymentTransition(db.payments[pid].status, Captured)
        else InvalidOrderTransition(db.orders[db.payments[pid].order].status, Paid)
      case RefundPayment(pid, _, reason) =>
        if reason.Some? && |reason.value| > 255 then Validation("reason")
        else if pid !in db.payments || db.payments[pid].merchant != r.merchant then NotFound("payment")
        else if db.payments[pid].status != Captured then Validation("payment")
        else Validation("amount")
  }

  lemma CardIsRefusedFor(r: Request)
    requires r.action.CreatePayment? && !CardAccepted(r)
    ensures var a := r.action;
            var card := Cards.NewCard(a.cardNumber, a.expMonth, a.expYear);
            if card.Err? then card.error == CardRefusal(r)
            else Cards.AssertNotExpired(card.value, r.year, r.month) == Err(CardRefusal(r))
  {
    Cards.DigitsOfKept(r.action.cardNumber);
  }

  /** On sound tables every refused request gets exactly that error. */
  lemma RefusedRequestsSayWhy(db: Tables, r: Request)
    requires Sound(db) && !Accepts(db, r)
    ensures Plan(db, r) == Err(Refusal(db, r))
  {
    hide Cards.NewCard, Cards.AssertNotExpired, CardRefusal, PostCapture, PlanReturn;
    if r.number !in db.used && r.action.CreatePayment? && !CardAccepted(r) {
      CardIsRefusedFor(r);
    }
  }
}
