/** The services themselves: rows loaded into objects, changed by `mark_*`, and
  * written back one statement at a time inside a transaction that is committed
  * at the end or dropped on the first error. Each is proved to do to the
  * database exactly what `Apply` says. */
module Services {
  import opened Prelude
  import opened Monetary
  import opened Fees
  import opened Ledger
  import opened Gateway
  import opened Effects
  import opened Changes
  import Cards

  // -------------------------------------------------------------- entities

  class Order {
    const id: Id
    const merchant: nat
    const amount: Money
    const receipt: Option<string>
    var amountPaid: i64
    var status: OrderStatus

    constructor (id: Id, row: OrderRow)
      ensures this.id == id && Row() == row
    {
      this.id, merchant, amount, receipt := id, row.merchant, row.amount, row.receipt;
      amountPaid, status := row.amountPaid, row.status;
    }

    function Row(): OrderRow
      reads this
    {
      OrderRow(merchant, amount, amountPaid, status, receipt)
    }

    method Transition(to: OrderStatus) returns (r: Result<(), EngineError>)
      modifies this`status
      ensures r == if OrderCanMove(old(status), to) then Ok(()) else Err(InvalidOrderTransition(old(status), to))
      ensures status == if r.Ok? then to else old(status)
    {
      if !OrderCanMove(status, to) {
        return Err(InvalidOrderTransition(status, to));
      }
      status := to;
      return Ok(());
    }

    method MarkAttempted() returns (r: Result<(), EngineError>)
      modifies this
      ensures r == if OrderCanMove(old(status), Attempted) then Ok(()) else Err(InvalidOrderTransition(old(status), Attempted))
      ensures Row() == if r.Ok? then old(Row()).(status := Attempted) else old(Row())
    {
      r := Transition(Attempted);
    }

    method MarkPaid(amountPaid: i64) returns (r: Result<(), EngineError>)
      modifies this
      ensures r == if OrderCanMove(old(status), Paid) then Ok(()) else Err(InvalidOrderTransition(old(status), Paid))
      ensures Row() == if r.Ok? then old(Row()).(status := Paid, amountPaid := amountPaid) else old(Row())
    {
      var _ :- Transition(Paid);
      this.amountPaid := amountPaid;
      return Ok(());
    }
  }

  class Payment {
    const id: Id
    const order: Id
    const merchant: nat
    const amount: Money
    var amountRefunded: i64
    var status: PaymentStatus
    var errorCode: Option<string>
    var capturedAt: Option<Time>

    constructor (id: Id, row: PaymentRow)
      ensures this.id == id && Row() == row
    {
      this.id, order, merchant, amount := id, row.order, row.merchant, row.amount;
      amountRefunded, status, errorCode, capturedAt := row.amountRefunded, row.status, row.errorCode, row.capturedAt;
    }

    function Row(): PaymentRow
      reads this
    {
      PaymentRow(order, merchant, amount, amountRefunded, status, errorCode, capturedAt)
    }

    method Transition(to: PaymentStatus) returns (r: Result<(), EngineError>)
      modifies this`status
      ensures r == if PaymentCanMove(old(status), to) then Ok(()) else Err(InvalidPaymentTransition(old(status), to))
      ensures status == if r.Ok? then to else old(status)
    {
      if !PaymentCanMove(status, to) {
        return Err(InvalidPaymentTransition(status, to));
      }
      status := to;
      return Ok(());
    }

    method MarkCaptured(now: Time) returns (r: Result<(), EngineError>)
      modifies this
      ensures r == if PaymentCanMove(old(status), Captured) then Ok(()) else Err(InvalidPaymentTransition(old(status), Captured))
      ensures Row() == if r.Ok? then old(Row()).(status := Captured, capturedAt := Some(now)) else old(Row())
    {
      var _ :- Transition(Captured);
      capturedAt := Some(now);
      return Ok(());
    }

    method MarkFailed(code: string) returns (r: Result<(), EngineError>)
      modifies this
      ensures r == if PaymentCanMove(old(status), Failed) then Ok(()) else Err(InvalidPaymentTransition(old(status), Failed))
      ensures Row() == if r.Ok? then old(Row()).(status := Failed, errorCode := Some(code)) else old(Row())
    {
      var _ :- Transition(Failed);
      errorCode := Some(code);
      return Ok(());
    }

    method MarkRefunded(amountRefunded: i64) returns (r: Result<(), EngineError>)
      modifies this
      ensures r == if PaymentCanMove(old(status), Refunded) then Ok(()) else Err(InvalidPaymentTransition(old(status), Refunded))
      ensures Row() == if r.Ok? then old(Row()).(status := Refunded, amountRefunded := amountRefunded) else old(Row())
    {
      var _ :- Transition(Refunded);
      this.amountRefunded := amountRefunded;
      return Ok(());
    }
  }

  // ----------------------------------------------------------- the database

  class Database {
    var tables: Tables

    constructor ()
      ensures tables == EMPTY
    {
      tables := EMPTY;
    }
  }

  /** A transaction: its own view of the tables, and the statements it has run. */
  class Tx {
    ghost const base: Tables
    ghost var log: seq<Write>
    var view: Tables

    constructor (db: Database)
      ensures Valid() && base == db.tables && view == db.tables && log == []
    {
      base, view, log := db.tables, db.tables, [];
    }

    ghost predicate Valid()
      reads this
    {
      view == ApplyAll(base, log)
    }

    method Execute(w: Write)
      requires Valid()
      modifies this
      ensures Valid() && log == old(log) + [w]
    {
      ApplyConcat(base, log, [w]);
      OneWrite(view, w);
      view, log := ApplyWrite(view, w), log + [w];
    }

    /** `SELECT ... FOR UPDATE` on an order. */
    method FindOrder(id: Id) returns (r: Result<Order, EngineError>)
      ensures r.Ok? <==> id in view.orders
      ensures r.Ok? ==> fresh(r.value) && r.value.id == id && r.value.Row() == view.orders[id]
      ensures r.Err? ==> r.error == NotFound("order")
    {
      if id !in view.orders {
        return Err(NotFound("order"));
      }
      var order := new Order(id, view.orders[id]);
      return Ok(order);
    }

    method FindPayment(id: Id) returns (r: Result<Payment, EngineError>)
      ensures r.Ok? <==> id in view.payments
      ensures r.Ok? ==> fresh(r.value) && r.value.id == id && r.value.Row() == view.payments[id]
      ensures r.Err? ==> r.error == NotFound("payment")
    {
      if id !in view.payments {
        return Err(NotFound("payment"));
      }
      var payment := new Payment(id, view.payments[id]);
      return Ok(payment);
    }

    method Commit(db: Database, r: Request)
      requires Valid()
      modifies db
      ensures db.tables == ApplyAll(base, log).(used := base.used + {r.number})
    {
      LogKeepsUsed(base, log);
      db.tables := view.(used := view.used + {r.number});
    }
  }

  lemma {:induction false} LogKeepsUsed(db: Tables, ws: seq<Write>)
    ensures ApplyAll(db, ws).used == db.used
    decreases |ws|
  {
    if ws != [] {
      LogKeepsUsed(ApplyWrite(db, ws[0]), ws[1..]);
    }
  }

  /** What a fallible step has done to the log: the planned statements, or an
    * error after which the transaction is dropped. */
  ghost predicate Did(before: seq<Write>, after: seq<Write>, plan: Result<seq<Write>, EngineError>, r: Result<(), EngineError>) {
    match plan
    case Ok(ws) => r == Ok(()) && after == before + ws
    case Err(e) => r == Err(e)
  }

  // ------------------------------------------------------------- event emission

  lemma EmittedServesSubscribers(log: seq<Write>, r: Request, n: nat, merchant: nat, kind: EventKind)
    ensures var grown, id := log + Emit(r, n, merchant, kind), Id(r.number, n);
            && |grown| > |log| && grown[|log|] == InsertEvent(EventRow(id, merchant, kind))
            && ServesSubscribers(grown[|log| + 1..], id, kind, r.endpoints, 0, r.now)
  {
    hide ServesSubscribers;
    var id := Id(r.number, n);
    FanOutServesSubscribers(id, kind, r.endpoints, 0, r.now);
    assert (log + Emit(r, n, merchant, kind))[|log| + 1..] == FanOut(id, kind, r.endpoints, 0, r.now);
  }

  method EmitEvent(tx: Tx, r: Request, n: nat, merchant: nat, kind: EventKind)
    requires tx.Valid()
    modifies tx
    ensures tx.Valid() && tx.log == old(tx.log) + Emit(r, n, merchant, kind)
    ensures var start, id := |old(tx.log)|, Id(r.number, n);
            && |tx.log| > start && tx.log[start] == InsertEvent(EventRow(id, merchant, kind))
            && ServesSubscribers(tx.log[start + 1..], id, kind, r.endpoints, 0, r.now)
  {
    hide ApplyAll, ApplyWrite, ServesSubscribers;
    EmittedServesSubscribers(tx.log, r, n, merchant, kind);
    var event := Id(r.number, n);
    tx.Execute(InsertEvent(EventRow(event, merchant, kind)));
    ghost var all, start, sent := FanOut(event, kind, r.endpoints, 0, r.now), tx.log, [];
    assert r.endpoints[0..] == r.endpoints && start + sent == start && sent + all == all;
    for i := 0 to |r.endpoints|
      invariant tx.Valid()
      invariant tx.log == start + sent
      invariant all == sent + FanOut(event, kind, r.endpoints[i..], i, r.now)
    {
      var endpoint := r.endpoints[i];
      assert r.endpoints[i..][1..] == r.endpoints[i + 1..];
      if endpoint.Receives(TypeName(kind)) {
        var delivery := DeliveryRow(DeliveryId(event, i), event, endpoint.id);
        var job := JobRow(DeliverWebhook(delivery.id, event, endpoint.id), r.now, WEBHOOK_MAX_ATTEMPTS);
        tx.Execute(InsertDelivery(delivery));
        tx.Execute(EnqueueJob(job));
        TwoMore(start, sent, InsertDelivery(delivery), EnqueueJob(job));
        Associative(sent, [InsertDelivery(delivery), EnqueueJob(job)], FanOut(event, kind, r.endpoints[i + 1..], i + 1, r.now));
        sent := sent + [InsertDelivery(delivery), EnqueueJob(job)];
      }
    }
    assert r.endpoints[|r.endpoints|..] == [] && sent + [] == sent;
    Associative(old(tx.log), [InsertEvent(EventRow(event, merchant, kind))], sent);
  }

  lemma TwoMore<T>(start: seq<T>, sent: seq<T>, x: T, y: T)
    ensures start + sent + [x] + [y] == start + (sent + [x, y])
  {
  }

  // ----------------------------------------------------------------- postings

  /** `TransactionBuilder`: collect entries, then `build`. */
  class TransactionBuilder {
    const kind: Kind
    var entries: seq<LedgerEntry>

    constructor (kind: Kind)
      ensures this.kind == kind && entries == []
    {
      this.kind, entries := kind, [];
    }

    method AddCredit(account: Account, amount: Money) returns (r: Result<(), LedgerError>)
      modifies this
      ensures match Credit(account, amount)
              case Ok(e) => r == Ok(()) && entries == old(entries) + [e]
              case Err(e) => r == Err(e)
    {
      var entry :- Credit(account, amount);
      entries := entries + [entry];
      return Ok(());
    }

    method AddDebit(account: Account, amount: Money) returns (r: Result<(), LedgerError>)
      modifies this
      ensures match Debit(account, amount)
              case Ok(e) => r == Ok(()) && entries == old(entries) + [e]
              case Err(e) => r == Err(e)
    {
      var entry :- Debit(account, amount);
      entries := entries + [entry];
      return Ok(());
    }

    method Build() returns (r: Result<BalancedTransaction, LedgerError>)
      ensures r == Validate(kind, entries)
    {
      r := New(kind, entries);
    }
  }

  method PostCaptureEntries(tx: Tx, merchant: nat, amount: Money, fees: FeeBreakdown) returns (r: Result<(), EngineError>)
    requires tx.Valid()
    modifies tx
    ensures tx.Valid() && Did(old(tx.log), tx.log, PostCapture(merchant, amount, fees), r)
  {
    hide Validate, Credit, Debit, ApplyAll, ApplyWrite;
    var c := amount.currency;
    var clearing, pending := Clearing(c), Pending(merchant, c);
    tx.Execute(EnsureAccount(pending));
    var builder := new TransactionBuilder(PaymentCaptured);
    var debited := builder.AddDebit(clearing, amount);
    var _ :- FromLedger(debited);
    var credited := builder.AddCredit(pending, amount);
    var _ :- FromLedger(credited);
    assert builder.entries == [Debit(clearing, amount).value, Credit(pending, amount).value];
    var built := builder.Build();
    var capture :- FromLedger(built);
    tx.Execute(Post(capture));
    ghost var first := [EnsureAccount(pending), Post(capture)];
    assert tx.log == old(tx.log) + first;
    if fees.total > 0 {
      builder := new TransactionBuilder(FeeCharged);
      debited := builder.AddDebit(pending, Money(fees.total, c));
      var _ :- FromLedger(debited);
      credited := builder.AddCredit(Revenue(c), Money(fees.base, c));
      var _ :- FromLedger(credited);
      ghost var two := [Debit(pending, Money(fees.total, c)).value, Credit(Revenue(c), Money(fees.base, c)).value];
      assert builder.entries == two;
      if fees.tax > 0 {
        credited := builder.AddCredit(TaxPayable(c), Money(fees.tax, c));
        var _ :- FromLedger(credited);
        assert builder.entries == [two[0], two[1], Credit(TaxPayable(c), Money(fees.tax, c)).value];
      }
      built := builder.Build();
      var fee :- FromLedger(built);
      tx.Execute(Post(fee));
      assert tx.log == old(tx.log) + (first + [Post(fee)]);
    }
    return Ok(());
  }

  method PostRefundEntries(tx: Tx, merchant: nat, amount: Money, fee: FeeRefund) returns (r: Result<(), EngineError>)
    requires tx.Valid()
    modifies tx
    ensures tx.Valid() && Did(old(tx.log), tx.log, PostRefund(merchant, amount, fee), r)
  {
    hide Validate, Credit, Debit, ApplyAll, ApplyWrite;
    var c := amount.currency;
    var clearing, pending := Clearing(c), Pending(merchant, c);
    tx.Execute(EnsureAccount(pending));
    var builder := new TransactionBuilder(RefundIssued);
    var debited := builder.AddDebit(pending, amount);
    var _ :- FromLedger(debited);
    var credited := builder.AddCredit(clearing, amount);
    var _ :- FromLedger(credited);
    assert builder.entries == [Debit(pending, amount).value, Credit(clearing, amount).value];
    var built := builder.Build();
    var refund :- FromLedger(built);
    tx.Execute(Post(refund));
    ghost var first := [EnsureAccount(pending), Post(refund)];
    assert tx.log == old(tx.log) + first;
    if fee.IsZero() {
      return Ok(());
    }
    var returned :- BuildFeeReturn(merchant, c, fee);
    tx.Execute(Post(returned));
    assert tx.log == old(tx.log) + (first + [Post(returned)]);
    return Ok(());
  }

  method BuildFeeReturn(merchant: nat, c: Currency, fee: FeeRefund) returns (r: Result<BalancedTransaction, EngineError>)
    ensures r == match FeeReturnEntries(merchant, c, fee)
                 case Ok(entries) => FromLedger(Validate(FeeRefunded, entries))
                 case Err(e) => Err(e)
  {
    hide Validate, Credit, Debit, ApplyAll, ApplyWrite;
    if !FitsI64(fee.base) || !FitsI64(fee.tax) || !FitsI64(fee.Total()) {
      return Err(MoneyFailed(Overflow));
    }
    var builder := new TransactionBuilder(FeeRefunded);
    var credited := builder.AddCredit(Pending(merchant, c), Money(fee.Total(), c));
    var _ :- FromLedger(credited);
    assert builder.entries == [Credit(Pending(merchant, c), Money(fee.Total(), c)).value];
    if fee.base > 0 {
      var debited := builder.AddDebit(Revenue(c), Money(fee.base, c));
      var _ :- FromLedger(debited);
    }
    if fee.tax > 0 {
      var debited := builder.AddDebit(TaxPayable(c), Money(fee.tax, c));
      var _ :- FromLedger(debited);
    }
    var built := builder.Build();
    return FromLedger(built);
  }

  // ------------------------------------------------------------ settlement

  method Settle(tx: Tx, r: Request, payment: Payment, order: Order) returns (result: Result<(), EngineError>)
    requires tx.Valid() && payment.order == order.id
    modifies tx, payment, order
    ensures tx.Valid()
    ensures Did(old(tx.log), tx.log, PlanSettle(r, payment.id, old(payment.Row()), old(order.Row())), result)
    ensures result.Ok? ==> payment.Row() == old(payment.Row()).(status := Captured, capturedAt := Some(r.now))
  {
    hide PostCapture, FeeSchedule.Compute, Emit;
    var _ :- payment.MarkCaptured(r.now);
    var _ :- order.MarkPaid(payment.amount.minor);
    tx.Execute(UpdatePayment(payment.id, payment.status, payment.capturedAt, payment.amountRefunded, None));
    tx.Execute(UpdateOrder(order.id, order.status, order.amountPaid));
    var fees :- FromMoney(ForCurrency(payment.amount.currency).Compute(payment.amount));
    ghost var postings := PostCapture(payment.merchant, payment.amount, fees);
    var _ :- PostCaptureEntries(tx, payment.merchant, payment.amount, fees);
    EmitEvent(tx, r, 1, payment.merchant, PaymentWasCaptured(payment.id));
    EmitEvent(tx, r, 2, payment.merchant, OrderWasPaid(payment.order));
    ghost var rows := [UpdatePayment(payment.id, Captured, Some(r.now), payment.amountRefunded, None),
                       UpdateOrder(payment.order, Paid, payment.amount.minor)];
    assert tx.log == old(tx.log) + (rows + postings.value
      + Emit(r, 1, payment.merchant, PaymentWasCaptured(payment.id)) + Emit(r, 2, payment.merchant, OrderWasPaid(payment.order)));
    return Ok(());
  }

  /** The branch of `create` that the attempt's outcome selects. */
  method ApplyOutcome(tx: Tx, r: Request, payment: Payment, order: Order, outcome: Outcome) returns (result: Result<(), EngineError>)
    requires tx.Valid() && payment.order == order.id
    modifies tx, payment, order
    ensures tx.Valid()
    ensures Did(old(tx.log), tx.log, PlanOutcome(r, payment.id, old(payment.Row()), old(order.Row()), outcome), result)
  {
    hide PlanSettle, Emit, ApplyAll, ApplyWrite;
    ghost var before := tx.log;
    match outcome
    case Capture =>
      result := Settle(tx, r, payment, order);
    case CaptureThenDispute =>
      var _ :- Settle(tx, r, payment, order);
      ghost var settled := tx.log[|before|..];
      tx.Execute(EnqueueJob(JobRow(OpenDispute(payment.id), r.now + 60, 3)));
      assert tx.log == before + (settled + [EnqueueJob(JobRow(OpenDispute(payment.id), r.now + 60, 3))]);
      return Ok(());
    case Authorize =>
      var _ :- payment.Transition(Authorized);
      tx.Execute(UpdatePayment(payment.id, payment.status, None, 0, None));
      EmitEvent(tx, r, 1, r.merchant, PaymentWasAuthorized(payment.id));
      assert tx.log == before
        + ([UpdatePayment(payment.id, Authorized, None, 0, None)] + Emit(r, 1, r.merchant, PaymentWasAuthorized(payment.id)));
      return Ok(());
    case Decline(code) =>
      var _ :- payment.MarkFailed(code);
      tx.Execute(UpdatePayment(payment.id, payment.status, None, 0, Some(code)));
      EmitEvent(tx, r, 1, r.merchant, PaymentHasFailed(payment.id));
      assert tx.log == before
        + ([UpdatePayment(payment.id, Failed, None, 0, Some(code))] + Emit(r, 1, r.merchant, PaymentHasFailed(payment.id)));
      return Ok(());
    case RequireAction =>
      var _ :- payment.Transition(RequiresAction);
      tx.Execute(UpdatePayment(payment.id, payment.status, None, 0, None));
      return Ok(());
    case RiskHold =>
      tx.Execute(EnqueueJob(JobRow(ResolveRiskReview(payment.id), r.now + 30, 3)));
      return Ok(());
  }

  // ------------------------------------------------------------- the services

  /** The request's transaction did `Plan`, committed or not. */
  ghost predicate Served<T>(before: Tables, after: Tables, r: Request, result: Result<T, EngineError>) {
    && after == Apply(before, r)
    && (result.Ok? <==> Plan(before, r).Ok?)
    && (result.Err? ==> result.error == Plan(before, r).error)
  }

  method CreateOrderFor(db: Database, r: Request) returns (result: Result<Id, EngineError>)
    requires r.action.CreateOrder?
    modifies db
    ensures Served(old(db.tables), db.tables, r, result)
  {
    if r.number in db.tables.used {
      return Err(IdReused);
    }
    if r.action.amountMinor < MIN_AMOUNT_MINOR {
      return Err(Validation("amount"));
    }
    if r.action.notes > MAX_NOTES {
      return Err(Validation("notes"));
    }
    if r.action.receipt.Some? && |r.action.receipt.value| > MAX_RECEIPT_LENGTH {
      return Err(Validation("receipt"));
    }
    if ReceiptTaken(db.tables.orders, r.merchant, r.action.receipt) {
      return Err(Conflict("orders_merchant_receipt_idx"));
    }
    var tx := new Tx(db);
    var row := OrderRow(r.merchant, Money(r.action.amountMinor, r.action.currency), 0, OrderCreated, r.action.receipt);
    tx.Execute(InsertOrder(Id(r.number, 0), row));
    assert tx.log == [InsertOrder(Id(r.number, 0), row)];
    tx.Commit(db, r);
    return Ok(Id(r.number, 0));
  }

  method CreatePaymentFor(db: Database, r: Request) returns (result: Result<Payment, EngineError>)
    requires r.action.CreatePayment?
    modifies db
    ensures Served(old(db.tables), db.tables, r, result)
  {
    hide PlanOutcome, ApplyAll, ApplyWrite, OrderCanMove, OrderIsTerminal, Cards.NewCard, Cards.AssertNotExpired;
    var a := r.action;
    if r.number in db.tables.used {
      return Err(IdReused);
    }
    var tx := new Tx(db);
    var order :- tx.FindOrder(a.order);
    if order.merchant != r.merchant {
      return Err(NotFound("order"));
    }
    if OrderIsTerminal(order.status) {
      return Err(Validation("order"));
    }
    var card := Cards.NewCard(a.cardNumber, a.expMonth, a.expYear);
    if card.Err? {
      return Err(CardRejected(card.error));
    }
    var expiry := Cards.AssertNotExpired(card.value, r.year, r.month);
    if expiry.Err? {
      return Err(CardRejected(expiry.error));
    }
    var pid := Id(r.number, 0);
    var payment := new Payment(pid, NewPayment(r, a.order, order.Row()));
    var _ :- order.MarkAttempted();
    tx.Execute(UpdateOrder(order.id, order.status, order.amountPaid));
    tx.Execute(InsertPayment(pid, payment.Row()));
    tx.Execute(InsertAttempt(AttemptRow(pid, OutcomeName(a.outcome))));
    ghost var start := tx.log;
    assert start == [UpdateOrder(a.order, Attempted, order.amountPaid), InsertPayment(pid, payment.Row()),
                     InsertAttempt(AttemptRow(pid, OutcomeName(a.outcome)))];
    var _ :- ApplyOutcome(tx, r, payment, order, a.outcome);
    tx.Commit(db, r);
    return Ok(payment);
  }

  method CapturePaymentFor(db: Database, r: Request) returns (result: Result<Payment, EngineError>)
    requires r.action.CapturePayment?
    modifies db
    ensures Served(old(db.tables), db.tables, r, result)
    ensures result.Ok? ==> result.value.status == Captured && result.value.capturedAt == Some(r.now)
  {
    hide PlanSettle, ApplyAll, ApplyWrite;
    if r.number in db.tables.used {
      return Err(IdReused);
    }
    var tx := new Tx(db);
    var payment :- tx.FindPayment(r.action.payment);
    if payment.merchant != r.merchant {
      return Err(NotFound("payment"));
    }
    if !IsCapturable(payment.status) {
      return Err(InvalidPaymentTransition(payment.status, Captured));
    }
    var order :- tx.FindOrder(payment.order);
    ghost var plan := PlanSettle(r, payment.id, payment.Row(), order.Row());
    var _ :- Settle(tx, r, payment, order);
    assert tx.log == plan.value;
    tx.Commit(db, r);
    return Ok(payment);
  }

  /** `sum_for_payment`: the aggregate over the refund rows. */
  method SumRefunds(tx: Tx, payment: Id) returns (total: int)
    ensures total == SumForPayment(tx.view.refunds, payment)
  {
    var refunds := tx.view.refunds;
    total := 0;
    for i := 0 to |refunds|
      invariant total == SumForPayment(refunds[..i], payment)
    {
      assert refunds[..i + 1][..i] == refunds[..i];
      if refunds[i].payment == payment && refunds[i].status != RefundFailed {
        total := total + refunds[i].amount.minor;
      }
    }
    assert refunds[..|refunds|] == refunds;
  }

  method RefundPaymentFor(db: Database, r: Request) returns (result: Result<RefundRow, EngineError>)
    requires r.action.RefundPayment?
    modifies db
    ensures Served(old(db.tables), db.tables, r, result)
  {
    hide PlanReturn, ApplyAll, ApplyWrite, SumForPayment;
    if r.number in db.tables.used {
      return Err(IdReused);
    }
    if r.action.reason.Some? && |r.action.reason.value| > MAX_REASON_LENGTH {
      return Err(Validation("reason"));
    }
    var tx := new Tx(db);
    var payment :- tx.FindPayment(r.action.payment);
    if payment.merchant != r.merchant {
      return Err(NotFound("payment"));
    }
    if payment.status != Captured && payment.status != Refunded {
      return Err(Validation("payment"));
    }
    var already := SumRefunds(tx, payment.id);
    var remaining := payment.amount.minor - already;
    if !FitsI64(already) || !FitsI64(remaining) {
      return Err(MoneyFailed(Overflow));
    }
    if remaining <= 0 {
      return Err(Validation("payment"));
    }
    var amountMinor: i64 := if r.action.requested.Some? then r.action.requested.value else remaining;
    if amountMinor <= 0 || amountMinor > remaining {
      return Err(Validation("amount"));
    }
    var newTotal := already + amountMinor;
    assert newTotal - already == amountMinor;
    var refund := RefundRow(Id(r.number, 0), payment.id, r.merchant, Money(amountMinor, payment.amount.currency), RefundProcessed);
    ghost var plan := PlanReturn(r, payment.Row(), already, newTotal);
    var _ :- IssueRefund(tx, r, payment, refund, already, newTotal);
    assert tx.log == plan.value;
    tx.Commit(db, r);
    return Ok(refund);
  }

  /** The statements of a refund whose amount passed the guard. */
  method IssueRefund(tx: Tx, r: Request, payment: Payment, refund: RefundRow, already: i64, newTotal: i64)
    returns (result: Result<(), EngineError>)
    requires tx.Valid() && r.action.RefundPayment? && payment.id == r.action.payment && FitsI64(newTotal - already)
    requires refund == RefundRow(Id(r.number, 0), payment.id, r.merchant,
                                 Money(newTotal - already, payment.amount.currency), RefundProcessed)
    modifies tx, payment
    ensures tx.Valid()
    ensures Did(old(tx.log), tx.log, PlanReturn(r, old(payment.Row()), already, newTotal), result)
  {
    hide PostRefund, ProportionalFeeRefund, Emit, ApplyAll, ApplyWrite;
    tx.Execute(InsertRefund(refund));
    var fee :- FromMoney(ProportionalFeeRefund(payment.amount, already, newTotal));
    ghost var postings := PostRefund(r.merchant, refund.amount, fee);
    var _ :- PostRefundEntries(tx, r.merchant, refund.amount, fee);
    if newTotal >= payment.amount.minor {
      var _ :- payment.MarkRefunded(newTotal);
    } else {
      payment.amountRefunded := newTotal;
    }
    ghost var update := UpdatePayment(payment.id, payment.status, payment.capturedAt, newTotal, None);
    tx.Execute(UpdatePayment(payment.id, payment.status, payment.capturedAt, payment.amountRefunded, None));
    EmitEvent(tx, r, 1, r.merchant, RefundWasProcessed(refund.id));
    assert tx.log == old(tx.log)
      + ([InsertRefund(refund)] + postings.value + [update] + Emit(r, 1, r.merchant, RefundWasProcessed(refund.id)));
    return Ok(());
  }
}
