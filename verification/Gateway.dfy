/** The money engine as transactions over tables: `crates/engine/payment.rs`,
  * `crates/engine/refund.rs`, `crates/engine/ledger.rs`, `crates/engine/event.rs`
  * and the store functions they call.
  *
  * A request is decided from the rows it reads (`Plan`) and, when accepted,
  * performs a list of single-row statements that commit together (`ApplyAll`).
  * A rejected request leaves the tables as they were. */
module Gateway {
  import opened Prelude
  import opened Monetary
  import opened Fees
  import opened Ledger
  import Cards

  /** A UUID: the `n`-th one drawn while serving a request. `Tables.used` makes
    * request numbers, and with them identifiers, unique. */
  datatype Id = Id(request: nat, n: nat)

  type Time = int

  // ------------------------------------------------------------- statuses

  datatype OrderStatus = OrderCreated | Attempted | Paid | OrderExpired

  predicate OrderCanMove(from: OrderStatus, to: OrderStatus) {
    match from
    case OrderCreated => to == Attempted || to == OrderExpired
    case Attempted => to == Attempted || to == Paid || to == OrderExpired
    case Paid => false
    case OrderExpired => false
  }

  predicate OrderIsTerminal(s: OrderStatus) {
    s == Paid || s == OrderExpired
  }

  datatype PaymentStatus = PaymentCreated | RequiresAction | Authorized | Captured | Failed | Refunded

  predicate PaymentCanMove(from: PaymentStatus, to: PaymentStatus) {
    match from
    case PaymentCreated => to == RequiresAction || to == Authorized || to == Captured || to == Failed
    case RequiresAction => to == Authorized || to == Captured || to == Failed
    case Authorized => to == Captured || to == Failed
    case Captured => to == Refunded
    case Failed => false
    case Refunded => false
  }

  /** The two machines as drawn: their moves, and that exactly the ends have none. */
  lemma StatusMachines()
    ensures forall from, to :: OrderCanMove(from, to) <==>
              (from, to) in {(OrderCreated, Attempted), (OrderCreated, OrderExpired),
                             (Attempted, Attempted), (Attempted, Paid), (Attempted, OrderExpired)}
    ensures forall from :: OrderIsTerminal(from) <==> forall to :: !OrderCanMove(from, to)
    ensures forall from, to :: PaymentCanMove(from, to) <==>
              (from, to) in {(PaymentCreated, RequiresAction), (PaymentCreated, Authorized), (PaymentCreated, Captured),
                             (PaymentCreated, Failed), (RequiresAction, Authorized), (RequiresAction, Captured),
                             (RequiresAction, Failed), (Authorized, Captured), (Authorized, Failed), (Captured, Refunded)}
    ensures forall s :: IsCapturable(s) <==> s == Authorized
  {
    forall from ensures OrderIsTerminal(from) <==> forall to :: !OrderCanMove(from, to) {
      assert !OrderIsTerminal(from) ==> OrderCanMove(from, OrderExpired);
    }
  }

  predicate IsCapturable(s: PaymentStatus) {
    s == Authorized
  }

  datatype RefundStatus = RefundPending | RefundProcessed | RefundFailed

  // ----------------------------------------------------------------- rows

  datatype OrderRow = OrderRow(
    merchant: nat, amount: Money, amountPaid: i64, status: OrderStatus, receipt: Option<string>)

  datatype PaymentRow = PaymentRow(
    order: Id, merchant: nat, amount: Money, amountRefunded: i64, status: PaymentStatus,
    errorCode: Option<string>, capturedAt: Option<Time>)

  datatype AttemptRow = AttemptRow(payment: Id, outcome: string)

  datatype RefundRow = RefundRow(id: Id, payment: Id, merchant: nat, amount: Money, status: RefundStatus)

  datatype EventKind =
    | PaymentWasCaptured(payment: Id)
    | OrderWasPaid(order: Id)
    | PaymentWasAuthorized(payment: Id)
    | PaymentHasFailed(payment: Id)
    | RefundWasProcessed(refund: Id)

  function TypeName(kind: EventKind): string {
    match kind
    case PaymentWasCaptured(_) => "payment.captured"
    case OrderWasPaid(_) => "order.paid"
    case PaymentWasAuthorized(_) => "payment.authorized"
    case PaymentHasFailed(_) => "payment.failed"
    case RefundWasProcessed(_) => "refund.processed"
  }

  datatype EventRow = EventRow(id: Id, merchant: nat, kind: EventKind)

  datatype Endpoint = Endpoint(id: nat, active: bool, enabledEvents: seq<string>) {
    /** An endpoint that names no events receives all of them. */
    predicate Receives(eventType: string) {
      active && (enabledEvents == [] || eventType in enabledEvents)
    }
  }

  datatype DeliveryId = DeliveryId(event: Id, slot: nat)

  datatype DeliveryRow = DeliveryRow(id: DeliveryId, event: Id, endpoint: nat)

  datatype Payload =
    | DeliverWebhook(delivery: DeliveryId, event: Id, endpoint: nat)
    | OpenDispute(payment: Id)
    | ResolveRiskReview(payment: Id)

  datatype JobRow = JobRow(payload: Payload, runAt: Time, maxAttempts: nat)

  const WEBHOOK_MAX_ATTEMPTS := 7

  datatype Tables = Tables(
    orders: map<Id, OrderRow>,
    payments: map<Id, PaymentRow>,
    attempts: seq<AttemptRow>,
    refunds: seq<RefundRow>,
    accounts: set<Account>,
    posted: seq<BalancedTransaction>,
    events: seq<EventRow>,
    deliveries: seq<DeliveryRow>,
    jobs: seq<JobRow>,
    used: set<nat>)

  const EMPTY := Tables(map[], map[], [], [], {}, [], [], [], [], {})

  function Find<T>(table: map<Id, T>, id: Id): Option<T> {
    if id in table then Some(table[id]) else None
  }

  /** `sum_for_payment`: everything refunded on a payment, failed refunds excluded. */
  function SumForPayment(refunds: seq<RefundRow>, payment: Id): int {
    if refunds == [] then 0
    else
      var last := refunds[|refunds| - 1];
      SumForPayment(refunds[..|refunds| - 1], payment)
      + if last.payment == payment && last.status != RefundFailed then last.amount.minor else 0
  }

  // ------------------------------------------------------------- requests

  datatype Outcome = Capture | CaptureThenDispute | Authorize | Decline(code: string) | RequireAction | RiskHold

  function OutcomeName(o: Outcome): string {
    match o
    case Capture => "success"
    case CaptureThenDispute => "success"
    case Authorize => "authorized"
    case Decline(_) => "declined"
    case RequireAction => "requires_action"
    case RiskHold => "risk_hold"
  }

  /** Of an order's notes only their number matters. */
  datatype Action =
    | CreateOrder(amountMinor: i64, currency: Currency, receipt: Option<string>, notes: nat)
    | CreatePayment(order: Id, cardNumber: string, expMonth: nat, expYear: nat, outcome: Outcome)
    | CapturePayment(payment: Id)
    | RefundPayment(payment: Id, requested: Option<i64>, reason: Option<string>)

  /** One call into the engine, with what it reads from outside the transaction:
    * the clock and the merchant's endpoints, fetched beforehand. */
  datatype Request = Request(
    number: nat, merchant: nat, now: Time, year: int, month: nat, endpoints: seq<Endpoint>, action: Action)

  datatype EngineError =
    | NotFound(what: string)
    | Validation(field: string)
    | InvalidOrderTransition(fromOrder: OrderStatus, toOrder: OrderStatus)
    | InvalidPaymentTransition(fromPayment: PaymentStatus, toPayment: PaymentStatus)
    | CardRejected(card: Cards.CardError)
    | MoneyFailed(money: MoneyError)
    | LedgerFailed(ledger: LedgerError)
    | Conflict(constraint: string)
    | IdReused

  const MIN_AMOUNT_MINOR := 100
  const MAX_REASON_LENGTH := 255
  const MAX_NOTES := 15
  const MAX_RECEIPT_LENGTH := 40

  // ----------------------------------------------------------- statements

  datatype Write =
    | InsertOrder(id: Id, orderRow: OrderRow)
    | UpdateOrder(id: Id, orderStatus: OrderStatus, amountPaid: i64)
    | InsertPayment(id: Id, paymentRow: PaymentRow)
    | UpdatePayment(id: Id, paymentStatus: PaymentStatus, capturedAt: Option<Time>, amountRefunded: i64, errorCode: Option<string>)
    | InsertAttempt(attempt: AttemptRow)
    | InsertRefund(refund: RefundRow)
    | EnsureAccount(account: Account)
    | Post(transaction: BalancedTransaction)
    | InsertEvent(event: EventRow)
    | InsertDelivery(delivery: DeliveryRow)
    | EnqueueJob(job: JobRow)

  function ApplyWrite(db: Tables, w: Write): Tables {
    match w
    case InsertOrder(id, row) => db.(orders := db.orders[id := row])
    case UpdateOrder(id, status, amountPaid) =>
      if id !in db.orders then db
      else db.(orders := db.orders[id := db.orders[id].(status := status, amountPaid := amountPaid)])
    case InsertPayment(id, row) => db.(payments := db.payments[id := row])
    case UpdatePayment(id, status, capturedAt, amountRefunded, errorCode) =>
      if id !in db.payments then db
      else db.(payments := db.payments[id := db.payments[id].(
        status := status, capturedAt := capturedAt, amountRefunded := amountRefunded, errorCode := errorCode)])
    case InsertAttempt(attempt) => db.(attempts := db.attempts + [attempt])
    case InsertRefund(refund) => db.(refunds := db.refunds + [refund])
    case EnsureAccount(account) => db.(accounts := db.accounts + {account})
    case Post(transaction) => db.(posted := db.posted + [transaction])
    case InsertEvent(event) => db.(events := db.events + [event])
    case InsertDelivery(delivery) => db.(deliveries := db.deliveries + [delivery])
    case EnqueueJob(job) => db.(jobs := db.jobs + [job])
  }

  function ApplyAll(db: Tables, ws: seq<Write>): Tables
    decreases |ws|
  {
    if ws == [] then db else ApplyAll(ApplyWrite(db, ws[0]), ws[1..])
  }

  lemma {:induction false} ApplyConcat(db: Tables, first: seq<Write>, second: seq<Write>)
    ensures ApplyAll(db, first + second) == ApplyAll(ApplyAll(db, first), second)
    decreases |first|
  {
    if first == [] {
      assert first + second == second;
    } else {
      assert (first + second)[1..] == first[1..] + second;
      ApplyConcat(ApplyWrite(db, first[0]), first[1..], second);
    }
  }

  // ---------------------------------------------------------------- outbox

  /** One pending delivery and one job per endpoint that receives the event. */
  function FanOut(event: Id, kind: EventKind, endpoints: seq<Endpoint>, slot: nat, now: Time): seq<Write> {
    if endpoints == [] then []
    else
      var id := DeliveryId(event, slot);
      var rest := FanOut(event, kind, endpoints[1..], slot + 1, now);
      if endpoints[0].Receives(TypeName(kind)) then
        [InsertDelivery(DeliveryRow(id, event, endpoints[0].id)),
         EnqueueJob(JobRow(DeliverWebhook(id, event, endpoints[0].id), now, WEBHOOK_MAX_ATTEMPTS))] + rest
      else rest
  }

  function Emit(r: Request, n: nat, merchant: nat, kind: EventKind): seq<Write> {
    [InsertEvent(EventRow(Id(r.number, n), merchant, kind))] + FanOut(Id(r.number, n), kind, r.endpoints, 0, r.now)
  }

  // --------------------------------------------------------------- posting

  function FromLedger<T>(r: Result<T, LedgerError>): Result<T, EngineError> {
    match r
    case Ok(v) => Ok(v)
    case Err(e) => Err(LedgerFailed(e))
  }

  function FromMoney<T>(r: Result<T, MoneyError>): Result<T, EngineError> {
    match r
    case Ok(v) => Ok(v)
    case Err(e) => Err(MoneyFailed(e))
  }

  ghost function PostCapture(merchant: nat, amount: Money, fees: FeeBreakdown): Result<seq<Write>, EngineError> {
    var c := amount.currency;
    var clearing, pending := Clearing(c), Pending(merchant, c);
    var debit :- FromLedger(Debit(clearing, amount));
    var credit :- FromLedger(Credit(pending, amount));
    var capture :- FromLedger(Validate(PaymentCaptured, [debit, credit]));
    var first := [EnsureAccount(pending), Post(capture)];
    if fees.total > 0 then
      var feeDebit :- FromLedger(Debit(pending, Money(fees.total, c)));
      var feeCredit :- FromLedger(Credit(Revenue(c), Money(fees.base, c)));
      if fees.tax > 0 then
        var taxCredit :- FromLedger(Credit(TaxPayable(c), Money(fees.tax, c)));
        var fee :- FromLedger(Validate(FeeCharged, [feeDebit, feeCredit, taxCredit]));
        Ok(first + [Post(fee)])
      else
        var fee :- FromLedger(Validate(FeeCharged, [feeDebit, feeCredit]));
        Ok(first + [Post(fee)])
    else Ok(first)
  }

  ghost function PostRefund(merchant: nat, amount: Money, fee: FeeRefund): Result<seq<Write>, EngineError> {
    var c := amount.currency;
    var clearing, pending := Clearing(c), Pending(merchant, c);
    var debit :- FromLedger(Debit(pending, amount));
    var credit :- FromLedger(Credit(clearing, amount));
    var refund :- FromLedger(Validate(RefundIssued, [debit, credit]));
    var first := [EnsureAccount(pending), Post(refund)];
    if fee.IsZero() then Ok(first)
    else
      var entries :- FeeReturnEntries(merchant, c, fee);
      var returned :- FromLedger(Validate(FeeRefunded, entries));
      Ok(first + [Post(returned)])
  }

  /** Credit the merchant the fee share; debit only the components that moved. */
  function FeeReturnEntries(merchant: nat, c: Currency, fee: FeeRefund): Result<seq<LedgerEntry>, EngineError> {
    if !FitsI64(fee.base) || !FitsI64(fee.tax) || !FitsI64(fee.Total()) then Err(MoneyFailed(Overflow))
    else
      var credit :- FromLedger(Credit(Pending(merchant, c), Money(fee.Total(), c)));
      var withBase :- if fee.base > 0 then AddDebit([credit], Revenue(c), Money(fee.base, c)) else Ok([credit]);
      if fee.tax > 0 then AddDebit(withBase, TaxPayable(c), Money(fee.tax, c)) else Ok(withBase)
  }

  function AddDebit(entries: seq<LedgerEntry>, account: Account, amount: Money): Result<seq<LedgerEntry>, EngineError> {
    var debit :- FromLedger(Debit(account, amount));
    Ok(entries + [debit])
  }

  // -------------------------------------------------------------- deciding

  /** `settle`: both rows move together, then the ledger, then the two events. */
  ghost function PlanSettle(r: Request, pid: Id, payment: PaymentRow, order: OrderRow): Result<seq<Write>, EngineError> {
    if !PaymentCanMove(payment.status, Captured) then Err(InvalidPaymentTransition(payment.status, Captured))
    else if !OrderCanMove(order.status, Paid) then Err(InvalidOrderTransition(order.status, Paid))
    else
      var fees :- FromMoney(ForCurrency(payment.amount.currency).Compute(payment.amount));
      var postings :- PostCapture(payment.merchant, payment.amount, fees);
      Ok([UpdatePayment(pid, Captured, Some(r.now), payment.amountRefunded, None),
          UpdateOrder(payment.order, Paid, payment.amount.minor)]
         + postings
         + Emit(r, 1, payment.merchant, PaymentWasCaptured(pid))
         + Emit(r, 2, payment.merchant, OrderWasPaid(payment.order)))
  }

  ghost function PlanOutcome(r: Request, pid: Id, payment: PaymentRow, order: OrderRow, outcome: Outcome)
    : Result<seq<Write>, EngineError>
  {
    match outcome
    case Capture => PlanSettle(r, pid, payment, order)
    case CaptureThenDispute =>
      var settle :- PlanSettle(r, pid, payment, order);
      Ok(settle + [EnqueueJob(JobRow(OpenDispute(pid), r.now + 60, 3))])
    case Authorize =>
      if !PaymentCanMove(payment.status, Authorized) then Err(InvalidPaymentTransition(payment.status, Authorized))
      else Ok([UpdatePayment(pid, Authorized, None, 0, None)] + Emit(r, 1, r.merchant, PaymentWasAuthorized(pid)))
    case Decline(code) =>
      if !PaymentCanMove(payment.status, Failed) then Err(InvalidPaymentTransition(payment.status, Failed))
      else Ok([UpdatePayment(pid, Failed, None, 0, Some(code))] + Emit(r, 1, r.merchant, PaymentHasFailed(pid)))
    case RequireAction =>
      if !PaymentCanMove(payment.status, RequiresAction) then Err(InvalidPaymentTransition(payment.status, RequiresAction))
      else Ok([UpdatePayment(pid, RequiresAction, None, 0, None)])
    case RiskHold => Ok([EnqueueJob(JobRow(ResolveRiskReview(pid), r.now + 30, 3))])
  }

  function NewPayment(r: Request, oid: Id, order: OrderRow): PaymentRow {
    PaymentRow(oid, r.merchant, order.amount, 0, PaymentCreated, None, None)
  }

  /** `PaymentService::create`, from the order row read under its lock. */
  ghost function PlanCreatePayment(r: Request, found: Option<OrderRow>): Result<seq<Write>, EngineError>
    requires r.action.CreatePayment?
  {
    var a := r.action;
    if found.None? || found.value.merchant != r.merchant then Err(NotFound("order"))
    else if OrderIsTerminal(found.value.status) then Err(Validation("order"))
    else
      match Cards.NewCard(a.cardNumber, a.expMonth, a.expYear)
      case Err(e) => Err(CardRejected(e))
      case Ok(card) =>
        match Cards.AssertNotExpired(card, r.year, r.month)
        case Err(e) => Err(CardRejected(e))
        case Ok(_) =>
          if !OrderCanMove(found.value.status, Attempted) then Err(InvalidOrderTransition(found.value.status, Attempted))
          else
            var pid := Id(r.number, 0);
            var order := found.value.(status := Attempted);
            var payment := NewPayment(r, a.order, order);
            var rest :- PlanOutcome(r, pid, payment, order, a.outcome);
            Ok([UpdateOrder(a.order, Attempted, order.amountPaid),
                InsertPayment(pid, payment),
                InsertAttempt(AttemptRow(pid, OutcomeName(a.outcome)))] + rest)
  }

  /** `capture` up to the point where it knows which order to lock. */
  function CheckCapturable(r: Request, found: Option<PaymentRow>): Result<PaymentRow, EngineError> {
    if found.None? || found.value.merchant != r.merchant then Err(NotFound("payment"))
    else if !IsCapturable(found.value.status) then Err(InvalidPaymentTransition(found.value.status, Captured))
    else Ok(found.value)
  }

  ghost function PlanCapture(r: Request, payment: PaymentRow, found: Option<OrderRow>): Result<seq<Write>, EngineError>
    requires r.action.CapturePayment?
  {
    if found.None? then Err(NotFound("order"))
    else PlanSettle(r, r.action.payment, payment, found.value)
  }

  /** `RefundService::create` up to the sum: what is checked on the locked row. */
  function CheckRefundable(r: Request, found: Option<PaymentRow>): Result<PaymentRow, EngineError>
    requires r.action.RefundPayment?
  {
    if r.action.reason.Some? && |r.action.reason.value| > MAX_REASON_LENGTH then Err(Validation("reason"))
    else if found.None? || found.value.merchant != r.merchant then Err(NotFound("payment"))
    else if found.value.status != Captured && found.value.status != Refunded then Err(Validation("payment"))
    else Ok(found.value)
  }

  ghost function PlanRefund(r: Request, payment: PaymentRow, already: int): Result<seq<Write>, EngineError>
    requires r.action.RefundPayment?
  {
    var remaining := payment.amount.minor - already;
    if !FitsI64(already) || !FitsI64(remaining) then Err(MoneyFailed(Overflow))
    else if remaining <= 0 then Err(Validation("payment"))
    else
      var amountMinor: i64 := if r.action.requested.Some? then r.action.requested.value else remaining;
      if amountMinor <= 0 then Err(Validation("amount"))
      else if amountMinor > remaining then Err(Validation("amount"))
      else PlanReturn(r, payment, already, already + amountMinor)
  }

  /** The guard passed: the refunded total goes from `already` to `newTotal`. */
  ghost function PlanReturn(r: Request, payment: PaymentRow, already: i64, newTotal: i64): Result<seq<Write>, EngineError>
    requires r.action.RefundPayment? && FitsI64(newTotal - already)
  {
    var amount := Money(newTotal - already, payment.amount.currency);
    var fee :- FromMoney(ProportionalFeeRefund(payment.amount, already, newTotal));
    var postings :- PostRefund(r.merchant, amount, fee);
    RecordReturn(r, payment, amount, newTotal, postings)
  }

  function RecordReturn(r: Request, payment: PaymentRow, amount: Money, newTotal: i64, postings: seq<Write>)
    : Result<seq<Write>, EngineError>
    requires r.action.RefundPayment?
  {
    var pid, rid := r.action.payment, Id(r.number, 0);
    var full := newTotal >= payment.amount.minor;
    if full && !PaymentCanMove(payment.status, Refunded) then Err(InvalidPaymentTransition(payment.status, Refunded))
    else
      var status := if full then Refunded else payment.status;
      Ok([InsertRefund(RefundRow(rid, pid, r.merchant, amount, RefundProcessed))]
         + postings
         + [UpdatePayment(pid, status, payment.capturedAt, newTotal, None)]
         + Emit(r, 1, r.merchant, RefundWasProcessed(rid)))
  }

  /** What the unique index on receipts refuses; orders without one are all right. */
  predicate ReceiptTaken(orders: map<Id, OrderRow>, merchant: nat, receipt: Option<string>) {
    receipt.Some? && exists id :: id in orders && orders[id].merchant == merchant && orders[id].receipt == receipt
  }

  /** `OrderService::create` and its one INSERT, which the index may refuse. */
  function PlanCreateOrder(r: Request, orders: map<Id, OrderRow>): Result<seq<Write>, EngineError>
    requires r.action.CreateOrder?
  {
    var a := r.action;
    if a.amountMinor < MIN_AMOUNT_MINOR then Err(Validation("amount"))
    else if a.notes > MAX_NOTES then Err(Validation("notes"))
    else if a.receipt.Some? && |a.receipt.value| > MAX_RECEIPT_LENGTH then Err(Validation("receipt"))
    else if ReceiptTaken(orders, r.merchant, a.receipt) then Err(Conflict("orders_merchant_receipt_idx"))
    else Ok([InsertOrder(Id(r.number, 0), NewOrder(r))])
  }

  function NewOrder(r: Request): OrderRow
    requires r.action.CreateOrder?
  {
    OrderRow(r.merchant, Money(r.action.amountMinor, r.action.currency), 0, OrderCreated, r.action.receipt)
  }

  /** The statements a request performs on these tables, or why it is refused. */
  ghost function Plan(db: Tables, r: Request): Result<seq<Write>, EngineError> {
    if r.number in db.used then Err(IdReused)
    else match r.action
      case CreateOrder(_, _, _, _) => PlanCreateOrder(r, db.orders)
      case CreatePayment(oid, _, _, _, _) => PlanCreatePayment(r, Find(db.orders, oid))
      case CapturePayment(pid) =>
        var payment :- CheckCapturable(r, Find(db.payments, pid));
        PlanCapture(r, payment, Find(db.orders, payment.order))
      case RefundPayment(pid, _, _) =>
        var payment :- CheckRefundable(r, Find(db.payments, pid));
        PlanRefund(r, payment, SumForPayment(db.refunds, pid))
  }

  /** One request as a transaction: all of its statements, or none. */
  ghost function Apply(db: Tables, r: Request): Tables {
    match Plan(db, r)
    case Err(_) => db
    case Ok(ws) => ApplyAll(db, ws).(used := db.used + {r.number})
  }

  /** Any number of requests, one after the other, on empty tables. */
  ghost function Run(requests: seq<Request>): Tables {
    if requests == [] then EMPTY
    else Apply(Run(requests[..|requests| - 1]), requests[|requests| - 1])
  }
}
