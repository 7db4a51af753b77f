/** What holds of the tables after any requests whatever. */
module Invariants {
  import opened Prelude
  import opened Monetary
  import opened Fees
  import opened Ledger
  import opened Gateway
  import opened Effects
  import opened Changes
  import opened Books

  // ------------------------------------------------------------ statements

  /** Every identifier in the tables was drawn by a request that committed. */
  ghost predicate IdsUsed(db: Tables) {
    && (forall id :: id in db.orders ==> id.request in db.used)
    && (forall id :: id in db.payments ==> id.request in db.used)
    && (forall a :: a in db.attempts ==> a.payment in db.payments)
    && (forall e :: e in db.events ==> e.id.request in db.used)
    && (forall d :: d in db.deliveries ==> d.event.request in db.used)
  }

  /** Refund rows are processed, positive, distinct, and belong to payments. */
  ghost predicate RefundsRecorded(db: Tables) {
    && (forall f :: f in db.refunds ==>
          && f.payment in db.payments && f.amount.minor > 0 && f.status == RefundProcessed
          && f.amount.currency == db.payments[f.payment].amount.currency
          && f.id.request in db.used)
    && (forall i, j :: 0 <= i < j < |db.refunds| ==> db.refunds[i].id != db.refunds[j].id)
  }

  /** An order is paid exactly when one payment of it settled, and only one can. */
  ghost predicate PaidOnce(db: Tables) {
    && (forall id :: id in db.payments && Settled(db.payments[id]) ==>
          db.payments[id].order in db.orders && db.orders[db.payments[id].order].status == Paid)
    && (forall a, b :: SettledFor(db, a, b) ==> a == b)
    && (forall o :: o in db.orders && db.orders[o].status == Paid ==> HasSettledPayment(db, o))
    && (forall id :: id in db.payments ==>
          db.payments[id].order in db.orders && db.orders[db.payments[id].order].status != OrderCreated)
  }

  /** Two settled payments of one order. */
  predicate SettledFor(db: Tables, a: Id, b: Id) {
    && a in db.payments && b in db.payments
    && Settled(db.payments[a]) && Settled(db.payments[b])
    && db.payments[a].order == db.payments[b].order
  }

  ghost predicate HasSettledPayment(db: Tables, order: Id) {
    exists id :: id in db.payments && db.payments[id].order == order && Settled(db.payments[id])
  }

  /** Only balanced transactions are posted, and each account holds its closed form. */
  ghost predicate BooksClosed(db: Tables) {
    && (forall t :: t in db.posted ==> Validate(t.kind, t.entries) == Ok(t))
    && (forall a :: Balance(db.posted, a) == ClosedForm(db.payments, a))
  }

  function CountEvents(events: seq<EventRow>, kind: EventKind): nat {
    if events == [] then 0
    else CountEvents(events[..|events| - 1], kind) + if events[|events| - 1].kind == kind then 1 else 0
  }

  ghost predicate HasRefund(db: Tables, id: Id) {
    exists f :: f in db.refunds && f.id == id
  }

  /** The state change an event announces. */
  ghost predicate Happened(db: Tables, kind: EventKind) {
    match kind
    case PaymentWasCaptured(id) => id in db.payments && Settled(db.payments[id])
    case OrderWasPaid(id) => id in db.orders && db.orders[id].status == Paid
    case PaymentWasAuthorized(id) => AttemptRow(id, "authorized") in db.attempts
    case PaymentHasFailed(id) => id in db.payments && db.payments[id].status == Failed
    case RefundWasProcessed(id) => HasRefund(db, id)
  }

  /** Each state change has exactly one event, and each event its state change. */
  ghost predicate EventsExact(db: Tables) {
    forall kind :: CountEvents(db.events, kind) == if Happened(db, kind) then 1 else 0
  }

  function PayloadsOf(ds: seq<DeliveryRow>): seq<Payload> {
    if ds == [] then []
    else
      var d := ds[|ds| - 1];
      PayloadsOf(ds[..|ds| - 1]) + [DeliverWebhook(d.id, d.event, d.endpoint)]
  }

  function WebhookPayloads(jobs: seq<JobRow>): seq<Payload> {
    if jobs == [] then []
    else
      var j := jobs[|jobs| - 1];
      WebhookPayloads(jobs[..|jobs| - 1]) + if j.payload.DeliverWebhook? then [j.payload] else []
  }

  /** Delivery rows and delivery jobs correspond one to one, in order; delivery
    * and event identifiers are distinct. */
  ghost predicate OutboxExact(db: Tables) {
    && WebhookPayloads(db.jobs) == PayloadsOf(db.deliveries)
    && (forall i, j :: 0 <= i < j < |db.deliveries| ==> db.deliveries[i].id != db.deliveries[j].id)
    && (forall d :: d in db.deliveries ==> d.id.event == d.event)
    && (forall i, j :: 0 <= i < j < |db.events| ==> db.events[i].id != db.events[j].id)
  }

  /** No two orders of one merchant carry the same receipt. */
  ghost predicate ReceiptsDiffer(db: Tables) {
    forall a, b :: a in db.orders && b in db.orders && SameReceipt(db.orders[a], db.orders[b]) ==> a == b
  }

  predicate SameReceipt(a: OrderRow, b: OrderRow) {
    a.merchant == b.merchant && a.receipt.Some? && a.receipt == b.receipt
  }

  ghost predicate Inv(db: Tables) {
    ReceiptsDiffer(db) && Sound(db) && IdsUsed(db) && RefundsRecorded(db) && PaidOnce(db) && BooksClosed(db) && EventsExact(db) && OutboxExact(db)
  }

  // ------------------------------------------------------------ sums of rows

  lemma {:induction false} SumAppend(refunds: seq<RefundRow>, f: RefundRow, payment: Id)
    ensures SumForPayment(refunds + [f], payment)
            == SumForPayment(refunds, payment)
               + if f.payment == payment && f.status != RefundFailed then f.amount.minor else 0
  {
  }

  lemma {:induction false} SumOfStranger(refunds: seq<RefundRow>, payment: Id)
    requires forall f :: f in refunds ==> f.payment != payment
    ensures SumForPayment(refunds, payment) == 0
  {
    if refunds != [] {
      assert refunds[|refunds| - 1] in refunds;
      SumOfStranger(refunds[..|refunds| - 1], payment);
    }
  }

  // ----------------------------------------------------------- preservation

  /** The rows an accepted request replaces, and the ones it leaves alone. */
  lemma FreshIds(db: Tables, r: Request)
    requires IdsUsed(db) && RefundsRecorded(db) && r.number !in db.used
    ensures forall n :: Id(r.number, n) !in db.orders && Id(r.number, n) !in db.payments
    ensures forall n :: SumForPayment(db.refunds, Id(r.number, n)) == 0
  {
    forall n ensures SumForPayment(db.refunds, Id(r.number, n)) == 0 {
      SumOfStranger(db.refunds, Id(r.number, n));
    }
  }

  // ----------------------------------------------- the four kinds of change

  predicate AddsOrder(db: Tables, r: Request, c: Change) {
    && c.order.Some? && c.order.value.0 == Id(r.number, 0)
    && !ReceiptTaken(db.orders, c.order.value.1.merchant, c.order.value.1.receipt)
    && OrderSound(c.order.value.1) && c.order.value.1.status == OrderCreated
    && c.payment.None? && c.attempts == [] && c.refunds == [] && c.kinds == [] && c.posted == []
  }

  function KindsOf(pid: Id, p: PaymentRow): seq<EventKind> {
    match p.status
    case Captured => [PaymentWasCaptured(pid), OrderWasPaid(p.order)]
    case Authorized => [PaymentWasAuthorized(pid)]
    case Failed => [PaymentHasFailed(pid)]
    case _ => []
  }

  predicate StartsPayment(db: Tables, r: Request, c: Change) {
    && c.order.Some? && c.payment.Some?
    && var oid, o, pid, p := c.order.value.0, c.order.value.1, c.payment.value.0, c.payment.value.1;
    && oid in db.orders && !OrderIsTerminal(db.orders[oid].status) && OrderSound(o)
    && o.merchant == db.orders[oid].merchant && o.amount == db.orders[oid].amount && o.receipt == db.orders[oid].receipt
    && pid == Id(r.number, 0) && PaymentSound(p) && p.status != Refunded && p.amountRefunded == 0
    && p.order == oid && p.merchant == o.merchant && p.amount == o.amount
    && o.status == (if Settled(p) then Paid else Attempted)
    && |c.attempts| == 1 && c.attempts[0].payment == pid
    && (c.attempts[0].outcome == "authorized" <==> p.status == Authorized)
    && c.refunds == [] && c.kinds == KindsOf(pid, p)
    && c.posted == if Settled(p) then CaptureTransactions(p.merchant, p.amount) else []
  }

  predicate SettlesPayment(db: Tables, c: Change) {
    && c.order.Some? && c.payment.Some?
    && var oid, o, pid, q := c.order.value.0, c.order.value.1, c.payment.value.0, c.payment.value.1;
    && pid in db.payments && db.payments[pid].status == Authorized && oid == db.payments[pid].order
    && oid in db.orders && db.orders[oid].status == Attempted && OrderSound(o)
    && o.merchant == db.orders[oid].merchant && o.amount == db.orders[oid].amount && o.receipt == db.orders[oid].receipt
    && o.status == Paid
    && PaymentSound(q) && q.status == Captured && q.amountRefunded == 0
    && q.order == oid && q.merchant == db.payments[pid].merchant && q.amount == db.payments[pid].amount
    && c.attempts == [] && c.refunds == [] && c.kinds == KindsOf(pid, q)
    && c.posted == CaptureTransactions(q.merchant, q.amount)
  }

  predicate ReturnsMoney(db: Tables, r: Request, c: Change) {
    && c.order.None? && c.payment.Some? && |c.refunds| == 1
    && var pid, q, f := c.payment.value.0, c.payment.value.1, c.refunds[0];
    && pid in db.payments && db.payments[pid].status == Captured && PaymentSound(db.payments[pid])
    && var p := db.payments[pid];
    && PaymentSound(q) && Settled(q) && q.order == p.order && q.merchant == p.merchant && q.amount == p.amount
    && f.id == Id(r.number, 0) && f.payment == pid && f.status == RefundProcessed
    && f.amount.minor > 0 && f.amount.currency == p.amount.currency
    && q.amountRefunded == p.amountRefunded + f.amount.minor
    && c.attempts == [] && c.kinds == [RefundWasProcessed(f.id)]
    && c.posted == RefundTransactions(p.merchant, p.amount, p.amountRefunded, q.amountRefunded)
  }

  predicate RowChange(db: Tables, r: Request, c: Change) {
    AddsOrder(db, r, c) || StartsPayment(db, r, c) || SettlesPayment(db, c) || ReturnsMoney(db, r, c)
  }

  lemma StartsShape(db: Tables, r: Request)
    requires Sound(db) && Accepts(db, r) && r.action.CreatePayment?
    ensures StartsPayment(db, r, ChangeOf(db, r))
  {
    hide CaptureTransactions, SumForPayment, CardAccepted;
  }

  lemma ReturnsShape(db: Tables, r: Request)
    requires Sound(db) && Accepts(db, r) && r.action.RefundPayment?
    ensures ReturnsMoney(db, r, ChangeOf(db, r))
  {
    hide RefundTransactions, SumForPayment, OrderSound;
  }

  lemma ChangesAreRowChanges(db: Tables, r: Request)
    requires Sound(db) && Accepts(db, r)
    ensures RowChange(db, r, ChangeOf(db, r))
    ensures forall job :: job in ChangeOf(db, r).otherJobs ==> !job.payload.DeliverWebhook?
  {
    hide StartsPayment, ReturnsMoney, CaptureTransactions, RefundTransactions, SumForPayment;
    match r.action
    case CreateOrder(_, _, _, _) => assert AddsOrder(db, r, ChangeOf(db, r));
    case CreatePayment(_, _, _, _, _) => StartsShape(db, r);
    case CapturePayment(_) => assert SettlesPayment(db, ChangeOf(db, r));
    case RefundPayment(_, _, _) => ReturnsShape(db, r);
  }

  lemma SoundKept(db: Tables, r: Request, c: Change)
    requires Sound(db) && IdsUsed(db) && RefundsRecorded(db) && r.number !in db.used && RowChange(db, r, c)
    ensures Sound(Changed(db, r, c))
  {
    hide FeeOf, CaptureTransactions, RefundTransactions, EventRows, EventDeliveries, WebhookJobs, KindsOf, SumForPayment;
    hide OrderSound, PaymentSound;
    var next := Changed(db, r, c);
    RowsStaySound(db, r, c);
    forall id | id in next.payments
      ensures SumForPayment(next.refunds, id) == next.payments[id].amountRefunded
    {
      SumFollowsRow(db, r, c, id);
    }
  }

  lemma SumFollowsRow(db: Tables, r: Request, c: Change, id: Id)
    requires Sound(db) && IdsUsed(db) && RefundsRecorded(db) && r.number !in db.used && RowChange(db, r, c)
    requires id in Changed(db, r, c).payments
    ensures var next := Changed(db, r, c); SumForPayment(next.refunds, id) == next.payments[id].amountRefunded
  {
    hide CaptureTransactions, RefundTransactions, EventRows, EventDeliveries, WebhookJobs, KindsOf, SumForPayment, OrderSound;
    FreshIds(db, r);
    if ReturnsMoney(db, r, c) {
      SumAppend(db.refunds, c.refunds[0], id);
      assert c.refunds == [c.refunds[0]];
    } else {
      assert db.refunds + [] == db.refunds;
    }
  }

  lemma RowsStaySound(db: Tables, r: Request, c: Change)
    requires Sound(db) && IdsUsed(db) && r.number !in db.used && RowChange(db, r, c)
    ensures var next := Changed(db, r, c);
            && (forall id :: id in next.orders ==> OrderSound(next.orders[id]))
            && (forall id :: id in next.payments ==> PaymentSound(next.payments[id]))
  {
    hide CaptureTransactions, RefundTransactions, EventRows, EventDeliveries, WebhookJobs;
    hide KindsOf, SumForPayment, PaymentSound, OrderSound;
  }

  lemma IdsUsedKept(db: Tables, r: Request, c: Change)
    requires Sound(db) && IdsUsed(db) && r.number !in db.used && RowChange(db, r, c)
    ensures IdsUsed(Changed(db, r, c))
  {
    hide FeeOf, CaptureTransactions, RefundTransactions, WebhookJobs, KindsOf, SumForPayment, PaymentSound, OrderSound;
    NewDeliveries(r, 1, c.kinds);
  }

  /** The deliveries of one request point at its own events. */
  lemma {:induction false} NewDeliveries(r: Request, n: nat, kinds: seq<EventKind>)
    ensures forall d :: d in EventDeliveries(r, n, kinds) ==>
              d.event == d.id.event && d.event.request == r.number && n <= d.event.n < n + |kinds|
    ensures forall i, j :: 0 <= i < j < |EventDeliveries(r, n, kinds)| ==>
              EventDeliveries(r, n, kinds)[i].id != EventDeliveries(r, n, kinds)[j].id
    decreases |kinds|
  {
    if kinds != [] {
      var first := Deliveries(Id(r.number, n), kinds[0], r.endpoints, 0);
      FannedOut(Id(r.number, n), kinds[0], r.endpoints, 0);
      NewDeliveries(r, n + 1, kinds[1..]);
      var rest := EventDeliveries(r, n + 1, kinds[1..]);
      var all := first + rest;
      forall i, j | 0 <= i < j < |all| ensures all[i].id != all[j].id {
        if i < |first| <= j {
          assert first[i] in first && rest[j - |first|] in rest;
        }
      }
    }
  }

  lemma {:induction false} FannedOut(event: Id, kind: EventKind, endpoints: seq<Endpoint>, slot: nat)
    ensures forall d :: d in Deliveries(event, kind, endpoints, slot) ==> d.event == d.id.event == event && d.id.slot >= slot
    ensures forall i, j :: 0 <= i < j < |Deliveries(event, kind, endpoints, slot)| ==>
              Deliveries(event, kind, endpoints, slot)[i].id != Deliveries(event, kind, endpoints, slot)[j].id
    decreases |endpoints|
  {
    if endpoints != [] {
      FannedOut(event, kind, endpoints[1..], slot + 1);
      var rest := Deliveries(event, kind, endpoints[1..], slot + 1);
      assert forall j :: 0 <= j < |rest| ==> rest[j] in rest;
    }
  }

  lemma RefundsRecordedKept(db: Tables, r: Request, c: Change)
    requires Sound(db) && IdsUsed(db) && RefundsRecorded(db) && r.number !in db.used && RowChange(db, r, c)
    ensures RefundsRecorded(Changed(db, r, c))
  {
    hide FeeOf, CaptureTransactions, RefundTransactions, EventRows, EventDeliveries, WebhookJobs;
    hide KindsOf, SumForPayment, PaymentSound, OrderSound;
    if ReturnsMoney(db, r, c) {
      assert forall i :: 0 <= i < |db.refunds| ==> db.refunds[i] in db.refunds;
      assert c.refunds == [c.refunds[0]];
    } else {
      assert db.refunds + [] == db.refunds;
    }
  }

  lemma PaidOnceKept(db: Tables, r: Request, c: Change)
    requires Sound(db) && IdsUsed(db) && PaidOnce(db) && r.number !in db.used && RowChange(db, r, c)
    ensures PaidOnce(Changed(db, r, c))
  {
    hide FeeOf, CaptureTransactions, RefundTransactions, EventRows, EventDeliveries, WebhookJobs;
    hide KindsOf, SumForPayment, PaymentSound, OrderSound, HasSettledPayment;
    var next := Changed(db, r, c);
    forall o | o in next.orders && next.orders[o].status == Paid ensures HasSettledPayment(next, o) {
      StillSettled(db, r, c, o);
    }
    forall a, b | SettledFor(next, a, b) ensures a == b {
      NoSecondSettlement(db, r, c, a, b);
    }
    forall id | id in next.payments ensures OrderFollows(next, id) {
      OrderStillFollows(db, r, c, id);
    }
    hide RowChange, Changed, Sound, IdsUsed;
  }

  /** The order of a payment has been attempted, and is paid if the payment settled. */
  predicate OrderFollows(db: Tables, id: Id)
    requires id in db.payments
  {
    && db.payments[id].order in db.orders && db.orders[db.payments[id].order].status != OrderCreated
    && (Settled(db.payments[id]) ==> db.orders[db.payments[id].order].status == Paid)
  }

  lemma OrderStillFollows(db: Tables, r: Request, c: Change, id: Id)
    requires IdsUsed(db) && PaidOnce(db) && r.number !in db.used && RowChange(db, r, c) && id in Changed(db, r, c).payments
    ensures OrderFollows(Changed(db, r, c), id)
  {
    hide CaptureTransactions, RefundTransactions, EventRows, EventDeliveries, WebhookJobs;
    hide KindsOf, SumForPayment, PaymentSound, OrderSound, HasSettledPayment;
  }

  lemma NoSecondSettlement(db: Tables, r: Request, c: Change, a: Id, b: Id)
    requires IdsUsed(db) && PaidOnce(db) && r.number !in db.used && RowChange(db, r, c)
    requires SettledFor(Changed(db, r, c), a, b)
    ensures a == b
  {
    hide FeeOf, CaptureTransactions, RefundTransactions, EventRows, EventDeliveries, WebhookJobs;
    hide KindsOf, SumForPayment, PaymentSound, OrderSound, HasSettledPayment;
    assert a in db.payments && b in db.payments && Settled(db.payments[a]) && Settled(db.payments[b]) ==> SettledFor(db, a, b);
  }

  lemma StillSettled(db: Tables, r: Request, c: Change, o: Id)
    requires IdsUsed(db) && PaidOnce(db) && r.number !in db.used && RowChange(db, r, c)
    requires var next := Changed(db, r, c); o in next.orders && next.orders[o].status == Paid
    ensures HasSettledPayment(Changed(db, r, c), o)
  {
    hide FeeOf, CaptureTransactions, RefundTransactions, EventRows, EventDeliveries, WebhookJobs;
    hide KindsOf, SumForPayment, PaymentSound, OrderSound;
    var next := Changed(db, r, c);
    if o in db.orders && db.orders[o].status == Paid {
      var id :| id in db.payments && db.payments[id].order == o && Settled(db.payments[id]);
      assert id in next.payments && next.payments[id].order == o && Settled(next.payments[id]);
    } else {
      var row := c.payment.value;
      assert row.0 in next.payments && next.payments[row.0].order == o && Settled(next.payments[row.0]);
    }
  }

  lemma BooksClosedKept(db: Tables, r: Request, c: Change)
    requires Sound(db) && IdsUsed(db) && BooksClosed(db) && r.number !in db.used && RowChange(db, r, c)
    ensures BooksClosed(Changed(db, r, c))
  {
    hide RowChange, Sound, IdsUsed, EventRows, EventDeliveries, WebhookJobs, ClosedForm, Validate;
    PostedIsValid(db, r, c);
    forall a ensures Balance(db.posted + c.posted, a) == ClosedForm(Put(db.payments, c.payment), a) {
      BalanceAppend(db.posted, c.posted, a);
      PostedMatchesRows(db, r, c, a);
    }
  }

  lemma PostedIsValid(db: Tables, r: Request, c: Change)
    requires RowChange(db, r, c)
    ensures forall t :: t in c.posted ==> Validate(t.kind, t.entries) == Ok(t)
  {
    hide FeeOf, CaptureTransactions, RefundTransactions, Validate, KindsOf, SumForPayment;
    if c.payment.Some? {
      var q := c.payment.value.1;
      CapturePostings(q.merchant, q.amount);
      if ReturnsMoney(db, r, c) {
        RefundPostings(q.merchant, q.amount, db.payments[c.payment.value.0].amountRefunded, q.amountRefunded);
      }
    }
  }

  lemma UnsettledStandsForNothing(p: PaymentRow, a: Account)
    requires !Settled(p)
    ensures Contribution(p, a) == 0
  {
  }

  lemma PostedMatchesRows(db: Tables, r: Request, c: Change, a: Account)
    requires Sound(db) && IdsUsed(db) && r.number !in db.used && RowChange(db, r, c)
    ensures Balance(c.posted, a) == ClosedForm(Put(db.payments, c.payment), a) - ClosedForm(db.payments, a)
  {
    hide FeeOf, CaptureTransactions, RefundTransactions, Contribution, ClosedForm, KindsOf, SumForPayment, OrderSound, Sound;
    if c.payment.Some? {
      var id, q := c.payment.value.0, c.payment.value.1;
      ClosedFormPut(db.payments, id, q, a);
      if ReturnsMoney(db, r, c) {
        RefundMatchesRows(db.payments[id], q, a);
      } else {
        if id in db.payments {
          UnsettledStandsForNothing(db.payments[id], a);
        }
        if Settled(q) {
          CaptureMatchesRow(q, a);
        } else {
          UnsettledStandsForNothing(q, a);
        }
      }
    }
  }

  // ------------------------------------------------------------------ events

  function CountKinds(kinds: seq<EventKind>, kind: EventKind): nat {
    if kinds == [] then 0 else (if kinds[0] == kind then 1 else 0) + CountKinds(kinds[1..], kind)
  }

  lemma {:induction false} CountAppended(events: seq<EventRow>, r: Request, n: nat, kinds: seq<EventKind>, kind: EventKind)
    ensures CountEvents(events + EventRows(r, n, kinds), kind) == CountEvents(events, kind) + CountKinds(kinds, kind)
    decreases |kinds|
  {
    var rows := EventRows(r, n, kinds);
    if kinds == [] {
      assert events + rows == events;
    } else {
      var grown := events + [rows[0]];
      assert grown[..|events|] == events;
      assert events + rows == grown + EventRows(r, n + 1, kinds[1..]);
      CountAppended(grown, r, n + 1, kinds[1..], kind);
    }
  }

  lemma CountOfFew(k: EventKind, l: EventKind, kind: EventKind)
    ensures CountKinds([k], kind) == if k == kind then 1 else 0
    ensures CountKinds([k, l], kind) == (if k == kind then 1 else 0) + (if l == kind then 1 else 0)
  {
    assert [k][1..] == [] && [k, l][1..] == [l] && [l][1..] == [];
  }

  /** A change announces exactly what it newly makes happen. */
  ghost predicate Announces(db: Tables, r: Request, c: Change, kind: EventKind) {
    CountKinds(c.kinds, kind) == (if Happened(Changed(db, r, c), kind) then 1 else 0) - (if Happened(db, kind) then 1 else 0)
  }

  lemma AnnouncedIsNew(db: Tables, r: Request, c: Change, kind: EventKind)
    requires Sound(db) && IdsUsed(db) && RefundsRecorded(db) && r.number !in db.used && RowChange(db, r, c)
    ensures Announces(db, r, c, kind)
  {
    hide Announces, AddsOrder, StartsPayment, SettlesPayment, ReturnsMoney, Sound, IdsUsed, RefundsRecorded;
    if AddsOrder(db, r, c) {
      OrderAnnounced(db, r, c, kind);
    } else if StartsPayment(db, r, c) {
      PaymentAnnounced(db, r, c, kind);
    } else if SettlesPayment(db, c) {
      SettlementAnnounced(db, r, c, kind);
    } else {
      ReturnAnnounced(db, r, c, kind);
    }
  }

  lemma OrderAnnounced(db: Tables, r: Request, c: Change, kind: EventKind)
    requires IdsUsed(db) && r.number !in db.used && AddsOrder(db, r, c)
    ensures Announces(db, r, c, kind)
  {
  }

  lemma PaymentAnnounced(db: Tables, r: Request, c: Change, kind: EventKind)
    requires IdsUsed(db) && r.number !in db.used && StartsPayment(db, r, c)
    ensures Announces(db, r, c, kind)
  {
    hide CountKinds, CaptureTransactions, EventRows, EventDeliveries, WebhookJobs, SumForPayment, PaymentSound, OrderSound, HasRefund;
    CountKindsOf(c.payment.value.0, c.payment.value.1, kind);
    SameRefunds(db, r, c, kind);
    assert forall a :: a in Changed(db, r, c).attempts <==> a in db.attempts || a == c.attempts[0];
    assert forall a :: a in db.attempts ==> a.payment != Id(r.number, 0);
  }

  lemma SettlementAnnounced(db: Tables, r: Request, c: Change, kind: EventKind)
    requires IdsUsed(db) && r.number !in db.used && SettlesPayment(db, c)
    ensures Announces(db, r, c, kind)
  {
    hide CountKinds, CaptureTransactions, EventRows, EventDeliveries, WebhookJobs, SumForPayment, PaymentSound, OrderSound, HasRefund;
    CountKindsOf(c.payment.value.0, c.payment.value.1, kind);
    SameRefunds(db, r, c, kind);
    assert db.attempts + [] == db.attempts;
  }

  lemma ReturnAnnounced(db: Tables, r: Request, c: Change, kind: EventKind)
    requires RefundsRecorded(db) && r.number !in db.used && ReturnsMoney(db, r, c)
    ensures Announces(db, r, c, kind)
  {
    hide CountKinds, RefundTransactions, EventRows, EventDeliveries, WebhookJobs, SumForPayment, PaymentSound, OrderSound, HasRefund;
    CountOfFew(c.kinds[0], c.kinds[0], kind);
    RefundsKnown(db, r, c, if kind.RefundWasProcessed? then kind.refund else c.refunds[0].id);
    assert db.attempts + [] == db.attempts;
  }

  lemma CountKindsOf(pid: Id, p: PaymentRow, kind: EventKind)
    ensures CountKinds(KindsOf(pid, p), kind) ==
      match kind
      case PaymentWasCaptured(id) => if p.status == Captured && id == pid then 1 else 0
      case OrderWasPaid(id) => if p.status == Captured && id == p.order then 1 else 0
      case PaymentWasAuthorized(id) => if p.status == Authorized && id == pid then 1 else 0
      case PaymentHasFailed(id) => if p.status == Failed && id == pid then 1 else 0
      case RefundWasProcessed(_) => 0
  {
    var kinds := KindsOf(pid, p);
    if |kinds| == 1 {
      CountOfFew(kinds[0], kinds[0], kind);
      assert kinds == [kinds[0]];
    } else if |kinds| == 2 {
      CountOfFew(kinds[0], kinds[1], kind);
      assert kinds == [kinds[0], kinds[1]];
    }
  }

  lemma SameRefunds(db: Tables, r: Request, c: Change, kind: EventKind)
    requires c.refunds == []
    ensures kind.RefundWasProcessed? ==> (Happened(Changed(db, r, c), kind) <==> Happened(db, kind))
  {
  }

  lemma RefundsKnown(db: Tables, r: Request, c: Change, id: Id)
    requires RefundsRecorded(db) && r.number !in db.used && |c.refunds| == 1
    ensures HasRefund(Changed(db, r, c), id) <==> HasRefund(db, id) || id == c.refunds[0].id
    ensures !HasRefund(db, Id(r.number, 0))
  {
  }

  lemma EventsExactKept(db: Tables, r: Request, c: Change)
    requires Sound(db) && IdsUsed(db) && RefundsRecorded(db) && EventsExact(db) && r.number !in db.used && RowChange(db, r, c)
    ensures EventsExact(Changed(db, r, c))
  {
    hide Happened, EventRows, RowChange, Sound, IdsUsed, RefundsRecorded;
    var next := Changed(db, r, c);
    forall kind ensures CountEvents(next.events, kind) == if Happened(next, kind) then 1 else 0 {
      CountAppended(db.events, r, 1, c.kinds, kind);
      AnnouncedIsNew(db, r, c, kind);
    }
  }

  // ------------------------------------------------------------------ outbox

  lemma {:induction false} PayloadsAppend(ds: seq<DeliveryRow>, more: seq<DeliveryRow>)
    ensures PayloadsOf(ds + more) == PayloadsOf(ds) + PayloadsOf(more)
    decreases |more|
  {
    var all := ds + more;
    if more == [] {
      assert all == ds && PayloadsOf(ds) + [] == PayloadsOf(ds);
    } else {
      var last := more[|more| - 1];
      assert all[..|all| - 1] == ds + more[..|more| - 1];
      PayloadsAppend(ds, more[..|more| - 1]);
      Associative(PayloadsOf(ds), PayloadsOf(more[..|more| - 1]), [DeliverWebhook(last.id, last.event, last.endpoint)]);
    }
  }

  lemma {:induction false} WebhookPayloadsAppend(jobs: seq<JobRow>, more: seq<JobRow>)
    ensures WebhookPayloads(jobs + more) == WebhookPayloads(jobs) + WebhookPayloads(more)
    decreases |more|
  {
    var all := jobs + more;
    if more == [] {
      assert all == jobs && WebhookPayloads(jobs) + [] == WebhookPayloads(jobs);
    } else {
      var last := more[|more| - 1];
      assert all[..|all| - 1] == jobs + more[..|more| - 1];
      WebhookPayloadsAppend(jobs, more[..|more| - 1]);
      Associative(WebhookPayloads(jobs), WebhookPayloads(more[..|more| - 1]),
                  if last.payload.DeliverWebhook? then [last.payload] else []);
    }
  }

  lemma {:induction false} JobsCarryDeliveries(ds: seq<DeliveryRow>, now: Time)
    ensures WebhookPayloads(WebhookJobs(ds, now)) == PayloadsOf(ds)
    decreases |ds|
  {
    if ds != [] {
      var d := ds[0];
      var job := JobRow(DeliverWebhook(d.id, d.event, d.endpoint), now, WEBHOOK_MAX_ATTEMPTS);
      JobsCarryDeliveries(ds[1..], now);
      WebhookPayloadsAppend([job], WebhookJobs(ds[1..], now));
      PayloadsAppend([d], ds[1..]);
      assert ds == [d] + ds[1..];
      assert [job][..0] == [] && [d][..0] == [];
      assert WebhookPayloads([job]) == WebhookPayloads([]) + [job.payload];
      assert PayloadsOf([d]) == PayloadsOf([]) + [job.payload];
    }
  }

  lemma {:induction false} OtherJobsCarryNone(jobs: seq<JobRow>)
    requires forall job :: job in jobs ==> !job.payload.DeliverWebhook?
    ensures WebhookPayloads(jobs) == []
  {
    if jobs != [] {
      assert jobs[|jobs| - 1] in jobs;
      OtherJobsCarryNone(jobs[..|jobs| - 1]);
    }
  }

  lemma OutboxExactKept(db: Tables, r: Request, c: Change)
    requires IdsUsed(db) && OutboxExact(db) && r.number !in db.used
    requires forall job :: job in c.otherJobs ==> !job.payload.DeliverWebhook?
    ensures OutboxExact(Changed(db, r, c))
  {
    hide EventDeliveries, Deliveries, WebhookJobs, WebhookPayloads, PayloadsOf;
    var next := Changed(db, r, c);
    var ds := EventDeliveries(r, 1, c.kinds);
    NewDeliveries(r, 1, c.kinds);
    WebhookPayloadsAppend(db.jobs + WebhookJobs(ds, r.now), c.otherJobs);
    WebhookPayloadsAppend(db.jobs, WebhookJobs(ds, r.now));
    JobsCarryDeliveries(ds, r.now);
    OtherJobsCarryNone(c.otherJobs);
    PayloadsAppend(db.deliveries, ds);
    assert WebhookPayloads(next.jobs) == PayloadsOf(next.deliveries);
    OldAndNewDiffer(db, ds, r);
    assert forall i :: 0 <= i < |db.events| ==> db.events[i] in db.events;
  }

  lemma OldAndNewDiffer(db: Tables, ds: seq<DeliveryRow>, r: Request)
    requires IdsUsed(db) && OutboxExact(db) && r.number !in db.used
    requires forall d :: d in ds ==> d.event == d.id.event && d.event.request == r.number
    requires forall i, j :: 0 <= i < j < |ds| ==> ds[i].id != ds[j].id
    ensures var all := db.deliveries + ds;
            && (forall i, j :: 0 <= i < j < |all| ==> all[i].id != all[j].id)
            && (forall d :: d in all ==> d.id.event == d.event)
  {
  }

  // --------------------------------------------------------------- any run

  lemma InvInitially()
    ensures Inv(EMPTY)
  {
  }

  /** One request, accepted or refused, keeps every invariant. */
  lemma ReceiptsDifferKept(db: Tables, r: Request, c: Change)
    requires ReceiptsDiffer(db) && RowChange(db, r, c)
    ensures ReceiptsDiffer(Changed(db, r, c))
  {
    hide CaptureTransactions, RefundTransactions, EventRows, EventDeliveries, WebhookJobs;
    hide KindsOf, PaymentSound, OrderSound;
  }

  lemma InvKept(db: Tables, r: Request)
    requires Inv(db)
    ensures Inv(Apply(db, r))
  {
    hide Apply, Changed, ChangeOf, RowChange, Sound, IdsUsed, RefundsRecorded, PaidOnce, BooksClosed, EventsExact, OutboxExact, ReceiptsDiffer;
    RequestsAreDecidedByAccepts(db, r);
    if Accepts(db, r) {
      var c := ChangeOf(db, r);
      ChangesAreRowChanges(db, r);
      SoundKept(db, r, c);
      IdsUsedKept(db, r, c);
      RefundsRecordedKept(db, r, c);
      PaidOnceKept(db, r, c);
      BooksClosedKept(db, r, c);
      EventsExactKept(db, r, c);
      OutboxExactKept(db, r, c);
      ReceiptsDifferKept(db, r, c);
    }
  }

  /** After any sequence of requests, whatever their arguments. */
  lemma {:induction false} InvAlways(requests: seq<Request>)
    ensures Inv(Run(requests))
  {
    hide Inv, Apply;
    if requests == [] {
      InvInitially();
    } else {
      InvAlways(requests[..|requests| - 1]);
      InvKept(Run(requests[..|requests| - 1]), requests[|requests| - 1]);
    }
  }
}
