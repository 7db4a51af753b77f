/** The promises of the money engine, over every run of create, capture and
  * refund requests. */
module Runs {
  import opened Prelude
  import opened Monetary
  import opened Fees
  import opened Ledger
  import opened Gateway
  import opened Effects
  import opened Changes
  import opened MapSums
  import opened Books
  import opened Invariants

  // ------------------------------------------------------------------ books

  /** Every account's entries add up to the closed form of the payment rows, and
    * the entries of each currency to zero. */
  lemma BalancesFollowPaymentRows(requests: seq<Request>, a: Account)
    ensures Balance(Run(requests).posted, a) == ClosedForm(Run(requests).payments, a)
    ensures PostedTotal(Run(requests).posted, a.currency) == 0
  {
    hide ClosedForm, Run, Apply, Validate, Sound, PaidOnce, EventsExact, OutboxExact, RefundsRecorded, IdsUsed;
    InvAlways(requests);
    BooksSumToZero(Run(requests).posted, a.currency);
  }

  /** How refunds were sliced, ordered or interleaved does not matter: two runs
    * that agree on the payment rows agree on every balance. */
  lemma SlicingDoesNotMatter(requests: seq<Request>, others: seq<Request>, a: Account)
    requires Run(requests).payments == Run(others).payments
    ensures Balance(Run(requests).posted, a) == Balance(Run(others).posted, a)
  {
    BalancesFollowPaymentRows(requests, a);
    BalancesFollowPaymentRows(others, a);
  }

  lemma {:induction false} SumOfZeros<K>(m: map<K, int>)
    requires forall k :: k in m ==> m[k] == 0
    ensures SumValues(m) == 0
    decreases |m|
  {
    if m != map[] {
      var k :| k in m && SumValues(m) == m[k] + SumValues(m - {k});
      assert (m - {k}).Keys == m.Keys - {k};
      SumOfZeros(m - {k});
    }
  }

  /** Once everything captured has been refunded, every account is back at zero. */
  lemma EverythingRefundedLeavesNothing(requests: seq<Request>, a: Account)
    requires forall id :: id in Run(requests).payments ==> Run(requests).payments[id].status != Captured
    ensures Balance(Run(requests).posted, a) == 0
  {
    hide Run, Apply, Validate, Contribution, PaidOnce, EventsExact, OutboxExact, RefundsRecorded, IdsUsed, SumForPayment;
    var db := Run(requests);
    InvAlways(requests);
    forall id | id in db.payments ensures Contributions(db.payments, a)[id] == 0 {
      if db.payments[id].status == Refunded {
        FullyRefundedIsNeutral(db.payments[id], a);
      } else {
        UnsettledStandsForNothing(db.payments[id], a);
      }
    }
    SumOfZeros(Contributions(db.payments, a));
  }

  // ------------------------------------------------------- orders and refunds

  /** An order is paid in full by exactly one payment, or not at all. */
  lemma AtMostOnePaymentSettles(requests: seq<Request>, order: Id)
    requires order in Run(requests).orders
    ensures var db := Run(requests);
            && (forall a, b :: SettledFor(db, a, b) ==> a == b)
            && (db.orders[order].status == Paid <==> HasSettledPayment(db, order))
            && db.orders[order].amountPaid == (if HasSettledPayment(db, order) then db.orders[order].amount.minor else 0)
  {
    hide Run, Apply, BooksClosed, EventsExact, OutboxExact, RefundsRecorded, IdsUsed, SumForPayment;
    InvAlways(requests);
  }

  /** In every run a merchant's receipt names one order at most. Creating another one
    * under it changes nothing, and is refused by the index if it is valid otherwise:
    * this is what makes a retried creation harmless. */
  lemma ReceiptsNameOneOrder(requests: seq<Request>, order: Id, r: Request)
    requires var db := Run(requests);
             && order in db.orders && db.orders[order].receipt.Some? && r.number !in db.used
             && r.action.CreateOrder? && r.merchant == db.orders[order].merchant && r.action.receipt == db.orders[order].receipt
    ensures var db := Run(requests);
            && (forall other :: other in db.orders && SameReceipt(db.orders[order], db.orders[other]) ==> other == order)
            && Run(requests + [r]) == db
            && (r.action.amountMinor >= 100 && r.action.notes <= 15 && |r.action.receipt.value| <= 40
                ==> Plan(db, r) == Err(Conflict("orders_merchant_receipt_idx")))
  {
    hide Run, Sound, IdsUsed, BooksClosed, EventsExact, OutboxExact, PaidOnce, RefundsRecorded;
    InvAlways(requests);
    RunGrows(requests, r);
  }

  lemma RunGrows(requests: seq<Request>, r: Request)
    ensures Run(requests + [r]) == Apply(Run(requests), r)
  {
  }

  /** Refunds never exceed the payment; the row carries their sum; and a settled
    * payment is Refunded exactly when nothing of it is left. */
  lemma RefundsNeverExceedThePayment(requests: seq<Request>, payment: Id)
    requires payment in Run(requests).payments
    ensures var db := Run(requests);
            var p := db.payments[payment];
            && 0 <= SumForPayment(db.refunds, payment) <= p.amount.minor
            && p.amountRefunded == SumForPayment(db.refunds, payment)
            && (p.status == Refunded <==> SumForPayment(db.refunds, payment) == p.amount.minor)
            && (SumForPayment(db.refunds, payment) > 0 ==> Settled(p))
  {
    hide Run, Apply, BooksClosed, EventsExact, OutboxExact, PaidOnce, RefundsRecorded, IdsUsed, SumForPayment;
    InvAlways(requests);
  }

  /** `mark_refunded` cannot fail once the guard on the amount has passed: a
    * refund is refused only for the reasons the service reports itself. */
  lemma RefundsFailOnlyByValidation(db: Tables, r: Request)
    requires Inv(db) && r.action.RefundPayment? && r.number !in db.used
    ensures Plan(db, r).Ok? || Plan(db, r).error.Validation? || Plan(db, r).error.NotFound?
  {
    hide BooksClosed, EventsExact, OutboxExact, PaidOnce, RefundsRecorded, IdsUsed, SumForPayment, PlanReturn;
    RequestsAreDecidedByAccepts(db, r);
  }

  /** A capture that lost the race for its order is refused by the order's status
    * machine and leaves no trace in any table. */
  lemma LosingCaptureChangesNothing(db: Tables, r: Request)
    requires Inv(db) && r.action.CapturePayment? && r.number !in db.used
    requires r.action.payment in db.payments && db.payments[r.action.payment].merchant == r.merchant
    requires HasSettledPayment(db, db.payments[r.action.payment].order)
    ensures Plan(db, r).Err? && Apply(db, r) == db
    ensures db.payments[r.action.payment].status == Authorized ==> Plan(db, r) == Err(InvalidOrderTransition(Paid, Paid))
  {
    hide BooksClosed, EventsExact, OutboxExact, RefundsRecorded, IdsUsed, SumForPayment, PostCapture;
  }

  // ----------------------------------------------------------- status machines

  /** One request moves existing rows along their status machines only, keeps
    * what identifies them, and never rewrites a log. */
  lemma RowsFollowTheirMachines(db: Tables, r: Request)
    requires Inv(db)
    ensures var next := Apply(db, r);
            && (forall id :: id in db.orders ==> id in next.orders && OrderMoves(db.orders[id], next.orders[id]))
            && (forall id :: id in db.payments ==> id in next.payments && PaymentMoves(db.payments[id], next.payments[id]))
            && (forall id :: id in db.payments ==> PaymentGoes(db.payments[id].status, next.payments[id].status))
            && (forall id :: id in db.orders ==> OrderGoes(db.orders[id].status, next.orders[id].status))
            && db.posted <= next.posted && db.refunds <= next.refunds && db.events <= next.events
            && db.deliveries <= next.deliveries && db.jobs <= next.jobs && db.attempts <= next.attempts
  {
    hide Inv, Apply, ChangeOf, Changed, RowChange, Accepts;
    SoundParts(db);
    RequestsAreDecidedByAccepts(db, r);
    if Accepts(db, r) {
      ChangesAreRowChanges(db, r);
      AcceptedRequestsAreFresh(db, r);
      OrdersFollow(db, r, ChangeOf(db, r));
      PaymentsFollow(db, r, ChangeOf(db, r));
      LogsGrow(db, r, ChangeOf(db, r));
    }
  }

  lemma SoundParts(db: Tables)
    requires Inv(db)
    ensures Sound(db) && IdsUsed(db)
  {
  }

  lemma OrdersFollow(db: Tables, r: Request, c: Change)
    requires IdsUsed(db) && r.number !in db.used && RowChange(db, r, c)
    ensures var next := Changed(db, r, c);
            forall id :: id in db.orders ==>
              id in next.orders && OrderMoves(db.orders[id], next.orders[id]) && OrderGoes(db.orders[id].status, next.orders[id].status)
  {
    hide EventRows, EventDeliveries, WebhookJobs, CaptureTransactions, RefundTransactions, KindsOf, PaymentSound;
  }

  lemma PaymentsFollow(db: Tables, r: Request, c: Change)
    requires IdsUsed(db) && Sound(db) && r.number !in db.used && RowChange(db, r, c)
    ensures var next := Changed(db, r, c);
            forall id :: id in db.payments ==>
              && id in next.payments && PaymentMoves(db.payments[id], next.payments[id])
              && PaymentGoes(db.payments[id].status, next.payments[id].status)
  {
    hide EventRows, EventDeliveries, WebhookJobs, CaptureTransactions, RefundTransactions, KindsOf, SumForPayment, OrderSound;
  }

  lemma LogsGrow(db: Tables, r: Request, c: Change)
    ensures var next := Changed(db, r, c);
            && db.posted <= next.posted && db.refunds <= next.refunds && db.events <= next.events
            && db.deliveries <= next.deliveries && db.jobs <= next.jobs && db.attempts <= next.attempts
  {
  }

  lemma AcceptedRequestsAreFresh(db: Tables, r: Request)
    requires Accepts(db, r)
    ensures r.number !in db.used
  {
  }

  predicate OrderMoves(from: OrderRow, to: OrderRow) {
    && to.merchant == from.merchant && to.amount == from.amount && to.receipt == from.receipt
    && (to.status == from.status || OrderCanMove(from.status, to.status) || (from.status == OrderCreated && to.status == Paid))
  }

  /** The moves requests ever make of a row that exists. */
  predicate OrderGoes(from: OrderStatus, to: OrderStatus) {
    from == to || (from == OrderCreated && to == Attempted) || (from == OrderCreated && to == Paid) || (from == Attempted && to == Paid)
  }

  predicate PaymentGoes(from: PaymentStatus, to: PaymentStatus) {
    from == to || (from == Authorized && to == Captured) || (from == Captured && to == Refunded)
  }

  predicate PaymentMoves(from: PaymentRow, to: PaymentRow) {
    && to.merchant == from.merchant && to.amount == from.amount && to.order == from.order
    && (to.status == from.status || PaymentCanMove(from.status, to.status))
    && from.amountRefunded <= to.amountRefunded
  }

  // ------------------------------------------------------------------- outbox

  /** Every captured payment, paid order, authorization, decline and refund has
    * one event, every event its state change; the webhook jobs are the delivery
    * rows, one for one and in the same order. */
  lemma OutboxIsExact(requests: seq<Request>, kind: EventKind)
    ensures var db := Run(requests);
            && CountEvents(db.events, kind) == (if Happened(db, kind) then 1 else 0)
            && WebhookPayloads(db.jobs) == PayloadsOf(db.deliveries)
            && (forall i, j :: 0 <= i < j < |db.deliveries| ==> db.deliveries[i].id != db.deliveries[j].id)
  {
    hide Run, Apply, BooksClosed, PaidOnce, RefundsRecorded, IdsUsed, Sound, CountEvents, Happened, WebhookPayloads, PayloadsOf;
    InvAlways(requests);
  }

  function DeliveriesFor(deliveries: seq<DeliveryRow>, event: Id): seq<DeliveryRow> {
    if deliveries == [] then []
    else
      var last := deliveries[|deliveries| - 1];
      DeliveriesFor(deliveries[..|deliveries| - 1], event) + if last.event == event then [last] else []
  }

  lemma {:induction false} DeliveriesForAppend(a: seq<DeliveryRow>, b: seq<DeliveryRow>, event: Id)
    ensures DeliveriesFor(a + b, event) == DeliveriesFor(a, event) + DeliveriesFor(b, event)
    decreases |b|
  {
    if b == [] {
      assert a + b == a && DeliveriesFor(a, event) + [] == DeliveriesFor(a, event);
    } else {
      var all, last := a + b, b[|b| - 1];
      assert all[..|all| - 1] == a + b[..|b| - 1];
      DeliveriesForAppend(a, b[..|b| - 1], event);
      Associative(DeliveriesFor(a, event), DeliveriesFor(b[..|b| - 1], event), if last.event == event then [last] else []);
    }
  }

  lemma {:induction false} DeliveriesForAll(ds: seq<DeliveryRow>, event: Id)
    requires forall d :: d in ds ==> d.event == event
    ensures DeliveriesFor(ds, event) == ds
  {
    if ds != [] {
      assert ds[|ds| - 1] in ds;
      DeliveriesForAll(ds[..|ds| - 1], event);
      assert ds == ds[..|ds| - 1] + [ds[|ds| - 1]];
    }
  }

  lemma {:induction false} DeliveriesForNone(ds: seq<DeliveryRow>, event: Id)
    requires forall d :: d in ds ==> d.event != event
    ensures DeliveriesFor(ds, event) == []
  {
    if ds != [] {
      assert ds[|ds| - 1] in ds;
      DeliveriesForNone(ds[..|ds| - 1], event);
    }
  }

  /** The fan-out of event `id` over the endpoints: one row for each that is active
    * and asked for it, under the number of its place, and no other row. */
  lemma {:induction false} DeliveriesAreTheReceivers(id: Id, kind: EventKind, endpoints: seq<Endpoint>, slot: nat, d: DeliveryRow)
    ensures d in Deliveries(id, kind, endpoints, slot) <==>
              && d.event == id && d.id.event == id && slot <= d.id.slot < slot + |endpoints|
              && var endpoint := endpoints[d.id.slot - slot];
              && endpoint.active && AsksFor(endpoint.enabledEvents, kind) && d.endpoint == endpoint.id
    decreases |endpoints|
  {
    if endpoints != [] {
      DeliveriesAreTheReceivers(id, kind, endpoints[1..], slot + 1, d);
      var head := if endpoints[0].Receives(TypeName(kind)) then [DeliveryRow(DeliveryId(id, slot), id, endpoints[0].id)] else [];
      assert d in Deliveries(id, kind, endpoints, slot) <==> d in head || d in Deliveries(id, kind, endpoints[1..], slot + 1);
    }
  }

  lemma {:induction false} DeliveriesForMembers(ds: seq<DeliveryRow>, event: Id, d: DeliveryRow)
    ensures d in DeliveriesFor(ds, event) <==> d in ds && d.event == event
  {
    if ds != [] {
      DeliveriesForMembers(ds[..|ds| - 1], event, d);
      assert ds == ds[..|ds| - 1] + [ds[|ds| - 1]];
    }
  }

  lemma {:induction false} EventDeliveriesFor(r: Request, n: nat, kinds: seq<EventKind>, i: nat)
    requires i < |kinds|
    ensures DeliveriesFor(EventDeliveries(r, n, kinds), Id(r.number, n + i)) == Deliveries(Id(r.number, n + i), kinds[i], r.endpoints, 0)
    decreases |kinds|
  {
    var first, rest := Deliveries(Id(r.number, n), kinds[0], r.endpoints, 0), EventDeliveries(r, n + 1, kinds[1..]);
    FannedOut(Id(r.number, n), kinds[0], r.endpoints, 0);
    NewDeliveries(r, n + 1, kinds[1..]);
    DeliveriesForAppend(first, rest, Id(r.number, n + i));
    if i == 0 {
      DeliveriesForAll(first, Id(r.number, n));
      DeliveriesForNone(rest, Id(r.number, n));
      assert first + [] == first;
    } else {
      DeliveriesForNone(first, Id(r.number, n + i));
      EventDeliveriesFor(r, n + 1, kinds[1..], i - 1);
      assert [] + DeliveriesFor(rest, Id(r.number, n + i)) == DeliveriesFor(rest, Id(r.number, n + i));
    }
  }

  /** The request that drew this event's identifier and fanned it out. */
  ghost predicate FannedOutBy(db: Tables, e: EventRow, r: Request) {
    && r.number == e.id.request
    && DeliveriesFor(db.deliveries, e.id) == Deliveries(e.id, e.kind, r.endpoints, 0)
  }

  /** The `n`-th request was accepted at its place in the run and fanned the event out. */
  ghost predicate FannedOutAt(db: Tables, e: EventRow, requests: seq<Request>, n: nat) {
    n < |requests| && Accepts(Run(requests[..n]), requests[n]) && FannedOutBy(db, e, requests[n])
  }

  ghost predicate EveryEventFannedOut(db: Tables, requests: seq<Request>) {
    forall e :: e in db.events ==> exists n :: FannedOutAt(db, e, requests, n)
  }

  lemma FannedOutLater(db: Tables, e: EventRow, requests: seq<Request>, n: nat, r: Request)
    requires FannedOutAt(db, e, requests, n)
    ensures FannedOutAt(db, e, requests + [r], n)
  {
    hide Run, Accepts, FannedOutBy;
    assert (requests + [r])[..n] == requests[..n];
  }

  /** What a change leaves of an old event's deliveries, and gives a new event. */
  lemma OldFanOutKept(db: Tables, r: Request, c: Change, e: EventRow, q: Request)
    requires IdsUsed(db) && r.number !in db.used && e in db.events && FannedOutBy(db, e, q)
    ensures FannedOutBy(Changed(db, r, c), e, q)
  {
    hide Deliveries;
    var ds := EventDeliveries(r, 1, c.kinds);
    DeliveriesForAppend(db.deliveries, ds, e.id);
    NewDeliveries(r, 1, c.kinds);
    DeliveriesForNone(ds, e.id);
  }

  lemma NewFanOut(db: Tables, r: Request, c: Change, e: EventRow)
    requires IdsUsed(db) && r.number !in db.used && e in EventRows(r, 1, c.kinds)
    ensures FannedOutBy(Changed(db, r, c), e, r)
  {
    hide Deliveries;
    var i :| 0 <= i < |c.kinds| && EventRows(r, 1, c.kinds)[i] == e;
    DeliveriesForAppend(db.deliveries, EventDeliveries(r, 1, c.kinds), e.id);
    DeliveriesForNone(db.deliveries, e.id);
    EventDeliveriesFor(r, 1, c.kinds, i);
  }

  lemma FanOutKept(requests: seq<Request>, r: Request)
    requires var db := Run(requests);
             Inv(db) && Accepts(db, r) && r.number !in db.used && EveryEventFannedOut(db, requests)
    ensures EveryEventFannedOut(Changed(Run(requests), r, ChangeOf(Run(requests), r)), requests + [r])
  {
    hide Run, Accepts, ChangeOf, FannedOutBy, IdsUsed, FannedOutAt;
    var db, c := Run(requests), ChangeOf(Run(requests), r);
    var next := Changed(db, r, c);
    forall e | e in next.events ensures exists n :: FannedOutAt(next, e, requests + [r], n) {
      if e in db.events {
        var n :| FannedOutAt(db, e, requests, n);
        OldEventFannedOut(requests, r, c, e, n);
      } else {
        NewFanOut(db, r, c, e);
        NewEventFannedOut(next, e, requests, r);
      }
    }
  }

  lemma OldEventFannedOut(requests: seq<Request>, r: Request, c: Change, e: EventRow, n: nat)
    requires var db := Run(requests); Inv(db) && r.number !in db.used && e in db.events && FannedOutAt(db, e, requests, n)
    ensures FannedOutAt(Changed(Run(requests), r, c), e, requests + [r], n)
  {
    hide Run, Accepts, FannedOutBy, Changed, IdsUsed;
    OldFanOutKept(Run(requests), r, c, e, requests[n]);
    FannedOutLater(Changed(Run(requests), r, c), e, requests, n, r);
  }

  lemma NewEventFannedOut(next: Tables, e: EventRow, requests: seq<Request>, r: Request)
    requires Accepts(Run(requests), r) && FannedOutBy(next, e, r)
    ensures FannedOutAt(next, e, requests + [r], |requests|)
  {
    hide Run, Accepts, FannedOutBy;
    assert (requests + [r])[..|requests|] == requests;
  }

  /** In every reachable state each event has exactly the deliveries of its
    * fan-out over the endpoints that its own request, as accepted, was given. */
  lemma {:induction false} EveryEventIsFannedOut(requests: seq<Request>)
    ensures EveryEventFannedOut(Run(requests), requests)
  {
    hide Apply, Changed, ChangeOf, IdsUsed, FannedOutAt, BooksClosed, PaidOnce, RefundsRecorded, Sound, EventsExact, OutboxExact;
    if requests != [] {
      var before, r := requests[..|requests| - 1], requests[|requests| - 1];
      EveryEventIsFannedOut(before);
      InvAlways(before);
      RequestsAreDecidedByAccepts(Run(before), r);
      assert requests == before + [r];
      if Accepts(Run(before), r) {
        FanOutKept(before, r);
      } else {
        forall e | e in Run(requests).events ensures exists n :: FannedOutAt(Run(requests), e, requests, n) {
          var n :| FannedOutAt(Run(before), e, before, n);
          FannedOutLater(Run(before), e, before, n, r);
        }
      }
    }
  }

  /** The event has one delivery for each of these endpoints that is active and asked
    * for it, and no other. */
  ghost predicate ReachesSubscribers(db: Tables, e: EventRow, endpoints: seq<Endpoint>) {
    && (forall d :: d in db.deliveries && d.event == e.id ==>
          && d.id.event == e.id && d.id.slot < |endpoints|
          && var endpoint := endpoints[d.id.slot];
          && endpoint.active && AsksFor(endpoint.enabledEvents, e.kind) && d.endpoint == endpoint.id)
    && (forall i :: 0 <= i < |endpoints| && endpoints[i].active && AsksFor(endpoints[i].enabledEvents, e.kind) ==>
          DeliveryRow(DeliveryId(e.id, i), e.id, endpoints[i].id) in db.deliveries)
  }

  lemma FanOutReachesSubscribers(db: Tables, e: EventRow, r: Request)
    requires FannedOutBy(db, e, r)
    ensures ReachesSubscribers(db, e, r.endpoints)
  {
    hide DeliveriesFor, Deliveries, AsksFor;
    forall d ensures d in db.deliveries && d.event == e.id <==> d in Deliveries(e.id, e.kind, r.endpoints, 0) {
      DeliveriesForMembers(db.deliveries, e.id, d);
    }
    forall d {
      DeliveriesAreTheReceivers(e.id, e.kind, r.endpoints, 0, d);
    }
  }

  /** In every reachable state each event has reached exactly the endpoints, among those
    * given to the request that was accepted under its number, which were active and
    * had asked for it by name or for everything. */
  lemma EveryEventReachesItsSubscribers(requests: seq<Request>, e: EventRow)
    requires e in Run(requests).events
    ensures exists n :: 0 <= n < |requests| && Accepts(Run(requests[..n]), requests[n]) && requests[n].number == e.id.request
                        && ReachesSubscribers(Run(requests), e, requests[n].endpoints)
  {
    hide Run, Accepts, ReachesSubscribers;
    EveryEventIsFannedOut(requests);
    var n: nat :| FannedOutAt(Run(requests), e, requests, n);
    FanOutReachesSubscribers(Run(requests), e, requests[n]);
  }
}
