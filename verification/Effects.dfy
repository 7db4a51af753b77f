/** What an accepted request does to the tables, stated table by table, and
  * exactly when a request is accepted. */
module Effects {
  import opened Prelude
  import opened Monetary
  import opened Fees
  import opened Ledger
  import opened Gateway

  predicate Settled(p: PaymentRow) {
    p.status == Captured || p.status == Refunded
  }

  // ------------------------------------------------------------ the outbox

  function Deliveries(event: Id, kind: EventKind, endpoints: seq<Endpoint>, slot: nat): seq<DeliveryRow> {
    if endpoints == [] then []
    else
      (if endpoints[0].Receives(TypeName(kind))
       then [DeliveryRow(DeliveryId(event, slot), event, endpoints[0].id)] else [])
      + Deliveries(event, kind, endpoints[1..], slot + 1)
  }

  function WebhookJobs(deliveries: seq<DeliveryRow>, now: Time): (jobs: seq<JobRow>)
    ensures |jobs| == |deliveries|
    ensures forall i :: 0 <= i < |jobs| ==>
              jobs[i].payload == DeliverWebhook(deliveries[i].id, deliveries[i].event, deliveries[i].endpoint)
  {
    if deliveries == [] then []
    else
      var d := deliveries[0];
      [JobRow(DeliverWebhook(d.id, d.event, d.endpoint), now, WEBHOOK_MAX_ATTEMPTS)] + WebhookJobs(deliveries[1..], now)
  }

  lemma ApplyTwo(db: Tables, v: Write, w: Write)
    ensures ApplyAll(db, [v, w]) == ApplyWrite(ApplyWrite(db, v), w)
  {
    assert [v, w][1..] == [w] && [w][1..] == [];
    assert ApplyAll(ApplyWrite(db, v), [w]) == ApplyAll(ApplyWrite(ApplyWrite(db, v), w), []);
  }

  function Enqueued(db: Tables, ds: seq<DeliveryRow>, now: Time): Tables {
    db.(deliveries := db.deliveries + ds, jobs := db.jobs + WebhookJobs(ds, now))
  }

  lemma {:induction false} WebhookJobsConcat(a: seq<DeliveryRow>, b: seq<DeliveryRow>, now: Time)
    ensures WebhookJobs(a + b, now) == WebhookJobs(a, now) + WebhookJobs(b, now)
  {
    if a == [] {
      assert a + b == b;
    } else {
      assert (a + b)[1..] == a[1..] + b;
      WebhookJobsConcat(a[1..], b, now);
      var first := JobRow(DeliverWebhook(a[0].id, a[0].event, a[0].endpoint), now, WEBHOOK_MAX_ATTEMPTS);
      Associative([first], WebhookJobs(a[1..], now), WebhookJobs(b, now));
    }
  }

  lemma EnqueuedConcat(db: Tables, a: seq<DeliveryRow>, b: seq<DeliveryRow>, now: Time)
    ensures Enqueued(Enqueued(db, a, now), b, now) == Enqueued(db, a + b, now)
  {
    WebhookJobsConcat(a, b, now);
    Associative(db.deliveries, a, b);
    Associative(db.jobs, WebhookJobs(a, now), WebhookJobs(b, now));
  }

  lemma EnqueuedOne(db: Tables, d: DeliveryRow, now: Time)
    ensures var job := JobRow(DeliverWebhook(d.id, d.event, d.endpoint), now, WEBHOOK_MAX_ATTEMPTS);
            ApplyAll(db, [InsertDelivery(d), EnqueueJob(job)]) == Enqueued(db, [d], now)
  {
    var job := JobRow(DeliverWebhook(d.id, d.event, d.endpoint), now, WEBHOOK_MAX_ATTEMPTS);
    ApplyTwo(db, InsertDelivery(d), EnqueueJob(job));
    assert [d][1..] == [];
    assert WebhookJobs([d], now) == [job];
  }

  lemma {:induction false} FanOutEffect(db: Tables, event: Id, kind: EventKind, endpoints: seq<Endpoint>, slot: nat, now: Time)
    ensures ApplyAll(db, FanOut(event, kind, endpoints, slot, now))
            == Enqueued(db, Deliveries(event, kind, endpoints, slot), now)
    decreases |endpoints|
  {
    if endpoints == [] {
      assert Enqueued(db, [], now) == db by {
        assert db.deliveries + [] == db.deliveries && db.jobs + [] == db.jobs;
      }
    } else {
      var rest := FanOut(event, kind, endpoints[1..], slot + 1, now);
      var tail := Deliveries(event, kind, endpoints[1..], slot + 1);
      if endpoints[0].Receives(TypeName(kind)) {
        var d := DeliveryRow(DeliveryId(event, slot), event, endpoints[0].id);
        var head := [InsertDelivery(d), EnqueueJob(JobRow(DeliverWebhook(d.id, d.event, d.endpoint), now, WEBHOOK_MAX_ATTEMPTS))];
        ApplyConcat(db, head, rest);
        EnqueuedOne(db, d, now);
        FanOutEffect(Enqueued(db, [d], now), event, kind, endpoints[1..], slot + 1, now);
        EnqueuedConcat(db, [d], tail, now);
      } else {
        FanOutEffect(db, event, kind, endpoints[1..], slot + 1, now);
        assert [] + tail == tail;
      }
    }
  }

  /** What an endpoint asked for, by the names events have on the wire: everything if
    * its list is empty, and otherwise what the list names. */
  predicate AsksFor(enabledEvents: seq<string>, kind: EventKind) {
    || enabledEvents == []
    || match kind
       case PaymentWasCaptured(_) => "payment.captured" in enabledEvents
       case OrderWasPaid(_) => "order.paid" in enabledEvents
       case PaymentWasAuthorized(_) => "payment.authorized" in enabledEvents
       case PaymentHasFailed(_) => "payment.failed" in enabledEvents
       case RefundWasProcessed(_) => "refund.processed" in enabledEvents
  }

  /** One delivery for one endpoint, and the job that is to make it, due at once. */
  predicate DeliversTo(w: Write, event: Id, slot: nat, endpoint: nat, now: Time) {
    || w == InsertDelivery(DeliveryRow(DeliveryId(event, slot), event, endpoint))
    || w == EnqueueJob(JobRow(DeliverWebhook(DeliveryId(event, slot), event, endpoint), now, 7))
  }

  /** A fan-out writes both for each endpoint that is active and asked for the event,
    * under the number of its place, and writes nothing else. */
  ghost predicate ServesSubscribers(ws: seq<Write>, event: Id, kind: EventKind, endpoints: seq<Endpoint>, slot: nat, now: Time) {
    forall w :: w in ws <==> exists i :: 0 <= i < |endpoints| && endpoints[i].active && AsksFor(endpoints[i].enabledEvents, kind)
                                        && DeliversTo(w, event, slot + i, endpoints[i].id, now)
  }

  lemma {:induction false} FanOutServesSubscribers(event: Id, kind: EventKind, endpoints: seq<Endpoint>, slot: nat, now: Time)
    ensures ServesSubscribers(FanOut(event, kind, endpoints, slot, now), event, kind, endpoints, slot, now)
    decreases |endpoints|
  {
    if endpoints != [] {
      var rest := endpoints[1..];
      FanOutServesSubscribers(event, kind, rest, slot + 1, now);
      AskedMeansReceives(endpoints[0], kind);
      var tail := FanOut(event, kind, rest, slot + 1, now);
      forall w
        ensures w in FanOut(event, kind, endpoints, slot, now) <==>
                  (exists i :: 0 <= i < |endpoints| && endpoints[i].active && AsksFor(endpoints[i].enabledEvents, kind)
                               && DeliversTo(w, event, slot + i, endpoints[i].id, now))
      {
        ServedLater(w, event, kind, endpoints, slot, now);
        assert w in FanOut(event, kind, endpoints, slot, now) <==>
                 (endpoints[0].Receives(TypeName(kind)) && DeliversTo(w, event, slot, endpoints[0].id, now)) || w in tail;
      }
    }
  }

  lemma AskedMeansReceives(endpoint: Endpoint, kind: EventKind)
    ensures endpoint.Receives(TypeName(kind)) <==> endpoint.active && AsksFor(endpoint.enabledEvents, kind)
  {
  }

  lemma ServedLater(w: Write, event: Id, kind: EventKind, endpoints: seq<Endpoint>, slot: nat, now: Time)
    requires endpoints != []
    ensures var rest := endpoints[1..];
            (exists i :: 0 <= i < |endpoints| && endpoints[i].active && AsksFor(endpoints[i].enabledEvents, kind)
                         && DeliversTo(w, event, slot + i, endpoints[i].id, now))
            <==> || (endpoints[0].active && AsksFor(endpoints[0].enabledEvents, kind) && DeliversTo(w, event, slot, endpoints[0].id, now))
                 || (exists i :: 0 <= i < |rest| && rest[i].active && AsksFor(rest[i].enabledEvents, kind)
                                && DeliversTo(w, event, slot + 1 + i, rest[i].id, now))
  {
    hide AsksFor, DeliversTo;
    var rest := endpoints[1..];
    if i :| 0 <= i < |endpoints| && endpoints[i].active && AsksFor(endpoints[i].enabledEvents, kind)
            && DeliversTo(w, event, slot + i, endpoints[i].id, now) {
      if i > 0 {
        assert rest[i - 1] == endpoints[i] && slot + 1 + (i - 1) == slot + i;
      }
    }
    if i :| 0 <= i < |rest| && rest[i].active && AsksFor(rest[i].enabledEvents, kind)
            && DeliversTo(w, event, slot + 1 + i, rest[i].id, now) {
      assert endpoints[i + 1] == rest[i] && slot + (i + 1) == slot + 1 + i;
    }
    if endpoints[0].active && AsksFor(endpoints[0].enabledEvents, kind) && DeliversTo(w, event, slot, endpoints[0].id, now) {
      assert slot + 0 == slot;
    }
  }

  function EventRows(r: Request, n: nat, kinds: seq<EventKind>): (rows: seq<EventRow>)
    ensures |rows| == |kinds|
    ensures forall i :: 0 <= i < |rows| ==> rows[i] == EventRow(Id(r.number, n + i), r.merchant, kinds[i])
    decreases |kinds|
  {
    if kinds == [] then []
    else [EventRow(Id(r.number, n), r.merchant, kinds[0])] + EventRows(r, n + 1, kinds[1..])
  }

  function EventDeliveries(r: Request, n: nat, kinds: seq<EventKind>): seq<DeliveryRow>
    decreases |kinds|
  {
    if kinds == [] then []
    else Deliveries(Id(r.number, n), kinds[0], r.endpoints, 0) + EventDeliveries(r, n + 1, kinds[1..])
  }

  function EmitAll(r: Request, n: nat, kinds: seq<EventKind>): seq<Write>
    decreases |kinds|
  {
    if kinds == [] then [] else Emit(r, n, r.merchant, kinds[0]) + EmitAll(r, n + 1, kinds[1..])
  }

  function WithEvents(db: Tables, r: Request, n: nat, kinds: seq<EventKind>): Tables {
    Enqueued(db.(events := db.events + EventRows(r, n, kinds)), EventDeliveries(r, n, kinds), r.now)
  }

  lemma EmitOne(db: Tables, r: Request, n: nat, kind: EventKind)
    ensures ApplyAll(db, Emit(r, n, r.merchant, kind)) == WithEvents(db, r, n, [kind])
  {
    var event := EventRow(Id(r.number, n), r.merchant, kind);
    var emit := Emit(r, n, r.merchant, kind);
    assert emit[1..] == FanOut(event.id, kind, r.endpoints, 0, r.now);
    FanOutEffect(db.(events := db.events + [event]), event.id, kind, r.endpoints, 0, r.now);
    assert [kind][1..] == [];
    assert EventDeliveries(r, n, [kind]) == Deliveries(event.id, kind, r.endpoints, 0) + [];
    assert EventRows(r, n, [kind]) == [event];
    assert EventDeliveries(r, n, [kind]) == Deliveries(event.id, kind, r.endpoints, 0);
    assert ApplyAll(db, emit) == ApplyAll(ApplyWrite(db, emit[0]), emit[1..]);
  }

  lemma EventDeliveriesOne(r: Request, n: nat, kind: EventKind)
    ensures EventDeliveries(r, n, [kind]) == Deliveries(Id(r.number, n), kind, r.endpoints, 0)
  {
  }

  lemma WithEventsJoin(db: Tables, r: Request, n: nat, kinds: seq<EventKind>)
    requires kinds != []
    ensures WithEvents(WithEvents(db, r, n, [kinds[0]]), r, n + 1, kinds[1..]) == WithEvents(db, r, n, kinds)
  {
    hide Deliveries, WebhookJobs;
    var rest := kinds[1..];
    assert [kinds[0]][1..] == [];
    EventDeliveriesOne(r, n, kinds[0]);
    EnqueuedConcat(db.(events := db.events + EventRows(r, n, kinds)), EventDeliveries(r, n, [kinds[0]]),
                   EventDeliveries(r, n + 1, rest), r.now);
    assert db.events + EventRows(r, n, [kinds[0]]) + EventRows(r, n + 1, rest) == db.events + EventRows(r, n, kinds);
  }

  lemma {:induction false} EmitEffect(db: Tables, r: Request, n: nat, kinds: seq<EventKind>)
    ensures ApplyAll(db, EmitAll(r, n, kinds)) == WithEvents(db, r, n, kinds)
    decreases |kinds|
  {
    if kinds == [] {
      assert db.events + [] == db.events && db.deliveries + [] == db.deliveries && db.jobs + [] == db.jobs;
    } else {
      hide WithEvents, ApplyAll, Emit;
      ApplyConcat(db, Emit(r, n, r.merchant, kinds[0]), EmitAll(r, n + 1, kinds[1..]));
      EmitOne(db, r, n, kinds[0]);
      EmitEffect(WithEvents(db, r, n, [kinds[0]]), r, n + 1, kinds[1..]);
      WithEventsJoin(db, r, n, kinds);
    }
  }

  // ----------------------------------------------------------- the postings

  lemma ValidPair(kind: Kind, e: LedgerEntry, f: LedgerEntry)
    requires e.amount.currency == f.amount.currency && e.amount.minor + f.amount.minor == 0
    ensures Validate(kind, [e, f]) == Ok(BalancedTransaction(kind, [e, f]))
  {
    var es := [e, f];
    assert es[..1] == [e] && es[..1][..0] == [] && es[..2] == es && es[..0] == [];
    assert forall c :: CurrencyTotal([e], c) == if c == e.amount.currency then e.amount.minor else 0;
    assert forall c :: CurrencyTotal(es, c) == 0;
    forall k, c | 0 <= k <= |es| ensures FitsI64(CurrencyTotal(es[..k], c)) {
      assert k == 0 || k == 1 || k == 2;
    }
    ValidateMeaning(kind, es);
  }

  lemma ValidTriple(kind: Kind, e: LedgerEntry, f: LedgerEntry, g: LedgerEntry)
    requires e.amount.currency == f.amount.currency == g.amount.currency
    requires e.amount.minor + f.amount.minor + g.amount.minor == 0 && FitsI64(e.amount.minor + f.amount.minor)
    ensures Validate(kind, [e, f, g]) == Ok(BalancedTransaction(kind, [e, f, g]))
  {
    var es := [e, f, g];
    assert es[..0] == [] && es[..1] == [e] && es[..2] == [e, f] && es[..3] == es;
    assert [e][..0] == [] && [e, f][..1] == [e];
    assert forall c :: CurrencyTotal([e], c) == if c == e.amount.currency then e.amount.minor else 0;
    assert forall c :: CurrencyTotal([e, f], c) == if c == e.amount.currency then e.amount.minor + f.amount.minor else 0;
    assert forall c :: CurrencyTotal(es, c) == 0;
    forall k, c | 0 <= k <= |es| ensures FitsI64(CurrencyTotal(es[..k], c)) {
      assert k == 0 || k == 1 || k == 2 || k == 3;
    }
    ValidateMeaning(kind, es);
  }

  /** What a capture posts. */
  function CaptureTransactions(merchant: nat, amount: Money): seq<BalancedTransaction>
    requires amount.minor > 0
  {
    var c, f := amount.currency, FeeOf(amount);
    [BalancedTransaction(PaymentCaptured, [
       LedgerEntry(Clearing(c), Money(0 - amount.minor, c)), LedgerEntry(Pending(merchant, c), amount)]),
     BalancedTransaction(FeeCharged, [
       LedgerEntry(Pending(merchant, c), Money(0 - f.total, c)), LedgerEntry(Revenue(c), Money(f.base, c))]
       + if f.tax > 0 then [LedgerEntry(TaxPayable(c), Money(f.tax, c))] else [])]
  }

  function Posts(transactions: seq<BalancedTransaction>): seq<Write> {
    if transactions == [] then [] else [Post(transactions[0])] + Posts(transactions[1..])
  }

  lemma PostsOfTwo(t: BalancedTransaction, u: BalancedTransaction)
    ensures Posts([t]) == [Post(t)] && Posts([t, u]) == [Post(t), Post(u)]
  {
    assert [t][1..] == [] && [t, u][1..] == [u];
    assert Posts([]) == [] && Posts([u]) == [Post(u)] + Posts([]) by { assert [u][1..] == []; }
  }

  lemma {:induction false} PostsEffect(db: Tables, transactions: seq<BalancedTransaction>)
    ensures ApplyAll(db, Posts(transactions)) == db.(posted := db.posted + transactions)
    decreases |transactions|
  {
    if transactions == [] {
      assert db.posted + transactions == db.posted;
    } else {
      PostsEffect(db.(posted := db.posted + [transactions[0]]), transactions[1..]);
      assert db.posted + [transactions[0]] + transactions[1..] == db.posted + transactions;
    }
  }

  /** Every `build` in a capture of a positive amount succeeds. */
  lemma CapturePostings(merchant: nat, amount: Money)
    requires amount.minor > 0
    ensures PostCapture(merchant, amount, FeeOf(amount))
            == Ok([EnsureAccount(Pending(merchant, amount.currency))] + Posts(CaptureTransactions(merchant, amount)))
    ensures forall t :: t in CaptureTransactions(merchant, amount) ==> Validate(t.kind, t.entries) == Ok(t)
  {
    hide Validate, FeeOf;
    var c, f := amount.currency, FeeOf(amount);
    var ts := CaptureTransactions(merchant, amount);
    ValidPair(PaymentCaptured, ts[0].entries[0], ts[0].entries[1]);
    var debit, credit := LedgerEntry(Pending(merchant, c), Money(0 - f.total, c)), LedgerEntry(Revenue(c), Money(f.base, c));
    PostsOfTwo(ts[0], ts[1]);
    assert ts == [ts[0], ts[1]];
    var account := EnsureAccount(Pending(merchant, c));
    assert [account, Post(ts[0])] + [Post(ts[1])] == [account] + [Post(ts[0]), Post(ts[1])];
    if f.tax > 0 {
      var tax := LedgerEntry(TaxPayable(c), Money(f.tax, c));
      ValidTriple(FeeCharged, debit, credit, tax);
      assert ts[1].entries == [debit, credit, tax];
    } else {
      ValidPair(FeeCharged, debit, credit);
      assert ts[1].entries == [debit, credit];
    }
  }

  /** What returning `back` and the fee share `fee` posts. */
  function ReturnTransactions(merchant: nat, back: Money, fee: FeeRefund): seq<BalancedTransaction>
    requires back.minor > 0 && Representable(fee)
  {
    var c := back.currency;
    var issued := BalancedTransaction(RefundIssued, [
      LedgerEntry(Pending(merchant, c), Money(0 - back.minor, c)), LedgerEntry(Clearing(c), back)]);
    if fee.IsZero() then [issued] else [issued, FeeReturn(merchant, c, fee)]
  }

  /** What refunding from `before` to `after` of a payment posts. */
  function RefundTransactions(merchant: nat, amount: Money, before: int, after: int): seq<BalancedTransaction>
    requires amount.minor > 0 && 0 <= before < after <= amount.minor
  {
    ReturnTransactions(merchant, Money(after - before, amount.currency), SliceOf(amount, before, after))
  }

  function SliceOf(amount: Money, before: int, after: int): (fee: FeeRefund)
    requires amount.minor > 0 && 0 <= before <= after <= amount.minor
    ensures Representable(fee)
  {
    SliceIsExact(amount, before, after);
    ProportionalFeeRefund(amount, before, after).value
  }

  /** Every `build` in a refund within the payment succeeds. */
  lemma RefundPostings(merchant: nat, amount: Money, before: int, after: int)
    requires amount.minor > 0 && 0 <= before < after <= amount.minor
    ensures ProportionalFeeRefund(amount, before, after) == Ok(SliceOf(amount, before, after))
    ensures PostRefund(merchant, Money(after - before, amount.currency), SliceOf(amount, before, after))
            == Ok([EnsureAccount(Pending(merchant, amount.currency))] + Posts(RefundTransactions(merchant, amount, before, after)))
    ensures forall t :: t in RefundTransactions(merchant, amount, before, after) ==> Validate(t.kind, t.entries) == Ok(t)
  {
    SliceIsExact(amount, before, after);
    ReturnPostings(merchant, Money(after - before, amount.currency), SliceOf(amount, before, after));
  }

  predicate Representable(fee: FeeRefund) {
    fee.base >= 0 && fee.tax >= 0 && FitsI64(fee.base) && FitsI64(fee.tax) && FitsI64(fee.Total())
  }

  lemma ReturnPostings(merchant: nat, back: Money, fee: FeeRefund)
    requires back.minor > 0 && Representable(fee)
    ensures PostRefund(merchant, back, fee)
            == Ok([EnsureAccount(Pending(merchant, back.currency))] + Posts(ReturnTransactions(merchant, back, fee)))
    ensures forall t :: t in ReturnTransactions(merchant, back, fee) ==> Validate(t.kind, t.entries) == Ok(t)
  {
    if fee == FeeRefund(0, 0) {
      ReturnWithoutFee(merchant, back);
    } else {
      ReturnWithFee(merchant, back, fee);
    }
  }

  lemma ReturnWithoutFee(merchant: nat, back: Money)
    requires back.minor > 0
    ensures var fee := FeeRefund(0, 0);
            && PostRefund(merchant, back, fee)
               == Ok([EnsureAccount(Pending(merchant, back.currency))] + Posts(ReturnTransactions(merchant, back, fee)))
            && forall t :: t in ReturnTransactions(merchant, back, fee) ==> Validate(t.kind, t.entries) == Ok(t)
  {
    var c := back.currency;
    var debit, credit := LedgerEntry(Pending(merchant, c), Money(0 - back.minor, c)), LedgerEntry(Clearing(c), back);
    var t := BalancedTransaction(RefundIssued, [debit, credit]);
    ValidPair(RefundIssued, debit, credit);
    assert ReturnTransactions(merchant, back, FeeRefund(0, 0)) == [t];
    PostsOfTwo(t, t);
    assert [EnsureAccount(Pending(merchant, c)), Post(t)] == [EnsureAccount(Pending(merchant, c))] + [Post(t)];
  }

  lemma ReturnWithFee(merchant: nat, back: Money, fee: FeeRefund)
    requires back.minor > 0 && Representable(fee) && !fee.IsZero()
    ensures PostRefund(merchant, back, fee)
            == Ok([EnsureAccount(Pending(merchant, back.currency))] + Posts(ReturnTransactions(merchant, back, fee)))
    ensures forall t :: t in ReturnTransactions(merchant, back, fee) ==> Validate(t.kind, t.entries) == Ok(t)
  {
    var ts := ReturnTransactions(merchant, back, fee);
    ValidPair(RefundIssued, ts[0].entries[0], ts[0].entries[1]);
    FeeReturnPosting(merchant, back.currency, fee);
    FeeReturnIsBuilt(merchant, back.currency, fee);
    PostsOfTwo(ts[0], ts[1]);
    assert ts == [ts[0], ts[1]];
    var account := EnsureAccount(Pending(merchant, back.currency));
    assert [account, Post(ts[0])] + [Post(ts[1])] == [account] + [Post(ts[0]), Post(ts[1])];
  }

  function FeeReturn(merchant: nat, c: Currency, fee: FeeRefund): BalancedTransaction
    requires Representable(fee)
  {
    BalancedTransaction(FeeRefunded,
      [LedgerEntry(Pending(merchant, c), Money(fee.Total(), c))]
      + (if fee.base > 0 then [LedgerEntry(Revenue(c), Money(0 - fee.base, c))] else [])
      + (if fee.tax > 0 then [LedgerEntry(TaxPayable(c), Money(0 - fee.tax, c))] else []))
  }

  lemma FeeReturnIsBuilt(merchant: nat, c: Currency, fee: FeeRefund)
    requires Representable(fee) && !fee.IsZero()
    ensures FeeReturnEntries(merchant, c, fee) == Ok(FeeReturn(merchant, c, fee).entries)
  {
    var credit := LedgerEntry(Pending(merchant, c), Money(fee.Total(), c));
    var revenue := LedgerEntry(Revenue(c), Money(0 - fee.base, c));
    var tax := LedgerEntry(TaxPayable(c), Money(0 - fee.tax, c));
    assert fee.base > 0 ==> AddDebit([credit], Revenue(c), Money(fee.base, c)) == Ok([credit] + [revenue]);
    var withBase := if fee.base > 0 then [credit] + [revenue] else [credit];
    assert fee.tax > 0 ==> AddDebit(withBase, TaxPayable(c), Money(fee.tax, c)) == Ok(withBase + [tax]);
    assert FeeReturn(merchant, c, fee).entries == withBase + if fee.tax > 0 then [tax] else [];
    assert withBase + [] == withBase;
  }

  lemma FeeReturnPosting(merchant: nat, c: Currency, fee: FeeRefund)
    requires Representable(fee) && !fee.IsZero()
    ensures Validate(FeeRefunded, FeeReturn(merchant, c, fee).entries) == Ok(FeeReturn(merchant, c, fee))
  {
    var entries := FeeReturn(merchant, c, fee).entries;
    var credit := LedgerEntry(Pending(merchant, c), Money(fee.Total(), c));
    var revenue := LedgerEntry(Revenue(c), Money(0 - fee.base, c));
    var tax := LedgerEntry(TaxPayable(c), Money(0 - fee.tax, c));
    if fee.base > 0 && fee.tax > 0 {
      ValidTriple(FeeRefunded, credit, revenue, tax);
      assert entries == [credit, revenue, tax];
    } else if fee.base > 0 {
      ValidPair(FeeRefunded, credit, revenue);
      assert entries == [credit, revenue];
    } else {
      ValidPair(FeeRefunded, credit, tax);
      assert entries == [credit, tax];
    }
  }
}
