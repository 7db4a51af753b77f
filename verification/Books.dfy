/** The ledger against the payment rows: in every account, what was posted adds
  * up to a closed form of the current rows alone. */
module Books {
  import opened Prelude
  import opened Monetary
  import opened Fees
  import opened Ledger
  import opened Gateway
  import opened Effects
  import opened Changes
  import opened MapSums

  /** What one payment row says an account holds because of it. */
  function Contribution(p: PaymentRow, a: Account): int {
    if !Settled(p) || p.amount.minor <= 0 then 0
    else if a.currency != p.amount.currency then 0
    else
      var f, kept := FeeOf(p.amount), p.amount.minor - p.amountRefunded;
      var base := f.base - Share(f.base, p.amountRefunded, p.amount.minor);
      var tax := f.tax - Share(f.tax, p.amountRefunded, p.amount.minor);
      match a
      case Clearing(_) => -kept
      case Revenue(_) => base
      case TaxPayable(_) => tax
      case Pending(m, _) => if m == p.merchant then kept - (base + tax) else 0
  }

  function Contributions(payments: map<Id, PaymentRow>, a: Account): map<Id, int> {
    map id | id in payments :: Contribution(payments[id], a)
  }

  ghost function ClosedForm(payments: map<Id, PaymentRow>, a: Account): int {
    SumValues(Contributions(payments, a))
  }

  lemma ClosedFormPut(payments: map<Id, PaymentRow>, id: Id, p: PaymentRow, a: Account)
    ensures ClosedForm(payments[id := p], a)
            == ClosedForm(payments, a) - (if id in payments then Contribution(payments[id], a) else 0) + Contribution(p, a)
  {
    hide Contribution;
    assert Contributions(payments[id := p], a) == Contributions(payments, a)[id := Contribution(p, a)];
    SumPut(Contributions(payments, a), id, Contribution(p, a));
  }

  // ---------------------------------------------- what a change posts

  function PostedTo(e: LedgerEntry, a: Account): int {
    if e.account == a then e.amount.minor else 0
  }

  lemma TotalsOfFew(e: LedgerEntry, f: LedgerEntry, g: LedgerEntry, a: Account)
    ensures AccountTotal([e, f], a) == PostedTo(e, a) + PostedTo(f, a)
    ensures AccountTotal([e, f, g], a) == PostedTo(e, a) + PostedTo(f, a) + PostedTo(g, a)
  {
    assert [e][..0] == [] && [e, f][..1] == [e] && [e, f, g][..2] == [e, f];
    assert AccountTotal([e], a) == AccountTotal([], a) + PostedTo(e, a);
  }

  lemma BalanceOfFew(t: BalancedTransaction, u: BalancedTransaction, a: Account)
    ensures Balance([t], a) == AccountTotal(t.entries, a)
    ensures Balance([t, u], a) == AccountTotal(t.entries, a) + AccountTotal(u.entries, a)
  {
  }

  /** A capture posts exactly what the captured row stands for. */
  lemma CaptureMatchesRow(p: PaymentRow, a: Account)
    requires p.status == Captured && p.amount.minor > 0 && p.amountRefunded == 0
    ensures Balance(CaptureTransactions(p.merchant, p.amount), a) == Contribution(p, a)
  {
    hide FeeOf, Share;
    var f, c := FeeOf(p.amount), p.amount.currency;
    var ts := CaptureTransactions(p.merchant, p.amount);
    ShareAtEnds(f.base, p.amount.minor);
    ShareAtEnds(f.tax, p.amount.minor);
    BalanceOfFew(ts[0], ts[1], a);
    assert ts == [ts[0], ts[1]];
    TotalsOfFew(ts[0].entries[0], ts[0].entries[1], ts[0].entries[0], a);
    var debit, credit := ts[1].entries[0], ts[1].entries[1];
    if f.tax > 0 {
      var tax := LedgerEntry(TaxPayable(c), Money(f.tax, c));
      TotalsOfFew(debit, credit, tax, a);
      assert ts[1].entries == [debit, credit, tax];
    } else {
      TotalsOfFew(debit, credit, credit, a);
      assert ts[1].entries == [debit, credit];
    }
  }

  /** What a fee return moves: the total to the merchant, out of the components. */
  lemma FeeReturnTotals(merchant: nat, c: Currency, fee: FeeRefund, a: Account)
    requires Representable(fee) && !fee.IsZero()
    ensures AccountTotal(FeeReturn(merchant, c, fee).entries, a) ==
              if a == Pending(merchant, c) then fee.Total()
              else if a == Revenue(c) then -fee.base
              else if a == TaxPayable(c) then -fee.tax
              else 0
  {
    var entries := FeeReturn(merchant, c, fee).entries;
    var credit := LedgerEntry(Pending(merchant, c), Money(fee.Total(), c));
    var revenue := LedgerEntry(Revenue(c), Money(0 - fee.base, c));
    var tax := LedgerEntry(TaxPayable(c), Money(0 - fee.tax, c));
    TotalsOfFew(credit, revenue, tax, a);
    if fee.base > 0 && fee.tax > 0 {
      assert entries == [credit, revenue, tax];
    } else if fee.base > 0 {
      assert entries == [credit, revenue];
    } else {
      TotalsOfFew(credit, tax, tax, a);
      assert entries == [credit, tax];
    }
  }

  lemma IssueTotals(merchant: nat, back: Money, fee: FeeRefund, a: Account)
    requires back.minor > 0 && Representable(fee)
    ensures AccountTotal(ReturnTransactions(merchant, back, fee)[0].entries, a) ==
              if a == Pending(merchant, back.currency) then 0 - back.minor
              else if a == Clearing(back.currency) then back.minor
              else 0
  {
    hide FeeReturn, FeeRefund.IsZero, Representable;
    var entries := ReturnTransactions(merchant, back, fee)[0].entries;
    TotalsOfFew(entries[0], entries[1], entries[0], a);
  }

  lemma ReturnTotals(merchant: nat, back: Money, fee: FeeRefund, a: Account)
    requires back.minor > 0 && Representable(fee)
    ensures Balance(ReturnTransactions(merchant, back, fee), a) ==
              if a == Pending(merchant, back.currency) then fee.Total() - back.minor
              else if a == Clearing(back.currency) then back.minor
              else if a == Revenue(back.currency) then -fee.base
              else if a == TaxPayable(back.currency) then -fee.tax
              else 0
  {
    hide FeeReturn, AccountTotal, Balance;
    var ts := ReturnTransactions(merchant, back, fee);
    IssueTotals(merchant, back, fee, a);
    if fee == FeeRefund(0, 0) {
      BalanceOfFew(ts[0], ts[0], a);
    } else {
      FeeReturnTotals(merchant, back.currency, fee, a);
      BalanceOfFew(ts[0], ts[1], a);
    }
  }

  /** A refund posts exactly the difference between the rows after and before. */
  lemma RefundMatchesRows(p: PaymentRow, q: PaymentRow, a: Account)
    requires Settled(p) && Settled(q) && p.amount.minor > 0
    requires p.amount == q.amount && p.merchant == q.merchant
    requires 0 <= p.amountRefunded < q.amountRefunded <= p.amount.minor
    ensures Balance(RefundTransactions(p.merchant, p.amount, p.amountRefunded, q.amountRefunded), a)
            == Contribution(q, a) - Contribution(p, a)
  {
    hide FeeOf, Share, ReturnTransactions, ProportionalFeeRefund;
    SliceIsExact(p.amount, p.amountRefunded, q.amountRefunded);
    var fee := SliceOf(p.amount, p.amountRefunded, q.amountRefunded);
    ReturnTotals(p.merchant, Money(q.amountRefunded - p.amountRefunded, p.amount.currency), fee, a);
  }

  /** A fully refunded payment leaves every account untouched. */
  lemma FullyRefundedIsNeutral(p: PaymentRow, a: Account)
    requires p.status == Refunded && p.amount.minor > 0 && p.amountRefunded == p.amount.minor
    ensures Contribution(p, a) == 0
  {
    hide FeeOf, Share;
    ShareAtEnds(FeeOf(p.amount).base, p.amount.minor);
    ShareAtEnds(FeeOf(p.amount).tax, p.amount.minor);
  }
}
