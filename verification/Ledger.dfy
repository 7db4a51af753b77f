/** Double entry: `crates/domain/src/ledger/ledger_entry.rs` and
  * `crates/domain/src/ledger/ledger_transaction.rs`. Positive entries are
  * credits, negative entries are debits. */
module Ledger {
  import opened Prelude
  import opened Monetary

  /** Accounts are unique per (type, currency) and, for merchant accounts, per
    * merchant, so that key stands for the account id. */
  datatype Account =
    | Clearing(currency: Currency)
    | Revenue(currency: Currency)
    | TaxPayable(currency: Currency)
    | Pending(merchant: nat, currency: Currency)

  datatype LedgerError =
    | TooFewEntries(count: nat)
    | Unbalanced(totals: seq<(Currency, int)>)
    | ZeroAmountEntry
    | SumOverflow
    | BadMoney(cause: MoneyError)

  datatype LedgerEntry = LedgerEntry(account: Account, amount: Money) {
    predicate IsCredit() { amount.minor > 0 }

    predicate IsDebit() { amount.minor < 0 }
  }

  function Credit(account: Account, amount: Money): (r: Result<LedgerEntry, LedgerError>) {
    if amount.minor == 0 then Err(ZeroAmountEntry)
    else if amount.minor < 0 then Err(BadMoney(Negative(amount.minor)))
    else Ok(LedgerEntry(account, amount))
  }

  function Debit(account: Account, amount: Money): (r: Result<LedgerEntry, LedgerError>) {
    if amount.minor == 0 then Err(ZeroAmountEntry)
    else if amount.minor < 0 then Err(BadMoney(Negative(amount.minor)))
    else match amount.Negate()
      case Ok(negated) => Ok(LedgerEntry(account, negated))
      case Err(e) => Err(BadMoney(e))
  }

  /** Both directions take a positive amount and nothing else, and give entries
    * of the same size and opposite sign. */
  lemma SignRules(account: Account, amount: Money)
    ensures Credit(account, amount).Ok? <==> amount.minor > 0
    ensures Debit(account, amount).Ok? <==> amount.minor > 0
    ensures amount.minor > 0 ==>
              var credit, debit := Credit(account, amount).value, Debit(account, amount).value;
              && credit.IsCredit() && !credit.IsDebit() && debit.IsDebit() && !debit.IsCredit()
              && credit.amount == amount && debit.amount.Negate() == Ok(amount)
              && credit.account == debit.account == account
  {
  }

  datatype Kind = PaymentCaptured | FeeCharged | RefundIssued | FeeRefunded

  datatype BalancedTransaction = BalancedTransaction(kind: Kind, entries: seq<LedgerEntry>)

  function CurrencyTotal(entries: seq<LedgerEntry>, c: Currency): int {
    if entries == [] then 0
    else
      var last := entries[|entries| - 1].amount;
      CurrencyTotal(entries[..|entries| - 1], c) + if last.currency == c then last.minor else 0
  }

  ghost predicate PrefixTotalsFit(entries: seq<LedgerEntry>) {
    forall k, c :: 0 <= k <= |entries| ==> FitsI64(CurrencyTotal(entries[..k], c))
  }

  ghost predicate EveryTotalIsZero(entries: seq<LedgerEntry>) {
    forall c :: CurrencyTotal(entries, c) == 0
  }

  /** The five currencies in the order of their codes. */
  const BY_CODE := [EUR, INR, JPY, KWD, USD]

  lemma EveryCurrencyHasACode(c: Currency)
    ensures c in BY_CODE
  {
  }

  /** Codes differ in their first letter, which therefore decides the order. */
  predicate CodeBefore(a: Currency, b: Currency) {
    Code(a)[0] < Code(b)[0]
  }

  function NonZero(entries: seq<LedgerEntry>, among: seq<Currency>): seq<(Currency, int)> {
    if among == [] then []
    else
      var t := CurrencyTotal(entries, among[0]);
      (if t != 0 then [(among[0], t)] else []) + NonZero(entries, among[1..])
  }

  /** What the constructor decides, as a function of the entries. */
  ghost function Validate(kind: Kind, entries: seq<LedgerEntry>): Result<BalancedTransaction, LedgerError> {
    if |entries| < 2 then Err(TooFewEntries(|entries|))
    else if !PrefixTotalsFit(entries) then Err(SumOverflow)
    else
      var unbalanced := NonZero(entries, BY_CODE);
      if unbalanced != [] then Err(Unbalanced(unbalanced))
      else Ok(BalancedTransaction(kind, entries))
  }

  predicate SortedByCode(list: seq<(Currency, int)>) {
    forall i, j :: 0 <= i < j < |list| ==> CodeBefore(list[i].0, list[j].0)
  }

  /** `list` holds exactly the currencies whose total is non-zero, with it. */
  ghost predicate ListsNonZeroTotals(list: seq<(Currency, int)>, entries: seq<LedgerEntry>) {
    && SortedByCode(list)
    && forall x: (Currency, int) :: x in list <==> x.1 == CurrencyTotal(entries, x.0) && x.1 != 0
  }

  lemma {:induction false} NonZeroLists(entries: seq<LedgerEntry>, among: seq<Currency>)
    requires forall i, j :: 0 <= i < j < |among| ==> CodeBefore(among[i], among[j])
    ensures SortedByCode(NonZero(entries, among))
    ensures forall x: (Currency, int) :: x in NonZero(entries, among) <==> x.0 in among && x.1 == CurrencyTotal(entries, x.0) && x.1 != 0
  {
    if among != [] {
      NonZeroLists(entries, among[1..]);
      var tail := NonZero(entries, among[1..]);
      forall i | 0 <= i < |tail| ensures CodeBefore(among[0], tail[i].0) {
        assert tail[i] in tail;
        assert tail[i].0 in among[1..];
      }
      assert forall c :: c in among <==> c == among[0] || c in among[1..];
    }
  }

  /** A sorted list is determined by its elements. */
  lemma {:induction false} SortedListsAgree(a: seq<(Currency, int)>, b: seq<(Currency, int)>)
    requires SortedByCode(a) && SortedByCode(b)
    requires forall x :: x in a <==> x in b
    ensures a == b
    decreases |a|
  {
    assert a != [] ==> a[0] in b;
    assert b != [] ==> b[0] in a;
    if a != [] && b != [] {
      assert a[0] == b[0];
      forall x ensures x in a[1..] <==> x in b[1..] {
        assert x in a <==> x == a[0] || x in a[1..];
        assert x in b <==> x == b[0] || x in b[1..];
      }
      SortedListsAgree(a[1..], b[1..]);
      assert a == [a[0]] + a[1..] && b == [b[0]] + b[1..];
    }
  }

  lemma HeadStaysFirst(list: seq<(Currency, int)>, item: (Currency, int), tail: seq<(Currency, int)>)
    requires list != [] && SortedByCode(list) && SortedByCode(tail)
    requires list[0].0 != item.0 && !CodeBefore(item.0, list[0].0)
    requires forall x :: x in tail <==> x in list[1..] || x == item
    ensures SortedByCode([list[0]] + tail)
    ensures forall x :: x in [list[0]] + tail <==> x in list || x == item
  {
    assert forall x :: x in list <==> x == list[0] || x in list[1..];
    forall i | 0 <= i < |tail| ensures CodeBefore(list[0].0, tail[i].0) {
      assert tail[i] in tail;
      if tail[i] != item {
        var j :| 0 < j < |list| && list[j] == tail[i];
      }
    }
  }

  function InsertByCode(list: seq<(Currency, int)>, item: (Currency, int)): (r: seq<(Currency, int)>)
    requires SortedByCode(list) && forall i :: 0 <= i < |list| ==> list[i].0 != item.0
    ensures SortedByCode(r)
    ensures forall x :: x in r <==> x in list || x == item
  {
    if list == [] then [item]
    else if CodeBefore(item.0, list[0].0) then [item] + list
    else
      var tail := InsertByCode(list[1..], item);
      HeadStaysFirst(list, item, tail);
      [list[0]] + tail
  }

  ghost predicate SumsUpTo(sums: map<Currency, i64>, entries: seq<LedgerEntry>) {
    forall c :: (if c in sums then sums[c] else 0) == CurrencyTotal(entries, c)
  }

  /** `BalancedTransaction::new`: accumulate a map of sums, then report what does
    * not cancel. */
  method New(kind: Kind, entries: seq<LedgerEntry>) returns (r: Result<BalancedTransaction, LedgerError>)
    ensures r == Validate(kind, entries)
  {
    if |entries| < 2 {
      return Err(TooFewEntries(|entries|));
    }
    var sums: map<Currency, i64> := map[];
    for i := 0 to |entries|
      invariant forall k, c :: 0 <= k <= i ==> FitsI64(CurrencyTotal(entries[..k], c))
      invariant SumsUpTo(sums, entries[..i])
    {
      var amount := entries[i].amount;
      var slot := if amount.currency in sums then sums[amount.currency] else 0;
      assert entries[..i + 1][..i] == entries[..i];
      if !FitsI64(slot + amount.minor) {
        assert !FitsI64(CurrencyTotal(entries[..i + 1], amount.currency));
        return Err(SumOverflow);
      }
      sums := sums[amount.currency := slot + amount.minor];
    }
    assert entries[..|entries|] == entries;
    var unbalanced := CollectUnbalanced(sums, entries);
    if unbalanced != [] {
      return Err(Unbalanced(unbalanced));
    }
    return Ok(BalancedTransaction(kind, entries));
  }

  /** The non-zero sums in code order, whatever order the map yields its keys in. */
  method CollectUnbalanced(sums: map<Currency, i64>, ghost entries: seq<LedgerEntry>)
    returns (unbalanced: seq<(Currency, int)>)
    requires SumsUpTo(sums, entries)
    ensures unbalanced == NonZero(entries, BY_CODE)
  {
    unbalanced := [];
    var keys := sums.Keys;
    while keys != {}
      invariant keys <= sums.Keys
      invariant SortedByCode(unbalanced)
      invariant forall x: (Currency, int) :: x in unbalanced <==> x.0 in sums.Keys - keys && x.1 == sums[x.0] && x.1 != 0
    {
      var c :| c in keys;
      if sums[c] != 0 {
        forall i | 0 <= i < |unbalanced| ensures unbalanced[i].0 != c {
          assert unbalanced[i] in unbalanced;
        }
        unbalanced := InsertByCode(unbalanced, (c, sums[c]));
      }
      keys := keys - {c};
    }
    NonZeroLists(entries, BY_CODE);
    forall x ensures x in unbalanced <==> x in NonZero(entries, BY_CODE) {
      EveryCurrencyHasACode(x.0);
    }
    SortedListsAgree(unbalanced, NonZero(entries, BY_CODE));
  }

  /** Acceptance, and the content of a rejection, without mention of the map:
    * at least two entries, every running total in 64 bits, every currency at
    * zero; otherwise exactly the currencies that are not, in code order. */
  lemma ValidateMeaning(kind: Kind, entries: seq<LedgerEntry>)
    ensures Validate(kind, entries).Ok? <==>
              |entries| >= 2 && PrefixTotalsFit(entries) && EveryTotalIsZero(entries)
    ensures Validate(kind, entries).Ok? ==> Validate(kind, entries).value == BalancedTransaction(kind, entries)
    ensures |entries| < 2 ==> Validate(kind, entries) == Err(TooFewEntries(|entries|))
    ensures |entries| >= 2 && !PrefixTotalsFit(entries) ==> Validate(kind, entries) == Err(SumOverflow)
    ensures forall list :: Validate(kind, entries) == Err(Unbalanced(list)) <==>
              |entries| >= 2 && PrefixTotalsFit(entries) && list != [] && ListsNonZeroTotals(list, entries)
  {
    var found := NonZero(entries, BY_CODE);
    TotalsFound(entries);
    forall list | ListsNonZeroTotals(list, entries) ensures list == found {
      SortedListsAgree(list, found);
    }
  }

  lemma TotalsFound(entries: seq<LedgerEntry>)
    ensures ListsNonZeroTotals(NonZero(entries, BY_CODE), entries)
    ensures NonZero(entries, BY_CODE) == [] <==> EveryTotalIsZero(entries)
  {
    NonZeroLists(entries, BY_CODE);
    var found := NonZero(entries, BY_CODE);
    forall c ensures c in BY_CODE { EveryCurrencyHasACode(c); }
    if found != [] {
      assert found[0] in found;
      assert CurrencyTotal(entries, found[0].0) != 0;
    }
    forall c ensures CurrencyTotal(entries, c) != 0 ==> (c, CurrencyTotal(entries, c)) in found {
      var x := (c, CurrencyTotal(entries, c));
      assert x in found <==> x.1 == CurrencyTotal(entries, x.0) && x.1 != 0;
    }
  }

  /** `total_credited`, and its mirror on the debit side. */
  function TotalCredited(entries: seq<LedgerEntry>, c: Currency): int {
    if entries == [] then 0
    else
      var e := entries[|entries| - 1];
      TotalCredited(entries[..|entries| - 1], c) + if e.amount.currency == c && e.IsCredit() then e.amount.minor else 0
  }

  function TotalDebited(entries: seq<LedgerEntry>, c: Currency): int {
    if entries == [] then 0
    else
      var e := entries[|entries| - 1];
      TotalDebited(entries[..|entries| - 1], c) + if e.amount.currency == c && e.IsDebit() then 0 - e.amount.minor else 0
  }

  lemma {:induction false} CreditsMinusDebits(entries: seq<LedgerEntry>, c: Currency)
    ensures CurrencyTotal(entries, c) == TotalCredited(entries, c) - TotalDebited(entries, c)
  {
    if entries != [] {
      CreditsMinusDebits(entries[..|entries| - 1], c);
    }
  }

  /** In an accepted transaction what is credited equals what is debited. */
  lemma CreditedEqualsDebited(kind: Kind, entries: seq<LedgerEntry>, c: Currency)
    requires Validate(kind, entries).Ok?
    ensures TotalCredited(entries, c) == TotalDebited(entries, c)
  {
    ValidateMeaning(kind, entries);
    CreditsMinusDebits(entries, c);
  }

  // -------------------------------------------------------------- balances

  /** What `entries` post to one account. */
  function AccountTotal(entries: seq<LedgerEntry>, a: Account): int {
    if entries == [] then 0
    else
      var e := entries[|entries| - 1];
      AccountTotal(entries[..|entries| - 1], a) + if e.account == a then e.amount.minor else 0
  }

  /** The balance of an account is the sum of its entries over everything posted. */
  function Balance(posted: seq<BalancedTransaction>, a: Account): int {
    if posted == [] then 0
    else Balance(posted[..|posted| - 1], a) + AccountTotal(posted[|posted| - 1].entries, a)
  }

  function PostedTotal(posted: seq<BalancedTransaction>, c: Currency): int {
    if posted == [] then 0
    else PostedTotal(posted[..|posted| - 1], c) + CurrencyTotal(posted[|posted| - 1].entries, c)
  }

  lemma {:induction false} BalanceAppend(posted: seq<BalancedTransaction>, more: seq<BalancedTransaction>, a: Account)
    ensures Balance(posted + more, a) == Balance(posted, a) + Balance(more, a)
  {
    if more == [] {
      assert posted + more == posted;
    } else {
      var all := posted + more;
      assert all[..|all| - 1] == posted + more[..|more| - 1];
      BalanceAppend(posted, more[..|more| - 1], a);
    }
  }

  /** Only balanced transactions are ever posted, so the books sum to zero in
    * every currency. */
  lemma {:induction false} BooksSumToZero(posted: seq<BalancedTransaction>, c: Currency)
    requires forall t :: t in posted ==> Validate(t.kind, t.entries) == Ok(t)
    ensures PostedTotal(posted, c) == 0
  {
    if posted != [] {
      var last := posted[|posted| - 1];
      assert last in posted && forall t :: t in posted[..|posted| - 1] ==> t in posted;
      ValidateMeaning(last.kind, last.entries);
      assert CurrencyTotal(last.entries, c) == 0;
      BooksSumToZero(posted[..|posted| - 1], c);
    }
  }
}
