/** Double-entry transactions and the balance check made before one is stored. */
module LedgerModel {
  import opened Base

  datatype Direction = Debit | Credit | UnknownDirection(text: string)

  datatype Entry = Entry(txn: Id, account: Id, amount: int64, direction: Direction, currency: string)

  datatype EntryError = EmptyEntries | MultiCurrency | NonPositiveAmount | InvalidDirection | Imbalanced

  /** True (unbounded) total of one direction. */
  function Total(es: seq<Entry>, d: Direction): int {
    if es == [] then 0
    else Total(es[..|es| - 1], d) + Amount(es[|es| - 1], d)
  }

  function Amount(e: Entry, d: Direction): int {
    if e.direction == d then e.amount else 0
  }

  /** What the entries add to an account: credits minus debits. */
  function Net(es: seq<Entry>, account: Id): int {
    if es == [] then 0
    else Net(es[..|es| - 1], account) + Signed(es[|es| - 1], account)
  }

  function Signed(e: Entry, account: Id): int {
    if e.account != account then 0 else Amount(e, Credit) - Amount(e, Debit)
  }

  lemma {:induction false} TotalConcat(a: seq<Entry>, b: seq<Entry>, d: Direction)
    ensures Total(a + b, d) == Total(a, d) + Total(b, d)
  {
    if b == [] {
      assert a + b == a;
    } else {
      var n := |b| - 1;
      assert (a + b)[..|a + b| - 1] == a + b[..n];
      TotalConcat(a, b[..n], d);
    }
  }

  lemma {:induction false} NetConcat(a: seq<Entry>, b: seq<Entry>, account: Id)
    ensures Net(a + b, account) == Net(a, account) + Net(b, account)
  {
    if b == [] {
      assert a + b == a;
    } else {
      var n := |b| - 1;
      assert (a + b)[..|a + b| - 1] == a + b[..n];
      NetConcat(a, b[..n], account);
    }
  }

  /** The two entries both callers post: the first account is debited, the second credited. */
  function Pair(txn: Id, debited: Id, credited: Id, amount: int64, currency: string): seq<Entry> {
    [Entry(txn, debited, amount, Debit, currency), Entry(txn, credited, amount, Credit, currency)]
  }

  lemma PairTotals(es: seq<Entry>, txn: Id, debited: Id, credited: Id, amount: int64, currency: string)
    ensures forall d :: Total(es + Pair(txn, debited, credited, amount, currency), d)
                        == Total(es, d) + if d == Debit || d == Credit then amount else 0
    ensures forall a :: Net(es + Pair(txn, debited, credited, amount, currency), a)
                        == Net(es, a) - (if a == debited then amount else 0) + (if a == credited then amount else 0)
  {
    var p := Pair(txn, debited, credited, amount, currency);
    assert p[..1] == [p[0]] && p[..1][..0] == [];
    forall d ensures Total(es + p, d) == Total(es, d) + if d == Debit || d == Credit then amount else 0 {
      TotalConcat(es, p, d);
      assert Total(p, d) == Total(p[..1], d) + Amount(p[1], d);
      assert Total(p[..1], d) == Total([], d) + Amount(p[0], d);
    }
    forall a ensures Net(es + p, a) == Net(es, a) - (if a == debited then amount else 0) + (if a == credited then amount else 0) {
      NetConcat(es, p, a);
      assert Net(p, a) == Net(p[..1], a) + Signed(p[1], a);
      assert Net(p[..1], a) == Net([], a) + Signed(p[0], a);
    }
  }

  // ---- The check ----

  /** The complaint about one entry, in the order in which the checks are made. */
  function EntryComplaint(e: Entry, currency: string): Option<EntryError> {
    if e.currency != currency then Some(MultiCurrency)
    else if e.amount <= 0 then Some(NonPositiveAmount)
    else if e.direction.UnknownDirection? then Some(InvalidDirection)
    else None
  }

  /** The complaint about the first bad entry of a list. */
  function FirstComplaint(es: seq<Entry>, currency: string): Option<EntryError> {
    if es == [] then None
    else
      var before := FirstComplaint(es[..|es| - 1], currency);
      if before.Some? then before else EntryComplaint(es[|es| - 1], currency)
  }

  /** The running total kept in an int64 variable, reduced after every addition. */
  function WrappedTotal(es: seq<Entry>, d: Direction): int64 {
    if es == [] then 0
    else Wrap(WrappedTotal(es[..|es| - 1], d) + Amount(es[|es| - 1], d))
  }

  /** The decision taken before anything is stored. */
  function LedgerCheck(es: seq<Entry>): Option<EntryError> {
    if |es| < 2 then Some(EmptyEntries)
    else if FirstComplaint(es, es[0].currency).Some? then FirstComplaint(es, es[0].currency)
    else if WrappedTotal(es, Debit) != WrappedTotal(es, Credit) then Some(Imbalanced)
    else None
  }

  /** An entry that passes the per-entry checks of a list in this currency. */
  predicate Clean(e: Entry, currency: string) {
    e.currency == currency && e.amount > 0 && !e.direction.UnknownDirection?
  }

  /** Entries that pass the per-entry checks. */
  predicate CleanEntries(es: seq<Entry>, currency: string) {
    forall e :: e in es ==> Clean(e, currency)
  }

  lemma {:induction false} CleanIffNoComplaint(es: seq<Entry>, currency: string)
    ensures FirstComplaint(es, currency).None? <==> CleanEntries(es, currency)
  {
    if es != [] {
      var n := |es| - 1;
      CleanIffNoComplaint(es[..n], currency);
      assert es == es[..n] + [es[n]] && es[n] in es;
      assert EntryComplaint(es[n], currency).None? <==> Clean(es[n], currency);
    }
  }

  lemma {:induction false} WrappedIsCongruent(es: seq<Entry>, d: Direction)
    ensures (WrappedTotal(es, d) - Total(es, d)) % TWO_64 == 0
  {
    if es != [] {
      var n := |es| - 1;
      WrappedIsCongruent(es[..n], d);
      var before := WrappedTotal(es[..n], d) + Amount(es[n], d);
      assert (Wrap(before) - before) % TWO_64 == 0;
      Congruent3(Wrap(before), before, Total(es, d));
    }
  }

  lemma Congruent3(x: int, y: int, z: int)
    requires (x - y) % TWO_64 == 0 && (y - z) % TWO_64 == 0
    ensures (x - z) % TWO_64 == 0
  {
    var p := (x - y) / TWO_64;
    var q := (y - z) / TWO_64;
    assert x - z == (p + q) * TWO_64;
  }

  /** Two int64 values are equal exactly when the numbers they stand for agree modulo 2^64. */
  lemma EqualIffCongruent(wd: int64, d: int, wc: int64, c: int)
    requires (wd - d) % TWO_64 == 0 && (wc - c) % TWO_64 == 0
    ensures wd == wc <==> (d - c) % TWO_64 == 0
  {
    var p := (wd - d) / TWO_64;
    var q := (wc - c) / TWO_64;
    assert (d - c) == (wd - wc) + (q - p) * TWO_64;
    var w := wd - wc;
    assert -TWO_64 < w < TWO_64;
    if (d - c) % TWO_64 == 0 {
      var k := (d - c) / TWO_64;
      assert w == (k - q + p) * TWO_64;
    }
  }

  lemma {:induction false} TotalsNonNegative(es: seq<Entry>, currency: string)
    requires CleanEntries(es, currency)
    ensures Total(es, Debit) >= 0 && Total(es, Credit) >= 0
    ensures |es| > 0 ==> Total(es, Debit) + Total(es, Credit) > 0
    ensures Total(es, Debit) > 0 <==> exists e :: e in es && e.direction == Debit
    ensures Total(es, Credit) > 0 <==> exists e :: e in es && e.direction == Credit
  {
    if es != [] {
      var n := |es| - 1;
      assert es == es[..n] + [es[n]] && es[n] in es && Clean(es[n], currency);
      TotalsNonNegative(es[..n], currency);
    }
  }

  /** Without any bound: a clean list is accepted exactly when debits and credits agree modulo 2^64. */
  lemma AcceptedModulo(es: seq<Entry>)
    ensures LedgerCheck(es).None? <==>
            |es| >= 2 && CleanEntries(es, es[0].currency) && (Total(es, Debit) - Total(es, Credit)) % TWO_64 == 0
  {
    hide FirstComplaint, WrappedTotal, Total, CleanEntries;
    if |es| >= 2 {
      CleanIffNoComplaint(es, es[0].currency);
      WrappedIsCongruent(es, Debit);
      WrappedIsCongruent(es, Credit);
      EqualIffCongruent(WrappedTotal(es, Debit), Total(es, Debit), WrappedTotal(es, Credit), Total(es, Credit));
    }
  }

  lemma {:induction false} FirstBad(es: seq<Entry>, currency: string) returns (i: nat)
    requires FirstComplaint(es, currency).Some?
    ensures i < |es| && (forall j :: 0 <= j < i ==> Clean(es[j], currency)) && !Clean(es[i], currency)
    ensures FirstComplaint(es, currency) == EntryComplaint(es[i], currency)
  {
    var n := |es| - 1;
    if FirstComplaint(es[..n], currency).Some? {
      i := FirstBad(es[..n], currency);
    } else {
      i := n;
      CleanIffNoComplaint(es[..n], currency);
      forall j | 0 <= j < n ensures Clean(es[j], currency) {
        assert es[..n][j] in es[..n];
      }
    }
  }

  /** Why a list is refused: too few entries; else the first bad entry, for its currency before its amount before its
      direction; else, of a clean list, imbalance. */
  lemma RefusedFor(es: seq<Entry>) returns (i: nat)
    requires LedgerCheck(es).Some?
    ensures LedgerCheck(es) == Some(EmptyEntries) <==> |es| < 2
    ensures LedgerCheck(es) == Some(Imbalanced) <==> |es| >= 2 && forall e :: e in es ==> Clean(e, es[0].currency)
    ensures LedgerCheck(es) != Some(EmptyEntries) && LedgerCheck(es) != Some(Imbalanced) ==>
              && i < |es| && (forall j :: 0 <= j < i ==> Clean(es[j], es[0].currency)) && !Clean(es[i], es[0].currency)
              && (LedgerCheck(es) == Some(MultiCurrency) <==> es[i].currency != es[0].currency)
              && (LedgerCheck(es) == Some(NonPositiveAmount) <==> es[i].currency == es[0].currency && es[i].amount <= 0)
              && (LedgerCheck(es) == Some(InvalidDirection) <==> es[i].currency == es[0].currency && es[i].amount > 0)
  {
    i := 0;
    if |es| >= 2 {
      CleanIffNoComplaint(es, es[0].currency);
      if FirstComplaint(es, es[0].currency).Some? {
        i := FirstBad(es, es[0].currency);
        assert es[i] in es && EntryComplaint(es[i], es[0].currency).Some?;
      } else {
        assert CleanEntries(es, es[0].currency);
      }
    }
  }

  /** Within the bound the check is exact: accepted iff truly balanced, and then both directions occur. */
  lemma CheckExactWithinBound(es: seq<Entry>)
    requires |es| >= 2 && CleanEntries(es, es[0].currency)
    requires Total(es, Debit) + Total(es, Credit) < TWO_64
    ensures LedgerCheck(es).None? <==> Total(es, Debit) == Total(es, Credit)
    ensures LedgerCheck(es).None? ==>
              (exists e :: e in es && e.direction == Debit) && (exists e :: e in es && e.direction == Credit)
  {
    AcceptedModulo(es);
    TotalsNonNegative(es, es[0].currency);
  }

  /** Every two-entry list is within the bound, whatever its amounts: both callers are safe. */
  lemma TwoEntriesWithinBound(es: seq<Entry>)
    requires |es| == 2 && CleanEntries(es, es[0].currency)
    ensures Total(es, Debit) + Total(es, Credit) < TWO_64
    ensures LedgerCheck(es).None? <==> Total(es, Debit) == Total(es, Credit)
  {
    assert es[..1][..0] == [];
    forall d ensures Total(es, d) == Amount(es[0], d) + Amount(es[1], d) {
      assert Total(es, d) == Total(es[..1], d) + Amount(es[1], d);
      assert Total(es[..1], d) == Total(es[..1][..0], d) + Amount(es[0], d);
    }
    CheckExactWithinBound(es);
  }

  /** The bound is tight: three debits adding up to exactly 2^64 are accepted with no credit at all. */
  lemma BoundIsTight(a: Id, t: Id)
    ensures var es := [Entry(t, a, MAX_INT64, Debit, "USD"), Entry(t, a, MAX_INT64, Debit, "USD"), Entry(t, a, 2, Debit, "USD")];
            CleanEntries(es, "USD") && Total(es, Debit) + Total(es, Credit) == TWO_64
            && LedgerCheck(es).None? && Total(es, Debit) != Total(es, Credit)
  {
    var es := [Entry(t, a, MAX_INT64, Debit, "USD"), Entry(t, a, MAX_INT64, Debit, "USD"), Entry(t, a, 2, Debit, "USD")];
    assert es[..2][..1] == es[..1] && es[..1][..0] == [];
    forall d ensures Total(es, d) == Amount(es[0], d) + Amount(es[1], d) + Amount(es[2], d) {
      assert Total(es, d) == Total(es[..2], d) + Amount(es[2], d);
      assert Total(es[..2], d) == Total(es[..2][..1], d) + Amount(es[1], d);
      assert Total(es[..1], d) == Total(es[..1][..0], d) + Amount(es[0], d);
    }
    AcceptedModulo(es);
  }

  /** The pair both callers post always passes. */
  lemma PairAccepted(txn: Id, debited: Id, credited: Id, amount: int64, currency: string)
    requires amount > 0
    ensures LedgerCheck(Pair(txn, debited, credited, amount, currency)).None?
  {
    var p := Pair(txn, debited, credited, amount, currency);
    PairTotals([], txn, debited, credited, amount, currency);
    assert [] + p == p;
    TwoEntriesWithinBound(p);
  }
}
