/** The reconciliation run: two aggregate queries on separate snapshots, and a verdict. */
module Reconciliation {
  import opened Base
  import opened LedgerModel
  import opened Tables
  import opened Programs
  import opened Interleaving
  import opened Invariants
  import opened Safety
  import opened Serializability

  datatype RunStatus = RunInProgress | RunPassed | RunFailed

  datatype Report = Report(status: RunStatus, walletsChecked: nat, txnsChecked: nat, mismatches: nat)

  datatype Item = LedgerItem(run: Id) | WalletItem(run: Id, wallet: Id)

  // ---- What the queries mean ----

  function Accounts(es: seq<Entry>): set<Id> {
    set e | e in es :: e.account
  }

  function Txns(es: seq<Entry>): (r: set<Id>)
    ensures forall id :: id in r <==> exists e :: e in es && e.txn == id
  {
    set e | e in es :: e.txn
  }

  /** GROUP BY account_id: credits minus debits for every account that has entries. */
  function LedgerTotals(es: seq<Entry>): map<Id, int> {
    if es == [] then map[]
    else
      var before := LedgerTotals(es[..|es| - 1]);
      var e := es[|es| - 1];
      before[e.account := (if e.account in before then before[e.account] else 0) + Signed(e, e.account)]
  }

  /** LEFT JOIN with COALESCE: an account without entries counts as zero. */
  function JoinedTotal(es: seq<Entry>, account: Id): int {
    if account in LedgerTotals(es) then LedgerTotals(es)[account] else 0
  }

  lemma {:induction false} JoinIsNet(es: seq<Entry>, account: Id)
    ensures account in LedgerTotals(es) <==> account in Accounts(es)
    ensures JoinedTotal(es, account) == Net(es, account)
  {
    if es != [] {
      var n := |es| - 1;
      JoinIsNet(es[..n], account);
      assert es == es[..n] + [es[n]];
      assert Accounts(es) == Accounts(es[..n]) + {es[n].account};
    }
  }

  datatype Joined = Joined(wallet: Id, walletTotal: int, ledgerTotal: int)

  /** The result of the wallet query: every wallet exactly once, in whatever order. */
  predicate IsJoin(db: Db, rows: seq<Joined>) {
    && (forall a, b :: 0 <= a < b < |rows| ==> rows[a].wallet != rows[b].wallet)
    && (forall a :: 0 <= a < |rows| ==>
          && rows[a].wallet in db.wallets
          && rows[a] == Joined(rows[a].wallet, Held(db.wallets[rows[a].wallet]), Net(db.entries, db.wallets[rows[a].wallet].account)))
    && (forall id :: id in db.wallets ==> exists a :: 0 <= a < |rows| && rows[a].wallet == id)
  }

  predicate Mismatch(r: Joined) {
    r.walletTotal != r.ledgerTotal
  }

  function MismatchedWallets(db: Db): (r: set<Id>)
    ensures forall id :: id in r <==>
              id in db.wallets && db.wallets[id].available + db.wallets[id].locked != Net(db.entries, db.wallets[id].account)
  {
    set id | id in db.wallets && Held(db.wallets[id]) != Net(db.entries, db.wallets[id].account)
  }

  predicate GlobalFits(db: Db) {
    IsInt64(Total(db.entries, Debit)) && IsInt64(Total(db.entries, Credit))
  }

  predicate HeldFits(db: Db) {
    forall id :: id in db.wallets ==> IsInt64(Held(db.wallets[id]))
  }

  predicate NetFits(db: Db) {
    forall id :: id in db.wallets ==> IsInt64(Net(db.entries, db.wallets[id].account))
  }

  function Imbalance(db: Db): nat {
    if Total(db.entries, Debit) != Total(db.entries, Credit) then 1 else 0
  }

  /** The run's record, from the tables as the first and the second query saw them. */
  function Verdict(first: Db, second: Db): Report {
    if !GlobalFits(first) then Report(RunFailed, 0, 0, 0)
    else if !NetFits(second) then Report(RunFailed, 0, |Txns(first.entries)|, Imbalance(first))
    else
      var found := Imbalance(first) + |MismatchedWallets(second)|;
      Report(if found == 0 then RunPassed else RunFailed, |second.wallets|, |Txns(first.entries)|, found)
  }

  // ---- The repository ----

  lemma AggregatesStep(es: seq<Entry>, i: nat)
    requires i < |es|
    ensures forall d :: Total(es[..i + 1], d) == Total(es[..i], d) + Amount(es[i], d)
    ensures Txns(es[..i + 1]) == Txns(es[..i]) + {es[i].txn}
  {
    assert es[..i + 1][..i] == es[..i];
    assert es[..i + 1] == es[..i] + [es[i]];
  }

  /** The aggregate query, row by row: SUM(CASE direction ...) for either direction in an unbounded numeric, and
      COUNT(DISTINCT transaction_id). Reading a sum into an int64 variable fails when it does not fit. */
  method CheckGlobalLedgerBalance(db: Db) returns (r: Result<(int64, int64, nat), Error>)
    ensures IsInt64(Total(db.entries, Debit)) && IsInt64(Total(db.entries, Credit)) ==>
              r == Ok((Total(db.entries, Debit), Total(db.entries, Credit), |Txns(db.entries)|))
    ensures !IsInt64(Total(db.entries, Debit)) || !IsInt64(Total(db.entries, Credit)) ==> r == Err(OutOfRange)
  {
    hide Total, Txns;
    var debits: int, credits: int := 0, 0;
    var seen: set<Id> := {};
    NothingAggregated(db.entries);
    for i := 0 to |db.entries|
      invariant debits == Total(db.entries[..i], Debit) && credits == Total(db.entries[..i], Credit)
      invariant seen == Txns(db.entries[..i])
    {
      var entry := db.entries[i];
      AggregatesStep(db.entries, i);
      debits := debits + if entry.direction == Debit then entry.amount else 0;
      credits := credits + if entry.direction == Credit then entry.amount else 0;
      seen := seen + {entry.txn};
    }
    assert db.entries[..|db.entries|] == db.entries;
    if !IsInt64(debits) || !IsInt64(credits) {
      return Err(OutOfRange);
    }
    return Ok((debits, credits, |seen|));
  }

  lemma NothingAggregated(es: seq<Entry>)
    ensures (forall d :: Total(es[..0], d) == 0) && Txns(es[..0]) == {}
  {
  }

  /** The rows of the join, in the order in which the wallets happen to be visited. */
  method JoinRows(db: Db) returns (rows: seq<Joined>)
    ensures IsJoin(db, rows)
  {
    rows := [];
    var rest := db.wallets.Keys;
    while rest != {}
      invariant rest <= db.wallets.Keys
      invariant forall a, b :: 0 <= a < b < |rows| ==> rows[a].wallet != rows[b].wallet
      invariant forall a :: 0 <= a < |rows| ==>
                              && rows[a].wallet in db.wallets && rows[a].wallet !in rest
                              && rows[a] == Joined(rows[a].wallet, Held(db.wallets[rows[a].wallet]), Net(db.entries, db.wallets[rows[a].wallet].account))
      invariant forall id :: id in db.wallets && id !in rest ==> exists a :: 0 <= a < |rows| && rows[a].wallet == id
      decreases |rest|
    {
      var id :| id in rest;
      JoinIsNet(db.entries, db.wallets[id].account);
      var before := rows;
      rows := rows + [Joined(id, Held(db.wallets[id]), JoinedTotal(db.entries, db.wallets[id].account))];
      rest := rest - {id};
      assert rows[|before|].wallet == id;
      forall k | k in db.wallets && k !in rest ensures exists a :: 0 <= a < |rows| && rows[a].wallet == k {
        if k != id {
          var a :| 0 <= a < |before| && before[a].wallet == k;
          assert rows[a].wallet == k;
        }
      }
    }
  }

  function WalletsOf(rows: seq<Joined>): seq<Id> {
    seq(|rows|, i requires 0 <= i < |rows| => rows[i].wallet)
  }

  /** The mismatching wallets among the rows, in row order. */
  function Mismatching(rows: seq<Joined>): seq<Id> {
    if rows == [] then []
    else
      var r := rows[|rows| - 1];
      Mismatching(rows[..|rows| - 1]) + if Mismatch(r) then [r.wallet] else []
  }

  /** The loop: counts rows, collects mismatches, gives up on a total that does not fit; a bigint overflow
      inside the query ends the rows early, and the loop does not ask why they ended. */
  method CheckWalletBalances(db: Db) returns (walletsChecked: nat, mismatches: seq<Id>, e: Option<Error>)
    ensures HeldFits(db) && !NetFits(db) ==> e == Some(OutOfRange) && walletsChecked == 0 && mismatches == []
    ensures HeldFits(db) && NetFits(db) ==>
              && e == None && walletsChecked == |db.wallets|
              && |mismatches| == |MismatchedWallets(db)|
              && (forall id :: id in mismatches <==> id in MismatchedWallets(db))
  {
    hide Net, Held;
    var rows := JoinRows(db);
    walletsChecked := 0;
    mismatches := [];
    e := None;
    for i := 0 to |rows|
      invariant walletsChecked == i
      invariant mismatches == Mismatching(rows[..i])
      invariant forall a :: 0 <= a < i ==> IsInt64(rows[a].ledgerTotal)
    {
      var row := rows[i];
      if !IsInt64(row.walletTotal) {
        break;
      }
      walletsChecked := walletsChecked + 1;
      if !IsInt64(row.ledgerTotal) {
        return 0, [], Some(OutOfRange);
      }
      if row.walletTotal != row.ledgerTotal {
        mismatches := mismatches + [row.wallet];
      }
      assert rows[..i + 1][..i] == rows[..i];
    }
    if HeldFits(db) {
      assert rows[..|rows|] == rows;
      JoinCounts(db, rows);
      MismatchingIs(db, rows);
    }
  }

  lemma {:induction false} DistinctSize(ids: seq<Id>, all: set<Id>)
    requires forall a, b :: 0 <= a < b < |ids| ==> ids[a] != ids[b]
    requires forall id :: id in ids <==> id in all
    ensures |ids| == |all|
  {
    if ids == [] {
      assert all == {};
    } else {
      var n := |ids| - 1;
      assert ids == ids[..n] + [ids[n]];
      assert ids[n] !in ids[..n];
      DistinctSize(ids[..n], all - {ids[n]});
    }
  }

  /** The LEFT JOIN loses no wallet and repeats none. */
  lemma JoinCounts(db: Db, rows: seq<Joined>)
    requires IsJoin(db, rows)
    ensures |rows| == |db.wallets|
  {
    hide Net, Held;
    var ids := WalletsOf(rows);
    forall id ensures id in ids <==> id in db.wallets.Keys {
      if id in db.wallets {
        var a :| 0 <= a < |rows| && rows[a].wallet == id;
        assert ids[a] == id;
      }
    }
    DistinctSize(ids, db.wallets.Keys);
  }

  lemma {:induction false} MismatchingMembers(rows: seq<Joined>)
    requires forall a, b :: 0 <= a < b < |rows| ==> rows[a].wallet != rows[b].wallet
    ensures forall id :: id in Mismatching(rows) <==> exists a :: 0 <= a < |rows| && rows[a].wallet == id && Mismatch(rows[a])
    ensures forall a, b :: 0 <= a < b < |Mismatching(rows)| ==> Mismatching(rows)[a] != Mismatching(rows)[b]
  {
    if rows != [] {
      var n := |rows| - 1;
      MismatchingMembers(rows[..n]);
      var before := Mismatching(rows[..n]);
      forall id ensures id in Mismatching(rows) <==> exists a :: 0 <= a < |rows| && rows[a].wallet == id && Mismatch(rows[a]) {
        if id in before {
          var a :| 0 <= a < n && rows[..n][a].wallet == id && Mismatch(rows[..n][a]);
          assert rows[a].wallet == id;
        }
        if a :| 0 <= a < |rows| && rows[a].wallet == id && Mismatch(rows[a]) {
          if a < n {
            assert rows[..n][a] == rows[a];
          }
        }
      }
      assert rows[n].wallet !in before;
    }
  }

  lemma MismatchingIs(db: Db, rows: seq<Joined>)
    requires IsJoin(db, rows)
    ensures |Mismatching(rows)| == |MismatchedWallets(db)|
    ensures forall id :: id in Mismatching(rows) <==> id in MismatchedWallets(db)
  {
    hide Net, Held;
    MismatchingMembers(rows);
    forall id ensures id in Mismatching(rows) <==> id in MismatchedWallets(db) {
      if id in db.wallets {
        var a :| 0 <= a < |rows| && rows[a].wallet == id;
      }
    }
    DistinctSize(Mismatching(rows), MismatchedWallets(db));
  }

  // ---- The run ----

  class Reports {
    var runs: map<Id, Report>
    var items: seq<Item>

    constructor ()
      ensures runs == map[] && items == []
    {
      runs, items := map[], [];
    }

    method CreateRun(id: Id)
      modifies this
      ensures runs == old(runs)[id := Report(RunInProgress, 0, 0, 0)] && items == old(items)
    {
      runs := runs[id := Report(RunInProgress, 0, 0, 0)];
    }

    method CompleteRun(id: Id, report: Report)
      modifies this
      ensures runs == (if id in old(runs) then old(runs)[id := report] else old(runs)) && items == old(items)
    {
      if id in runs {
        runs := runs[id := report];
      }
    }

    method RecordMismatch(item: Item)
      modifies this
      ensures items == old(items) + [item] && runs == old(runs)
    {
      items := items + [item];
    }
  }

  /** One item per wallet. */
  function WalletItems(run: Id, ids: seq<Id>): seq<Item> {
    seq(|ids|, i requires 0 <= i < |ids| => WalletItem(run, ids[i]))
  }

  lemma WalletItemsStep(run: Id, ids: seq<Id>, k: nat)
    requires k < |ids|
    ensures WalletItems(run, ids[..k + 1]) == WalletItems(run, ids[..k]) + [WalletItem(run, ids[k])]
  {
  }

  lemma NoItems(run: Id, ids: seq<Id>, items: seq<Item>)
    ensures items + WalletItems(run, ids[..0]) == items
    ensures |WalletItems(run, ids)| == |ids|
  {
  }

  /** What a stored report says about the two snapshots: passed iff the books agree and every sum can be read, and how
      much was looked at and found. */
  predicate Says(r: Report, first: Db, second: Db) {
    var debits, credits := Total(first.entries, Debit), Total(first.entries, Credit);
    var sums := IsInt64(debits) && IsInt64(credits);
    var nets := forall w :: w in second.wallets ==> IsInt64(Net(second.entries, second.wallets[w].account));
    && (r.status == RunPassed || r.status == RunFailed)
    && (r.status == RunPassed <==>
          && sums && debits == credits
          && forall w :: w in second.wallets ==>
               var net := Net(second.entries, second.wallets[w].account);
               IsInt64(net) && second.wallets[w].available + second.wallets[w].locked == net)
    && (!sums ==> r.walletsChecked == 0 && r.txnsChecked == 0 && r.mismatches == 0)
    && (sums ==> r.txnsChecked == |Txns(first.entries)|)
    && (sums && !nets ==> r.walletsChecked == 0 && r.mismatches == if debits != credits then 1 else 0)
    && (sums && nets ==>
          && r.walletsChecked == |second.wallets|
          && r.mismatches == |MismatchedWallets(second)| + if debits != credits then 1 else 0)
  }

  lemma VerdictSays(first: Db, second: Db)
    ensures Says(Verdict(first, second), first, second)
  {
    hide Total, Net;
    if w :| w in MismatchedWallets(second) {
      assert MismatchedWallets(second) != {};
    } else {
      assert MismatchedWallets(second) == {};
    }
  }

  lemma Fits(first: Db, second: Db)
    ensures GlobalFits(first) <==> IsInt64(Total(first.entries, Debit)) && IsInt64(Total(first.entries, Credit))
    ensures HeldFits(second) <==>
            forall w :: w in second.wallets ==> IsInt64(second.wallets[w].available + second.wallets[w].locked)
    ensures NetFits(second) <==> forall w :: w in second.wallets ==> IsInt64(Net(second.entries, second.wallets[w].account))
  {
  }

  /** The whole run. Commits may fall between its queries: first and second are what each of them sees. */
  method RunReconciliation(reports: Reports, id: Id, first: Db, second: Db)
    modifies reports
    ensures id in reports.runs && forall other :: other != id ==>
              (other in reports.runs <==> other in old(reports.runs))
              && (other in old(reports.runs) ==> reports.runs[other] == old(reports.runs)[other])
    ensures (forall w :: w in second.wallets ==> IsInt64(second.wallets[w].available + second.wallets[w].locked)) ==>
              reports.runs[id] == Verdict(first, second) && Says(reports.runs[id], first, second)
    ensures IsInt64(Total(first.entries, Debit)) && IsInt64(Total(first.entries, Credit))
            && (forall w :: w in second.wallets ==>
                  IsInt64(second.wallets[w].available + second.wallets[w].locked)
                  && IsInt64(Net(second.entries, second.wallets[w].account))) ==>
              && |reports.items| == |old(reports.items)| + reports.runs[id].mismatches
              && old(reports.items) <= reports.items
              && (LedgerItem(id) in reports.items[|old(reports.items)|..] <==>
                    Total(first.entries, Debit) != Total(first.entries, Credit))
              && (forall w :: WalletItem(id, w) in reports.items[|old(reports.items)|..] <==>
                    w in second.wallets
                    && second.wallets[w].available + second.wallets[w].locked != Net(second.entries, second.wallets[w].account))
    ensures !IsInt64(Total(first.entries, Debit)) || !IsInt64(Total(first.entries, Credit)) ==> reports.items == old(reports.items)
  {
    Fits(first, second);
    hide Net, Total, Held, Txns, HeldFits, NetFits, GlobalFits, IsInt64, MismatchedWallets, WalletItems, Says;
    VerdictSays(first, second);
    reports.CreateRun(id);
    var mismatchesFound := 0;
    var status := RunPassed;

    var global := CheckGlobalLedgerBalance(first);
    if global.Err? {
      reports.CompleteRun(id, Report(RunFailed, 0, 0, 0));
      return;
    }
    var (debits, credits, txnCount) := global.value;
    if debits != credits {
      status := RunFailed;
      mismatchesFound := mismatchesFound + 1;
      reports.RecordMismatch(LedgerItem(id));
    }

    var walletsChecked, mismatches, e := CheckWalletBalances(second);
    if e.Some? {
      reports.CompleteRun(id, Report(RunFailed, walletsChecked, txnCount, mismatchesFound));
      return;
    }
    ghost var items := reports.items;
    NoItems(id, mismatches, items);
    for k := 0 to |mismatches|
      invariant mismatchesFound == Imbalance(first) + k
      invariant status == if mismatchesFound == 0 then RunPassed else RunFailed
      invariant reports.items == items + WalletItems(id, mismatches[..k])
      invariant reports.runs == old(reports.runs)[id := Report(RunInProgress, 0, 0, 0)]
    {
      status := RunFailed;
      mismatchesFound := mismatchesFound + 1;
      reports.RecordMismatch(WalletItem(id, mismatches[k]));
      WalletItemsStep(id, mismatches, k);
    }
    reports.CompleteRun(id, Report(status, walletsChecked, txnCount, mismatchesFound));
    assert mismatches[..|mismatches|] == mismatches;
    ItemsSay(id, old(reports.items), items[|old(reports.items)|..], mismatches);
    assert items == old(reports.items) + items[|old(reports.items)|..];
  }

  lemma ItemsSay(run: Id, before: seq<Item>, ledger: seq<Item>, ids: seq<Id>)
    requires ledger == [] || ledger == [LedgerItem(run)]
    ensures var items := before + ledger + WalletItems(run, ids);
            && (LedgerItem(run) in items[|before|..] <==> ledger != [])
            && (forall w :: WalletItem(run, w) in items[|before|..] <==> w in ids)
  {
    var items := before + ledger + WalletItems(run, ids);
    assert items[|before|..] == ledger + WalletItems(run, ids);
    forall w ensures WalletItem(run, w) in items[|before|..] <==> w in ids {
      if w in ids {
        var k :| 0 <= k < |ids| && ids[k] == w;
        assert WalletItems(run, ids)[k] == WalletItem(run, w);
      }
    }
  }

  // ---- What it says about reachable states ----

  /** A run on any two reachable states finds no mismatch; it passes exactly when the total of all debits
      ever made still fits in an int64, and otherwise fails without any mismatch to show. */
  lemma ReachableVerdict(s: Sys, t: Sys)
    requires Reachable(s) && Reachable(t)
    ensures HeldFits(t.db)
    ensures Verdict(s.db, t.db) ==
            if Total(s.db.entries, Debit) <= MAX_INT64
            then Report(RunPassed, |t.db.wallets|, |Txns(s.db.entries)|, 0)
            else Report(RunFailed, 0, 0, 0)
  {
    ReachableIsSafe(s);
    ReachableIsSafe(t);
    hide Reachable, TwoPhase, MoneyConserved, CreditedOnce, OutboxMatches, RowsUnique, PaymentsIndexed;
    DebitsNonNegative(s);
    assert MismatchedWallets(t.db) == {};
  }

  /** Debits are never negative in a reachable state: they equal the amounts paid in and moved. */
  lemma DebitsNonNegative(s: Sys)
    requires Reachable(s)
    ensures Total(s.db.entries, Debit) >= 0
  {
    ReachablePositive(s);
    PositiveTotal(s.db.entries, Debit);
  }

  predicate Positive(es: seq<Entry>) {
    forall e :: e in es ==> e.amount > 0
  }

  lemma {:induction false} PositiveTotal(es: seq<Entry>, d: Direction)
    requires Positive(es)
    ensures Total(es, d) >= 0
  {
    if es != [] {
      PositiveTotal(es[..|es| - 1], d);
    }
  }

  lemma PositiveStep(db: Db, p: Program)
    requires Positive(db.entries) && Apply(db, p).Ok?
    ensures Positive(Apply(db, p).value.entries)
  {
  }

  lemma {:induction false} ApplyAllPositive(db: Db, ps: seq<Program>)
    requires Positive(db.entries) && ApplyAll(db, ps).Some?
    ensures Positive(ApplyAll(db, ps).value.entries)
  {
    hide Apply;
    if ps != [] {
      ApplyAllPositive(db, ps[..|ps| - 1]);
      PositiveStep(ApplyAll(db, ps[..|ps| - 1]).value, ps[|ps| - 1]);
    }
  }

  lemma ReachablePositive(s: Sys)
    requires Reachable(s)
    ensures Positive(s.db.entries)
  {
    Serializable(s);
    var ext :| ApplyAll(EmptyDb(ext), s.log) == Some(s.db);
    ApplyAllPositive(EmptyDb(ext), s.log);
  }
}
