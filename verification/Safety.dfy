/** What holds in every state the concurrent system can reach from empty tables. */
module Safety {
  import opened Base
  import opened LedgerModel
  import opened Tables
  import opened Programs
  import opened Interleaving
  import opened Isolation
  import opened Serializability
  import opened Invariants

  predicate WellNamed(p: Program) {
    p.CreateWallet? ==> p.aid != EXTERNAL_ACCOUNT
  }

  /** A transfer or webhook that failed was not stopped by the schema's balance check. */
  predicate NotByCheck(q: Proc) {
    q.Aborted? && (q.prog.RunTransfer? || q.prog.RunWebhook?) ==> q.error != CheckViolation
  }

  predicate ProcFine(q: Proc) {
    WellNamed(q.prog) && NotByCheck(q)
  }

  ghost predicate Safe(s: Sys) {
    TwoPhase(s) && Inv(s.db) && forall i :: 0 <= i < |s.procs| ==> ProcFine(s.procs[i])
  }

  /** With the locked balance check alone, no credit or debit can meet the CHECK constraint. */
  lemma NeverCheckViolation(db: Db, p: Program)
    requires Inv(db) && (p.RunTransfer? || p.RunWebhook?) && Apply(db, p).Err?
    ensures Apply(db, p).error != CheckViolation
  {
    hide MoneyConserved, CreditedOnce, OutboxMatches, RowsUnique, LedgerBalanced;
    if p.RunWebhook? {
      hide WebhookEffect;
    } else {
      hide TransferEffect;
    }
  }

  lemma EmptyIsSafe(ext: bool)
    ensures Safe(Start(EmptyDb(ext)))
  {
  }

  lemma SpawnIsSafe(s: Sys, p: Program)
    requires Safe(s)
    ensures forall i :: 0 <= i < |Next(s, Spawn(p)).procs| ==> ProcFine(Next(s, Spawn(p)).procs[i])
  {
    hide TwoPhase, Inv;
  }

  lemma AdvanceIsSafe(s: Sys, i: nat)
    requires Safe(s) && CanAdvance(s, i)
    ensures ProcFine(AdvanceProc(s, i).procs[i])
  {
    hide TwoPhase, Inv, Execute, Need, Apply;
    PcInRange(s, i);
    var q := AdvanceProc(s, i).procs[i];
    assert ProcFine(s.procs[i]);
    if q.Aborted? {
      AbortIsApply(s, i, q.error);
      if q.prog.RunTransfer? || q.prog.RunWebhook? {
        NeverCheckViolation(s.db, q.prog);
      }
    }
  }

  lemma NextIsSafe(s: Sys, a: Action)
    requires Safe(s)
    ensures Safe(Next(s, a))
  {
    hide TwoPhase, Inv, Execute, Need, Apply, ProcFine;
    NextKeepsTwoPhase(s, a);
    OnlyCommitsWrite(s, a);
    match a
    case Spawn(p) => SpawnIsSafe(s, p);
    case Advance(i) =>
      if CanAdvance(s, i) {
        AdvanceIsSafe(s, i);
        if Next(s, a).db != s.db {
          NamedIsSafe(s, i);
          InvKept(s.db, s.procs[i].prog);
        }
      }
    case Crash(i) =>
      if Live(s, i) {
        CrashIsFine(s.procs[i]);
      }
  }

  lemma NamedIsSafe(s: Sys, i: nat)
    requires Safe(s) && i < |s.procs|
    ensures WellNamed(s.procs[i].prog)
  {
    hide TwoPhase, Inv;
    assert ProcFine(s.procs[i]);
  }

  lemma CrashIsFine(q: Proc)
    requires ProcFine(q)
    ensures ProcFine(Aborted(q.prog, ConnectionLost))
  {
  }

  lemma {:induction false} RunIsSafe(s: Sys, actions: seq<Action>)
    requires Safe(s)
    ensures Safe(Run(s, actions))
  {
    hide Safe, Next;
    if actions != [] {
      RunIsSafe(s, actions[..|actions| - 1]);
      NextIsSafe(Run(s, actions[..|actions| - 1]), actions[|actions| - 1]);
    }
  }

  lemma ReachableIsSafe(s: Sys)
    requires Reachable(s)
    ensures Safe(s)
  {
    var ext: bool, actions: seq<Action> :| s == Run(Start(EmptyDb(ext)), actions);
    hide *;
    EmptyIsSafe(ext);
    RunIsSafe(Start(EmptyDb(ext)), actions);
  }

  // ---- The promises ----

  /** Cached balance equals ledger: available + locked of every wallet is credits minus debits of its account. */
  lemma BalanceEqualsLedger(s: Sys, wid: Id)
    requires Reachable(s) && wid in s.db.wallets
    ensures var w := s.db.wallets[wid]; w.available + w.locked == Net(s.db.entries, w.account)
    ensures 0 <= s.db.wallets[wid].available <= MAX_INT64
    ensures forall other :: other in s.db.wallets && other != wid ==> s.db.wallets[other].account != s.db.wallets[wid].account
  {
    ReachableIsSafe(s);
  }

  /** Double entry and conservation: debits equal credits, and wallets hold what settled payments brought in. */
  lemma Conservation(s: Sys)
    requires Reachable(s)
    ensures Total(s.db.entries, Debit) == Total(s.db.entries, Credit)
    ensures MapSum(s.db.wallets, Held) == MapSum(s.db.payments, Settled) == -Net(s.db.entries, EXTERNAL_ACCOUNT)
  {
    ReachableIsSafe(s);
  }

  /** A payment is credited exactly once if it has succeeded and never otherwise. */
  lemma CreditedIffSucceeded(s: Sys, payment: Id)
    requires Reachable(s)
    ensures Credits(s.db.ledger, payment) <= 1
    ensures Credits(s.db.ledger, payment) == 1 <==> payment in s.db.payments && s.db.payments[payment].status == Succeeded
  {
    ReachableIsSafe(s);
  }

  /** The outbox holds exactly one event per transfer and per payment status change, with matching terms. */
  lemma OutboxIsExact(s: Sys)
    requires Reachable(s)
    ensures OutboxMatches(s.db)
    ensures forall i, j :: 0 <= i < j < |s.db.transfers| ==> s.db.transfers[i].id != s.db.transfers[j].id
    ensures forall i, j :: 0 <= i < j < |s.db.hooks| ==> s.db.hooks[i].key != s.db.hooks[j].key
  {
    ReachableIsSafe(s);
  }

  /** The funds check under lock suffices: no transfer or credit ever aborts on the schema's CHECK. */
  lemma NoOverdraftWithoutSchema(s: Sys, i: nat)
    requires Reachable(s) && i < |s.procs| && (s.procs[i].prog.RunTransfer? || s.procs[i].prog.RunWebhook?)
    ensures s.procs[i] != Aborted(s.procs[i].prog, CheckViolation)
  {
    ReachableIsSafe(s);
    assert ProcFine(s.procs[i]);
  }

  /** Freeze is respected: at the instant a transfer commits, both wallets are active and in its currency. */
  lemma FreezeRespected(s: Sys, i: nat)
    requires Reachable(s) && Live(s, i) && s.procs[i].prog.RunTransfer?
    requires Next(s, Advance(i)).procs[i] == Finished(s.procs[i].prog)
    ensures var p := s.procs[i].prog;
            var t := Next(s, Advance(i));
            forall w :: w == p.source || w == p.destination ==>
              && w in s.db.wallets && s.db.wallets[w].status == Active && s.db.wallets[w].currency == p.currency
              && w in t.db.wallets && t.db.wallets[w].status == Active && t.db.wallets[w].currency == p.currency
    ensures var p := s.procs[i].prog;
            var t := Next(s, Advance(i));
            && p.source != p.destination && p.amount > 0
            && t.db.wallets[p.source].available == s.db.wallets[p.source].available - p.amount >= 0
            && t.db.wallets[p.destination].available == s.db.wallets[p.destination].available + p.amount
            && (forall w :: w != p.source && w != p.destination ==> (w in t.db.wallets <==> w in s.db.wallets))
            && (forall w :: w in s.db.wallets && w != p.source && w != p.destination ==> t.db.wallets[w] == s.db.wallets[w])
  {
    ReachableIsSafe(s);
    CommitStep(s, i);
    hide Reachable, Safe, Next, Live;
    TransferMeans(s.db, s.procs[i].prog);
  }

  /** What a committed transfer has checked and done. */
  lemma TransferMeans(db: Db, p: Program)
    requires p.RunTransfer? && Apply(db, p).Ok?
    ensures var after := Apply(db, p).value;
            && p.source != p.destination && p.amount > 0
            && (forall w :: w == p.source || w == p.destination ==>
                  && w in db.wallets && db.wallets[w].status == Active && db.wallets[w].currency == p.currency
                  && w in after.wallets && after.wallets[w].status == Active && after.wallets[w].currency == p.currency)
            && after.wallets[p.source].available == db.wallets[p.source].available - p.amount >= 0
            && after.wallets[p.destination].available == db.wallets[p.destination].available + p.amount
            && (forall w :: w != p.source && w != p.destination ==> (w in after.wallets <==> w in db.wallets))
            && (forall w :: w in db.wallets && w != p.source && w != p.destination ==> after.wallets[w] == db.wallets[w])
  {
  }

  lemma CommitStep(s: Sys, i: nat)
    requires TwoPhase(s) && Live(s, i) && Next(s, Advance(i)).procs[i] == Finished(s.procs[i].prog)
    ensures Apply(s.db, s.procs[i].prog) == Ok(Next(s, Advance(i)).db)
  {
    hide TwoPhase, Execute, Need, Apply;
    PcInRange(s, i);
    CommitIsApply(s, i);
  }

  lemma {:induction false} RunAdvancesPayments(s: Sys, actions: seq<Action>)
    requires Safe(s)
    ensures PaymentsAdvance(s.db, Run(s, actions).db)
  {
    hide Safe, Next;
    if actions != [] {
      var n := |actions| - 1;
      var t := Run(s, actions[..n]);
      RunAdvancesPayments(s, actions[..n]);
      RunIsSafe(s, actions[..n]);
      PaymentsAdvanceNext(t, actions[n]);
      PaymentsAdvanceTransitive(s.db, t.db, Next(t, actions[n]).db);
    }
  }

  /** Over any further run a payment keeps its terms, its status only moves up, and a final one stays. */
  lemma PaymentsOnlyAdvance(s: Sys, actions: seq<Action>, id: Id)
    requires Reachable(s) && id in s.db.payments
    ensures var t := Run(s, actions);
            && id in t.db.payments
            && t.db.payments[id].(status := s.db.payments[id].status) == s.db.payments[id]
            && (t.db.payments[id].status == s.db.payments[id].status || Stage(s.db.payments[id].status) < Stage(t.db.payments[id].status))
            && (s.db.payments[id].status == Succeeded || s.db.payments[id].status == Failed ==> t.db.payments[id] == s.db.payments[id])
  {
    ReachableIsSafe(s);
    hide Reachable, Safe, Run;
    RunAdvancesPayments(s, actions);
  }

  lemma PaymentsAdvanceNext(s: Sys, a: Action)
    requires Safe(s)
    ensures PaymentsAdvance(s.db, Next(s, a).db)
  {
    hide TwoPhase, Inv, Next, Apply;
    OnlyCommitsWrite(s, a);
    if Next(s, a).db != s.db {
      PaymentsAdvanceStep(s.db, s.procs[a.i].prog);
    }
  }

  // ---- The external account ----

  /** No migration creates the external account; until someone does, no payment can settle and no wallet holds money. */
  ghost predicate Penniless(db: Db) {
    EXTERNAL_ACCOUNT !in db.accounts && forall id :: id in db.payments ==> db.payments[id].status != Succeeded
  }

  lemma PennilessStep(db: Db, p: Program)
    requires Penniless(db) && Apply(db, p).Ok? && WellNamed(p)
    ensures Penniless(Apply(db, p).value)
  {
  }

  lemma {:induction false} StaysPenniless(actions: seq<Action>)
    ensures Safe(Run(Start(EmptyDb(false)), actions)) && Penniless(Run(Start(EmptyDb(false)), actions).db)
  {
    hide Safe, Penniless, Next;
    if actions == [] {
      EmptyIsSafe(false);
      EmptyIsPenniless();
    } else {
      var n := |actions| - 1;
      StaysPenniless(actions[..n]);
      var s := Run(Start(EmptyDb(false)), actions[..n]);
      NextIsSafe(s, actions[n]);
      PennilessNext(s, actions[n]);
    }
  }

  lemma {:induction false} NothingToSum(payments: map<Id, Payment>)
    requires forall id :: id in payments ==> payments[id].status != Succeeded
    ensures MapSum(payments, Settled) == 0
    decreases payments.Keys
  {
    if k :| k in payments {
      MapSumRemove(payments, Settled, k);
      NothingToSum(payments - {k});
    }
  }

  /** Without the external account nothing ever settles and the wallets hold no money at all. */
  lemma NothingSettles(actions: seq<Action>)
    ensures var db := Run(Start(EmptyDb(false)), actions).db;
            && (forall id :: id in db.payments ==> db.payments[id].status != Succeeded)
            && MapSum(db.wallets, Held) == 0
  {
    StaysPenniless(actions);
    var db := Run(Start(EmptyDb(false)), actions).db;
    hide Run, TwoPhase, WalletsMatchLedger, LedgerBalanced, PaymentsIndexed, CreditedOnce, OutboxMatches, RowsUnique;
    NothingToSum(db.payments);
  }

  /** With sound tables, a first success report for a processing payment whose amount fits and whose ledger id is
      new commits exactly when the external account exists. */
  lemma SettlesIffExternal(db: Db, p: Program)
    requires Inv(db) && p.RunWebhook? && p.status == Succeeded && !HasHook(db, p.hook) && !HasLedgerTxn(db, p.lid)
    requires p.reference in db.references && db.payments[db.references[p.reference]].status == Processing
    requires var pay := db.payments[db.references[p.reference]]; db.wallets[pay.wallet].available + pay.amount <= MAX_INT64
    ensures Apply(db, p).Ok? <==> EXTERNAL_ACCOUNT in db.accounts
  {
    hide WebhookEffect, MoneyConserved, CreditedOnce, OutboxMatches, RowsUnique, LedgerBalanced;
  }

  lemma EmptyIsPenniless()
    ensures Penniless(Start(EmptyDb(false)).db)
  {
  }

  lemma PennilessNext(s: Sys, a: Action)
    requires Safe(s) && Penniless(s.db)
    ensures Penniless(Next(s, a).db)
  {
    hide TwoPhase, Inv, Next, Apply, Penniless;
    OnlyCommitsWrite(s, a);
    if Next(s, a).db != s.db {
      NamedIsSafe(s, a.i);
      PennilessStep(s.db, s.procs[a.i].prog);
    }
  }
}
