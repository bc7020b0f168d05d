/** No deadlock, and a bound on how long any set of calls can run. */
module Progress {
  import opened Base
  import opened Tables
  import opened Programs
  import opened Interleaving
  import opened Isolation
  import opened Serializability
  import Safety

  // ---- One global lock order ----

  function Class(lock: Lock): nat {
    match lock
    case IdemRow(_) => 0
    case HookRow(_) => 1
    case PaymentRow(_) => 2
    case ReferenceRow(_) => 3
    case AccountRow(_) => 4
    case WalletRow(_, _) => 5
    case TransferRow(_) => 6
    case LedgerRow(_) => 7
  }

  /** Classes in order; within the wallets, ascending ids. */
  predicate Before(a: Lock, b: Lock) {
    Class(a) < Class(b) || (a.WalletRow? && b.WalletRow? && a.wid < b.wid)
  }

  function When(c: bool, lock: Lock): set<Lock> {
    if c then {lock} else {}
  }

  /** Exactly the locks a call has at each statement. */
  function HeldAt(p: Program, l: Local): set<Lock>
    requires p.RunWebhook? && l.pc >= 2 ==> l.found.Some?
  {
    match p
    case RunTransfer(_, _, _, _, _, tid, lid) =>
      When(l.pc >= 2, WalletRow(FirstLock(p), ForUpdate)) + When(l.pc >= 3, WalletRow(SecondLock(p), ForUpdate))
      + When(l.pc >= 7, TransferRow(tid)) + When(l.pc >= 8, LedgerRow(lid))
    case RunWebhook(hook, _, status, lid) =>
      When(l.pc >= 1, HookRow(hook))
      + (if l.pc < 2 then {}
         else
           When(true, PaymentRow(l.found.value.pid))
           + When(l.pc >= 5 && status == Succeeded, WalletRow(l.found.value.payment.wallet, NoKeyUpdate))
           + When(l.pc >= 6 && status == Succeeded, LedgerRow(lid)))
    case CreateWallet(wid, aid, _, _, _) => When(l.pc >= 1, AccountRow(aid)) + When(l.pc >= 2, WalletRow(wid, ForUpdate))
    case CreatePayment(pid, wallet, _, _, _, reference) =>
      When(l.pc >= 1, PaymentRow(pid)) + When(l.pc >= 2, ReferenceRow(reference)) + When(l.pc >= 3, WalletRow(wallet, KeyShare))
    case SetStatus(wid, _) => When(l.pc >= 1, WalletRow(wid, NoKeyUpdate))
    case AcquireKey(key, _) => When(l.pc >= 1, IdemRow(key))
    case CompleteKey(key, _, _) => When(l.pc >= 1, IdemRow(key))
  }

  predicate HeldShape(p: Program, l: Local) {
    (p.RunWebhook? && l.pc >= 2 ==> l.found.Some?) && l.held == HeldAt(p, l)
  }

  lemma HeldStep(v: Db, p: Program, l: Local, m: Local)
    requires l.pc < Length(p) && Shape(v, p, l) && HeldShape(p, l) && Execute(v, p, l) == Ok(m)
    ensures HeldShape(p, m)
  {
    if p.RunTransfer? {
      TransferHeldStep(v, p, l, m);
    } else if p.RunWebhook? {
      WebhookHeldStep(v, p, l, m);
    }
  }

  lemma TransferHeldStep(v: Db, p: Program, l: Local, m: Local)
    requires p.RunTransfer? && l.pc < Length(p) && Shape(v, p, l) && HeldShape(p, l) && Execute(v, p, l) == Ok(m)
    ensures HeldShape(p, m)
  {
    TransferVariables(v, p, l);
    hide BalanceStatement, LedgerStatement, EntriesStatement, InsertTransferError, HasTransfer, HasLedgerTxn;
  }

  lemma TransferVariables(v: Db, p: Program, l: Local)
    requires p.RunTransfer? && Execute(v, p, l).Ok?
    ensures Execute(v, p, l).value.held == l.held + NeedSet(v, p, l) && Execute(v, p, l).value.pc == l.pc + 1
    ensures l.pc == 1 ==> FirstLock(p) in v.wallets
    ensures l.pc == 2 ==> SecondLock(p) in v.wallets
  {
  }

  lemma WebhookHeldStep(v: Db, p: Program, l: Local, m: Local)
    requires p.RunWebhook? && l.pc < Length(p) && Shape(v, p, l) && HeldShape(p, l) && Execute(v, p, l) == Ok(m)
    ensures HeldShape(p, m)
  {
    WebhookVariables(v, p, l);
    hide WebhookBody;
  }

  lemma WebhookVariables(v: Db, p: Program, l: Local)
    requires p.RunWebhook? && Execute(v, p, l).Ok?
    ensures Execute(v, p, l).value.held == l.held + NeedSet(v, p, l) && Execute(v, p, l).value.pc == l.pc + 1
    ensures l.pc == 1 ==>
              FindPayment(v, p.reference).Some? && Execute(v, p, l).value.found.Some?
              && Execute(v, p, l).value.found.value.pid == FindPayment(v, p.reference).value
    ensures l.pc > 1 ==> Execute(v, p, l).value.found == l.found
  {
  }

  lemma {:induction false} ReplayHeld(db: Db, p: Program, n: nat)
    requires n <= Length(p) && Started(db, p) && Replay(db, p, n).Ok?
    ensures HeldShape(p, Replay(db, p, n).value)
  {
    hide Body, Want, HeldShape, Shape;
    if n == 0 {
      FreshHeld(p);
    } else {
      ReplayStep(db, p, n);
      ReplayHeld(db, p, n - 1);
      ReplayShape(db, p, n - 1);
      var l := Replay(db, p, n - 1).value;
      HeldStep(View(db, l.pend), p, l, Replay(db, p, n).value);
    }
  }

  lemma FreshHeld(p: Program)
    ensures HeldShape(p, FRESH)
  {
  }

  /** Whatever a call waits for comes after everything it holds. */
  lemma WaitsUpwards(v: Db, p: Program, l: Local, h: Lock)
    requires l.pc < Length(p) && Shape(v, p, l) && HeldShape(p, l) && Need(v, p, l).Some? && h in l.held
    ensures Before(h, Need(v, p, l).value)
  {
    hide Body;
  }

  /** Conflicting locks are at the same place in the order. */
  lemma ConflictSamePlace(h: Lock, x: Lock, y: Lock)
    requires Conflict(h, x) && Before(h, y)
    ensures Before(x, y)
  {
  }

  lemma WaiterOrdered(s: Sys, i: nat, h: Lock)
    requires TwoPhase(s) && Live(s, i) && NeedOf(s, i).Some? && h in s.procs[i].local.held
    ensures Before(h, NeedOf(s, i).value)
  {
    hide Body, Want, HeldShape, Shape;
    var Running(p, l) := s.procs[i];
    assert InStep(s.db, s.procs[i]);
    ReplayShape(s.db, p, l.pc);
    ReplayHeld(s.db, p, l.pc);
    WaitsUpwards(View(s.db, l.pend), p, l, h);
  }

  predicate AllBlocked(s: Sys, n: nat) {
    forall i :: 0 <= i < n && Live(s, i) ==> Blocked(s, i)
  }

  /** Among blocked calls, one waits for a lock that no other waits beyond. */
  lemma HighestWaiter(s: Sys, n: nat, i: nat) returns (k: nat)
    requires n <= |s.procs| && AllBlocked(s, n) && i < n && Live(s, i)
    ensures k < n && Live(s, k)
    ensures forall j :: 0 <= j < n && Live(s, j) ==> !Before(NeedOf(s, k).value, NeedOf(s, j).value)
  {
    hide NeedOf, Before, Holds;
    if exists j :: 0 <= j < n - 1 && Live(s, j) {
      var j :| 0 <= j < n - 1 && Live(s, j);
      k := HighestWaiter(s, n - 1, j);
      if Live(s, n - 1) && Before(NeedOf(s, k).value, NeedOf(s, n - 1).value) {
        forall j | 0 <= j < n && Live(s, j) ensures !Before(NeedOf(s, n - 1).value, NeedOf(s, j).value) {
          if j == n - 1 {
            BeforeIrreflexive(NeedOf(s, j).value);
          } else if Before(NeedOf(s, n - 1).value, NeedOf(s, j).value) {
            BeforeTransitive(NeedOf(s, k).value, NeedOf(s, n - 1).value, NeedOf(s, j).value);
          }
        }
        k := n - 1;
      }
    } else {
      k := i;
      BeforeIrreflexive(NeedOf(s, i).value);
    }
  }

  lemma BeforeIrreflexive(a: Lock)
    ensures !Before(a, a)
  {
  }

  lemma BeforeTransitive(a: Lock, b: Lock, c: Lock)
    requires Before(a, b) && Before(b, c)
    ensures Before(a, c)
  {
  }

  /** Deadlock freedom: while any call is running, some call can take its next step. */
  lemma SomeoneCanAdvance(s: Sys, i: nat) returns (j: nat)
    requires TwoPhase(s) && Live(s, i)
    ensures CanAdvance(s, j)
  {
    hide InStep, Exclusive, NeedOf, Before;
    if j' :| 0 <= j' < |s.procs| && CanAdvance(s, j') {
      j := j';
    } else {
      forall a | 0 <= a < |s.procs| && Live(s, a) ensures Blocked(s, a) {
        assert !CanAdvance(s, a);
      }
      var k := HighestWaiter(s, |s.procs|, i);
      assert Blocked(s, k);
      var x := NeedOf(s, k).value;
      var b :| 0 <= b < |s.procs| && b != k && Holds(s, b, x);
      var h :| h in s.procs[b].local.held && Conflict(h, x);
      assert Blocked(s, b);
      WaiterOrdered(s, b, h);
      ConflictSamePlace(h, x, NeedOf(s, b).value);
      assert false;
    }
  }

  // ---- Termination ----

  /** Statements a process still has to run, the commit included. */
  function Left(q: Proc): nat {
    if q.Running? && q.local.pc <= Length(q.prog) then Length(q.prog) + 1 - q.local.pc else 0
  }

  function Work(procs: seq<Proc>): nat {
    if procs == [] then 0 else Work(procs[..|procs| - 1]) + Left(procs[|procs| - 1])
  }

  lemma {:induction false} WorkUpdate(procs: seq<Proc>, i: nat, q: Proc)
    requires i < |procs|
    ensures Work(procs[i := q]) == Work(procs) - Left(procs[i]) + Left(q)
  {
    var n := |procs| - 1;
    if i == n {
      assert procs[i := q][..n] == procs[..n];
    } else {
      assert procs[i := q][..n] == procs[..n][i := q];
      WorkUpdate(procs[..n], i, q);
    }
  }

  /** Every step that is not a new call does some of the remaining work. */
  lemma StepDoesWork(s: Sys, a: Action)
    requires TwoPhase(s) && !a.Spawn?
    ensures Next(s, a) != s ==> Work(Next(s, a).procs) < Work(s.procs)
    ensures Next(s, a) == s ==> Work(Next(s, a).procs) == Work(s.procs)
    ensures a.Advance? && CanAdvance(s, a.i) ==> Work(Next(s, a).procs) < Work(s.procs)
  {
    hide InStep, Exclusive, Body, Need;
    if a.Advance? && CanAdvance(s, a.i) {
      PcInRange(s, a.i);
      WorkUpdate(s.procs, a.i, AdvanceProc(s, a.i).procs[a.i]);
    } else if a.Crash? && Live(s, a.i) {
      PcInRange(s, a.i);
      WorkUpdate(s.procs, a.i, Aborted(s.procs[a.i].prog, ConnectionLost));
    }
  }

  /** How many actions of a schedule had an effect. */
  function Effective(s: Sys, actions: seq<Action>): nat {
    if actions == [] then 0
    else
      var before := Run(s, actions[..|actions| - 1]);
      Effective(s, actions[..|actions| - 1]) + if Next(before, actions[|actions| - 1]) != before then 1 else 0
  }

  /** With no new calls, a schedule takes no more steps than there is work. */
  lemma {:induction false} BoundedSteps(s: Sys, actions: seq<Action>)
    requires TwoPhase(s) && forall i :: 0 <= i < |actions| ==> !actions[i].Spawn?
    ensures TwoPhase(Run(s, actions))
    ensures Effective(s, actions) + Work(Run(s, actions).procs) <= Work(s.procs)
  {
    hide TwoPhase, Next;
    if actions != [] {
      var n := |actions| - 1;
      BoundedSteps(s, actions[..n]);
      NextKeepsTwoPhase(Run(s, actions[..n]), actions[n]);
      StepDoesWork(Run(s, actions[..n]), actions[n]);
    }
  }

  lemma {:induction false} RunFirst(s: Sys, a: Action, rest: seq<Action>)
    ensures Run(s, [a] + rest) == Run(Next(s, a), rest)
  {
    hide Next;
    if rest == [] {
      assert [a] + rest == [a];
      assert [a][..0] == [];
    } else {
      var n := |rest| - 1;
      assert ([a] + rest)[..|rest|] == [a] + rest[..n];
      RunFirst(s, a, rest[..n]);
    }
  }

  /** From any state, letting calls advance alone brings all of them to an end, within the remaining work. */
  lemma {:induction false} AllCanFinish(s: Sys) returns (actions: seq<Action>)
    requires TwoPhase(s)
    ensures forall i :: 0 <= i < |actions| ==> actions[i].Advance?
    ensures |actions| <= Work(s.procs)
    ensures forall i :: !Live(Run(s, actions), i)
    decreases Work(s.procs)
  {
    hide InStep, Exclusive, Next, Blocked;
    actions := [];
    if i :| 0 <= i < |s.procs| && Live(s, i) {
      var j := SomeoneCanAdvance(s, i);
      NextKeepsTwoPhase(s, Advance(j));
      StepDoesWork(s, Advance(j));
      var rest := AllCanFinish(Next(s, Advance(j)));
      actions := [Advance(j)] + rest;
      RunFirst(s, Advance(j), rest);
    }
  }

  // ---- In every reachable state ----

  /** No deadlock: while any call is running, some call can take its next step. */
  lemma NeverStuck(s: Sys, i: nat) returns (j: nat)
    requires Reachable(s) && Live(s, i)
    ensures CanAdvance(s, j)
  {
    Safety.ReachableIsSafe(s);
    hide Reachable, TwoPhase, Blocked;
    j := SomeoneCanAdvance(s, i);
  }

  /** Termination: without new calls, any schedule has at most as many effective steps as there are statements left,
      and some schedule of no more steps brings every call to its end. */
  lemma EverythingEnds(s: Sys, actions: seq<Action>) returns (finish: seq<Action>)
    requires Reachable(s) && forall i :: 0 <= i < |actions| ==> !actions[i].Spawn?
    ensures Effective(s, actions) <= Work(s.procs)
    ensures |finish| <= Work(s.procs) && (forall i :: 0 <= i < |finish| ==> finish[i].Advance?)
    ensures forall i :: !Live(Run(s, finish), i)
  {
    Safety.ReachableIsSafe(s);
    hide Reachable, TwoPhase, Run, Effective, Work;
    BoundedSteps(s, actions);
    finish := AllCanFinish(s);
  }

  /** In every reachable state, a running call holds exactly the locks of the statements it has run. */
  lemma LocksHeld(s: Sys, i: nat)
    requires Reachable(s) && Live(s, i)
    ensures var Running(p, l) := s.procs[i];
            l.pc <= Length(p) && (p.RunWebhook? && l.pc >= 2 ==> l.found.Some?) && l.held == HeldAt(p, l)
  {
    Safety.ReachableIsSafe(s);
    hide Reachable, HeldAt, Replay;
    assert InStep(s.db, s.procs[i]);
    ReplayHeld(s.db, s.procs[i].prog, s.procs[i].local.pc);
  }

  /** Postgres' table of row locks, for the three modes that occur: two locks on one wallet go together iff neither is
      FOR UPDATE and one is only a key share. Everything else excludes itself. */
  lemma ConflictTable(a: Lock, b: Lock)
    ensures a.WalletRow? && b.WalletRow? ==>
              (Conflict(a, b) <==>
                 a.wid == b.wid && !(a.mode != ForUpdate && b.mode != ForUpdate && (a.mode == KeyShare || b.mode == KeyShare)))
    ensures !(a.WalletRow? && b.WalletRow?) ==> (Conflict(a, b) <==> a == b)
  {
  }

  /** No call has more than eleven steps. */
  lemma {:induction false} WorkBound(procs: seq<Proc>)
    ensures Work(procs) <= 11 * |procs|
  {
    if procs != [] {
      WorkBound(procs[..|procs| - 1]);
    }
  }
}
