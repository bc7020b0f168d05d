/** Every interleaving leaves the tables of some one-at-a-time execution: the one in commit order. */
module Serializability {
  import opened Base
  import opened Tables
  import opened Programs
  import opened Interleaving
  import opened Isolation
  import opened Alone

  // ---- The invariant of two-phase locking ----

  /** Running now and alone, the call would be exactly where it is. */
  ghost predicate InStep(db: Db, q: Proc) {
    q.Running? ==>
      && q.local.pc <= Length(q.prog)
      && Started(db, q.prog)
      && Replay(db, q.prog, q.local.pc) == Ok(q.local)
  }

  ghost predicate Exclusive(a: Proc, b: Proc) {
    a.Running? && b.Running? ==> Disjoint(a.local.held, b.local.held)
  }

  ghost predicate TwoPhase(s: Sys) {
    && (forall i :: 0 <= i < |s.procs| ==> InStep(s.db, s.procs[i]))
    && (forall i, j :: 0 <= i < |s.procs| && 0 <= j < |s.procs| && i != j ==> Exclusive(s.procs[i], s.procs[j]))
  }

  lemma ExclusiveSymmetric(a: Proc, b: Proc)
    requires Exclusive(a, b)
    ensures Exclusive(b, a)
  {
  }

  /** Replacing one process keeps the invariant if the new one is in step and exclusive with the others. */
  lemma ReplaceProc(s: Sys, i: nat, q: Proc)
    requires TwoPhase(s) && i < |s.procs| && InStep(s.db, q)
    requires forall j :: 0 <= j < |s.procs| && j != i ==> Exclusive(q, s.procs[j])
    ensures TwoPhase(s.(procs := s.procs[i := q]))
  {
    hide InStep, Exclusive;
    var procs := s.procs[i := q];
    forall a, b | 0 <= a < |procs| && 0 <= b < |procs| && a != b ensures Exclusive(procs[a], procs[b]) {
      if b == i {
        ExclusiveSymmetric(q, s.procs[a]);
      }
    }
  }

  lemma SpawnKeeps(s: Sys, p: Program)
    requires TwoPhase(s) && MaySpawn(s.db, p)
    ensures TwoPhase(s.(procs := s.procs + [Running(p, FRESH)]))
  {
    var q := Running(p, FRESH);
    assert InStep(s.db, q);
    hide InStep;
  }

  /** A granted lock conflicts with nobody's. */
  lemma GrantedIsExclusive(s: Sys, i: nat, j: nat, m: Local)
    requires TwoPhase(s) && CanAdvance(s, i) && j < |s.procs| && j != i
    requires var Running(p, l) := s.procs[i];
             l.pc < Length(p) && m.held == l.held + NeedSet(View(s.db, l.pend), p, l)
    ensures Exclusive(Running(s.procs[i].prog, m), s.procs[j])
  {
    hide InStep, Want;
    var Running(p, l) := s.procs[i];
    if s.procs[j].Running? {
      assert Exclusive(s.procs[i], s.procs[j]);
      forall x, y | x in m.held && y in s.procs[j].local.held ensures !Conflict(x, y) {
        if x !in l.held {
          assert NeedOf(s, i) == Some(x);
          assert !Holds(s, j, x);
        }
      }
    }
  }

  lemma AdvanceKeeps(s: Sys, i: nat)
    requires TwoPhase(s) && CanAdvance(s, i) && s.procs[i].local.pc < Length(s.procs[i].prog)
    ensures TwoPhase(AdvanceProc(s, i))
  {
    hide Body, Want;
    var Running(p, l) := s.procs[i];
    assert InStep(s.db, s.procs[i]);
    var r := Execute(View(s.db, l.pend), p, l);
    assert r == Replay(s.db, p, l.pc + 1);
    match r
    case Err(e) => ReplaceProc(s, i, Aborted(p, e));
    case Ok(m) =>
      forall j | 0 <= j < |s.procs| && j != i ensures Exclusive(Running(p, m), s.procs[j]) {
        GrantedIsExclusive(s, i, j, m);
      }
      ReplaceProc(s, i, Running(p, m));
  }

  /** A commit moves the tables exactly as the specification of the call says. */
  lemma CommitIsApply(s: Sys, i: nat)
    requires TwoPhase(s) && Live(s, i) && s.procs[i].local.pc == Length(s.procs[i].prog)
    ensures Apply(s.db, s.procs[i].prog) == Ok(View(s.db, s.procs[i].local.pend))
  {
    hide Apply, Replay;
    assert InStep(s.db, s.procs[i]);
    RunsAsSpecified(s.db, s.procs[i].prog);
  }

  /** A call that fails would fail the same way if it ran alone at that moment. */
  lemma AbortIsApply(s: Sys, i: nat, e: Error)
    requires TwoPhase(s) && CanAdvance(s, i) && s.procs[i].local.pc < Length(s.procs[i].prog)
    requires AdvanceProc(s, i).procs[i] == Aborted(s.procs[i].prog, e)
    ensures Apply(s.db, s.procs[i].prog) == Err(e)
  {
    hide Apply, Body, Want;
    var Running(p, l) := s.procs[i];
    assert InStep(s.db, s.procs[i]);
    assert Replay(s.db, p, l.pc + 1) == Err(e);
    Fails(s.db, p, l.pc + 1, e);
    RunsAsSpecified(s.db, p);
  }

  /** Another call's commit leaves a running call in step: its locks keep what it has read. */
  lemma CommitKeepsOthers(s: Sys, i: nat, j: nat)
    requires TwoPhase(s) && Live(s, i) && j < |s.procs| && i != j
    ensures InStep(View(s.db, s.procs[i].local.pend), s.procs[j])
    ensures Grows(s.db, View(s.db, s.procs[i].local.pend))
  {
    hide Replay, Shape;
    var Running(p, l) := s.procs[i];
    assert InStep(s.db, s.procs[i]) && InStep(s.db, s.procs[j]) && Exclusive(s.procs[i], s.procs[j]);
    ReplayShape(s.db, p, l.pc);
    if s.procs[j].Running? {
      var Running(p', l') := s.procs[j];
      DisjointAgree(s.db, View(s.db, l.pend), l.held, l'.held);
      ReplayFrame(s.db, View(s.db, l.pend), p', l'.pc);
    }
  }

  lemma CommitKeeps(s: Sys, i: nat)
    requires TwoPhase(s) && CanAdvance(s, i) && s.procs[i].local.pc == Length(s.procs[i].prog)
    ensures TwoPhase(AdvanceProc(s, i))
  {
    hide InStep, Exclusive;
    var Running(p, l) := s.procs[i];
    var t := AdvanceProc(s, i);
    forall j | 0 <= j < |t.procs| ensures InStep(t.db, t.procs[j]) {
      if j == i {
        FinishedInStep(t.db, p);
      } else {
        CommitKeepsOthers(s, i, j);
      }
    }
    forall a, b | 0 <= a < |t.procs| && 0 <= b < |t.procs| && a != b ensures Exclusive(t.procs[a], t.procs[b]) {
      if a == i || b == i {
        FinishedExclusive(t.procs[a], t.procs[b]);
      }
    }
  }

  lemma FinishedInStep(db: Db, p: Program)
    ensures InStep(db, Finished(p))
  {
  }

  lemma FinishedExclusive(a: Proc, b: Proc)
    requires !a.Running? || !b.Running?
    ensures Exclusive(a, b)
  {
  }

  lemma NextKeepsTwoPhase(s: Sys, a: Action)
    requires TwoPhase(s)
    ensures TwoPhase(Next(s, a))
  {
    hide InStep, Exclusive, Body, Want;
    match a
    case Spawn(p) => if MaySpawn(s.db, p) { SpawnKeeps(s, p); }
    case Advance(i) =>
      if CanAdvance(s, i) {
        PcInRange(s, i);
        if s.procs[i].local.pc < Length(s.procs[i].prog) { AdvanceKeeps(s, i); } else { CommitKeeps(s, i); }
      }
    case Crash(i) =>
      if Live(s, i) {
        var q := Aborted(s.procs[i].prog, ConnectionLost);
        AbortedFits(s, i, q);
        ReplaceProc(s, i, q);
      }
  }

  lemma AbortedFits(s: Sys, i: nat, q: Proc)
    requires i < |s.procs| && q.Aborted?
    ensures InStep(s.db, q)
    ensures forall j :: 0 <= j < |s.procs| && j != i ==> Exclusive(q, s.procs[j])
  {
  }

  lemma PcInRange(s: Sys, i: nat)
    requires TwoPhase(s) && Live(s, i)
    ensures s.procs[i].local.pc <= Length(s.procs[i].prog)
  {
    assert InStep(s.db, s.procs[i]);
  }

  // ---- Serializability ----

  /** How many of the processes running p have committed. */
  function CommitsOf(procs: seq<Proc>, p: Program): nat {
    if procs == [] then 0
    else CommitsOf(procs[..|procs| - 1], p) + if procs[|procs| - 1] == Finished(p) then 1 else 0
  }

  /** How often p stands in the commit log. */
  function Logged(log: seq<Program>, p: Program): nat {
    if log == [] then 0
    else Logged(log[..|log| - 1], p) + if log[|log| - 1] == p then 1 else 0
  }

  lemma {:induction false} CommitsUpdate(procs: seq<Proc>, i: nat, q: Proc, p: Program)
    requires i < |procs| && !procs[i].Finished?
    ensures CommitsOf(procs[i := q], p) == CommitsOf(procs, p) + if q == Finished(p) then 1 else 0
  {
    var n := |procs| - 1;
    if i == n {
      assert procs[i := q][..n] == procs[..n];
    } else {
      assert procs[i := q][..n] == procs[..n][i := q];
      CommitsUpdate(procs[..n], i, q, p);
    }
  }

  /** The committed tables are those of the committed calls run one at a time, in commit order. */
  ghost predicate Serial(db0: Db, s: Sys) {
    && ApplyAll(db0, s.log) == Some(s.db)
    && forall p :: Logged(s.log, p) == CommitsOf(s.procs, p)
  }

  lemma NextKeepsCounts(s: Sys, a: Action, p: Program)
    requires Logged(s.log, p) == CommitsOf(s.procs, p)
    ensures Logged(Next(s, a).log, p) == CommitsOf(Next(s, a).procs, p)
  {
    hide Execute, Need, CommitsOf, Logged;
    match a
    case Spawn(r) => CommitsAppend(s.procs, Running(r, FRESH), p);
    case Advance(i) =>
      if CanAdvance(s, i) {
        CommitsUpdate(s.procs, i, AdvanceProc(s, i).procs[i], p);
        LoggedAppend(s.log, s.procs[i].prog, p);
      }
    case Crash(i) =>
      if Live(s, i) {
        CommitsUpdate(s.procs, i, Aborted(s.procs[i].prog, ConnectionLost), p);
      }
  }

  lemma CommitsAppend(procs: seq<Proc>, q: Proc, p: Program)
    ensures CommitsOf(procs + [q], p) == CommitsOf(procs, p) + if q == Finished(p) then 1 else 0
  {
    assert (procs + [q])[..|procs|] == procs;
  }

  lemma LoggedAppend(log: seq<Program>, q: Program, p: Program)
    ensures Logged(log + [q], p) == Logged(log, p) + if q == p then 1 else 0
  {
    assert (log + [q])[..|log|] == log;
  }

  lemma ApplyAllAppend(db0: Db, ps: seq<Program>, p: Program)
    requires ApplyAll(db0, ps).Some? && Apply(ApplyAll(db0, ps).value, p).Ok?
    ensures ApplyAll(db0, ps + [p]) == Some(Apply(ApplyAll(db0, ps).value, p).value)
  {
    assert (ps + [p])[..|ps|] == ps;
  }

  lemma NextKeepsHistory(db0: Db, s: Sys, a: Action)
    requires TwoPhase(s) && ApplyAll(db0, s.log) == Some(s.db)
    ensures ApplyAll(db0, Next(s, a).log) == Some(Next(s, a).db)
  {
    OnlyCommitsWrite(s, a);
    hide TwoPhase, Execute, Need, Apply;
    if a.Advance? && CanAdvance(s, a.i) {
      PcInRange(s, a.i);
      if s.procs[a.i].local.pc == Length(s.procs[a.i].prog) {
        CommitIsApply(s, a.i);
        ApplyAllAppend(db0, s.log, s.procs[a.i].prog);
      }
    }
  }

  lemma NextKeepsSerial(db0: Db, s: Sys, a: Action)
    requires TwoPhase(s) && Serial(db0, s)
    ensures Serial(db0, Next(s, a))
  {
    hide TwoPhase, Next;
    NextKeepsHistory(db0, s, a);
    forall p ensures Logged(Next(s, a).log, p) == CommitsOf(Next(s, a).procs, p) {
      NextKeepsCounts(s, a, p);
    }
  }

  /** Any schedule, of any number of calls, with any crashes, from any tables. */
  lemma {:induction false} RunIsSerial(db0: Db, actions: seq<Action>)
    ensures TwoPhase(Run(Start(db0), actions))
    ensures Serial(db0, Run(Start(db0), actions))
  {
    hide TwoPhase, Next;
    if actions == [] {
      StartIsSerial(db0);
    } else {
      var n := |actions| - 1;
      RunIsSerial(db0, actions[..n]);
      var s := Run(Start(db0), actions[..n]);
      NextKeepsTwoPhase(s, actions[n]);
      NextKeepsSerial(db0, s, actions[n]);
    }
  }

  lemma StartIsSerial(db0: Db)
    ensures TwoPhase(Start(db0)) && Serial(db0, Start(db0))
  {
  }

  /** Serializability: whatever the schedule, the committed tables are those of running the committed
      calls one at a time in commit order; calls that aborted or are still running have left no trace. */
  lemma Serializable(s: Sys)
    requires Reachable(s)
    ensures exists ext :: ApplyAll(EmptyDb(ext), s.log) == Some(s.db)
    ensures forall p :: Logged(s.log, p) == CommitsOf(s.procs, p)
  {
    var ext: bool, actions: seq<Action> :| s == Run(Start(EmptyDb(ext)), actions);
    hide *;
    SerialUnfold(EmptyDb(ext), actions);
  }

  lemma SerialUnfold(db0: Db, actions: seq<Action>)
    ensures var s := Run(Start(db0), actions);
            TwoPhase(s) && ApplyAll(db0, s.log) == Some(s.db) && (forall p :: Logged(s.log, p) == CommitsOf(s.procs, p))
  {
    RunIsSerial(db0, actions);
  }

  /** Only a commit changes the tables; every other step, and every abort, leaves them as they are. */
  lemma OnlyCommitsWrite(s: Sys, a: Action)
    requires TwoPhase(s)
    ensures Next(s, a).db == s.db ||
            (a.Advance? && Live(s, a.i) && Next(s, a).procs[a.i] == Finished(s.procs[a.i].prog)
             && Apply(s.db, s.procs[a.i].prog) == Ok(Next(s, a).db) && Next(s, a).log == s.log + [s.procs[a.i].prog])
  {
    hide InStep, Exclusive, Body, Want, Apply;
    if a.Advance? && CanAdvance(s, a.i) {
      PcInRange(s, a.i);
      if s.procs[a.i].local.pc == Length(s.procs[a.i].prog) {
        CommitIsApply(s, a.i);
      }
    }
  }
}
