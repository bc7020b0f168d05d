/**
 * The repository's concurrency test, for all inputs: any number of transfers over any wallets,
 * under any schedule, all commit if the starting balances cover them, and the result does not
 * depend on the order.
 */
module CoveredTransfers {
  import opened Base
  import opened Tables
  import opened Programs
  import opened Interleaving
  import opened Isolation
  import opened Serializability
  import opened Progress

  /** What one process takes out of (or brings into) a wallet; with done, only if it has committed. */
  function Term(q: Proc, w: Id, incoming: bool, done: bool): nat {
    if !q.prog.RunTransfer? || q.prog.amount <= 0 || (done && !q.Finished?) then 0
    else if (if incoming then q.prog.destination else q.prog.source) == w then q.prog.amount
    else 0
  }

  function Flow(procs: seq<Proc>, w: Id, incoming: bool, done: bool): nat {
    if procs == [] then 0
    else Flow(procs[..|procs| - 1], w, incoming, done) + Term(procs[|procs| - 1], w, incoming, done)
  }

  lemma {:induction false} FlowUpdate(procs: seq<Proc>, i: nat, q: Proc, w: Id, incoming: bool, done: bool)
    requires i < |procs|
    ensures Flow(procs[i := q], w, incoming, done)
            == Flow(procs, w, incoming, done) - Term(procs[i], w, incoming, done) + Term(q, w, incoming, done)
  {
    var n := |procs| - 1;
    if i == n {
      assert procs[i := q][..n] == procs[..n];
    } else {
      assert procs[i := q][..n] == procs[..n][i := q];
      FlowUpdate(procs[..n], i, q, w, incoming, done);
    }
  }

  /** What is done leaves room for every process that is not. */
  lemma {:induction false} FlowRoom(procs: seq<Proc>, i: nat, w: Id, incoming: bool)
    requires i <= |procs| && (i < |procs| ==> !procs[i].Finished?)
    ensures Flow(procs, w, incoming, true) + (if i < |procs| then Term(procs[i], w, incoming, false) else 0)
            <= Flow(procs, w, incoming, false)
  {
    var n := |procs| - 1;
    if procs != [] {
      FlowRoom(procs[..n], if i < n then i else n, w, incoming);
    }
  }

  lemma {:induction false} FlowAllDone(procs: seq<Proc>, w: Id, incoming: bool)
    requires forall i :: 0 <= i < |procs| ==> procs[i].Finished?
    ensures Flow(procs, w, incoming, true) == Flow(procs, w, incoming, false)
  {
    if procs != [] {
      FlowAllDone(procs[..|procs| - 1], w, incoming);
    }
  }

  /** A well-formed transfer between active wallets of its currency, with its key acquired. */
  predicate Proper(db: Db, p: Program) {
    && p.RunTransfer? && p.source != p.destination && p.amount > 0
    && p.key in db.keys
    && Usable(db, p.source, p.currency) && Usable(db, p.destination, p.currency)
  }

  predicate Usable(db: Db, w: Id, currency: string) {
    w in db.wallets && db.wallets[w].status == Active && db.wallets[w].currency == currency && db.wallets[w].account in db.accounts
  }

  predicate Waiting(q: Proc) {
    q.Running? && q.local == FRESH
  }

  /** Calls with ids of their own, none of them in use yet. */
  predicate OwnIds(db: Db, procs: seq<Proc>) {
    && (forall i, j :: 0 <= i < |procs| && 0 <= j < |procs| && i != j && procs[i].prog.RunTransfer? && procs[j].prog.RunTransfer? ==>
          procs[i].prog.tid != procs[j].prog.tid && procs[i].prog.lid != procs[j].prog.lid)
    && (forall i :: 0 <= i < |procs| && procs[i].prog.RunTransfer? && !procs[i].Finished? ==>
          !HasTransfer(db, procs[i].prog.tid) && !HasLedgerTxn(db, procs[i].prog.lid))
  }

  /** Every wallet's starting balance covers everything requested out of it, and has room for what comes in. */
  ghost predicate Covered(db0: Db, procs: seq<Proc>) {
    && (forall i :: 0 <= i < |procs| ==> Proper(db0, procs[i].prog))
    && OwnIds(db0, procs)
    && (forall w :: w in db0.wallets ==>
          && db0.wallets[w].available >= Flow(procs, w, false, false)
          && db0.wallets[w].available + Flow(procs, w, true, false) <= MAX_INT64)
  }

  /** Balances so far: start, minus what has gone out, plus what has come in. */
  ghost predicate OnTrack(db0: Db, s: Sys) {
    && (forall i :: 0 <= i < |s.procs| ==> !s.procs[i].Aborted? && Proper(s.db, s.procs[i].prog))
    && OwnIds(s.db, s.procs)
    && s.db.wallets.Keys == db0.wallets.Keys
    && (forall w :: w in db0.wallets ==>
          s.db.wallets[w].available
          == db0.wallets[w].available - Flow(s.procs, w, false, true) + Flow(s.procs, w, true, true))
    && (forall w :: w in db0.wallets ==>
          && db0.wallets[w].available >= Flow(s.procs, w, false, false)
          && db0.wallets[w].available + Flow(s.procs, w, true, false) <= MAX_INT64)
  }

  /** Whatever has happened so far, no unfinished transfer could be refused now. */
  lemma NeverRefused(db0: Db, s: Sys, i: nat)
    requires OnTrack(db0, s) && i < |s.procs| && !s.procs[i].Finished?
    ensures s.procs[i].prog.RunTransfer? && TransferError(s.db, s.procs[i].prog).None?
  {
    var p := s.procs[i].prog;
    assert Proper(s.db, p);
    FlowRoom(s.procs, i, p.source, false);
    FlowRoom(s.procs, |s.procs|, p.source, true);
    FlowRoom(s.procs, i, p.destination, true);
    FlowRoom(s.procs, |s.procs|, p.destination, false);
    assert s.db.wallets[p.source].available >= p.amount;
  }

  lemma ProperStays(db: Db, p: Program, q: Program)
    requires Proper(db, p) && Proper(db, q) && TransferError(db, q).None?
    ensures Proper(TransferEffect(db, q), p)
  {
  }

  lemma CommitOnTrack(db0: Db, s: Sys, i: nat)
    requires OnTrack(db0, s) && i < |s.procs| && !s.procs[i].Finished? && s.procs[i].prog.RunTransfer?
    requires TransferError(s.db, s.procs[i].prog).None?
    ensures OnTrack(db0, Sys(TransferEffect(s.db, s.procs[i].prog), s.procs[i := Finished(s.procs[i].prog)], s.log + [s.procs[i].prog]))
  {
    hide TransferEffect, TransferError, Proper, OwnIds, Flow;
    var p := s.procs[i].prog;
    var procs := s.procs[i := Finished(p)];
    CommitKeepsIds(s, i);
    forall j | 0 <= j < |procs| ensures !procs[j].Aborted? && Proper(TransferEffect(s.db, p), procs[j].prog) {
      ProperStays(s.db, s.procs[j].prog, p);
    }
    forall w | w in db0.wallets
      ensures TransferEffect(s.db, p).wallets[w].available == db0.wallets[w].available - Flow(procs, w, false, true) + Flow(procs, w, true, true)
      ensures db0.wallets[w].available >= Flow(procs, w, false, false)
      ensures db0.wallets[w].available + Flow(procs, w, true, false) <= MAX_INT64
    {
      CommitMovesBalance(db0, s, i, w);
    }
  }

  lemma CommitKeepsIds(s: Sys, i: nat)
    requires OwnIds(s.db, s.procs) && i < |s.procs| && !s.procs[i].Finished?
    requires s.procs[i].prog.RunTransfer? && TransferError(s.db, s.procs[i].prog).None?
    ensures OwnIds(TransferEffect(s.db, s.procs[i].prog), s.procs[i := Finished(s.procs[i].prog)])
    ensures TransferEffect(s.db, s.procs[i].prog).wallets.Keys == s.db.wallets.Keys
  {
    var p := s.procs[i].prog;
    var db := TransferEffect(s.db, p);
    assert db.transfers == s.db.transfers + [Transfer(p.tid, p.source, p.destination, p.amount, p.currency, p.key)];
    assert db.ledger == s.db.ledger + [LedgerTxn(p.lid, p.tid, TransferTxn)];
  }

  lemma CommitMovesBalance(db0: Db, s: Sys, i: nat, w: Id)
    requires OnTrack(db0, s) && i < |s.procs| && !s.procs[i].Finished? && w in db0.wallets
    requires s.procs[i].prog.RunTransfer? && TransferError(s.db, s.procs[i].prog).None?
    ensures var procs := s.procs[i := Finished(s.procs[i].prog)];
            var db := TransferEffect(s.db, s.procs[i].prog);
            && w in db.wallets
            && db.wallets[w].available == db0.wallets[w].available - Flow(procs, w, false, true) + Flow(procs, w, true, true)
            && Flow(procs, w, false, false) == Flow(s.procs, w, false, false)
            && Flow(procs, w, true, false) == Flow(s.procs, w, true, false)
  {
    hide OwnIds, Proper;
    var q := Finished(s.procs[i].prog);
    FlowUpdate(s.procs, i, q, w, false, true);
    FlowUpdate(s.procs, i, q, w, true, true);
    FlowUpdate(s.procs, i, q, w, false, false);
    FlowUpdate(s.procs, i, q, w, true, false);
  }

  /** A step that is not a commit keeps every sum. */
  lemma StatementOnTrack(db0: Db, s: Sys, i: nat, m: Local)
    requires OnTrack(db0, s) && i < |s.procs| && !s.procs[i].Finished?
    ensures OnTrack(db0, s.(procs := s.procs[i := Running(s.procs[i].prog, m)]))
  {
    hide Proper;
    var q := Running(s.procs[i].prog, m);
    forall w, incoming, done ensures Flow(s.procs[i := q], w, incoming, done) == Flow(s.procs, w, incoming, done) {
      FlowUpdate(s.procs, i, q, w, incoming, done);
    }
  }

  lemma AdvanceOnTrack(db0: Db, s: Sys, i: nat)
    requires TwoPhase(s) && OnTrack(db0, s) && CanAdvance(s, i)
    ensures OnTrack(db0, AdvanceProc(s, i))
  {
    hide TwoPhase, OnTrack, TransferError, TransferEffect, Execute, Need;
    PcInRange(s, i);
    NeverRefused(db0, s, i);
    var t := AdvanceProc(s, i);
    if s.procs[i].local.pc == Length(s.procs[i].prog) {
      CommitIsApply(s, i);
      CommitOnTrack(db0, s, i);
    } else if t.procs[i].Aborted? {
      AbortIsApply(s, i, t.procs[i].error);
      assert false;
    } else {
      StatementOnTrack(db0, s, i, t.procs[i].local);
    }
  }

  lemma {:induction false} StaysOnTrack(db0: Db, s: Sys, actions: seq<Action>)
    requires TwoPhase(s) && OnTrack(db0, s)
    requires forall i :: 0 <= i < |actions| ==> actions[i].Advance?
    ensures TwoPhase(Run(s, actions)) && OnTrack(db0, Run(s, actions))
    ensures |Run(s, actions).procs| == |s.procs|
    ensures forall i :: 0 <= i < |s.procs| ==> Run(s, actions).procs[i].prog == s.procs[i].prog
  {
    hide TwoPhase, OnTrack, Blocked, Execute, Need;
    if actions != [] {
      var n := |actions| - 1;
      StaysOnTrack(db0, s, actions[..n]);
      var t := Run(s, actions[..n]);
      NextKeepsTwoPhase(t, actions[n]);
      if CanAdvance(t, actions[n].i) {
        AdvanceOnTrack(db0, t, actions[n].i);
      }
    }
  }

  lemma StartsOnTrack(db0: Db, procs: seq<Proc>)
    requires Covered(db0, procs) && forall i :: 0 <= i < |procs| ==> Waiting(procs[i])
    ensures TwoPhase(Sys(db0, procs, [])) && OnTrack(db0, Sys(db0, procs, []))
  {
    StartsTwoPhase(db0, procs);
    hide TwoPhase, Proper, OwnIds;
    forall w, incoming ensures Flow(procs, w, incoming, true) == 0 {
      NothingDone(procs, w, incoming);
    }
  }

  lemma StartsTwoPhase(db0: Db, procs: seq<Proc>)
    requires forall i :: 0 <= i < |procs| ==> Waiting(procs[i]) && procs[i].prog.RunTransfer?
    ensures TwoPhase(Sys(db0, procs, []))
  {
  }

  lemma {:induction false} NothingDone(procs: seq<Proc>, w: Id, incoming: bool)
    requires forall i :: 0 <= i < |procs| ==> !procs[i].Finished?
    ensures Flow(procs, w, incoming, true) == 0
  {
    if procs != [] {
      NothingDone(procs[..|procs| - 1], w, incoming);
    }
  }

  lemma {:induction false} FlowSamePrograms(a: seq<Proc>, b: seq<Proc>, w: Id, incoming: bool)
    requires |a| == |b| && forall i :: 0 <= i < |a| ==> a[i].prog == b[i].prog
    ensures Flow(a, w, incoming, false) == Flow(b, w, incoming, false)
  {
    if a != [] {
      FlowSamePrograms(a[..|a| - 1], b[..|b| - 1], w, incoming);
    }
  }

  /** Covered transfers: under every schedule none is refused; once none is running, all have committed and
      every wallet ends at start minus requested out plus requested in. */
  lemma AllCommit(db0: Db, procs: seq<Proc>, actions: seq<Action>)
    requires Covered(db0, procs) && forall i :: 0 <= i < |procs| ==> Waiting(procs[i])
    requires forall i :: 0 <= i < |actions| ==> actions[i].Advance?
    ensures var s := Run(Sys(db0, procs, []), actions);
            && |s.procs| == |procs|
            && (forall i :: 0 <= i < |procs| ==> !s.procs[i].Aborted?)
            && ((forall i :: !Live(s, i)) ==>
                  && (forall i :: 0 <= i < |procs| ==> s.procs[i] == Finished(procs[i].prog))
                  && s.db.wallets.Keys == db0.wallets.Keys
                  && (forall w :: w in db0.wallets ==>
                        s.db.wallets[w].available
                        == db0.wallets[w].available - Flow(procs, w, false, false) + Flow(procs, w, true, false)))
  {
    hide TwoPhase, Covered;
    StartsOnTrack(db0, procs);
    StaysOnTrack(db0, Sys(db0, procs, []), actions);
    var s := Run(Sys(db0, procs, []), actions);
    hide Run;
    if forall i :: !Live(s, i) {
      forall i | 0 <= i < |procs| ensures s.procs[i] == Finished(procs[i].prog) {
        assert !Live(s, i);
      }
      forall w | w in db0.wallets
        ensures s.db.wallets[w].available == db0.wallets[w].available - Flow(procs, w, false, false) + Flow(procs, w, true, false)
      {
        forall incoming ensures Flow(s.procs, w, incoming, true) == Flow(procs, w, incoming, false) {
          FlowAllDone(s.procs, w, incoming);
          FlowSamePrograms(s.procs, procs, w, incoming);
        }
      }
    }
  }

  /** And they do all come to an end: some schedule, within the remaining work, finishes them. */
  lemma AllCommitEventually(db0: Db, procs: seq<Proc>) returns (actions: seq<Action>)
    requires Covered(db0, procs) && forall i :: 0 <= i < |procs| ==> Waiting(procs[i])
    ensures |actions| <= Work(procs)
    ensures var s := Run(Sys(db0, procs, []), actions);
            |s.procs| == |procs| && forall i :: 0 <= i < |procs| ==> s.procs[i] == Finished(procs[i].prog)
  {
    hide TwoPhase, Covered, Run, Work, OnTrack;
    StartsOnTrack(db0, procs);
    actions := AllCanFinish(Sys(db0, procs, []));
    AllCommit(db0, procs, actions);
  }
}
