/** Money only leaves a wallet at the request of its owner or of the system. */
module Ownership {
  import opened Base
  import opened LedgerModel
  import opened Tables
  import opened Programs
  import opened Interleaving
  import opened Serializability
  import opened Idempotency
  import opened OncePerKey

  /** The requester is the system, or owns the source wallet. */
  predicate MaySpend(db: Db, q: Request) {
    q.source in db.wallets && (q.system || db.wallets[q.source].owner == q.caller)
  }

  /** The handler at this index asked for the transfer, and has called it. */
  predicate Requested(w: World, i: nat, t: Transfer) {
    i < |w.handlers| && w.handlers[i].transfer.Some?
    && var q := w.handlers[i].req;
       t.id == q.tid && t.source == q.source && t.destination == q.destination
       && t.amount == q.amount && t.currency == q.currency && t.key == q.key
  }

  ghost predicate Owned(w: World) {
    && (forall i :: 0 <= i < |w.handlers| && (w.handlers[i].at.Cleared? || w.handlers[i].transfer.Some?) ==>
          MaySpend(w.sys.db, w.handlers[i].req))
    && (forall t :: t in w.sys.db.transfers ==> exists i: nat :: Requested(w, i, t))
  }

  /** Wallets stay, and never change hands. */
  predicate SameOwners(v: Db, w: Db) {
    forall id :: id in v.wallets ==> id in w.wallets && w.wallets[id].owner == v.wallets[id].owner
  }

  lemma OwnersStay(db: Db, p: Program)
    requires Apply(db, p).Ok?
    ensures SameOwners(db, Apply(db, p).value)
  {
    hide HasTransfer, HasLedgerTxn, HasHook, Pair;
  }

  lemma StepOwners(w: World, a: Action)
    requires Consistent(w) && TwoPhase(w.sys)
    ensures SameOwners(w.sys.db, Next(w.sys, a).db)
    ensures forall t :: t in Next(w.sys, a).db.transfers && t !in w.sys.db.transfers ==> exists i: nat :: Requested(w, i, t)
  {
    StepKind(w.sys, a);
    hide TwoPhase, Next, Consistent, Apply;
    if !Quietly(w.sys, Next(w.sys, a)) {
      OwnersStay(w.sys.db, w.sys.procs[a.i].prog);
      CommitRequested(w, Next(w.sys, a), a.i);
    }
  }

  lemma CommitRequested(w: World, t: Sys, k: nat)
    requires Consistent(w) && Commits(w.sys, t, k)
    ensures forall x :: x in t.db.transfers && x !in w.sys.db.transfers ==> exists i: nat :: Requested(w, i, x)
  {
    var p := w.sys.procs[k].prog;
    CommitEffect(w.sys.db, p);
    if p.RunTransfer? {
      CallerOf(w, k);
      var i := w.callers[k];
      assert HandlerFine(w.sys, w.handlers[i]);
      var x := t.db.transfers[|w.sys.db.transfers|];
      hide Consistent, Apply, StageFine, AnswerTrue, RecordTrue, ReplayTrue;
      assert Requested(w, i, x);
    }
  }

  /** A move that leaves every handler's call of a transfer as it is. */
  lemma SameRequests(w: World, v: World)
    requires Owned(w) && SameOwners(w.sys.db, v.sys.db) && |w.handlers| <= |v.handlers|
    requires forall i :: 0 <= i < |w.handlers| ==>
               v.handlers[i].req == w.handlers[i].req && (w.handlers[i].transfer.Some? ==> v.handlers[i].transfer.Some?)
    requires forall i :: 0 <= i < |v.handlers| && (v.handlers[i].at.Cleared? || v.handlers[i].transfer.Some?) ==>
               MaySpend(v.sys.db, v.handlers[i].req)
    requires forall t :: t in v.sys.db.transfers && t !in w.sys.db.transfers ==> exists i: nat :: Requested(w, i, t)
    ensures Owned(v)
  {
    forall t | t in v.sys.db.transfers ensures exists i: nat :: Requested(v, i, t) {
      var i: nat :| Requested(w, i, t);
      assert Requested(v, i, t);
    }
  }

  /** Only the check clears a handler, and only a cleared one calls its transfer. */
  lemma HandlersMove(w: World, m: Move, i: nat)
    requires Enabled(w, m) && i < |w.handlers|
    ensures |w.handlers| <= |Take(w, m).handlers|
    ensures var h, h' := w.handlers[i], Take(w, m).handlers[i];
            && h'.req == h.req && (h.transfer.Some? ==> h'.transfer.Some?)
            && (h'.at.Cleared? || h'.transfer.Some? ==>
                  h.at.Cleared? || h.transfer.Some? || (m.CheckWallet? && Take(w, m).sys == w.sys && MaySpend(w.sys.db, h.req)))
  {
    hide Next, Done, Ended, Code, Sent, Stored;
  }

  lemma NewHandlers(w: World, m: Move, i: nat)
    requires Enabled(w, m) && |w.handlers| <= i < |Take(w, m).handlers|
    ensures !Take(w, m).handlers[i].at.Cleared? && Take(w, m).handlers[i].transfer.None?
  {
    hide Next, Done, Ended, Code, Sent, Stored;
  }

  lemma TakeOwned(w: World, m: Move)
    requires Consistent(w) && TwoPhase(w.sys) && Owned(w) && Enabled(w, m)
    ensures Owned(Take(w, m))
  {
    var a := StepOf(w, m);
    if a.Some? {
      StepOwners(w, a.value);
    }
    hide Consistent, TwoPhase, Next, Requested, Take, Enabled;
    var v := Take(w, m);
    assert SameOwners(w.sys.db, v.sys.db);
    assert |w.handlers| <= |v.handlers| by {
      if w.handlers != [] {
        HandlersMove(w, m, 0);
      }
    }
    forall i | 0 <= i < |w.handlers|
      ensures v.handlers[i].req == w.handlers[i].req && (w.handlers[i].transfer.Some? ==> v.handlers[i].transfer.Some?)
    {
      HandlersMove(w, m, i);
    }
    forall i | 0 <= i < |v.handlers| && (v.handlers[i].at.Cleared? || v.handlers[i].transfer.Some?)
      ensures MaySpend(v.sys.db, v.handlers[i].req)
    {
      if i < |w.handlers| {
        HandlersMove(w, m, i);
      } else {
        NewHandlers(w, m, i);
      }
    }
    SameRequests(w, v);
  }

  lemma {:induction false} PlayOwned(ext: bool, moves: seq<Move>)
    ensures Owned(Play(EmptyWorld(ext), moves))
  {
    hide Owned, Consistent, TwoPhase, Enabled, Take;
    if moves == [] {
      EmptyOwned(ext);
    } else {
      var n := |moves| - 1;
      PlayOwned(ext, moves[..n]);
      PlayKeeps(ext, moves[..n]);
      var actions := PlayIsRun(ext, moves[..n]);
      RunIsSerial(EmptyDb(ext), actions);
      if Enabled(Play(EmptyWorld(ext), moves[..n]), moves[n]) {
        TakeOwned(Play(EmptyWorld(ext), moves[..n]), moves[n]);
      }
    }
  }

  lemma EmptyOwned(ext: bool)
    ensures Owned(EmptyWorld(ext))
  {
  }

  lemma PossibleIsOwned(w: World)
    requires Possible(w)
    ensures Owned(w)
  {
    var ext: bool, moves: seq<Move> :| w == Play(EmptyWorld(ext), moves);
    hide *;
    PlayOwned(ext, moves);
  }

  // ---- The promises ----

  /** A handler that has called its transfer acts for the system or for the owner of the source wallet. */
  lemma OnlyOwnersTransfer(w: World, i: nat)
    requires Possible(w) && i < |w.handlers| && w.handlers[i].transfer.Some?
    ensures var q := w.handlers[i].req;
            q.source in w.sys.db.wallets && (q.system || w.sys.db.wallets[q.source].owner == q.caller)
  {
    hide Possible;
    PossibleIsOwned(w);
  }

  /** Every committed transfer was asked for, in all its terms, by the system or by the owner of its source. */
  lemma EveryTransferAuthorised(w: World, t: Transfer) returns (i: nat)
    requires Possible(w) && t in w.sys.db.transfers
    ensures i < |w.handlers|
    ensures var q := w.handlers[i].req;
            && t.id == q.tid && t.source == q.source && t.destination == q.destination
            && t.amount == q.amount && t.currency == q.currency && t.key == q.key
            && t.source in w.sys.db.wallets && (q.system || w.sys.db.wallets[t.source].owner == q.caller)
  {
    hide Possible;
    PossibleIsOwned(w);
    i :| Requested(w, i, t);
  }

  /** The check itself: it passes iff the wallet was read and is the caller's, or the caller is the system. */
  lemma CheckPasses(w: World, i: nat, fails: bool)
    requires Enabled(w, CheckWallet(i, fails))
    ensures var q, h := w.handlers[i].req, Take(w, CheckWallet(i, fails)).handlers[i];
            var allowed := !fails && q.source in w.sys.db.wallets && (w.sys.db.wallets[q.source].owner == q.caller || q.system);
            && (h.at == Cleared <==> allowed)
            && (!allowed ==> h.at == Completing && h.answer == Some(Denied) && h.transfer == w.handlers[i].transfer)
  {
  }
}
