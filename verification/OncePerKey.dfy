/** What the idempotency protocol keeps, and what it promises: one transfer per key, and honest records of it. */
module OncePerKey {
  import opened Base
  import opened Tables
  import opened Programs
  import opened Interleaving
  import opened Serializability
  import opened Idempotency

  /** Committed transfers carrying a key. */
  function Carrying(ts: seq<Transfer>, key: string): nat {
    if ts == [] then 0 else Carrying(ts[..|ts| - 1], key) + if ts[|ts| - 1].key == key then 1 else 0
  }

  // ---- The invariant ----

  predicate IsCall(s: Sys, call: Option<nat>, p: Program) {
    call.Some? ==> call.value < |s.procs| && s.procs[call.value].prog == p
  }

  /** A handler's calls are what it meant to call. */
  predicate CallsFine(s: Sys, h: Handler) {
    && IsCall(s, h.insert, AcquireKey(h.req.key, h.req.body))
    && IsCall(s, h.transfer, ProgramOf(h.req))
    && (h.complete.Some? ==> h.answer.Some? && IsCall(s, h.complete, CompleteKey(h.req.key, Stored(h.answer.value), Code(h.answer.value))))
  }

  /** Past the INSERT: this request owns its key. */
  predicate Owns(h: Handler) {
    h.at.Owner? || h.at.Cleared? || h.at.Executing? || h.at.Completing? || h.at.Recording? || (h.at.Replied? && h.at.kind == First)
  }

  /** Which calls have been made at each stage; only a request whose INSERT committed goes on to the others. */
  predicate StageFine(s: Sys, h: Handler) {
    && (Owns(h) ==> Done(s, h.insert))
    && (!Owns(h) ==> h.transfer.None? && h.answer.None? && h.complete.None?)
    && (h.at.Arrived? ==> h.insert.None?)
    && (h.at.Owner? || h.at.Cleared? ==> h.transfer.None? && h.answer.None? && h.complete.None?)
    && (h.at.Executing? ==> h.transfer.Some? && h.answer.None? && h.complete.None?)
    && (h.at.Completing? ==> h.answer.Some? && h.complete.None?)
    && (h.at.Recording? ==> h.answer.Some? && h.complete.Some?)
    && (h.at.Replied? && h.at.kind == First ==>
          h.answer.Some? && h.complete.Some? && h.at.code == Code(h.answer.value) && h.at.body == Sent(h.answer.value))
  }

  /** The answer is what happened to the transfer, unless its reply got lost; then it is an error all the same. */
  predicate AnswerTrue(s: Sys, h: Handler) {
    h.answer.Some? ==>
      && (h.answer.value.Denied? <==> h.transfer.None?)
      && (h.answer.value.Made? ==> Done(s, h.transfer) && !h.lost && h.answer.value.transfer == TransferOf(h.req))
      && (!h.lost && h.transfer.Some? ==> Ended(s, h.transfer) && (Done(s, h.transfer) ==> h.answer.value.Made?))
  }

  /** The record and the transfers of an owned key. */
  predicate RecordTrue(s: Sys, h: Handler) {
    Done(s, h.insert) ==>
      && h.req.key in s.db.keys
      && Carrying(s.db.transfers, h.req.key) == (if Done(s, h.transfer) then 1 else 0)
      && (Done(s, h.transfer) ==> TransferOf(h.req) in s.db.transfers)
      && var rec := s.db.keys[h.req.key];
         && (rec.status == Completed <==> Done(s, h.complete))
         && (rec.status == Completed ==>
               h.answer.Some? && rec.code == Some(Code(h.answer.value)) && rec.response == Some(Stored(h.answer.value)))
  }

  /** A replay is only given from a completed record, and is what the record says. */
  predicate ReplayTrue(db: Db, h: Handler) {
    h.at.Replied? && h.at.kind == Replay ==>
      && h.req.key in db.keys && db.keys[h.req.key].status == Completed
      && db.keys[h.req.key].code == Some(h.at.code)
      && db.keys[h.req.key].response.Some? && h.at.body == Json(db.keys[h.req.key].response.value)
  }

  predicate HandlerFine(s: Sys, h: Handler) {
    CallsFine(s, h) && StageFine(s, h) && AnswerTrue(s, h) && RecordTrue(s, h) && ReplayTrue(s.db, h)
  }

  /** The handler made this call. */
  predicate MadeCall(h: Handler, k: nat) {
    h.insert == Some(k) || h.transfer == Some(k) || h.complete == Some(k)
  }

  /** Every keyed call was made by the handler noted as its caller, and by no other. */
  ghost predicate CallersFine(w: World) {
    && (forall k :: k in w.callers ==> k < |w.sys.procs| && w.callers[k] < |w.handlers| && MadeCall(w.handlers[w.callers[k]], k))
    && (forall k :: 0 <= k < |w.sys.procs| && IsKeyed(w.sys.procs[k].prog) ==> k in w.callers)
    && (forall i, k :: 0 <= i < |w.handlers| && MadeCall(w.handlers[i], k) ==> k in w.callers && w.callers[k] == i)
  }

  /** The handler's INSERT of this key committed. */
  predicate Won(w: World, i: nat, key: string) {
    i < |w.handlers| && w.handlers[i].req.key == key && Done(w.sys, w.handlers[i].insert)
  }

  ghost predicate KeyFine(w: World, key: string) {
    && (key !in w.sys.db.keys ==> Carrying(w.sys.db.transfers, key) == 0)
    && Carrying(w.sys.db.transfers, key) <= 1
    && (key in w.sys.db.keys ==> exists i: nat :: Won(w, i, key))
  }

  ghost predicate Consistent(w: World) {
    && (forall i :: 0 <= i < |w.handlers| ==> HandlerFine(w.sys, w.handlers[i]))
    && CallersFine(w)
    && (forall i, j, key :: Won(w, i, key) && Won(w, j, key) ==> i == j)
    && (forall key :: KeyFine(w, key))
  }

  // ---- Steps of the system ----

  /** A step that commits nothing: calls keep their programs, and none ends by committing. */
  predicate Quietly(s: Sys, t: Sys) {
    && t.db == s.db && |s.procs| <= |t.procs|
    && (forall k :: 0 <= k < |s.procs| ==>
          && t.procs[k].prog == s.procs[k].prog && (t.procs[k].Finished? <==> s.procs[k].Finished?)
          && (!s.procs[k].Running? ==> !t.procs[k].Running?))
  }

  /** Call k commits. */
  predicate Commits(s: Sys, t: Sys, k: nat) {
    && k < |s.procs| && s.procs[k].Running?
    && t.procs == s.procs[k := Finished(s.procs[k].prog)]
    && Apply(s.db, s.procs[k].prog) == Ok(t.db)
  }

  lemma StepKind(s: Sys, a: Action)
    requires TwoPhase(s)
    ensures Quietly(s, Next(s, a)) || (a.Advance? && Commits(s, Next(s, a), a.i))
    ensures !a.Spawn? ==> |Next(s, a).procs| == |s.procs|
    ensures a.Spawn? ==> Quietly(s, Next(s, a)) && (Next(s, a) == s || Next(s, a).procs == s.procs + [Running(a.prog, FRESH)])
  {
    hide TwoPhase, Execute, Need, Apply;
    if a.Advance? && CanAdvance(s, a.i) {
      PcInRange(s, a.i);
      if s.procs[a.i].local.pc == Length(s.procs[a.i].prog) {
        CommitIsApply(s, a.i);
      }
    }
  }

  lemma QuietHandler(s: Sys, t: Sys, h: Handler)
    requires HandlerFine(s, h) && Quietly(s, t)
    ensures HandlerFine(t, h)
    ensures Done(t, h.insert) == Done(s, h.insert)
  {
    hide Carrying, Code, Sent, Stored;
  }

  lemma CarryingAppend(ts: seq<Transfer>, t: Transfer, key: string)
    ensures Carrying(ts + [t], key) == Carrying(ts, key) + if t.key == key then 1 else 0
  {
    assert (ts + [t])[..|ts|] == ts;
  }

  /** What each keyed operation, and every other one, does to keys and transfers when it commits. */
  lemma CommitEffect(db: Db, p: Program)
    requires Apply(db, p).Ok?
    ensures var after := Apply(db, p).value;
            && (!IsKeyed(p) ==> after.keys == db.keys && after.transfers == db.transfers)
            && (p.RunTransfer? ==>
                  after.keys == db.keys
                  && after.transfers == db.transfers + [Transfer(p.tid, p.source, p.destination, p.amount, p.currency, p.key)])
            && (p.AcquireKey? ==>
                  p.key !in db.keys && after.transfers == db.transfers
                  && after.keys == db.keys[p.key := KeyRecord(InProgress, p.request, None, None)])
            && (p.CompleteKey? ==>
                  after.transfers == db.transfers && after.keys.Keys == db.keys.Keys
                  && (forall key :: key in db.keys && key != p.key ==> after.keys[key] == db.keys[key])
                  && (p.key in db.keys ==>
                        after.keys[p.key] == db.keys[p.key].(status := Completed, response := Some(p.response), code := Some(p.code))))
  {
  }

  /** The key a keyed operation is about. */
  function KeyOf(p: Program): string
    requires IsKeyed(p)
  {
    p.key
  }

  /** Another handler's commit on another key. */
  lemma CommitElsewhere(s: Sys, t: Sys, k: nat, h: Handler)
    requires HandlerFine(s, h) && Commits(s, t, k) && !MadeCall(h, k)
    requires IsKeyed(s.procs[k].prog) && h.req.key == KeyOf(s.procs[k].prog) ==>
               !Done(s, h.insert) && (s.procs[k].prog.CompleteKey? ==> !(h.at.Replied? && h.at.kind == Replay))
    ensures HandlerFine(t, h) && Done(t, h.insert) == Done(s, h.insert)
  {
    hide Apply, Carrying, Code, Sent, Stored;
    var p := s.procs[k].prog;
    CommitEffect(s.db, p);
    if p.RunTransfer? {
      CarryingAppend(s.db.transfers, t.db.transfers[|s.db.transfers|], h.req.key);
    }
  }

  lemma InsertCommits(s: Sys, t: Sys, k: nat, h: Handler)
    requires HandlerFine(s, h) && Commits(s, t, k) && h.insert == Some(k) && s.procs[k].prog.AcquireKey?
    requires Carrying(s.db.transfers, h.req.key) == 0
    ensures HandlerFine(t, h)
  {
    hide Apply, Carrying, Code, Sent, Stored;
    CommitEffect(s.db, s.procs[k].prog);
  }

  lemma TransferCommits(s: Sys, t: Sys, k: nat, h: Handler)
    requires HandlerFine(s, h) && Commits(s, t, k) && h.transfer == Some(k)
    ensures HandlerFine(t, h) && Done(t, h.insert)
  {
    hide Apply, Carrying, Code, Sent, Stored;
    CommitEffect(s.db, s.procs[k].prog);
    CarryingAppend(s.db.transfers, TransferOf(h.req), h.req.key);
  }

  lemma CompleteCommits(s: Sys, t: Sys, k: nat, h: Handler)
    requires HandlerFine(s, h) && Commits(s, t, k) && h.complete == Some(k)
    ensures HandlerFine(t, h) && Done(t, h.insert)
  {
    hide Apply, Carrying, Code, Sent, Stored;
    CommitEffect(s.db, s.procs[k].prog);
  }

  // ---- A commit, seen by all handlers ----

  lemma CallerOf(w: World, k: nat)
    requires Consistent(w) && k < |w.sys.procs| && IsKeyed(w.sys.procs[k].prog)
    ensures k in w.callers && w.callers[k] < |w.handlers|
    ensures var h, p := w.handlers[w.callers[k]], w.sys.procs[k].prog;
            && h.req.key == KeyOf(p)
            && (p.AcquireKey? ==> h.insert == Some(k))
            && (p.RunTransfer? ==> h.transfer == Some(k))
            && (p.CompleteKey? ==> h.complete == Some(k))
            && (!p.AcquireKey? ==> Won(w, w.callers[k], h.req.key))
  {
    hide KeyFine, RecordTrue, ReplayTrue, AnswerTrue, Code, Sent, Stored;
    assert HandlerFine(w.sys, w.handlers[w.callers[k]]);
  }

  lemma BystanderFine(w: World, t: Sys, k: nat, j: nat)
    requires Consistent(w) && Commits(w.sys, t, k) && j < |w.handlers|
    requires IsKeyed(w.sys.procs[k].prog) ==> k in w.callers && j != w.callers[k]
    ensures HandlerFine(t, w.handlers[j]) && Done(t, w.handlers[j].insert) == Done(w.sys, w.handlers[j].insert)
    ensures var p := w.sys.procs[k].prog;
            p.AcquireKey? && w.handlers[j].req.key == p.key ==> !Done(w.sys, w.handlers[j].insert)
  {
    var h, p := w.handlers[j], w.sys.procs[k].prog;
    assert HandlerFine(w.sys, h);
    BystanderKey(w, t, k, j);
    hide Consistent;
    CommitElsewhere(w.sys, t, k, h);
  }

  lemma BystanderKey(w: World, t: Sys, k: nat, j: nat)
    requires Consistent(w) && Commits(w.sys, t, k) && j < |w.handlers|
    requires IsKeyed(w.sys.procs[k].prog) ==> k in w.callers && j != w.callers[k]
    ensures !MadeCall(w.handlers[j], k)
    ensures var h, p := w.handlers[j], w.sys.procs[k].prog;
            IsKeyed(p) && h.req.key == KeyOf(p) ==>
              !Done(w.sys, h.insert) && (p.CompleteKey? ==> !(h.at.Replied? && h.at.kind == Replay))
  {
    hide Apply, Carrying, Code, Sent, Stored, KeyFine;
    var h, p := w.handlers[j], w.sys.procs[k].prog;
    assert HandlerFine(w.sys, h);
    if IsKeyed(p) {
      CallerOf(w, k);
      CommitEffect(w.sys.db, p);
      var i := w.callers[k];
      assert HandlerFine(w.sys, w.handlers[i]);
      assert h.req.key == KeyOf(p) ==> Won(w, j, KeyOf(p)) == Done(w.sys, h.insert);
    }
  }

  lemma CallerFine(w: World, t: Sys, k: nat)
    requires Consistent(w) && Commits(w.sys, t, k) && IsKeyed(w.sys.procs[k].prog)
    ensures k in w.callers && w.callers[k] < |w.handlers|
    ensures var h := w.handlers[w.callers[k]];
            HandlerFine(t, h) && Done(t, h.insert) && h.req.key == KeyOf(w.sys.procs[k].prog)
  {
    CallerOf(w, k);
    var h, p := w.handlers[w.callers[k]], w.sys.procs[k].prog;
    assert HandlerFine(w.sys, h) && KeyFine(w, h.req.key);
    hide Consistent, Apply, HandlerFine, Carrying;
    if p.AcquireKey? {
      CommitEffect(w.sys.db, p);
      InsertCommits(w.sys, t, k, h);
    } else if p.RunTransfer? {
      TransferCommits(w.sys, t, k, h);
    } else {
      CompleteCommits(w.sys, t, k, h);
    }
  }

  /** The keys after a commit. */
  lemma KeyKept(w: World, t: Sys, k: nat, key: string)
    requires Consistent(w) && Commits(w.sys, t, k)
    ensures KeyFine(w.(sys := t), key)
  {
    hide Consistent, KeyFine, Apply;
    var p := w.sys.procs[k].prog;
    if IsKeyed(p) && KeyOf(p) == key {
      CommittedKeyKept(w, t, k);
    } else {
      OtherKeyKept(w, t, k, key);
    }
  }

  lemma CommittedKeyKept(w: World, t: Sys, k: nat)
    requires Consistent(w) && Commits(w.sys, t, k) && IsKeyed(w.sys.procs[k].prog)
    ensures KeyFine(w.(sys := t), KeyOf(w.sys.procs[k].prog))
  {
    hide Consistent, HandlerFine, Apply, KeyFine;
    CallerFine(w, t, k);
    OwnKey(w.(sys := t), w.callers[k], KeyOf(w.sys.procs[k].prog));
  }

  lemma OtherKeyKept(w: World, t: Sys, k: nat, key: string)
    requires Consistent(w) && Commits(w.sys, t, k) && (IsKeyed(w.sys.procs[k].prog) ==> KeyOf(w.sys.procs[k].prog) != key)
    ensures KeyFine(w.(sys := t), key)
  {
    assert KeyFine(w, key);
    hide Consistent, HandlerFine, Apply, Carrying, Commits, Won, IsKeyed;
    OtherKey(w.sys, t, k, key);
    if key in w.sys.db.keys {
      var i: nat :| Won(w, i, key);
      WonStays(w, t, k, i, key);
    }
  }

  lemma WonStays(w: World, t: Sys, k: nat, i: nat, key: string)
    requires Commits(w.sys, t, k) && Won(w, i, key)
    ensures Won(w.(sys := t), i, key)
  {
    hide Apply;
  }

  lemma OwnKey(w: World, i: nat, key: string)
    requires i < |w.handlers| && HandlerFine(w.sys, w.handlers[i]) && Won(w, i, key)
    ensures KeyFine(w, key)
  {
    hide Carrying, CallsFine, StageFine, AnswerTrue, ReplayTrue;
  }

  lemma OtherKey(s: Sys, t: Sys, k: nat, key: string)
    requires Commits(s, t, k) && (IsKeyed(s.procs[k].prog) ==> KeyOf(s.procs[k].prog) != key)
    ensures key in t.db.keys <==> key in s.db.keys
    ensures Carrying(t.db.transfers, key) == Carrying(s.db.transfers, key)
  {
    hide Apply, Carrying;
    var p := s.procs[k].prog;
    CommitEffect(s.db, p);
    if p.RunTransfer? {
      CarryingAppend(s.db.transfers, t.db.transfers[|s.db.transfers|], key);
    }
  }

  lemma OneWinner(w: World, t: Sys, k: nat, a: nat, b: nat, key: string)
    requires Consistent(w) && Commits(w.sys, t, k) && Won(w.(sys := t), a, key) && Won(w.(sys := t), b, key)
    ensures a == b
  {
    var p := w.sys.procs[k].prog;
    if IsKeyed(p) {
      CallerOf(w, k);
    }
    if !(IsKeyed(p) && a == w.callers[k]) {
      BystanderFine(w, t, k, a);
    }
    if !(IsKeyed(p) && b == w.callers[k]) {
      BystanderFine(w, t, k, b);
    }
    hide Consistent, HandlerFine, Apply;
    WinnersBefore(w, t, k, a, b, key);
  }

  lemma WinnersBefore(w: World, t: Sys, k: nat, a: nat, b: nat, key: string)
    requires Consistent(w) && Commits(w.sys, t, k) && Won(w.(sys := t), a, key) && Won(w.(sys := t), b, key)
    requires IsKeyed(w.sys.procs[k].prog) ==> k in w.callers && w.callers[k] < |w.handlers|
    requires forall j :: (j == a || j == b) && (IsKeyed(w.sys.procs[k].prog) ==> j != w.callers[k]) ==>
               && Done(t, w.handlers[j].insert) == Done(w.sys, w.handlers[j].insert)
               && (w.sys.procs[k].prog.AcquireKey? && key == w.sys.procs[k].prog.key ==> !Done(w.sys, w.handlers[j].insert))
    ensures a == b
  {
    var p := w.sys.procs[k].prog;
    if IsKeyed(p) {
      CallerOf(w, k);
    }
    hide HandlerFine, KeyFine, Apply, CallersFine;
    assert !p.AcquireKey? ==> Won(w, a, key) && Won(w, b, key);
    assert p.AcquireKey? && p.key != key ==> Won(w, a, key) && Won(w, b, key);
  }

  lemma CommitKeeps(w: World, t: Sys, k: nat)
    requires Consistent(w) && Commits(w.sys, t, k)
    ensures Consistent(w.(sys := t))
  {
    var p := w.sys.procs[k].prog;
    forall j | 0 <= j < |w.handlers| ensures HandlerFine(t, w.handlers[j]) {
      if IsKeyed(p) {
        CallerFine(w, t, k);
      }
      if !(IsKeyed(p) && j == w.callers[k]) {
        BystanderFine(w, t, k, j);
      }
    }
    forall a, b, key | Won(w.(sys := t), a, key) && Won(w.(sys := t), b, key) ensures a == b {
      OneWinner(w, t, k, a, b, key);
    }
    forall key ensures KeyFine(w.(sys := t), key) {
      KeyKept(w, t, k, key);
    }
    CallersAfterCommit(w, t, k);
    hide HandlerFine, KeyFine, CallersFine, Won;
  }

  lemma CallersAfterCommit(w: World, t: Sys, k: nat)
    requires CallersFine(w) && Commits(w.sys, t, k)
    ensures CallersFine(w.(sys := t))
  {
    hide Apply;
  }

  // ---- Moves ----

  /** The keys are fine as long as the tables and the winners stay. */
  lemma SameKeys(w: World, v: World)
    requires v.sys.db == w.sys.db && (forall j, key :: Won(v, j, key) == Won(w, j, key)) && (forall key :: KeyFine(w, key))
    ensures forall key :: KeyFine(v, key)
  {
    hide Won, Carrying;
    forall key ensures KeyFine(v, key) {
      assert KeyFine(w, key);
      if key in w.sys.db.keys {
        var i: nat :| Won(w, i, key);
        assert Won(v, i, key);
      }
    }
  }

  /** A step elsewhere that commits nothing. */
  lemma QuietKeeps(w: World, t: Sys)
    requires Consistent(w) && Quietly(w.sys, t)
    requires forall k :: |w.sys.procs| <= k < |t.procs| ==> !IsKeyed(t.procs[k].prog)
    ensures Consistent(w.(sys := t))
  {
    forall j | 0 <= j < |w.handlers|
      ensures HandlerFine(t, w.handlers[j]) && Done(t, w.handlers[j].insert) == Done(w.sys, w.handlers[j].insert)
    {
      QuietHandler(w.sys, t, w.handlers[j]);
    }
    CallersQuiet(w, t);
    hide HandlerFine, KeyFine, CallersFine, Quietly;
    forall j, key ensures Won(w.(sys := t), j, key) == Won(w, j, key) {
    }
    SameKeys(w, w.(sys := t));
  }

  lemma CallersQuiet(w: World, t: Sys)
    requires CallersFine(w) && Quietly(w.sys, t)
    requires forall k :: |w.sys.procs| <= k < |t.procs| ==> !IsKeyed(t.procs[k].prog)
    ensures CallersFine(w.(sys := t)) && t.db == w.sys.db
  {
    hide MadeCall;
  }

  /** A handler goes on without a call. */
  lemma LocalKeeps(w: World, i: nat, h: Handler)
    requires Consistent(w) && i < |w.handlers| && HandlerFine(w.sys, h)
    requires h.req == w.handlers[i].req
    requires h.insert == w.handlers[i].insert && h.transfer == w.handlers[i].transfer && h.complete == w.handlers[i].complete
    ensures Consistent(Become(w, i, h))
  {
    hide HandlerFine, KeyFine;
    var v := Become(w, i, h);
    forall j, key ensures Won(v, j, key) == Won(w, j, key) {
    }
    SameKeys(w, v);
    forall j, k | 0 <= j < |w.handlers| ensures MadeCall(v.handlers[j], k) == MadeCall(w.handlers[j], k) {
    }
  }

  /** A handler makes a call: h is the handler afterwards. */
  lemma CallKeeps(w: World, i: nat, p: Program, h: Handler)
    requires Consistent(w) && i < |w.handlers| && MaySpawn(w.sys.db, p)
    requires var k := |w.sys.procs|;
             && HandlerFine(Next(w.sys, Spawn(p)), h) && h.req == w.handlers[i].req
             && (forall c: nat :: MadeCall(h, c) <==> MadeCall(w.handlers[i], c) || c == k)
             && Done(Next(w.sys, Spawn(p)), h.insert) == Done(w.sys, w.handlers[i].insert)
    ensures Consistent(Call(w, i, p, h))
  {
    var v, t := Call(w, i, p, h), Next(w.sys, Spawn(p));
    assert Quietly(w.sys, t);
    forall j | 0 <= j < |w.handlers| && j != i
      ensures HandlerFine(t, w.handlers[j]) && Done(t, w.handlers[j].insert) == Done(w.sys, w.handlers[j].insert)
    {
      QuietHandler(w.sys, t, w.handlers[j]);
    }
    CallersAfterCall(w, i, p, h);
    hide HandlerFine, CallersFine, MadeCall, KeyFine;
    forall j, key ensures Won(v, j, key) == Won(w, j, key) {
    }
    SameKeys(w, v);
  }

  lemma CallersAfterCall(w: World, i: nat, p: Program, h: Handler)
    requires CallersFine(w) && i < |w.handlers| && MaySpawn(w.sys.db, p)
    requires forall c: nat :: MadeCall(h, c) <==> MadeCall(w.handlers[i], c) || c == |w.sys.procs|
    ensures CallersFine(Call(w, i, p, h))
  {
    hide MadeCall;
    var v, n := Call(w, i, p, h), |w.sys.procs|;
    assert v.sys.procs == w.sys.procs + [Running(p, FRESH)] && v.callers == w.callers[n := i] && v.handlers == w.handlers[i := h];
    hide Next, Call, MaySpawn;
    assert n !in w.callers;
    forall j: nat, k: nat | j < |v.handlers| && MadeCall(v.handlers[j], k) ensures k in v.callers && v.callers[k] == j {
      assert j != i || k != n ==> MadeCall(w.handlers[j], k);
    }
  }

  lemma ArrivedFine(s: Sys, q: Request)
    ensures HandlerFine(s, Handler(q, Arrived, true, None, None, None, None, false))
  {
  }

  lemma ArriveKeeps(w: World, q: Request)
    requires Consistent(w)
    ensures Consistent(Take(w, Arrive(q)))
  {
    hide KeyFine, CallsFine, StageFine, AnswerTrue, RecordTrue, ReplayTrue;
    var v := Take(w, Arrive(q));
    forall j, key ensures Won(v, j, key) == Won(w, j, key) {
    }
    SameKeys(w, v);
    ArrivedFine(w.sys, q);
  }

  lemma CallMoveKeeps(w: World, m: Move)
    requires Consistent(w) && Enabled(w, m) && (m.CallInsert? || m.CallTransfer? || m.CallComplete?)
    ensures Consistent(Take(w, m))
  {
    var i := m.i;
    var h := w.handlers[i];
    var p, h' := CallOf(w, m);
    assert HandlerFine(w.sys, h);
    hide KeyFine, CallersFine;
    CallFits(w.sys, h, p, h');
    CallKeeps(w, i, p, h');
  }

  /** The call a move makes, and its handler afterwards. */
  lemma CallOf(w: World, m: Move) returns (p: Program, h: Handler)
    requires Enabled(w, m) && (m.CallInsert? || m.CallTransfer? || m.CallComplete?)
    ensures Take(w, m) == Call(w, m.i, p, h)
    ensures CallStage(w.handlers[m.i], |w.sys.procs|, p, h)
  {
    var k := |w.sys.procs|;
    h := w.handlers[m.i];
    match m
    case CallInsert(_) => p, h := AcquireKey(h.req.key, h.req.body), h.(at := Inserting, insert := Some(k));
    case CallTransfer(_) => p, h := ProgramOf(h.req), h.(at := Executing, transfer := Some(k));
    case CallComplete(_) =>
      p, h := CompleteKey(h.req.key, Stored(h.answer.value), Code(h.answer.value)), h.(at := Recording, complete := Some(k));
  }

  predicate CallStage(h: Handler, k: nat, p: Program, h': Handler) {
    || (h.at.Arrived? && p == AcquireKey(h.req.key, h.req.body) && h' == h.(at := Inserting, insert := Some(k)))
    || (h.at.Cleared? && p == ProgramOf(h.req) && h' == h.(at := Executing, transfer := Some(k)))
    || (h.at.Completing? && h.answer.Some? && p == CompleteKey(h.req.key, Stored(h.answer.value), Code(h.answer.value))
        && h' == h.(at := Recording, complete := Some(k)))
  }

  lemma CallFits(s: Sys, h: Handler, p: Program, h': Handler)
    requires HandlerFine(s, h) && CallStage(h, |s.procs|, p, h')
    ensures MaySpawn(s.db, p) && HandlerFine(Next(s, Spawn(p)), h') && h'.req == h.req
    ensures forall c: nat :: MadeCall(h', c) <==> MadeCall(h, c) || c == |s.procs|
    ensures Done(Next(s, Spawn(p)), h'.insert) == Done(s, h.insert)
  {
    hide Carrying, Code, Sent, Stored;
    assert MaySpawn(s.db, p);
    QuietHandler(s, Next(s, Spawn(p)), h);
  }

  predicate IsLocal(m: Move) {
    m.InsertReply? || m.Read? || m.CheckWallet? || m.TransferReply? || m.CompleteReply? || m.Die?
  }

  lemma LocalMoveKeeps(w: World, m: Move)
    requires Consistent(w) && Enabled(w, m) && IsLocal(m)
    ensures Consistent(Take(w, m))
  {
    var h := w.handlers[m.i];
    LocalIsStep(w, m);
    assert HandlerFine(w.sys, h);
    hide Consistent, HandlerFine, Take, LocalStep;
    if m.Read? {
      if h.req.key in w.sys.db.keys && w.sys.db.keys[h.req.key].status == Completed {
        RecordComplete(w, h.req.key);
      }
      ReadFits(w.sys, h, m);
    } else {
      LocalFits(w.sys, h, m);
    }
    LocalKeepsCalls(w.sys, h, m);
    LocalKeeps(w, m.i, LocalStep(w.sys, h, m));
  }

  lemma LocalKeepsCalls(s: Sys, h: Handler, m: Move)
    requires IsLocal(m) && (m.CompleteReply? ==> h.answer.Some?)
    ensures var h' := LocalStep(s, h, m);
            h'.req == h.req && h'.insert == h.insert && h'.transfer == h.transfer && h'.complete == h.complete
  {
    hide MayUse, Code, Sent, ReplyFrom;
  }

  lemma RecordComplete(w: World, key: string)
    requires Consistent(w) && key in w.sys.db.keys && w.sys.db.keys[key].status == Completed
    ensures w.sys.db.keys[key].code.Some? && w.sys.db.keys[key].response.Some?
  {
    hide Carrying;
    assert KeyFine(w, key);
    var i: nat :| Won(w, i, key);
    assert HandlerFine(w.sys, w.handlers[i]);
  }

  /** Each local move, as a change of its handler. */
  function LocalStep(s: Sys, h: Handler, m: Move): Handler
    requires IsLocal(m) && (m.CompleteReply? ==> h.answer.Some?)
  {
    match m
    case InsertReply(_, lost) => h.(at := if !lost && Done(s, h.insert) then Owner else Conflicted)
    case Read(_) => h.(at := ReplyFrom(s.db, h.req.key))
    case CheckWallet(_, fails) =>
      if fails || !MayUse(s.db, h.req) then h.(at := Completing, answer := Some(Denied)) else h.(at := Cleared)
    case TransferReply(_, lost, text) =>
      var answer := if !lost && Done(s, h.transfer) then Made(TransferOf(h.req)) else Rejected(text);
      h.(at := Completing, answer := Some(answer), lost := lost)
    case CompleteReply(_, _) => h.(at := Replied(Code(h.answer.value), Sent(h.answer.value), First))
    case Die(_) => h.(alive := false)
    case _ => h
  }

  lemma LocalIsStep(w: World, m: Move)
    requires IsLocal(m) && Enabled(w, m)
    ensures Take(w, m) == Become(w, m.i, LocalStep(w.sys, w.handlers[m.i], m))
  {
    hide MayUse, Code, Sent, ReplyFrom;
  }

  lemma LocalFits(s: Sys, h: Handler, m: Move)
    requires IsLocal(m) && HandlerFine(s, h) && !m.Read?
    requires m.InsertReply? ==> h.at.Inserting?
    requires m.CheckWallet? ==> h.at.Owner?
    requires m.TransferReply? ==> h.at.Executing? && (m.lost || Ended(s, h.transfer))
    requires m.CompleteReply? ==> h.at.Recording?
    ensures HandlerFine(s, LocalStep(s, h, m))
  {
    hide Carrying, Code, Sent, Stored, MayUse;
  }

  lemma ReadFits(s: Sys, h: Handler, m: Move)
    requires m.Read? && HandlerFine(s, h) && h.at.Conflicted?
    requires h.req.key in s.db.keys && s.db.keys[h.req.key].status == Completed ==>
               s.db.keys[h.req.key].code.Some? && s.db.keys[h.req.key].response.Some?
    ensures HandlerFine(s, LocalStep(s, h, m))
  {
    hide Carrying, Code, Sent, Stored;
  }

  lemma TakeKeeps(w: World, m: Move)
    requires Consistent(w) && TwoPhase(w.sys) && Enabled(w, m)
    ensures Consistent(Take(w, m))
  {
    hide Consistent, TwoPhase, Next;
    match m
    case Arrive(q) => ArriveKeeps(w, q);
    case Elsewhere(a) =>
      StepKind(w.sys, a);
      if Quietly(w.sys, Next(w.sys, a)) {
        QuietKeeps(w, Next(w.sys, a));
      } else {
        CommitKeeps(w, Next(w.sys, a), a.i);
      }
    case CallInsert(_) => CallMoveKeeps(w, m);
    case CallTransfer(_) => CallMoveKeeps(w, m);
    case CallComplete(_) => CallMoveKeeps(w, m);
    case _ => LocalMoveKeeps(w, m);
  }

  lemma {:induction false} PlayKeeps(ext: bool, moves: seq<Move>)
    ensures Consistent(Play(EmptyWorld(ext), moves))
  {
    hide Consistent, Enabled, Take;
    if moves == [] {
      EmptyWorldConsistent(ext);
    } else {
      var n := |moves| - 1;
      PlayKeeps(ext, moves[..n]);
      var before := Play(EmptyWorld(ext), moves[..n]);
      var actions := PlayIsRun(ext, moves[..n]);
      RunIsSerial(EmptyDb(ext), actions);
      if Enabled(before, moves[n]) {
        TakeKeeps(before, moves[n]);
      }
    }
  }

  lemma EmptyWorldConsistent(ext: bool)
    ensures Consistent(EmptyWorld(ext))
  {
  }

  lemma PossibleIsConsistent(w: World)
    requires Possible(w)
    ensures Consistent(w)
  {
    var ext: bool, moves: seq<Move> :| w == Play(EmptyWorld(ext), moves);
    hide *;
    PlayKeeps(ext, moves);
  }

  // ---- The promises ----

  /** At most one committed transfer per key, whatever duplicates arrive, replies get lost and handlers die. */
  lemma AtMostOnce(w: World, key: string)
    requires Possible(w)
    ensures Carrying(w.sys.db.transfers, key) <= 1
  {
    hide Carrying, Possible;
    PossibleIsConsistent(w);
    assert KeyFine(w, key);
  }

  /** Only the request whose INSERT committed goes on to the transfer: no two do for one key. */
  lemma OneOwner(w: World, i: nat, j: nat)
    requires Possible(w) && i < |w.handlers| && j < |w.handlers| && i != j
    requires Owns(w.handlers[i]) && Owns(w.handlers[j])
    ensures w.handlers[i].req.key != w.handlers[j].req.key
    ensures Done(w.sys, w.handlers[i].insert)
  {
    hide Carrying, Possible, KeyFine;
    PossibleIsConsistent(w);
    assert HandlerFine(w.sys, w.handlers[i]) && HandlerFine(w.sys, w.handlers[j]);
    assert w.handlers[i].req.key == w.handlers[j].req.key ==>
        Won(w, i, w.handlers[i].req.key) && Won(w, j, w.handlers[i].req.key);
  }

  /** A completed record never changes again, although Complete has no guard on the status. */
  lemma CompletedIsFinal(w: World, m: Move, key: string)
    requires Possible(w) && Enabled(w, m) && key in w.sys.db.keys && w.sys.db.keys[key].status == Completed
    ensures key in Take(w, m).sys.db.keys && Take(w, m).sys.db.keys[key] == w.sys.db.keys[key]
  {
    PossibleIsConsistent(w);
    PossibleIsTwoPhase(w);
    hide Possible, Consistent, Next;
    var a := StepOf(w, m);
    if a.Some? {
      StepKind(w.sys, a.value);
      if !Quietly(w.sys, Next(w.sys, a.value)) {
        CommitKeepsCompleted(w, Next(w.sys, a.value), a.value.i, key);
      }
    }
  }

  lemma PossibleIsTwoPhase(w: World)
    requires Possible(w)
    ensures TwoPhase(w.sys)
  {
    var ext: bool, moves: seq<Move> :| w == Play(EmptyWorld(ext), moves);
    hide *;
    var actions := PlayIsRun(ext, moves);
    RunIsSerial(EmptyDb(ext), actions);
  }

  lemma CommitKeepsCompleted(w: World, t: Sys, k: nat, key: string)
    requires Consistent(w) && Commits(w.sys, t, k) && key in w.sys.db.keys && w.sys.db.keys[key].status == Completed
    ensures key in t.db.keys && t.db.keys[key] == w.sys.db.keys[key]
  {
    hide Apply, Carrying, KeyFine;
    CommitEffect(w.sys.db, w.sys.procs[k].prog);
    if IsKeyed(w.sys.procs[k].prog) {
      CallerOf(w, k);
      assert HandlerFine(w.sys, w.handlers[w.callers[k]]);
    }
  }

  /**
   * The stored status is the truth, exactly but for one case: it is 201 iff a transfer carries the key and the
   * owner got its reply. A transfer whose commit succeeded but whose reply got lost is recorded as failed.
   * And a stored 201 carries the one transfer of the key.
   */
  lemma StoredStatusIsTrue(w: World, key: string) returns (owner: nat)
    requires Possible(w) && key in w.sys.db.keys && w.sys.db.keys[key].status == Completed
    ensures owner < |w.handlers| && w.handlers[owner].req.key == key && Owns(w.handlers[owner])
    ensures w.sys.db.keys[key].code == Some(CREATED) <==>
            Carrying(w.sys.db.transfers, key) == 1 && !w.handlers[owner].lost
    ensures w.sys.db.keys[key].code == Some(CREATED) ==>
              var t := TransferOf(w.handlers[owner].req);
              t in w.sys.db.transfers && w.sys.db.keys[key].response == Some(TransferObject(t))
  {
    hide Carrying, Possible;
    PossibleIsConsistent(w);
    assert KeyFine(w, key);
    owner :| Won(w, owner, key);
    assert HandlerFine(w.sys, w.handlers[owner]);
  }

  predicate Final(w: World, i: nat, key: string) {
    i < |w.handlers| && w.handlers[i].req.key == key && w.handlers[i].at.Replied? && w.handlers[i].at.kind != NotFinal
  }

  /** A final answer is the owner's answer: as sent to the owner itself, and as stored to everyone else. */
  lemma FinalAnswer(w: World, i: nat, key: string) returns (owner: nat)
    requires Possible(w) && Final(w, i, key)
    ensures owner < |w.handlers| && Won(w, owner, key) && w.handlers[owner].answer.Some?
    ensures var a := w.handlers[owner].answer.value;
            && w.handlers[i].at.code == Code(a)
            && w.handlers[i].at.body == if w.handlers[i].at.kind == First then Sent(a) else Json(Stored(a))
  {
    hide Carrying, Possible, Code, Sent, Stored;
    PossibleIsConsistent(w);
    assert HandlerFine(w.sys, w.handlers[i]) && KeyFine(w, key);
    owner :| Won(w, owner, key);
    assert HandlerFine(w.sys, w.handlers[owner]);
    assert w.handlers[i].at.kind == First ==> Won(w, i, key);
  }

  /** Every request with the same key that gets a final answer gets the same code. */
  lemma SameCode(w: World, i: nat, j: nat, key: string)
    requires Possible(w) && Final(w, i, key) && Final(w, j, key)
    ensures w.handlers[i].at.code == w.handlers[j].at.code
  {
    var a := SameOwner(w, i, j, key);
  }

  lemma SameOwner(w: World, i: nat, j: nat, key: string) returns (a: Answer)
    requires Possible(w) && Final(w, i, key) && Final(w, j, key)
    ensures w.handlers[i].at.code == Code(a) == w.handlers[j].at.code
    ensures w.handlers[i].at.body == if w.handlers[i].at.kind == First then Sent(a) else Json(Stored(a))
    ensures w.handlers[j].at.body == if w.handlers[j].at.kind == First then Sent(a) else Json(Stored(a))
  {
    var o := FinalAnswer(w, i, key);
    var o' := FinalAnswer(w, j, key);
    PossibleIsConsistent(w);
    a := w.handlers[o].answer.value;
    hide Possible, KeyFine, HandlerFine, CallersFine, Won, Code, Sent, Stored;
    assert o == o';
  }

  /** Any two replays have the same body. */
  lemma ReplaysAgree(w: World, i: nat, j: nat, key: string)
    requires Possible(w) && Final(w, i, key) && Final(w, j, key)
    requires w.handlers[i].at.kind == Replay && w.handlers[j].at.kind == Replay
    ensures w.handlers[i].at.body == w.handlers[j].at.body
  {
    hide Possible, Code, Sent, Stored;
    var a := SameOwner(w, i, j, key);
  }

  /** A replay has the body the first caller was sent exactly when the code is 201. */
  lemma ReplayFaithfulIff(w: World, i: nat, j: nat, key: string)
    requires Possible(w) && Final(w, i, key) && Final(w, j, key)
    requires w.handlers[i].at.kind == First && w.handlers[j].at.kind == Replay
    ensures w.handlers[i].at.body == w.handlers[j].at.body <==> w.handlers[i].at.code == CREATED
  {
    hide Possible;
    var a := SameOwner(w, i, j, key);
  }

  /** The owner's own reply: 403 without a transfer, 201 with the transfer it made, 400 with an error's text; and what
      the record says, once it is completed. */
  lemma FirstReply(w: World, i: nat)
    requires Possible(w) && i < |w.handlers| && w.handlers[i].at.Replied? && w.handlers[i].at.kind == First
    ensures var h, q := w.handlers[i], w.handlers[i].req;
            var made := Transfer(q.tid, q.source, q.destination, q.amount, q.currency, q.key);
            && (h.at.code == 403 || h.at.code == 400 || h.at.code == 201)
            && (h.at.code == 403 <==> h.transfer.None?)
            && (h.at.code == 201 <==> Done(w.sys, h.transfer) && !h.lost)
            && (h.at.code == 403 ==> h.at.body == Text("forbidden"))
            && (h.at.code == 400 ==> h.at.body.Text?)
            && (h.at.code == 201 ==> h.at.body == Json(TransferObject(made)) && made in w.sys.db.transfers)
    ensures var h := w.handlers[i];
            && h.req.key in w.sys.db.keys
            && var rec := w.sys.db.keys[h.req.key];
               rec.status == Completed ==>
                 && rec.code == Some(h.at.code)
                 && (h.at.code == 403 ==> rec.response == Some(ErrorObject("unauthorized access to source wallet")))
                 && (h.at.code == 400 ==> rec.response == Some(ErrorObject(h.at.body.text)))
                 && (h.at.code == 201 ==> rec.response.Some? && h.at.body == Json(rec.response.value))
  {
    hide Carrying, Possible;
    PossibleIsConsistent(w);
    assert HandlerFine(w.sys, w.handlers[i]);
    hide Consistent;
  }

  /** The reply to a request whose INSERT reported an error: an error if there is no record, a conflict while it is in
      progress, and otherwise the record, code and answer. */
  lemma ReadReply(w: World, i: nat)
    requires Possible(w) && Enabled(w, Read(i))
    ensures var key, at := w.handlers[i].req.key, Take(w, Read(i)).handlers[i].at;
            && (key !in w.sys.db.keys ==> at == Replied(500, Text("internal server error"), NotFinal))
            && (key in w.sys.db.keys && w.sys.db.keys[key].status == InProgress ==>
                  at == Replied(409, Text("request is currently in progress"), NotFinal))
            && (key in w.sys.db.keys && w.sys.db.keys[key].status == Completed ==>
                  && w.sys.db.keys[key].code.Some? && w.sys.db.keys[key].response.Some?
                  && at == Replied(w.sys.db.keys[key].code.value, Json(w.sys.db.keys[key].response.value), Replay))
  {
    hide Possible;
    PossibleIsConsistent(w);
    var key := w.handlers[i].req.key;
    if key in w.sys.db.keys && w.sys.db.keys[key].status == Completed {
      RecordComplete(w, key);
    }
    hide Consistent;
  }

  /** What a handler makes of its calls' replies: it owns its key iff it heard that its INSERT committed, reports the
      transfer iff it heard that it committed, and answers however its UPDATE went. */
  lemma RepliesHeard(w: World, i: nat, lost: bool, text: string)
    ensures Enabled(w, InsertReply(i, lost)) ==>
              var at := Take(w, InsertReply(i, lost)).handlers[i].at;
              && (at == Owner <==> !lost && Done(w.sys, w.handlers[i].insert))
              && (at == Conflicted <==> lost || !Done(w.sys, w.handlers[i].insert))
    ensures Enabled(w, TransferReply(i, lost, text)) ==>
              var h, q := Take(w, TransferReply(i, lost, text)).handlers[i], w.handlers[i].req;
              && h.at == Completing && h.lost == lost
              && (!lost && Done(w.sys, w.handlers[i].transfer) ==>
                    h.answer == Some(Made(Transfer(q.tid, q.source, q.destination, q.amount, q.currency, q.key))))
              && (lost || !Done(w.sys, w.handlers[i].transfer) ==> h.answer == Some(Rejected(text)))
    ensures Enabled(w, CompleteReply(i, lost)) ==>
              var at := Take(w, CompleteReply(i, lost)).handlers[i].at; at.Replied? && at.kind == First
  {
  }
}
