/** Runs of the transfer handler that show where its promises end. */
module HandlerRuns {
  import opened Base
  import opened LedgerModel
  import opened Tables
  import opened Programs
  import opened Interleaving
  import opened Isolation
  import opened Alone
  import opened Serializability
  import opened Idempotency
  import opened OncePerKey
  import opened Witness

  /** One more move of a possible run. */
  lemma Extend(w: World, m: Move) returns (v: World)
    requires Possible(w) && Enabled(w, m)
    ensures v == Take(w, m) && Possible(v)
  {
    v := Take(w, m);
    var ext: bool, moves: seq<Move> :| w == Play(EmptyWorld(ext), moves);
    hide Take, Enabled;
    assert (moves + [m])[..|moves|] == moves;
    assert v == Play(EmptyWorld(ext), moves + [m]);
  }

  lemma {:induction false} ExtendAll(w: World, actions: seq<Action>) returns (v: World)
    requires Possible(w) && forall a :: a in actions ==> !a.Spawn?
    ensures v == w.(sys := Run(w.sys, actions)) && Possible(v)
  {
    hide Possible, Next;
    if actions == [] {
      v := w;
    } else {
      v := ExtendAll(w, actions[..|actions| - 1]);
      v := Extend(v, Elsewhere(actions[|actions| - 1]));
    }
  }

  /** With nobody else running, a fresh call that would succeed can be run to its commit. */
  lemma CallCommits(w: World, k: nat, p: Program) returns (v: World)
    requires Possible(w) && k < |w.sys.procs| && w.sys.procs[k] == Running(p, FRESH) && Apply(w.sys.db, p).Ok?
    requires forall j :: 0 <= j < |w.sys.procs| && j != k ==> !w.sys.procs[j].Running?
    ensures Possible(v)
    ensures v == w.(sys := Sys(Apply(w.sys.db, p).value, w.sys.procs[k := Finished(p)], w.sys.log + [p]))
  {
    hide Possible, Body, Want, Apply;
    RunsAsSpecified(w.sys.db, p);
    var n := Length(p);
    AloneSteps(w.sys, k, p, n);
    v := ExtendAll(w, Advances(k, n));
    assert CanAdvance(v.sys, k);
    assert v.sys.procs[k := Finished(p)] == w.sys.procs[k := Finished(p)];
    v := Extend(v, Elsewhere(Advance(k)));
  }

  /** A move that makes a call, and that call run to its commit. */
  lemma CallAndCommit(w: World, m: Move, p: Program) returns (v: World)
    requires Possible(w) && Quiet(w.sys) && Enabled(w, m) && Take(w, m).sys == Next(w.sys, Spawn(p))
    requires MaySpawn(w.sys.db, p) && Apply(w.sys.db, p).Ok?
    ensures Possible(v) && Quiet(v.sys) && v.handlers == Take(w, m).handlers
    ensures v.sys.db == Apply(w.sys.db, p).value && v.sys.procs == w.sys.procs + [Finished(p)]
  {
    hide Possible, Apply, Enabled, Take;
    v := Extend(w, m);
    var k := |w.sys.procs|;
    v := CallCommits(v, k, p);
    assert (w.sys.procs + [Running(p, FRESH)])[k := Finished(p)] == w.sys.procs + [Finished(p)];
  }

  // ---- A replay that differs from the first answer ----

  /** The INSERT of a fresh key: the handler comes to own it. */
  lemma Acquires(w: World, i: nat) returns (v: World)
    requires Possible(w) && Quiet(w.sys) && At(w, i, Arrived) && w.handlers[i].req.key !in w.sys.db.keys
    ensures Possible(v) && Quiet(v.sys)
    ensures var q, k := w.handlers[i].req, |w.sys.procs|;
            && v.handlers == w.handlers[i := w.handlers[i].(at := Owner, insert := Some(k))]
            && v.sys.db == w.sys.db.(keys := w.sys.db.keys[q.key := KeyRecord(InProgress, q.body, None, None)])
            && v.sys.procs == w.sys.procs + [Finished(AcquireKey(q.key, q.body))]
  {
    hide Possible, Quiet, Next;
    var q := w.handlers[i].req;
    v := CallAndCommit(w, CallInsert(i), AcquireKey(q.key, q.body));
    v := Extend(v, InsertReply(i, false));
  }

  /** An answer, recorded and sent. */
  lemma Answers(w: World, i: nat) returns (v: World)
    requires Possible(w) && Quiet(w.sys) && At(w, i, Completing) && w.handlers[i].answer.Some?
    requires w.handlers[i].req.key in w.sys.db.keys
    ensures Possible(v) && Quiet(v.sys)
    ensures var h, a, k := w.handlers[i], w.handlers[i].answer.value, |w.sys.procs|;
            && v.handlers == w.handlers[i := h.(at := Replied(Code(a), Sent(a), First), complete := Some(k))]
            && v.sys.db == w.sys.db.(keys := w.sys.db.keys[h.req.key :=
                             w.sys.db.keys[h.req.key].(status := Completed, response := Some(Stored(a)), code := Some(Code(a)))])
            && v.sys.procs == w.sys.procs + [Finished(CompleteKey(h.req.key, Stored(a), Code(a)))]
  {
    hide Possible, Quiet, Next, Code, Sent, Stored;
    var h, a := w.handlers[i], w.handlers[i].answer.value;
    v := CallAndCommit(w, CallComplete(i), CompleteKey(h.req.key, Stored(a), Code(a)));
    v := Extend(v, CompleteReply(i, false));
  }

  /** A later request with a completed key: its INSERT fails, and it is sent the record. */
  lemma IsReplayed(w: World, i: nat) returns (v: World)
    requires Possible(w) && Quiet(w.sys) && At(w, i, Arrived) && w.handlers[i].req.key in w.sys.db.keys
    ensures Possible(v) && |v.handlers| == |w.handlers| && (forall j :: 0 <= j < |w.handlers| && j != i ==> v.handlers[j] == w.handlers[j])
    ensures v.handlers[i].at == ReplyFrom(w.sys.db, w.handlers[i].req.key) && v.handlers[i].req == w.handlers[i].req
  {
    hide Possible, ReplyFrom;
    var k := |w.sys.procs|;
    v := Extend(w, CallInsert(i));
    assert CanAdvance(v.sys, k);
    v := Extend(v, Elsewhere(Advance(k)));
    assert v.sys.procs[k] == Aborted(AcquireKey(w.handlers[i].req.key, w.handlers[i].req.body), UniqueViolation);
    v := Extend(v, InsertReply(i, false));
    v := Extend(v, Read(i));
  }

  /** Any request for a wallet its caller may not use, sent twice: the first is told so in plain text, the second
      gets a different body, the recorded JSON. */
  lemma DeniedReplayDiffers(q: Request) returns (w: World)
    ensures Possible(w) && Final(w, 0, q.key) && Final(w, 1, q.key)
    ensures w.handlers[0].at == Replied(FORBIDDEN, Text("forbidden"), First)
    ensures w.handlers[1].at == Replied(FORBIDDEN, Json(ErrorObject("unauthorized access to source wallet")), Replay)
  {
    w := EmptyWorld(false);
    EmptyIsPossible(false);
    hide Possible, Quiet;
    w := Extend(w, Arrive(q));
    w := Acquires(w, 0);
    w := Extend(w, CheckWallet(0, false));
    w := Answers(w, 0);
    w := Extend(w, Arrive(q));
    w := IsReplayed(w, 1);
  }

  lemma EmptyIsPossible(ext: bool)
    ensures Possible(EmptyWorld(ext)) && Quiet(EmptyWorld(ext).sys)
  {
    assert Play(EmptyWorld(ext), []) == EmptyWorld(ext);
  }

  // ---- A transfer recorded as failed ----

  /** Operations of the other services, run one at a time before any handler arrives. */
  lemma {:induction false} Beforehand(ext: bool, ps: seq<Program>) returns (w: World)
    requires ApplyAll(EmptyDb(ext), ps).Some? && Startable(EmptyDb(ext), ps) && forall p :: p in ps ==> !IsKeyed(p)
    ensures Possible(w) && Quiet(w.sys) && w.handlers == [] && w.sys.db == ApplyAll(EmptyDb(ext), ps).value
  {
    hide Possible, Quiet, Apply, MaySpawn, EmptyDb;
    if ps == [] {
      w := EmptyWorld(ext);
      EmptyIsPossible(ext);
    } else {
      var n := |ps| - 1;
      w := Beforehand(ext, ps[..n]);
      w := CallAndCommit(w, Elsewhere(Spawn(ps[n])), ps[n]);
    }
  }

  const REQUEST := Request("key_1", "{}", 1, 2, HALF, "USD", 7, false, 31, 22)

  lemma StoryIsElsewhere()
    ensures forall p :: p in STORY[..4] ==> !IsKeyed(p)
  {
    assert STORY[..4] == [STORY[0], STORY[1], STORY[2], STORY[3]];
  }

  lemma RequestIsStory()
    ensures Paid().keys == map[] && MayUse(Keyed(), REQUEST) && ProgramOf(REQUEST) == STORY[5]
  {
  }

  lemma OneCarries(t: Transfer)
    ensures Carrying([t], t.key) == 1
  {
    assert [t][..0] == [];
  }

  /** Funded wallets, and the handler about to make its transfer. */
  lemma ReadyToTransfer() returns (w: World)
    ensures Possible(w) && Quiet(w.sys) && w.sys.db == Keyed() && |w.handlers| == 1
    ensures w.handlers[0].at == Cleared && w.handlers[0].alive && w.handlers[0].req == REQUEST && w.handlers[0].complete.None?
  {
    StoryPays();
    StoryIsElsewhere();
    RequestIsStory();
    hide Possible, Quiet, Apply, Paid, Startable, MayUse;
    w := Beforehand(true, STORY[..4]);
    w := Extend(w, Arrive(REQUEST));
    w := Acquires(w, 0);
    w := Extend(w, CheckWallet(0, false));
  }

  /** A transfer that commits, and whose handler never hears of it. */
  lemma LosesReply(w: World, i: nat, text: string) returns (v: World)
    requires Possible(w) && Quiet(w.sys) && At(w, i, Cleared) && Apply(w.sys.db, ProgramOf(w.handlers[i].req)).Ok?
    ensures Possible(v) && Quiet(v.sys) && v.sys.db == Apply(w.sys.db, ProgramOf(w.handlers[i].req)).value
    ensures v.handlers == w.handlers[i := w.handlers[i].(at := Completing, transfer := Some(|w.sys.procs|),
                                                         answer := Some(Rejected(text)), lost := true)]
  {
    hide Possible, Quiet, Apply, Next;
    v := CallAndCommit(w, CallTransfer(i), ProgramOf(w.handlers[i].req));
    v := Extend(v, TransferReply(i, true, text));
  }

  /** The transfer commits and the reply to its COMMIT gets lost: its caller is told 400, and so is the record,
      although the one transfer of the key is there. */
  lemma LostReplyIsRecordedAsFailure(text: string) returns (w: World)
    ensures Possible(w) && |w.handlers| == 1 && w.handlers[0].at == Replied(BAD_REQUEST, Text(text), First)
    ensures "key_1" in w.sys.db.keys && w.sys.db.keys["key_1"].code == Some(BAD_REQUEST)
    ensures Carrying(w.sys.db.transfers, "key_1") == 1
  {
    RequestIsStory();
    var db := StoryMoves();
    assert "key_1" in db.keys;
    OneCarries(db.transfers[0]);
    hide Possible, Quiet, Apply, Keyed, Paid, Carrying, MayUse, ProgramOf;
    w := ReadyToTransfer();
    w := LosesReply(w, 0, text);
    w := Answers(w, 0);
  }
}
