/** Every one-at-a-time execution is a schedule; and one that makes reconciliation fail with nothing wrong. */
module Witness {
  import opened Base
  import opened LedgerModel
  import opened Tables
  import opened Programs
  import opened Interleaving
  import opened Isolation
  import opened Alone
  import opened Serializability
  import opened Reconciliation
  import Safety

  predicate Quiet(s: Sys) {
    forall i :: 0 <= i < |s.procs| ==> !s.procs[i].Running?
  }

  function Advances(i: nat, n: nat): seq<Action> {
    seq(n, _ => Advance(i))
  }

  /** With nobody else running, n advances take a call through its first n statements. */
  lemma {:induction false} AloneSteps(s: Sys, i: nat, p: Program, n: nat)
    requires i < |s.procs| && s.procs[i] == Running(p, FRESH)
    requires forall j :: 0 <= j < |s.procs| && j != i ==> !s.procs[j].Running?
    requires n <= Length(p) && Replay(s.db, p, Length(p)).Ok?
    ensures Replay(s.db, p, n).Ok? && Replay(s.db, p, n).value.pc == n
    ensures Run(s, Advances(i, n)) == s.(procs := s.procs[i := Running(p, Replay(s.db, p, n).value)])
  {
    hide Execute, Next;
    ReplayPrefix(s.db, p, n, Length(p));
    ReplayPc(s.db, p, n);
    if n == 0 {
      assert s.procs[i := Running(p, FRESH)] == s.procs;
    } else {
      AloneSteps(s, i, p, n - 1);
      assert Advances(i, n)[..n - 1] == Advances(i, n - 1);
      var l, m := Replay(s.db, p, n - 1).value, Replay(s.db, p, n).value;
      var t := s.(procs := s.procs[i := Running(p, l)]);
      AloneStep(t, i, p, l, m);
      assert t.procs[i := Running(p, m)] == s.procs[i := Running(p, m)];
    }
  }

  lemma AloneStep(t: Sys, i: nat, p: Program, l: Local, m: Local)
    requires i < |t.procs| && t.procs[i] == Running(p, l) && l.pc < Length(p)
    requires forall j :: 0 <= j < |t.procs| && j != i ==> !t.procs[j].Running?
    requires Execute(View(t.db, l.pend), p, l) == Ok(m)
    ensures Next(t, Advance(i)) == t.(procs := t.procs[i := Running(p, m)])
  {
    hide Execute, Need;
  }

  /** From a quiet state, any operation that would succeed can be run to its commit. */
  lemma RunToCommit(s: Sys, p: Program) returns (actions: seq<Action>)
    requires Quiet(s) && MaySpawn(s.db, p) && Apply(s.db, p).Ok?
    ensures Run(s, actions).db == Apply(s.db, p).value && Quiet(Run(s, actions)) && Run(s, actions).log == s.log + [p]
  {
    hide Body, Want, Apply;
    RunsAsSpecified(s.db, p);
    var i := |s.procs|;
    var t := Next(s, Spawn(p));
    AloneSteps(t, i, p, Length(p));
    var u := Run(t, Advances(i, Length(p)));
    assert CanAdvance(u, i);
    actions := [Spawn(p)] + (Advances(i, Length(p)) + [Advance(i)]);
    RunConcat(t, Advances(i, Length(p)), [Advance(i)]);
    assert Run(u, [Advance(i)]) == Next(Run(u, [Advance(i)][..0]), Advance(i));
    RunConcat(s, [Spawn(p)], Advances(i, Length(p)) + [Advance(i)]);
    assert Run(s, [Spawn(p)]) == Next(Run(s, [Spawn(p)][..0]), Spawn(p));
  }

  lemma {:induction false} RunConcat(s: Sys, a: seq<Action>, b: seq<Action>)
    ensures Run(s, a + b) == Run(Run(s, a), b)
  {
    hide Next;
    if b == [] {
      assert a + b == a;
    } else {
      assert (a + b)[..|a + b| - 1] == a + b[..|b| - 1];
      RunConcat(s, a, b[..|b| - 1]);
    }
  }

  /** Each operation may be started on the tables its predecessors left. */
  predicate Startable(db: Db, ps: seq<Program>) {
    ps == [] ||
    (Startable(db, ps[..|ps| - 1])
     && ApplyAll(db, ps[..|ps| - 1]).Some? && MaySpawn(ApplyAll(db, ps[..|ps| - 1]).value, ps[|ps| - 1]))
  }

  /** The other half of serializability: the tables of every one-at-a-time execution are reachable. */
  lemma {:induction false} SerialIsReachable(ext: bool, ps: seq<Program>) returns (s: Sys)
    requires ApplyAll(EmptyDb(ext), ps).Some? && Startable(EmptyDb(ext), ps)
    ensures Reachable(s) && Quiet(s) && s.log == ps && s.db == ApplyAll(EmptyDb(ext), ps).value
  {
    var actions := ScheduleFor(ext, ps);
    s := Run(Start(EmptyDb(ext)), actions);
  }

  lemma {:induction false} ScheduleFor(ext: bool, ps: seq<Program>) returns (actions: seq<Action>)
    requires ApplyAll(EmptyDb(ext), ps).Some? && Startable(EmptyDb(ext), ps)
    ensures var s := Run(Start(EmptyDb(ext)), actions); Quiet(s) && s.log == ps && s.db == ApplyAll(EmptyDb(ext), ps).value
  {
    hide Apply, Next, EmptyDb;
    if ps == [] {
      actions := [];
    } else {
      var before := ScheduleFor(ext, ps[..|ps| - 1]);
      var more := RunToCommit(Run(Start(EmptyDb(ext)), before), ps[|ps| - 1]);
      actions := before + more;
      RunConcat(Start(EmptyDb(ext)), before, more);
      assert ps == ps[..|ps| - 1] + [ps[|ps| - 1]];
    }
  }

  // ---- Reconciliation can fail with nothing wrong ----

  const HALF: int64 := 0x4000_0000_0000_0000

  /** Two wallets, one settled payment of 2^62, moved on once: 2^63 of debits in all. */
  const STORY: seq<Program> := [
    CreateWallet(1, 11, 7, "USER", "USD"),
    CreateWallet(2, 12, 8, "USER", "USD"),
    CreatePayment(5, 1, HALF, "USD", true, "ext_1"),
    RunWebhook(HookKey("simulator", "evt_1"), "ext_1", Succeeded, 21),
    AcquireKey("key_1", "{}"),
    RunTransfer(1, 2, HALF, "USD", "key_1", 31, 22)]

  function Chapter(n: nat): Option<Db> {
    if n <= 6 then ApplyAll(EmptyDb(true), STORY[..n]) else None
  }

  lemma NextChapter(n: nat, db: Db, after: Db)
    requires n < 6 && Chapter(n) == Some(db) && Apply(db, STORY[n]) == Ok(after)
    requires MaySpawn(db, STORY[n]) && Startable(EmptyDb(true), STORY[..n])
    ensures Chapter(n + 1) == Some(after) && Startable(EmptyDb(true), STORY[..n + 1])
  {
    assert STORY[..n + 1][..n] == STORY[..n];
  }

  function Opening(): Db {
    EmptyDb(true).(
    accounts := map[EXTERNAL_ACCOUNT := Account("PLATFORM", ""), 11 := Account("USER", "USD"), 12 := Account("USER", "USD")],
    wallets := map[1 := Wallet(7, 11, "USD", 0, 0, Active), 2 := Wallet(8, 12, "USD", 0, 0, Active)])
  }

  lemma StoryOpens()
    ensures Chapter(2) == Some(Opening()) && Startable(EmptyDb(true), STORY[..2])
  {
    assert STORY[..0] == [];
    NextChapter(0, EmptyDb(true), Apply(EmptyDb(true), STORY[0]).value);
    NextChapter(1, Apply(EmptyDb(true), STORY[0]).value, Opening());
  }

  function Paid(): Db {
    var pay := Payment(1, HALF, "USD", Succeeded, "ext_1");
    Opening().(
    wallets := map[1 := Wallet(7, 11, "USD", HALF, 0, Active), 2 := Wallet(8, 12, "USD", 0, 0, Active)],
    payments := map[5 := pay],
    references := map["ext_1" := 5],
    hooks := [Hook(HookKey("simulator", "evt_1"), "ext_1", Succeeded)],
    ledger := [LedgerTxn(21, 5, PaymentTxn)],
    entries := Pair(21, EXTERNAL_ACCOUNT, 11, HALF, "USD"),
    outbox := [PaymentEvent(5, Succeeded, HALF, "USD")])
  }

  function Asked(): Db {
    Opening().(payments := map[5 := Payment(1, HALF, "USD", Processing, "ext_1")], references := map["ext_1" := 5])
  }

  lemma StoryAsks()
    ensures Apply(Opening(), STORY[2]) == Ok(Asked()) && MaySpawn(Opening(), STORY[2])
  {
  }

  lemma StorySettles()
    ensures Apply(Asked(), STORY[3]) == Ok(Paid()) && MaySpawn(Asked(), STORY[3])
  {
    assert FindPayment(Asked(), "ext_1") == Some(5);
    assert WebhookError(Asked(), STORY[3]).None?;
    assert WebhookEffect(Asked(), STORY[3]) == Paid();
  }

  lemma StoryPays()
    ensures Chapter(4) == Some(Paid()) && Startable(EmptyDb(true), STORY[..4])
  {
    hide *;
    StoryOpens();
    StoryAsks();
    NextChapter(2, Opening(), Asked());
    StorySettles();
    NextChapter(3, Asked(), Paid());
  }

  function Keyed(): Db {
    Paid().(keys := map["key_1" := KeyRecord(InProgress, "{}", None, None)])
  }

  lemma StoryAcquires()
    ensures Apply(Paid(), STORY[4]) == Ok(Keyed()) && MaySpawn(Paid(), STORY[4]) && MaySpawn(Keyed(), STORY[5])
  {
  }

  lemma StoryEnds() returns (db: Db)
    ensures Chapter(6) == Some(db) && Startable(EmptyDb(true), STORY)
    ensures Total(db.entries, Debit) == MAX_INT64 + 1
  {
    assert |STORY| == 6;
    assert STORY[..6] == STORY;
    hide *;
    StoryPays();
    StoryAcquires();
    NextChapter(4, Paid(), Keyed());
    db := StoryMoves();
    NextChapter(5, Keyed(), db);
    TwoPairs();
  }

  lemma StoryMoves() returns (db: Db)
    ensures Apply(Keyed(), STORY[5]) == Ok(db)
    ensures db.keys == Keyed().keys && db.transfers == [Transfer(31, 1, 2, HALF, "USD", "key_1")]
    ensures db.entries == Pair(21, EXTERNAL_ACCOUNT, 11, HALF, "USD") + Pair(22, 11, 12, HALF, "USD")
  {
    assert TransferError(Keyed(), STORY[5]).None?;
    db := TransferEffect(Keyed(), STORY[5]);
  }

  lemma TwoPairs()
    ensures Total(Pair(21, EXTERNAL_ACCOUNT, 11, HALF, "USD") + Pair(22, 11, 12, HALF, "USD"), Debit) == MAX_INT64 + 1
  {
    PairTotals([], 21, EXTERNAL_ACCOUNT, 11, HALF, "USD");
    assert [] + Pair(21, EXTERNAL_ACCOUNT, 11, HALF, "USD") == Pair(21, EXTERNAL_ACCOUNT, 11, HALF, "USD");
    PairTotals(Pair(21, EXTERNAL_ACCOUNT, 11, HALF, "USD"), 22, 11, 12, HALF, "USD");
  }

  /** A false alarm is possible: a reachable state whose books agree in every way, and a run on it that fails. */
  lemma FailsWithNothingWrong() returns (s: Sys)
    ensures Reachable(s) && MismatchedWallets(s.db) == {} && Imbalance(s.db) == 0
    ensures Verdict(s.db, s.db) == Report(RunFailed, 0, 0, 0)
  {
    var db := StoryEnds();
    assert STORY[..6] == STORY;
    s := SerialIsReachable(true, STORY);
    NothingWrong(s);
    ReachableVerdict(s, s);
  }

  lemma NothingWrong(s: Sys)
    requires Reachable(s)
    ensures MismatchedWallets(s.db) == {} && Imbalance(s.db) == 0
  {
    Safety.ReachableIsSafe(s);
  }
}
