/**
 * What row locks buy: a running call's local state is always what it would be
 * had the call started just now and run alone on the committed tables.
 */
module Isolation {
  import opened Base
  import opened LedgerModel
  import opened Tables
  import opened Programs
  import opened Interleaving

  /** The local state after running the first n statements alone. */
  function Replay(db: Db, p: Program, n: nat): Result<Local, Error> {
    if n == 0 then Ok(FRESH)
    else
      match Replay(db, p, n - 1)
      case Err(e) => Err(e)
      case Ok(l) => Execute(View(db, l.pend), p, l)
  }

  lemma {:induction false} ReplayPc(db: Db, p: Program, n: nat)
    ensures Replay(db, p, n).Ok? ==> Replay(db, p, n).value.pc == n
  {
    hide Body, Want, View;
    if n > 0 {
      ReplayPc(db, p, n - 1);
    }
  }

  lemma {:induction false} ReplayPrefix(db: Db, p: Program, n: nat, m: nat)
    requires n <= m
    ensures Replay(db, p, n).Err? ==> Replay(db, p, m) == Replay(db, p, n)
    decreases m
  {
    if n < m {
      ReplayPrefix(db, p, n, m - 1);
    }
  }

  // ---- Two table states that look the same to the holder of some locks ----

  /** What a lock protects is the same in both states. */
  predicate SameUnder(v: Db, w: Db, lock: Lock) {
    match lock
    case IdemRow(k) => (k in v.keys <==> k in w.keys) && (k in v.keys ==> v.keys[k] == w.keys[k])
    case HookRow(k) => HasHook(v, k) <==> HasHook(w, k)
    case PaymentRow(id) => (id in v.payments <==> id in w.payments) && (id in v.payments ==> v.payments[id] == w.payments[id])
    case ReferenceRow(r) => r in v.references <==> r in w.references
    case AccountRow(id) => id in v.accounts <==> id in w.accounts
    case WalletRow(id, mode) =>
      mode != KeyShare ==> (id in v.wallets <==> id in w.wallets) && (id in v.wallets ==> v.wallets[id] == w.wallets[id])
    case TransferRow(id) => HasTransfer(v, id) <==> HasTransfer(w, id)
    case LedgerRow(id) => HasLedgerTxn(v, id) <==> HasLedgerTxn(w, id)
  }

  /** Rows are never deleted and their identifying columns never change. */
  ghost predicate Grows(v: Db, w: Db) {
    && v.accounts.Keys <= w.accounts.Keys
    && v.keys.Keys <= w.keys.Keys
    && (forall id :: id in v.wallets ==> id in w.wallets && w.wallets[id].account == v.wallets[id].account)
    && (forall id :: id in v.payments ==> id in w.payments && w.payments[id].wallet == v.payments[id].wallet)
    && (forall r :: r in v.references ==> r in w.references && w.references[r] == v.references[r])
    && (forall id :: HasLedgerTxn(v, id) ==> HasLedgerTxn(w, id))
  }

  ghost predicate Agree(v: Db, w: Db, held: set<Lock>) {
    Grows(v, w) && forall lock :: lock in held ==> SameUnder(v, w, lock)
  }

  /** Whether the holder of these locks may write what the lock protects. */
  predicate Guarded(held: set<Lock>, lock: Lock) {
    if lock.WalletRow? then WalletRow(lock.wid, ForUpdate) in held || WalletRow(lock.wid, NoKeyUpdate) in held
    else lock in held
  }

  /** From db to v, only rows under the held locks were written. */
  ghost predicate ChangesOnly(db: Db, v: Db, held: set<Lock>) {
    Grows(db, v) && forall lock :: !Guarded(held, lock) ==> SameUnder(db, v, lock)
  }

  predicate Disjoint(a: set<Lock>, b: set<Lock>) {
    forall x, y :: x in a && y in b ==> !Conflict(x, y)
  }

  /** One call's writes are invisible to another that holds non-conflicting locks. */
  lemma DisjointAgree(db: Db, v: Db, mine: set<Lock>, theirs: set<Lock>)
    requires ChangesOnly(db, v, mine) && Disjoint(mine, theirs)
    ensures Agree(db, v, theirs)
  {
    forall lock | lock in theirs ensures SameUnder(db, v, lock) {
      if Guarded(mine, lock) && (lock.WalletRow? ==> lock.mode != KeyShare) {
        var x :| x in mine && (x == lock || (lock.WalletRow? && x.WalletRow? && x.wid == lock.wid && x.mode != KeyShare));
        assert Conflict(x, lock);
      }
    }
  }

  // ---- Writes ----

  lemma MembersAfter(v: Db, x: Write)
    ensures forall id :: HasLedgerTxn(ApplyWrite(v, x), id) <==> HasLedgerTxn(v, id) || (x.AddLedgerTxn? && x.txn.id == id)
    ensures forall id :: HasTransfer(ApplyWrite(v, x), id) <==> HasTransfer(v, id) || (x.AddTransfer? && x.transfer.id == id)
    ensures forall k :: HasHook(ApplyWrite(v, x), k) <==> HasHook(v, k) || (x.AddHook? && x.hook.key == k)
  {
    var w := ApplyWrite(v, x);
    assert x.AddLedgerTxn? ==> x.txn in w.ledger;
    assert x.AddTransfer? ==> x.transfer in w.transfers;
    assert x.AddHook? ==> x.hook in w.hooks;
  }

  lemma SameUnderWrite(v: Db, w: Db, lock: Lock, x: Write)
    requires SameUnder(v, w, lock)
    ensures SameUnder(ApplyWrite(v, x), ApplyWrite(w, x), lock)
  {
    MembersAfter(v, x);
    MembersAfter(w, x);
  }

  lemma GrowsWrite(v: Db, w: Db, x: Write)
    requires Grows(v, w)
    ensures Grows(ApplyWrite(v, x), ApplyWrite(w, x))
  {
    MembersAfter(v, x);
    MembersAfter(w, x);
  }

  lemma AgreeWrite(v: Db, w: Db, held: set<Lock>, x: Write)
    requires Agree(v, w, held)
    ensures Agree(ApplyWrite(v, x), ApplyWrite(w, x), held)
  {
    GrowsWrite(v, w, x);
    forall lock | lock in held ensures SameUnder(ApplyWrite(v, x), ApplyWrite(w, x), lock) {
      SameUnderWrite(v, w, lock, x);
    }
  }

  lemma {:induction false} AgreeView(v: Db, w: Db, held: set<Lock>, pend: seq<Write>)
    requires Agree(v, w, held)
    ensures Agree(View(v, pend), View(w, pend), held)
  {
    if pend != [] {
      AgreeView(v, w, held, pend[..|pend| - 1]);
      AgreeWrite(View(v, pend[..|pend| - 1]), View(w, pend[..|pend| - 1]), held, pend[|pend| - 1]);
    }
  }

  // ---- A statement that succeeded would do the same on any state that agrees ----

  /** Which variables are set at each statement, and that the rows they came from still exist. */
  predicate Shape(v: Db, p: Program, l: Local) {
    && (p.RunTransfer? && l.pc >= 1 ==> p.source != p.destination && p.amount > 0)
    && (p.RunTransfer? && l.pc >= 2 ==> l.first.Some? && l.first.value.id == FirstLock(p) && FirstLock(p) in v.wallets)
    && (p.RunTransfer? && l.pc >= 3 ==> l.second.Some? && l.second.value.id == SecondLock(p) && SecondLock(p) in v.wallets)
    && (p.RunWebhook? && l.pc >= 2 ==>
          l.found.Some? && l.found.value.pid in v.payments && l.found.value.payment.wallet in v.wallets)
    && (p.CompleteKey? ==> p.key in v.keys)
  }

  lemma ShapeKept(v: Db, p: Program, l: Local, m: Local)
    requires Shape(v, p, l) && Execute(v, p, l) == Ok(m)
    ensures Shape(v, p, m)
  {
  }

  lemma ShapeGrows(v: Db, w: Db, p: Program, l: Local)
    requires Shape(v, p, l) && Grows(v, w)
    ensures Shape(w, p, l)
  {
  }

  lemma TransferFrame(v: Db, w: Db, p: Program, l: Local, m: Local)
    requires p.RunTransfer? && l.pc < Length(p) && Shape(v, p, l)
    requires Execute(v, p, l) == Ok(m) && Agree(v, w, m.held)
    ensures Execute(w, p, l) == Ok(m)
  {
    hide TransferBody, TransferWant, Shape, Agree;
    TransferWantFrame(v, w, p, l, m);
    TransferBodyFrame(v, w, p, l, m);
  }

  lemma TransferWantFrame(v: Db, w: Db, p: Program, l: Local, m: Local)
    requires p.RunTransfer? && Shape(v, p, l) && Execute(v, p, l) == Ok(m) && Agree(v, w, m.held)
    ensures TransferWant(w, p, l) == TransferWant(v, p, l)
    ensures TransferWant(v, p, l).Some? ==> SameUnder(v, w, TransferWant(v, p, l).value)
  {
    hide BalanceStatement, EntriesStatement, LedgerCheck, Pair;
    var want := TransferWant(v, p, l);
    if want.Some? {
      WantedIsSame(v, w, l, m, want.value);
    }
  }

  lemma TransferBodyFrame(v: Db, w: Db, p: Program, l: Local, m: Local)
    requires p.RunTransfer? && l.pc < Length(p) && Shape(v, p, l)
    requires Execute(v, p, l) == Ok(m) && Agree(v, w, m.held)
    requires TransferWant(v, p, l).Some? ==> SameUnder(v, w, TransferWant(v, p, l).value)
    ensures TransferBody(w, p, l) == TransferBody(v, p, l)
  {
    hide LedgerCheck, Pair, AddToBalance;
    if l.pc == 4 {
      SameBalance(v, w, p.source, 0 - (p.amount as int));
    } else if l.pc == 5 {
      SameBalance(v, w, p.destination, p.amount);
    } else if l.pc == 8 {
      SameEntries(v, w, TransferEntries(p, l));
    }
    hide InsertEntriesError;
  }

  lemma SameBalance(v: Db, w: Db, wid: Id, delta: int)
    requires wid in v.wallets && wid in w.wallets && v.wallets[wid] == w.wallets[wid]
    ensures AddToBalance(v, wid, delta) == AddToBalance(w, wid, delta)
  {
  }

  lemma SameEntries(v: Db, w: Db, es: seq<Entry>)
    requires Grows(v, w) && InsertEntriesError(v, es).None?
    ensures InsertEntriesError(w, es).None?
  {
  }

  lemma WebhookFrame(v: Db, w: Db, p: Program, l: Local, m: Local)
    requires p.RunWebhook? && l.pc < Length(p) && Shape(v, p, l)
    requires Execute(v, p, l) == Ok(m) && Agree(v, w, m.held)
    ensures Execute(w, p, l) == Ok(m)
  {
    hide LedgerCheck;
    var want := WebhookWant(v, p, l);
    if want.Some? {
      WantedIsSame(v, w, l, m, want.value);
    }
  }

  lemma WantedIsSame(v: Db, w: Db, l: Local, m: Local, want: Lock)
    requires Covers(l.held, want) || want in m.held
    requires l.held <= m.held && Agree(v, w, m.held)
    ensures SameUnder(v, w, want)
  {
    if want !in m.held {
      assert SameUnder(v, w, WalletRow(want.wid, ForUpdate));
    }
  }

  lemma ExecuteFrame(v: Db, w: Db, p: Program, l: Local, m: Local)
    requires l.pc < Length(p) && Shape(v, p, l)
    requires Execute(v, p, l) == Ok(m) && Agree(v, w, m.held)
    ensures Execute(w, p, l) == Ok(m)
  {
    if p.RunTransfer? {
      TransferFrame(v, w, p, l, m);
    } else if p.RunWebhook? {
      WebhookFrame(v, w, p, l, m);
    } else {
      var want := Want(v, p, l);
      if want.Some? {
        WantedIsSame(v, w, l, m, want.value);
      }
    }
  }

  // ---- Statements write only under their locks ----

  /** The lock that protects the row a write goes to, if the row can be seen by others before commit. */
  predicate Protected(v: Db, x: Write, held: set<Lock>) {
    match x
    case PutAccount(id, _) => AccountRow(id) in held && id !in v.accounts
    case PutWallet(id, w) => Guarded(held, WalletRow(id, NoKeyUpdate)) && (id in v.wallets ==> w.account == v.wallets[id].account)
    case PutPayment(id, q) => PaymentRow(id) in held && (id in v.payments ==> q.wallet == v.payments[id].wallet)
    case PutReference(r, id) => ReferenceRow(r) in held && r !in v.references
    case PutKey(k, _) => IdemRow(k) in held
    case AddHook(h) => HookRow(h.key) in held
    case AddTransfer(t) => TransferRow(t.id) in held
    case AddLedgerTxn(y) => LedgerRow(y.id) in held
    case AddEntries(_) => true
    case AddEvent(_) => true
  }

  lemma WriteElsewhere(v: Db, x: Write, held: set<Lock>, lock: Lock)
    requires Protected(v, x, held) && !Guarded(held, lock)
    ensures SameUnder(v, ApplyWrite(v, x), lock)
  {
    MembersAfter(v, x);
  }

  lemma WriteGrows(v: Db, x: Write, held: set<Lock>)
    requires Protected(v, x, held)
    ensures Grows(v, ApplyWrite(v, x))
  {
    MembersAfter(v, x);
  }

  lemma GrowsTransitive(u: Db, v: Db, w: Db)
    requires Grows(u, v) && Grows(v, w)
    ensures Grows(u, w)
  {
  }

  lemma ProtectedWrite(db: Db, v: Db, held: set<Lock>, x: Write)
    requires ChangesOnly(db, v, held) && Protected(v, x, held)
    ensures ChangesOnly(db, ApplyWrite(v, x), held)
  {
    WriteGrows(v, x, held);
    GrowsTransitive(db, v, ApplyWrite(v, x));
    forall lock | !Guarded(held, lock) ensures SameUnder(db, ApplyWrite(v, x), lock) {
      assert SameUnder(db, v, lock);
      WriteElsewhere(v, x, held, lock);
    }
  }

  lemma ChangesOnlyMore(db: Db, v: Db, held: set<Lock>, more: set<Lock>)
    requires ChangesOnly(db, v, held) && held <= more
    ensures ChangesOnly(db, v, more)
  {
  }

  /** A statement adds at most one write, and that write is protected by a lock held afterwards. */
  lemma StatementProtected(v: Db, p: Program, l: Local, m: Local)
    requires l.pc < Length(p) && Shape(v, p, l) && Execute(v, p, l) == Ok(m)
    ensures WritesProtected(v, l, m)
  {
    hide TransferBody, TransferWant, WebhookBody, WebhookWant, Shape;
    if p.RunTransfer? {
      TransferProtected(v, p, l, m);
    } else if p.RunWebhook? {
      WebhookProtected(v, p, l, m);
    }
  }

  predicate WritesProtected(v: Db, l: Local, m: Local) {
    m.pend == l.pend || (|m.pend| > 0 && m.pend == l.pend + [m.pend[|m.pend| - 1]] && Protected(v, m.pend[|m.pend| - 1], m.held))
  }

  lemma TransferProtected(v: Db, p: Program, l: Local, m: Local)
    requires p.RunTransfer? && l.pc < Length(p) && Shape(v, p, l) && Execute(v, p, l) == Ok(m)
    ensures WritesProtected(v, l, m)
  {
    hide LedgerCheck, InsertEntriesError;
  }

  lemma WebhookProtected(v: Db, p: Program, l: Local, m: Local)
    requires p.RunWebhook? && l.pc < Length(p) && Shape(v, p, l) && Execute(v, p, l) == Ok(m)
    ensures WritesProtected(v, l, m)
  {
    hide LedgerCheck, InsertEntriesError;
  }

  lemma ExecuteChanges(db: Db, p: Program, l: Local, m: Local)
    requires l.pc < Length(p) && Shape(View(db, l.pend), p, l) && ChangesOnly(db, View(db, l.pend), l.held)
    requires Execute(View(db, l.pend), p, l) == Ok(m)
    ensures ChangesOnly(db, View(db, m.pend), m.held)
    ensures Shape(View(db, m.pend), p, m)
  {
    var v := View(db, l.pend);
    StatementProtected(v, p, l, m);
    ChangesOnlyMore(db, v, l.held, m.held);
    ShapeKept(v, p, l, m);
    if m.pend != l.pend {
      var x := m.pend[|m.pend| - 1];
      ViewAppend(db, l.pend, x);
      ProtectedWrite(db, v, m.held, x);
      WriteGrows(v, x, m.held);
      ShapeGrows(v, ApplyWrite(v, x), p, m);
    }
  }

  predicate Started(db: Db, p: Program) {
    p.CompleteKey? ==> p.key in db.keys
  }

  /** What holds of a call that has run some statements: its variables, and that it wrote only under its locks. */
  ghost predicate Sound(db: Db, p: Program, l: Local) {
    Shape(View(db, l.pend), p, l) && ChangesOnly(db, View(db, l.pend), l.held)
  }

  lemma ReplayStep(db: Db, p: Program, n: nat)
    requires n > 0 && Replay(db, p, n).Ok?
    ensures Replay(db, p, n - 1).Ok?
    ensures Replay(db, p, n) == Execute(View(db, Replay(db, p, n - 1).value.pend), p, Replay(db, p, n - 1).value)
  {
    hide Body, Want;
  }

  lemma {:induction false} ReplayShape(db: Db, p: Program, n: nat)
    requires n <= Length(p) && Started(db, p) && Replay(db, p, n).Ok?
    ensures Replay(db, p, n).value.pc == n && Sound(db, p, Replay(db, p, n).value)
  {
    hide Body, Want;
    ReplayPc(db, p, n);
    if n == 0 {
      FreshIsSound(db, p);
    } else {
      ReplayStep(db, p, n);
      var l, m := Replay(db, p, n - 1).value, Replay(db, p, n).value;
      ReplayShape(db, p, n - 1);
      ExecuteSound(db, p, l, m);
    }
  }

  lemma FreshIsSound(db: Db, p: Program)
    requires Started(db, p)
    ensures Sound(db, p, FRESH)
  {
  }

  lemma ExecuteSound(db: Db, p: Program, l: Local, m: Local)
    requires l.pc < Length(p) && Sound(db, p, l) && Execute(View(db, l.pend), p, l) == Ok(m)
    ensures Sound(db, p, m)
  {
    hide Body, Want;
    ExecuteChanges(db, p, l, m);
  }

  /** The heart of two-phase locking: what was replayed on db replays identically on any state
      another call's commit can lead to, because the locks held so far keep the rows read so far. */
  lemma {:induction false} ReplayFrame(db: Db, db': Db, p: Program, n: nat)
    requires n <= Length(p) && Started(db, p) && Replay(db, p, n).Ok?
    requires Agree(db, db', Replay(db, p, n).value.held)
    ensures Replay(db', p, n) == Replay(db, p, n)
  {
    hide Body, Want;
    if n > 0 {
      ReplayStep(db, p, n);
      var l, m := Replay(db, p, n - 1).value, Replay(db, p, n).value;
      assert l.held <= m.held;
      ReplayFrame(db, db', p, n - 1);
      ReplayShape(db, p, n - 1);
      AgreeView(db, db', m.held, l.pend);
      ExecuteFrame(View(db, l.pend), View(db', l.pend), p, l, m);
    }
  }
}
