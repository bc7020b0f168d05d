/** The ledger explained: every ledger transaction is one committed transfer or settled payment, and the other way round. */
module Bookings {
  import opened Base
  import opened LedgerModel
  import opened Tables
  import opened Programs
  import opened Interleaving
  import opened Serializability
  import opened Invariants
  import opened Effects
  import Safety

  /** The i-th ledger transaction has its two entries, a debit and a credit of the same money. */
  predicate BothSides(db: Db, i: nat)
    requires |db.entries| == 2 * |db.ledger| && i < |db.ledger|
  {
    var x, debit, credit := db.ledger[i], db.entries[2 * i], db.entries[2 * i + 1];
    && debit.txn == x.id && debit.direction == Debit && credit.txn == x.id && credit.direction == Credit
    && debit.amount == credit.amount && debit.currency == credit.currency
  }

  /** It moves the transfer's amount, in its currency, from its source's account to its destination's. */
  predicate BooksTransfer(db: Db, i: nat, t: Transfer)
    requires |db.entries| == 2 * |db.ledger| && i < |db.ledger|
  {
    var x, debit, credit := db.ledger[i], db.entries[2 * i], db.entries[2 * i + 1];
    && x.kind == TransferTxn && x.reference == t.id
    && t.source in db.wallets && debit.account == db.wallets[t.source].account
    && t.destination in db.wallets && credit.account == db.wallets[t.destination].account
    && debit.amount == t.amount && debit.currency == t.currency
  }

  /** It moves the payment's amount, in its currency, from the external account to its wallet's. */
  predicate BooksPayment(db: Db, i: nat, id: Id)
    requires |db.entries| == 2 * |db.ledger| && i < |db.ledger|
  {
    var x, debit, credit := db.ledger[i], db.entries[2 * i], db.entries[2 * i + 1];
    && x.kind == PaymentTxn && x.reference == id
    && id in db.payments && db.payments[id].status == Succeeded && db.payments[id].wallet in db.wallets
    && debit.account == 0 && credit.account == db.wallets[db.payments[id].wallet].account
    && debit.amount == db.payments[id].amount && debit.currency == db.payments[id].currency
  }

  ghost predicate Explained(db: Db, i: nat)
    requires |db.entries| == 2 * |db.ledger| && i < |db.ledger|
  {
    && BothSides(db, i)
    && ((exists t :: t in db.transfers && BooksTransfer(db, i, t)) || BooksPayment(db, i, db.ledger[i].reference))
  }

  ghost predicate TransferBooked(db: Db, t: Transfer)
    requires |db.entries| == 2 * |db.ledger|
  {
    exists i :: 0 <= i < |db.ledger| && BooksTransfer(db, i, t)
  }

  ghost predicate PaymentBooked(db: Db, id: Id)
    requires |db.entries| == 2 * |db.ledger|
  {
    exists i :: 0 <= i < |db.ledger| && BooksPayment(db, i, id)
  }

  ghost predicate Booked(db: Db) {
    && |db.entries| == 2 * |db.ledger|
    && (forall i :: 0 <= i < |db.ledger| ==> Explained(db, i))
    && (forall t :: t in db.transfers ==> TransferBooked(db, t))
    && (forall id :: id in db.payments && db.payments[id].status == Succeeded ==> PaymentBooked(db, id))
    && (forall i, j :: 0 <= i < j < |db.ledger| && db.ledger[i].kind == db.ledger[j].kind ==> db.ledger[i].reference != db.ledger[j].reference)
  }

  /** Wallets keep their accounts, and settled payments stay as they are. */
  predicate Keeps(v: Db, w: Db) {
    && (forall id :: id in v.wallets ==> id in w.wallets && w.wallets[id].account == v.wallets[id].account)
    && (forall id :: id in v.payments && v.payments[id].status == Succeeded ==> id in w.payments && w.payments[id] == v.payments[id])
  }

  /** What is booked stays booked when more is written behind it. */
  lemma StillBooked(v: Db, w: Db)
    requires Booked(v) && Keeps(v, w) && v.ledger <= w.ledger && v.entries <= w.entries && v.transfers <= w.transfers
    requires |w.entries| == 2 * |w.ledger|
    ensures forall i :: 0 <= i < |v.ledger| ==> Explained(w, i)
    ensures forall t :: t in v.transfers ==> TransferBooked(w, t)
    ensures forall id :: id in v.payments && v.payments[id].status == Succeeded ==> PaymentBooked(w, id)
  {
    forall i, t | 0 <= i < |v.ledger| && BooksTransfer(v, i, t) ensures BooksTransfer(w, i, t) {
    }
    forall i, id | 0 <= i < |v.ledger| && BooksPayment(v, i, id) ensures BooksPayment(w, i, id) {
    }
    forall i | 0 <= i < |v.ledger| ensures Explained(w, i) {
      assert Explained(v, i);
    }
  }

  /** Nothing was posted. */
  lemma QuietBooked(v: Db, w: Db)
    requires Booked(v) && Keeps(v, w) && w.ledger == v.ledger && w.entries == v.entries && w.transfers == v.transfers
    requires forall id :: id in w.payments && w.payments[id].status == Succeeded ==> id in v.payments && v.payments[id].status == Succeeded
    ensures Booked(w)
  {
    hide Explained, TransferBooked, PaymentBooked, Keeps;
    StillBooked(v, w);
  }

  /** One more transfer, posted behind everything else. */
  lemma TransferPosted(v: Db, w: Db, t: Transfer)
    requires Booked(v) && Keeps(v, w) && w.payments == v.payments && w.transfers == v.transfers + [t]
    requires |w.ledger| == |v.ledger| + 1 && w.ledger[..|v.ledger|] == v.ledger
    requires |w.entries| == |v.entries| + 2 && w.entries[..|v.entries|] == v.entries
    requires BothSides(w, |v.ledger|) && BooksTransfer(w, |v.ledger|, t)
    requires forall u :: u in v.transfers ==> u.id != t.id
    ensures Booked(w)
  {
    var n := |v.ledger|;
    StillBooked(v, w);
    assert t in w.transfers;
    assert TransferBooked(w, t) && Explained(w, n);
    assert w.ledger[n].kind == TransferTxn && w.ledger[n].reference == t.id;
    hide TransferBooked, PaymentBooked, BooksTransfer, BothSides;
    forall i | 0 <= i < n && v.ledger[i].kind == TransferTxn ensures v.ledger[i].reference != t.id {
      ReferencesTransfer(v, i);
    }
    hide Explained;
  }

  lemma TransferShape(db: Db, p: Program)
    requires p.RunTransfer? && |db.entries| == 2 * |db.ledger| && Apply(db, p).Ok?
    ensures var after, n := Apply(db, p).value, |db.ledger|;
            var t := Transfer(p.tid, p.source, p.destination, p.amount, p.currency, p.key);
            && Keeps(db, after) && after.payments == db.payments && after.transfers == db.transfers + [t]
            && |after.ledger| == n + 1 && after.ledger[..n] == db.ledger
            && |after.entries| == 2 * n + 2 && after.entries[..2 * n] == db.entries
            && BothSides(after, n) && BooksTransfer(after, n, t)
  {
    TransferWrites(db, p);
    hide Apply;
    var after := Apply(db, p).value;
    assert after.transfers == after.transfers[..|db.transfers|] + [after.transfers[|db.transfers|]];
  }

  lemma TransferKeepsBooked(db: Db, p: Program)
    requires p.RunTransfer? && Booked(db) && Apply(db, p).Ok?
    requires forall t :: t in db.transfers ==> t.id != p.tid
    ensures Booked(Apply(db, p).value)
  {
    hide Apply, Explained, TransferBooked, PaymentBooked, BothSides, BooksTransfer, Keeps;
    TransferShape(db, p);
    TransferPosted(db, Apply(db, p).value, Transfer(p.tid, p.source, p.destination, p.amount, p.currency, p.key));
  }

  lemma ReferencesTransfer(db: Db, i: nat)
    requires Booked(db) && i < |db.ledger| && db.ledger[i].kind == TransferTxn
    ensures exists t :: t in db.transfers && t.id == db.ledger[i].reference
  {
    assert Explained(db, i);
  }

  /** One more settled payment, posted behind everything else. */
  lemma PaymentPosted(v: Db, w: Db, pid: Id)
    requires Booked(v) && Keeps(v, w) && w.transfers == v.transfers
    requires |w.ledger| == |v.ledger| + 1 && w.ledger[..|v.ledger|] == v.ledger
    requires |w.entries| == |v.entries| + 2 && w.entries[..|v.entries|] == v.entries
    requires BothSides(w, |v.ledger|) && BooksPayment(w, |v.ledger|, pid)
    requires pid in v.payments && v.payments[pid].status != Succeeded
    requires forall id :: id != pid && id in w.payments ==> id in v.payments && w.payments[id] == v.payments[id]
    ensures Booked(w)
  {
    var n := |v.ledger|;
    StillBooked(v, w);
    assert PaymentBooked(w, pid) && Explained(w, n);
    assert w.ledger[n].kind == PaymentTxn && w.ledger[n].reference == pid;
    hide TransferBooked, PaymentBooked, BooksPayment, BothSides;
    forall i | 0 <= i < n && v.ledger[i].kind == PaymentTxn ensures v.ledger[i].reference != pid {
      ReferencesSettled(v, i);
    }
    hide Explained;
  }

  lemma SuccessShape(db: Db, p: Program)
    requires p.RunWebhook? && p.status == Succeeded && |db.entries| == 2 * |db.ledger| && Apply(db, p).Ok?
    requires WalletsMatchLedger(db) && PaymentsIndexed(db)
    ensures p.reference in db.references && db.references[p.reference] in db.payments
    ensures var after, n, pid := Apply(db, p).value, |db.ledger|, db.references[p.reference];
            && |after.ledger| == n + 1 && after.ledger[..n] == db.ledger
            && |after.entries| == 2 * n + 2 && after.entries[..2 * n] == db.entries
            && after.transfers == db.transfers
            && BothSides(after, n) && BooksPayment(after, n, pid)
  {
    WebhookStores(db, p);
    SuccessPosts(db, p);
    hide Apply, WalletsMatchLedger, PaymentsIndexed;
  }

  lemma SuccessKeeps(db: Db, p: Program)
    requires p.RunWebhook? && p.status == Succeeded && Apply(db, p).Ok? && WalletsMatchLedger(db) && PaymentsIndexed(db)
    requires p.reference in db.references && db.payments[db.references[p.reference]].status != Succeeded
    ensures var after, pid := Apply(db, p).value, db.references[p.reference];
            && Keeps(db, after)
            && forall id :: id != pid && id in after.payments ==> id in db.payments && after.payments[id] == db.payments[id]
  {
    WebhookStores(db, p);
    SuccessPosts(db, p);
    hide Apply, WalletsMatchLedger, PaymentsIndexed, GrownByOne;
  }

  lemma SuccessKeepsBooked(db: Db, p: Program)
    requires p.RunWebhook? && p.status == Succeeded && Booked(db) && Apply(db, p).Ok?
    requires WalletsMatchLedger(db) && PaymentsIndexed(db)
    requires p.reference in db.references && db.payments[db.references[p.reference]].status != Succeeded
    ensures Booked(Apply(db, p).value)
  {
    hide Apply, WalletsMatchLedger, PaymentsIndexed, Explained, TransferBooked, PaymentBooked, BothSides, BooksPayment, Keeps;
    SuccessShape(db, p);
    SuccessKeeps(db, p);
    PaymentPosted(db, Apply(db, p).value, db.references[p.reference]);
  }

  lemma ReferencesSettled(db: Db, i: nat)
    requires Booked(db) && i < |db.ledger| && db.ledger[i].kind == PaymentTxn
    ensures db.ledger[i].reference in db.payments && db.payments[db.ledger[i].reference].status == Succeeded
  {
    assert Explained(db, i);
  }

  lemma OtherKeepsBooked(db: Db, p: Program)
    requires !p.RunTransfer? && !p.RunWebhook? && Booked(db) && Apply(db, p).Ok?
    ensures Booked(Apply(db, p).value)
  {
    hide Booked;
    QuietBooked(db, Apply(db, p).value);
  }

  lemma FailureKeepsBooked(db: Db, p: Program)
    requires p.RunWebhook? && p.status != Succeeded && Booked(db) && Apply(db, p).Ok?
    requires WalletsMatchLedger(db) && PaymentsIndexed(db)
    requires p.reference in db.references && db.payments[db.references[p.reference]].status != Succeeded
    ensures Booked(Apply(db, p).value)
  {
    WebhookStores(db, p);
    hide Booked, Apply, WalletsMatchLedger, PaymentsIndexed, GrownByOne;
    QuietBooked(db, Apply(db, p).value);
  }

  lemma BookedKept(db: Db, p: Program)
    requires Booked(db) && WalletsMatchLedger(db) && PaymentsIndexed(db) && Apply(db, p).Ok?
    ensures Booked(Apply(db, p).value)
  {
    if p.RunTransfer? {
      TransferAnswer(db, p);
      hide Booked, Apply, WalletsMatchLedger, PaymentsIndexed;
      TransferKeepsBooked(db, p);
    } else {
      if p.RunWebhook? {
        WebhookStores(db, p);
        WebhookAnswer(db, p);
      }
      hide Booked, Apply, WalletsMatchLedger, PaymentsIndexed;
      if p.RunWebhook? && p.status == Succeeded {
        SuccessKeepsBooked(db, p);
      } else if p.RunWebhook? {
        FailureKeepsBooked(db, p);
      } else {
        OtherKeepsBooked(db, p);
      }
    }
  }

  lemma {:induction false} RunBooked(ext: bool, actions: seq<Action>)
    ensures Safety.Safe(Run(Start(EmptyDb(ext)), actions)) && Booked(Run(Start(EmptyDb(ext)), actions).db)
  {
    hide Safety.Safe, Booked, Next;
    if actions == [] {
      Safety.EmptyIsSafe(ext);
      EmptyBooked(ext);
    } else {
      var n := |actions| - 1;
      RunBooked(ext, actions[..n]);
      var s := Run(Start(EmptyDb(ext)), actions[..n]);
      Safety.NextIsSafe(s, actions[n]);
      NextBooked(s, actions[n]);
    }
  }

  lemma EmptyBooked(ext: bool)
    ensures Booked(Start(EmptyDb(ext)).db)
  {
  }

  lemma NextBooked(s: Sys, a: Action)
    requires Safety.Safe(s) && Booked(s.db)
    ensures Booked(Next(s, a).db)
  {
    hide TwoPhase, Next, Apply, Booked, WalletsMatchLedger, LedgerBalanced, MoneyConserved, PaymentsIndexed, CreditedOnce, OutboxMatches, RowsUnique;
    OnlyCommitsWrite(s, a);
    if Next(s, a).db != s.db {
      BookedKept(s.db, s.procs[a.i].prog);
    }
  }

  // ---- In every reachable state ----

  /** Every ledger transaction is a debit and a credit of the same money, and books one transfer or one
      settled payment: its amount, in its currency, between the accounts of its wallets or from the external one. */
  lemma LedgerExplained(s: Sys, i: nat)
    requires Reachable(s) && i < |s.db.ledger|
    ensures |s.db.entries| == 2 * |s.db.ledger| && BothSides(s.db, i)
    ensures (exists t :: t in s.db.transfers && BooksTransfer(s.db, i, t)) || BooksPayment(s.db, i, s.db.ledger[i].reference)
  {
    ReachableIsBooked(s);
    assert Explained(s.db, i);
  }

  /** And each transfer and each settled payment is booked there, exactly once. */
  lemma EverythingBooked(s: Sys)
    requires Reachable(s)
    ensures |s.db.entries| == 2 * |s.db.ledger|
    ensures forall t :: t in s.db.transfers ==> exists i :: 0 <= i < |s.db.ledger| && BooksTransfer(s.db, i, t)
    ensures forall id :: id in s.db.payments && s.db.payments[id].status == Succeeded ==>
              exists i :: 0 <= i < |s.db.ledger| && BooksPayment(s.db, i, id)
    ensures forall i, j :: 0 <= i < j < |s.db.ledger| && s.db.ledger[i].kind == s.db.ledger[j].kind ==>
              s.db.ledger[i].reference != s.db.ledger[j].reference
  {
    ReachableIsBooked(s);
    hide Reachable, Explained;
    forall t | t in s.db.transfers ensures exists i :: 0 <= i < |s.db.ledger| && BooksTransfer(s.db, i, t) {
      assert TransferBooked(s.db, t);
    }
    forall id | id in s.db.payments && s.db.payments[id].status == Succeeded
      ensures exists i :: 0 <= i < |s.db.ledger| && BooksPayment(s.db, i, id)
    {
      assert PaymentBooked(s.db, id);
    }
  }

  lemma ReachableIsBooked(s: Sys)
    requires Reachable(s)
    ensures Booked(s.db)
  {
    var ext: bool, actions: seq<Action> :| s == Run(Start(EmptyDb(ext)), actions);
    hide *;
    RunBooked(ext, actions);
  }
}
