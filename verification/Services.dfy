/** The service methods, statement by statement, proved to do what their operation specifies. */
module Services {
  import opened Base
  import opened LedgerModel
  import opened Tables
  import opened Programs
  import opened Store

  // ---- Ledger repository ----

  /** A ledger transaction under construction; its id and its entries' links are filled in when it is stored. */
  class Posting {
    var id: Id
    const reference: Id
    const kind: TxnType
    const entries: array<Entry>

    constructor (reference: Id, kind: TxnType, es: seq<Entry>)
      ensures this.reference == reference && this.kind == kind
      ensures fresh(entries) && entries[..] == es
    {
      this.id := 0;
      this.reference := reference;
      this.kind := kind;
      var a := new Entry[|es|](i requires 0 <= i < |es| => es[i]);
      this.entries := a;
    }
  }

  /** The entries with their transaction filled in. */
  function Linked(es: seq<Entry>, id: Id): (r: seq<Entry>)
    ensures |r| == |es|
    ensures forall i :: 0 <= i < |es| ==> r[i] == es[i].(txn := id)
  {
    seq(|es|, i requires 0 <= i < |es| => es[i].(txn := id))
  }

  /** Why a posting is refused: the balance check, a repeated id, or an unknown account. */
  function PostingError(v: Db, x: LedgerTxn, es: seq<Entry>): Option<Error> {
    if LedgerCheck(es).Some? then Some(Ledger(LedgerCheck(es).value))
    else if HasLedgerTxn(v, x.id) then Some(UniqueViolation)
    else InsertEntriesError(v.(ledger := v.ledger + [x]), Linked(es, x.id))
  }

  lemma PrefixStep(es: seq<Entry>, i: nat, currency: string)
    requires i < |es|
    ensures FirstComplaint(es[..i], currency).None? ==> FirstComplaint(es[..i + 1], currency) == EntryComplaint(es[i], currency)
    ensures forall d :: WrappedTotal(es[..i + 1], d) == Wrap(WrappedTotal(es[..i], d) + Amount(es[i], d))
  {
    assert es[..i + 1][..i] == es[..i];
  }

  /** The validating loop: Go int64 accumulators, first complaint wins. */
  method CheckEntries(es: array<Entry>) returns (e: Option<EntryError>)
    ensures e == LedgerCheck(es[..])
  {
    hide FirstComplaint, WrappedTotal, Wrap;
    ghost var list := es[..];
    if es.Length < 2 {
      return Some(EmptyEntries);
    }
    var totalDebits: int64, totalCredits: int64 := 0, 0;
    var currency := es[0].currency;
    NothingComplained(list, currency);
    for i := 0 to es.Length
      invariant FirstComplaint(list[..i], currency).None?
      invariant totalDebits == WrappedTotal(list[..i], Debit)
      invariant totalCredits == WrappedTotal(list[..i], Credit)
    {
      var entry := es[i];
      PrefixStep(list, i, currency);
      if EntryComplaint(entry, currency).Some? {
        FirstComplaintStands(list, i + 1, currency);
      }
      if entry.currency != currency {
        return Some(MultiCurrency);
      }
      if entry.amount <= 0 {
        return Some(NonPositiveAmount);
      }
      assert Wrap(totalDebits + 0) == totalDebits && Wrap(totalCredits + 0) == totalCredits;
      if entry.direction == Debit {
        totalDebits := Wrap(totalDebits + entry.amount);
      } else if entry.direction == Credit {
        totalCredits := Wrap(totalCredits + entry.amount);
      } else {
        return Some(InvalidDirection);
      }
    }
    assert list[..es.Length] == list;
    if totalDebits != totalCredits {
      return Some(Imbalanced);
    }
    return None;
  }

  lemma NothingComplained(es: seq<Entry>, currency: string)
    ensures FirstComplaint(es[..0], currency).None?
    ensures forall d :: WrappedTotal(es[..0], d) == 0
  {
  }

  /** The first complaint about a prefix is the first complaint about the list. */
  lemma {:induction false} FirstComplaintStands(es: seq<Entry>, n: nat, currency: string)
    requires n <= |es| && FirstComplaint(es[..n], currency).Some?
    ensures FirstComplaint(es, currency) == FirstComplaint(es[..n], currency)
    decreases |es|
  {
    if n == |es| {
      assert es[..n] == es;
    } else {
      assert es[..|es| - 1][..n] == es[..n];
      FirstComplaintStands(es[..|es| - 1], n, currency);
    }
  }

  /** A list that passes the check is refused exactly for its id or for an unknown account. */
  lemma PostingRefused(v: Db, x: LedgerTxn, es: seq<Entry>)
    requires LedgerCheck(es).None?
    ensures var taken := exists y :: y in v.ledger && y.id == x.id;
            var known := forall entry :: entry in es ==> entry.account in v.accounts;
            && (PostingError(v, x, es) == Some(UniqueViolation) <==> taken)
            && (PostingError(v, x, es) == Some(ForeignKeyViolation) <==> !taken && !known)
            && (PostingError(v, x, es) == None <==> !taken && known)
  {
    LinkedEntries(es, x.id, v.accounts);
    var w := v.(ledger := v.ledger + [x]);
    assert x in w.ledger && HasLedgerTxn(w, x.id);
    hide LedgerCheck, Linked;
  }

  /** Linked entries keep their accounts and their positive amounts. */
  lemma LinkedEntries(es: seq<Entry>, id: Id, accounts: map<Id, Account>)
    requires LedgerCheck(es).None?
    ensures forall entry :: entry in Linked(es, id) ==> entry.amount > 0 && entry.txn == id
    ensures (forall entry :: entry in es ==> entry.account in accounts)
            <==> (forall entry :: entry in Linked(es, id) ==> entry.account in accounts)
  {
    AcceptedModulo(es);
    hide LedgerCheck, Total;
    var linked := Linked(es, id);
    forall entry | entry in linked ensures entry.amount > 0 && entry.txn == id && exists e :: e in es && e.account == entry.account {
      var i :| 0 <= i < |linked| && linked[i] == entry;
      assert es[i] in es && Clean(es[i], es[0].currency);
    }
    forall entry | entry in es ensures entry.(txn := id) in linked {
      var i :| 0 <= i < |es| && es[i] == entry;
      assert linked[i] == entry.(txn := id);
    }
  }

  /** Stores a balanced transaction, or refuses it; a posting that fails the check writes nothing. */
  method CreateTransaction(tx: Tx, posting: Posting, drawn: Id) returns (e: Option<Error>)
    modifies tx, posting, posting.entries
    ensures e == PostingError(old(tx.view), LedgerTxn(drawn, posting.reference, posting.kind), old(posting.entries[..]))
    ensures LedgerCheck(old(posting.entries[..])).Some? ==>
              tx.view == old(tx.view) && e == Some(Ledger(LedgerCheck(old(posting.entries[..])).value))
    ensures LedgerCheck(old(posting.entries[..])).None? ==>
              var taken := exists x :: x in old(tx.view).ledger && x.id == drawn;
              var known := forall entry :: entry in old(posting.entries[..]) ==> entry.account in old(tx.view).accounts;
              && (e == Some(UniqueViolation) <==> taken)
              && (e == Some(ForeignKeyViolation) <==> !taken && !known)
              && (e == None <==> !taken && known)
    ensures e.None? ==>
              && posting.id == drawn
              && posting.entries[..] == Linked(old(posting.entries[..]), drawn)
              && tx.view == old(tx.view).(ledger := old(tx.view).ledger + [LedgerTxn(drawn, posting.reference, posting.kind)],
                                          entries := old(tx.view).entries + posting.entries[..])
  {
    var refusal := CheckEntries(posting.entries);
    if refusal.Some? {
      return Some(Ledger(refusal.value));
    }
    PostingRefused(tx.view, LedgerTxn(drawn, posting.reference, posting.kind), posting.entries[..]);
    e := tx.InsertLedgerTxn(LedgerTxn(drawn, posting.reference, posting.kind));
    if e.Some? {
      return;
    }
    posting.id := drawn;
    for i := 0 to posting.entries.Length
      modifies posting.entries
      invariant forall j :: 0 <= j < i ==> posting.entries[j] == old(posting.entries[j]).(txn := drawn)
      invariant forall j :: i <= j < posting.entries.Length ==> posting.entries[j] == old(posting.entries[j])
    {
      posting.entries[i] := posting.entries[i].(txn := posting.id);
    }
    assert posting.entries[..] == Linked(old(posting.entries[..]), drawn);
    e := tx.InsertEntries(posting.entries[..]);
  }

  // ---- Transfer service ----

  lemma PairPosting(v: Db, x: LedgerTxn, debited: Id, credited: Id, amount: int64, currency: string)
    requires amount > 0
    ensures var es := Pair(0, debited, credited, amount, currency);
            && Linked(es, x.id) == Pair(x.id, debited, credited, amount, currency)
            && PostingError(v, x, es) ==
               if HasLedgerTxn(v, x.id) then Some(UniqueViolation)
               else if debited !in v.accounts || credited !in v.accounts then Some(ForeignKeyViolation) else None
  {
    PairAccepted(0, debited, credited, amount, currency);
    var es := Linked(Pair(0, debited, credited, amount, currency), x.id);
    assert es == Pair(x.id, debited, credited, amount, currency);
    assert es[0] in es && es[1] in es;
    var w := v.(ledger := v.ledger + [x]);
    assert x in w.ledger;
    assert HasLedgerTxn(w, x.id);
  }

  /** The record of a transfer whose balances have been moved: transfer row, ledger transaction, outbox row. */
  method RecordTransfer(tx: Tx, t: Transfer, lid: Id, debited: Id, credited: Id) returns (e: Option<Error>)
    requires t.amount > 0 && t.source != t.destination && t.source in tx.view.wallets && t.destination in tx.view.wallets
    modifies tx
    ensures e == if HasTransfer(old(tx.view), t.id) then Some(UniqueViolation)
                 else if t.key !in old(tx.view).keys then Some(ForeignKeyViolation)
                 else if HasLedgerTxn(old(tx.view), lid) then Some(UniqueViolation)
                 else if debited !in old(tx.view).accounts || credited !in old(tx.view).accounts then Some(ForeignKeyViolation)
                 else None
    ensures e.None? ==>
              tx.view == old(tx.view).(
                         transfers := old(tx.view).transfers + [t],
                         ledger := old(tx.view).ledger + [LedgerTxn(lid, t.id, TransferTxn)],
                         entries := old(tx.view).entries + Pair(lid, debited, credited, t.amount, t.currency),
                         outbox := old(tx.view).outbox + [TransferEvent(t.id, t.amount, t.currency)])
  {
    hide PostingError, LedgerCheck, Linked, InsertEntriesError, Pair;
    e := tx.InsertTransfer(t);
    if e.Some? {
      return;
    }
    PairPosting(tx.view, LedgerTxn(lid, t.id, TransferTxn), debited, credited, t.amount, t.currency);
    var posting := new Posting(t.id, TransferTxn, Pair(0, debited, credited, t.amount, t.currency));
    e := CreateTransaction(tx, posting, lid);
    if e.Some? {
      return;
    }
    tx.InsertEvent(TransferEvent(t.id, t.amount, t.currency));
  }

  lemma SameRecords(v: Db, w: Db)
    requires v.transfers == w.transfers && v.ledger == w.ledger
    ensures forall id :: HasTransfer(v, id) == HasTransfer(w, id) && HasLedgerTxn(v, id) == HasLedgerTxn(w, id)
  {
  }

  lemma ApplyTransfer(db: Db, p: Program)
    requires p.RunTransfer?
    ensures Apply(db, p) == if TransferError(db, p).Some? then Err(TransferError(db, p).value) else Ok(TransferEffect(db, p))
  {
    hide TransferError, TransferEffect;
  }

  /** The two balance updates and the record of the transfer make up its whole effect. */
  lemma MovedAndRecorded(db: Db, p: Program, view: Db)
    requires p.RunTransfer? && TransferError(db, p).None?
    requires var s, d := db.wallets[p.source], db.wallets[p.destination];
             && IsInt64(s.available - p.amount) && IsInt64(d.available + p.amount)
             && view == db.(
                        wallets := db.wallets[p.source := s.(available := s.available - p.amount)]
                                             [p.destination := d.(available := d.available + p.amount)],
                        transfers := view.transfers, ledger := view.ledger, entries := view.entries, outbox := view.outbox)
             && view.transfers == db.transfers + [Transfer(p.tid, p.source, p.destination, p.amount, p.currency, p.key)]
             && view.ledger == db.ledger + [LedgerTxn(p.lid, p.tid, TransferTxn)]
             && view.entries == db.entries + Pair(p.lid, s.account, d.account, p.amount, p.currency)
             && view.outbox == db.outbox + [TransferEvent(p.tid, p.amount, p.currency)]
    ensures view == TransferEffect(db, p)
  {
    hide Pair;
  }

  /** One transfer, alone on the database: exactly the specified outcome, and no change at all on error. */
  method ExecuteTransfer(db: Database, source: Id, destination: Id, amount: int64, currency: string, key: string, tid: Id, lid: Id)
    returns (r: Result<Transfer, Error>)
    modifies db
    ensures match Apply(old(db.tables), RunTransfer(source, destination, amount, currency, key, tid, lid))
            case Ok(after) => db.tables == after && r == Ok(Transfer(tid, source, destination, amount, currency, key))
            case Err(e) => db.tables == old(db.tables) && r == Err(e)
  {
    hide Pair, HasTransfer, HasLedgerTxn, Apply, TransferEffect;
    ghost var p := RunTransfer(source, destination, amount, currency, key, tid, lid);
    ApplyTransfer(db.tables, p);
    if source == destination {
      return Err(SameWallet);
    }
    if amount <= 0 {
      return Err(AmountNotPositive);
    }
    var tx := db.Begin();

    var firstLock, secondLock := source, destination;
    if firstLock > secondLock {
      firstLock, secondLock := secondLock, firstLock;
    }
    var first := tx.SelectWalletForUpdate(firstLock);
    if first.Err? {
      return Err(first.error);
    }
    var second := tx.SelectWalletForUpdate(secondLock);
    if second.Err? {
      return Err(second.error);
    }

    var sourceWallet, destWallet := second.value, first.value;
    if first.value.id == source {
      sourceWallet, destWallet := first.value, second.value;
    }

    if sourceWallet.wallet.status != Active || destWallet.wallet.status != Active {
      return Err(NotActive);
    }
    if sourceWallet.wallet.currency != currency || destWallet.wallet.currency != currency {
      return Err(CurrencyMismatch);
    }
    if sourceWallet.wallet.available < amount {
      return Err(InsufficientFunds);
    }

    var e := tx.UpdateBalance(sourceWallet.id, 0 - (amount as int));
    if e.Some? {
      assert false;  // the funds check under lock has ruled out both range and CHECK errors
    }
    e := tx.UpdateBalance(destWallet.id, amount);
    if e.Some? {
      return Err(e.value);
    }

    var t := Transfer(tid, source, destination, amount, currency, key);
    SameRecords(db.tables, tx.view);
    e := RecordTransfer(tx, t, lid, sourceWallet.wallet.account, destWallet.wallet.account);
    if e.Some? {
      return Err(e.value);
    }
    MovedAndRecorded(db.tables, p, tx.view);
    db.Commit(tx);
    return Ok(t);
  }

  // ---- Payment service ----

  /** The provider has answered: accepted becomes PROCESSING, refused becomes FAILED. */
  method CreatePaymentRow(db: Database, pid: Id, wallet: Id, amount: int64, currency: string, accepted: bool, reference: string)
    returns (r: Result<Payment, Error>)
    modifies db
    ensures match Apply(old(db.tables), CreatePayment(pid, wallet, amount, currency, accepted, reference))
            case Ok(after) => db.tables == after && r == Ok(after.payments[pid])
            case Err(e) => db.tables == old(db.tables) && r == Err(e)
  {
    var payment := Payment(wallet, amount, currency, if accepted then Processing else Failed, reference);
    var v := db.tables;
    if payment.amount <= 0 {
      return Err(CheckViolation);
    }
    if pid in v.payments || reference in v.references {
      return Err(UniqueViolation);
    }
    if wallet !in v.wallets {
      return Err(ForeignKeyViolation);
    }
    db.tables := v.(payments := v.payments[pid := payment], references := v.references[reference := pid]);
    return Ok(payment);
  }

  /** One webhook, alone on the database. */
  method ProcessWebhook(db: Database, key: HookKey, reference: string, status: PaymentStatus, lid: Id) returns (e: Option<Error>)
    modifies db
    ensures match Apply(old(db.tables), RunWebhook(key, reference, status, lid))
            case Ok(after) => db.tables == after && e == None
            case Err(x) => db.tables == old(db.tables) && e == Some(x)
  {
    hide PostingError, LedgerCheck, Linked, InsertEntriesError, Pair;
    var tx := db.Begin();
    var duplicate := tx.InsertHook(Hook(key, reference, status));
    if duplicate.Some? {
      return Some(DuplicateWebhook);
    }
    var found := tx.SelectPaymentForUpdate(reference);
    if found.Err? {
      return Some(PaymentNotFound);
    }
    var Found(pid, p, account) := found.value;
    if !ValidTransition(p.status, status) {
      return Some(InvalidTransition);
    }
    tx.UpdatePaymentStatus(pid, status);
    if status == Succeeded {
      e := tx.UpdateBalance(p.wallet, p.amount);
      if e.Some? {
        return;
      }
      PostingOfPayment(tx.view, LedgerTxn(lid, pid, PaymentTxn), account, p);
      var posting := new Posting(pid, PaymentTxn, Pair(0, EXTERNAL_ACCOUNT, account, p.amount, p.currency));
      e := CreateTransaction(tx, posting, lid);
      if e.Some? {
        return;
      }
    }
    tx.InsertEvent(PaymentEvent(pid, status, p.amount, p.currency));
    db.Commit(tx);
    return None;
  }

  lemma PostingOfPayment(v: Db, x: LedgerTxn, account: Id, p: Payment)
    ensures var es := Pair(0, EXTERNAL_ACCOUNT, account, p.amount, p.currency);
            && Linked(es, x.id) == Pair(x.id, EXTERNAL_ACCOUNT, account, p.amount, p.currency)
            && PostingError(v, x, es) ==
               if p.amount <= 0 then Some(Ledger(NonPositiveAmount))
               else if HasLedgerTxn(v, x.id) then Some(UniqueViolation)
               else if EXTERNAL_ACCOUNT !in v.accounts || account !in v.accounts then Some(ForeignKeyViolation) else None
  {
    if p.amount > 0 {
      PairPosting(v, x, EXTERNAL_ACCOUNT, account, p.amount, p.currency);
    } else {
      var es := Pair(0, EXTERNAL_ACCOUNT, account, p.amount, p.currency);
      assert es[..1] == [es[0]] && es[..1][..0] == [];
      assert FirstComplaint(es[..1], p.currency) == Some(NonPositiveAmount);
      assert Linked(es, x.id) == Pair(x.id, EXTERNAL_ACCOUNT, account, p.amount, p.currency);
    }
  }

  // ---- Wallet repository ----

  method CreateWalletAndAccount(db: Database, wid: Id, aid: Id, owner: Id, kind: string, currency: string)
    returns (r: Result<Wallet, Error>)
    modifies db
    ensures match Apply(old(db.tables), CreateWallet(wid, aid, owner, kind, currency))
            case Ok(after) => db.tables == after && r == Ok(after.wallets[wid])
            case Err(e) => db.tables == old(db.tables) && r == Err(e)
  {
    var tx := db.Begin();
    var e := tx.InsertAccount(aid, Account(kind, currency));
    if e.Some? {
      return Err(e.value);
    }
    var wallet := Wallet(owner, aid, currency, 0, 0, Active);
    e := tx.InsertWallet(wid, wallet);
    if e.Some? {
      return Err(e.value);
    }
    db.Commit(tx);
    return Ok(wallet);
  }

  method UpdateWalletStatus(db: Database, wid: Id, status: WalletStatus) returns (e: Option<Error>)
    modifies db
    ensures match Apply(old(db.tables), SetStatus(wid, status))
            case Ok(after) => db.tables == after && e == None
            case Err(x) => db.tables == old(db.tables) && e == Some(x)
  {
    var rowsAffected := 0;
    if wid in db.tables.wallets {
      var w := db.tables.wallets[wid];
      db.tables := db.tables.(wallets := db.tables.wallets[wid := w.(status := status)]);
      rowsAffected := 1;
    }
    if rowsAffected == 0 {
      return Some(WalletNotFound);
    }
    return None;
  }
}
