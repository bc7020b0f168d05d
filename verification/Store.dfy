/** A database connection and one transaction on it, as the services use them. */
module Store {
  import opened Base
  import opened LedgerModel
  import opened Tables
  import opened Programs

  /** The committed tables. */
  class Database {
    var tables: Db

    constructor (tables: Db)
      ensures this.tables == tables
    {
      this.tables := tables;
    }

    method Begin() returns (tx: Tx)
      ensures fresh(tx) && tx.view == tables
    {
      tx := new Tx(tables);
    }

    method Commit(tx: Tx)
      modifies this
      ensures tables == tx.view
    {
      tables := tx.view;
    }
  }

  /** An open transaction: dropping it without a commit is a rollback. */
  class Tx {
    var view: Db

    constructor (view: Db)
      ensures this.view == view
    {
      this.view := view;
    }

    method SelectWalletForUpdate(wid: Id) returns (r: Result<Fetched, Error>)
      ensures r == if wid in view.wallets then Ok(Fetched(wid, view.wallets[wid])) else Err(NoSuchRow)
    {
      if wid in view.wallets {
        r := Ok(Fetched(wid, view.wallets[wid]));
      } else {
        r := Err(NoSuchRow);
      }
    }

    method UpdateBalance(wid: Id, delta: int) returns (e: Option<Error>)
      modifies this
      ensures match AddToBalance(old(view), wid, delta)
              case Err(x) => e == Some(x) && view == old(view)
              case Ok(None) => e == None && view == old(view)
              case Ok(Some(w)) => e == None && view == old(view).(wallets := old(view).wallets[wid := w])
    {
      match AddToBalance(view, wid, delta)
      case Err(x) => e := Some(x);
      case Ok(None) => e := None;
      case Ok(Some(w)) =>
        view := view.(wallets := view.wallets[wid := w]);
        e := None;
    }

    method InsertTransfer(t: Transfer) returns (e: Option<Error>)
      modifies this
      ensures e == InsertTransferError(old(view), t)
      ensures view == if e.Some? then old(view) else old(view).(transfers := old(view).transfers + [t])
    {
      e := InsertTransferError(view, t);
      if e.None? {
        view := view.(transfers := view.transfers + [t]);
      }
    }

    method InsertLedgerTxn(x: LedgerTxn) returns (e: Option<Error>)
      modifies this
      ensures e == if HasLedgerTxn(old(view), x.id) then Some(UniqueViolation) else None
      ensures view == if e.Some? then old(view) else old(view).(ledger := old(view).ledger + [x])
    {
      if HasLedgerTxn(view, x.id) {
        e := Some(UniqueViolation);
      } else {
        view := view.(ledger := view.ledger + [x]);
        e := None;
      }
    }

    method InsertEntries(es: seq<Entry>) returns (e: Option<Error>)
      modifies this
      ensures e == InsertEntriesError(old(view), es)
      ensures view == if e.Some? then old(view) else old(view).(entries := old(view).entries + es)
    {
      e := InsertEntriesError(view, es);
      if e.None? {
        view := view.(entries := view.entries + es);
      }
    }

    method InsertEvent(event: Event)
      modifies this
      ensures view == old(view).(outbox := old(view).outbox + [event])
    {
      view := view.(outbox := view.outbox + [event]);
    }

    method InsertHook(h: Hook) returns (e: Option<Error>)
      modifies this
      ensures e == if HasHook(old(view), h.key) then Some(UniqueViolation) else None
      ensures view == if e.Some? then old(view) else old(view).(hooks := old(view).hooks + [h])
    {
      if HasHook(view, h.key) {
        e := Some(UniqueViolation);
      } else {
        view := view.(hooks := view.hooks + [h]);
        e := None;
      }
    }

    method SelectPaymentForUpdate(reference: string) returns (r: Result<Found, Error>)
      ensures r == match FindPayment(view, reference)
                   case None => Err(NoSuchRow)
                   case Some(pid) =>
                     Ok(Found(pid, view.payments[pid], view.wallets[view.payments[pid].wallet].account))
    {
      match FindPayment(view, reference)
      case None => r := Err(NoSuchRow);
      case Some(pid) => r := Ok(Found(pid, view.payments[pid], view.wallets[view.payments[pid].wallet].account));
    }

    method UpdatePaymentStatus(pid: Id, status: PaymentStatus)
      modifies this
      ensures view == if pid in old(view).payments
                      then old(view).(payments := old(view).payments[pid := old(view).payments[pid].(status := status)])
                      else old(view)
    {
      if pid in view.payments {
        view := view.(payments := view.payments[pid := view.payments[pid].(status := status)]);
      }
    }

    method InsertAccount(aid: Id, account: Account) returns (e: Option<Error>)
      modifies this
      ensures e == if aid in old(view).accounts then Some(UniqueViolation) else None
      ensures view == if e.Some? then old(view) else old(view).(accounts := old(view).accounts[aid := account])
    {
      if aid in view.accounts {
        e := Some(UniqueViolation);
      } else {
        view := view.(accounts := view.accounts[aid := account]);
        e := None;
      }
    }

    method InsertWallet(wid: Id, w: Wallet) returns (e: Option<Error>)
      modifies this
      ensures e == if wid in old(view).wallets then Some(UniqueViolation)
                   else if w.account !in old(view).accounts then Some(ForeignKeyViolation) else None
      ensures view == if e.Some? then old(view) else old(view).(wallets := old(view).wallets[wid := w])
    {
      if wid in view.wallets {
        e := Some(UniqueViolation);
      } else if w.account !in view.accounts {
        e := Some(ForeignKeyViolation);
      } else {
        view := view.(wallets := view.wallets[wid := w]);
        e := None;
      }
    }
  }
}
