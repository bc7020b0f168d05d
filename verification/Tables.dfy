/** The Postgres tables, the row versions a transaction can write, and what each SQL statement does. */
module Tables {
  import opened Base
  import opened LedgerModel

  /** The account the payment service debits; a random UUID is never all zeros. */
  const EXTERNAL_ACCOUNT: Id := 0

  datatype WalletStatus = Active | Frozen | Closed

  datatype Account = Account(kind: string, currency: string)

  datatype Wallet = Wallet(owner: Id, account: Id, currency: string, available: int64, locked: int64, status: WalletStatus)

  datatype PaymentStatus = Created | Processing | Succeeded | Failed | OtherStatus(text: string)

  datatype Payment = Payment(wallet: Id, amount: int64, currency: string, status: PaymentStatus, reference: string)

  datatype HookKey = HookKey(provider: string, event: string)

  /** A stored webhook event: its unique key and the part of its payload that is acted on. */
  datatype Hook = Hook(key: HookKey, reference: string, status: PaymentStatus)

  datatype Transfer = Transfer(id: Id, source: Id, destination: Id, amount: int64, currency: string, key: string)

  datatype TxnType = TransferTxn | PaymentTxn

  datatype LedgerTxn = LedgerTxn(id: Id, reference: Id, kind: TxnType)

  datatype KeyStatus = InProgress | Completed

  /** A stored answer, as a JSON value: JSONB keeps the value, not the text it was written in. */
  datatype Payload = ErrorObject(message: string) | TransferObject(transfer: Transfer)

  datatype KeyRecord = KeyRecord(status: KeyStatus, request: string, response: Option<Payload>, code: Option<int>)

  /** An outbox row's topic and payload; its delivery columns are the subject of module Outbox. */
  datatype Event =
    | TransferEvent(transfer: Id, amount: int64, currency: string)
    | PaymentEvent(payment: Id, status: PaymentStatus, amount: int64, currency: string)

  datatype Db = Db(
    accounts: map<Id, Account>,
    wallets: map<Id, Wallet>,
    payments: map<Id, Payment>,
    references: map<string, Id>,    // unique index on payments.provider_reference
    keys: map<string, KeyRecord>,
    hooks: seq<Hook>,
    transfers: seq<Transfer>,
    ledger: seq<LedgerTxn>,
    entries: seq<Entry>,
    outbox: seq<Event>
  )

  /** A wallet row as SELECT ... FOR UPDATE returned it, id included. */
  datatype Fetched = Fetched(id: Id, wallet: Wallet)

  /** A payment row joined with its wallet's account. */
  datatype Found = Found(pid: Id, payment: Payment, account: Id)

  datatype Error =
    | SameWallet | AmountNotPositive | NoSuchRow | NotActive | CurrencyMismatch | InsufficientFunds
    | PaymentNotFound | DuplicateWebhook | InvalidTransition | WalletNotFound
    | Ledger(reason: EntryError)
    | OutOfRange | CheckViolation | UniqueViolation | ForeignKeyViolation
    | KeyInProgress
    | ConnectionLost

  /** Empty tables; the external account may or may not have been inserted by hand. */
  function EmptyDb(withExternal: bool): Db {
    Db(if withExternal then map[EXTERNAL_ACCOUNT := Account("PLATFORM", "")] else map[],
       map[], map[], map[], map[], [], [], [], [], [])
  }

  predicate HasHook(v: Db, k: HookKey) {
    exists h :: h in v.hooks && h.key == k
  }

  predicate HasTransfer(v: Db, id: Id) {
    exists t :: t in v.transfers && t.id == id
  }

  predicate HasLedgerTxn(v: Db, id: Id) {
    exists x :: x in v.ledger && x.id == id
  }

  // ---- Row versions ----

  datatype Write =
    | PutAccount(aid: Id, account: Account)
    | PutWallet(wid: Id, wallet: Wallet)
    | PutPayment(pid: Id, payment: Payment)
    | PutReference(reference: string, target: Id)
    | PutKey(key: string, rec: KeyRecord)
    | AddHook(hook: Hook)
    | AddTransfer(transfer: Transfer)
    | AddLedgerTxn(txn: LedgerTxn)
    | AddEntries(rows: seq<Entry>)
    | AddEvent(event: Event)

  function ApplyWrite(db: Db, w: Write): Db {
    match w
    case PutAccount(a, account) => db.(accounts := db.accounts[a := account])
    case PutWallet(id, wallet) => db.(wallets := db.wallets[id := wallet])
    case PutPayment(id, payment) => db.(payments := db.payments[id := payment])
    case PutReference(r, id) => db.(references := db.references[r := id])
    case PutKey(k, rec) => db.(keys := db.keys[k := rec])
    case AddHook(h) => db.(hooks := db.hooks + [h])
    case AddTransfer(t) => db.(transfers := db.transfers + [t])
    case AddLedgerTxn(x) => db.(ledger := db.ledger + [x])
    case AddEntries(es) => db.(entries := db.entries + es)
    case AddEvent(e) => db.(outbox := db.outbox + [e])
  }

  /** What a transaction sees: the committed tables overlaid with its own writes. */
  function View(db: Db, pend: seq<Write>): Db {
    if pend == [] then db else ApplyWrite(View(db, pend[..|pend| - 1]), pend[|pend| - 1])
  }

  lemma ViewAppend(db: Db, pend: seq<Write>, w: Write)
    ensures View(db, pend + [w]) == ApplyWrite(View(db, pend), w)
  {
    assert (pend + [w])[..|pend|] == pend;
  }

  // ---- Statements, on the tables as the statement sees them ----

  /** UPDATE wallets SET available_balance = available_balance + delta: no row, no effect and no error. */
  function AddToBalance(v: Db, wid: Id, delta: int): Result<Option<Wallet>, Error> {
    if wid !in v.wallets then Ok(None)
    else
      var w := v.wallets[wid];
      if !IsInt64(w.available + delta) then Err(OutOfRange)
      else if w.available + delta < 0 then Err(CheckViolation)
      else Ok(Some(w.(available := w.available + delta)))
  }

  /** INSERT INTO transfers: CHECKs, primary key and foreign keys. */
  function InsertTransferError(v: Db, t: Transfer): Option<Error> {
    if t.amount <= 0 || t.source == t.destination then Some(CheckViolation)
    else if HasTransfer(v, t.id) then Some(UniqueViolation)
    else if t.source !in v.wallets || t.destination !in v.wallets || t.key !in v.keys then Some(ForeignKeyViolation)
    else None
  }

  /** INSERT INTO ledger_entries, as one batch. */
  function InsertEntriesError(v: Db, es: seq<Entry>): Option<Error> {
    if exists e :: e in es && e.amount <= 0 then Some(CheckViolation)
    else if exists e :: e in es && (e.account !in v.accounts || !HasLedgerTxn(v, e.txn)) then Some(ForeignKeyViolation)
    else None
  }

  /** The state machine of payments. */
  predicate ValidTransition(current: PaymentStatus, next: PaymentStatus) {
    match current
    case Processing => next == Succeeded || next == Failed
    case Created => next == Processing || next == Failed
    case _ => false
  }
}
