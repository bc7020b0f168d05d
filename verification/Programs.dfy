/** The database operations of the services, and what each one does when it runs alone. */
module Programs {
  import opened Base
  import opened LedgerModel
  import opened Tables

  /**
   * One call of a service method, with the ids its INSERTs will draw.
   * Nothing is assumed about drawn ids: a repeated one meets the primary key.
   */
  datatype Program =
    | RunTransfer(source: Id, destination: Id, amount: int64, currency: string, key: string, tid: Id, lid: Id)
    | RunWebhook(hook: HookKey, reference: string, status: PaymentStatus, lid: Id)
    | CreateWallet(wid: Id, aid: Id, owner: Id, kind: string, currency: string)
    | SetStatus(wid: Id, newStatus: WalletStatus)
    | CreatePayment(pid: Id, wallet: Id, amount: int64, currency: string, accepted: bool, reference: string)
    | AcquireKey(key: string, request: string)
    | CompleteKey(key: string, response: Payload, code: int)

  // ---- Transfers ----

  /** Why a transfer is refused, if it is: the first failing check, in the order of the code. */
  function TransferError(db: Db, p: Program): Option<Error>
    requires p.RunTransfer?
  {
    if p.source == p.destination then Some(SameWallet)
    else if p.amount <= 0 then Some(AmountNotPositive)
    else if p.source !in db.wallets || p.destination !in db.wallets then Some(NoSuchRow)
    else
      var s, d := db.wallets[p.source], db.wallets[p.destination];
      if s.status != Active || d.status != Active then Some(NotActive)
      else if s.currency != p.currency || d.currency != p.currency then Some(CurrencyMismatch)
      else if s.available < p.amount then Some(InsufficientFunds)
      else if AddToBalance(db, p.destination, p.amount).Err? then Some(AddToBalance(db, p.destination, p.amount).error)
      else if HasTransfer(db, p.tid) then Some(UniqueViolation)
      else if p.key !in db.keys then Some(ForeignKeyViolation)
      else if HasLedgerTxn(db, p.lid) then Some(UniqueViolation)
      else if s.account !in db.accounts || d.account !in db.accounts then Some(ForeignKeyViolation)
      else None
  }

  function TransferEffect(db: Db, p: Program): Db
    requires p.RunTransfer? && TransferError(db, p).None?
  {
    var s, d := db.wallets[p.source], db.wallets[p.destination];
    db.(
    wallets := db.wallets[p.source := s.(available := s.available - p.amount)]
                         [p.destination := d.(available := d.available + p.amount)],
    transfers := db.transfers + [Transfer(p.tid, p.source, p.destination, p.amount, p.currency, p.key)],
    ledger := db.ledger + [LedgerTxn(p.lid, p.tid, TransferTxn)],
    entries := db.entries + Pair(p.lid, s.account, d.account, p.amount, p.currency),
    outbox := db.outbox + [TransferEvent(p.tid, p.amount, p.currency)])
  }

  // ---- Webhooks ----

  /** The payment a provider reference leads to, joined with its wallet. */
  function FindPayment(db: Db, reference: string): Option<Id> {
    if reference in db.references then
      var pid := db.references[reference];
      if pid in db.payments && db.payments[pid].wallet in db.wallets then Some(pid) else None
    else None
  }

  function WebhookError(db: Db, p: Program): Option<Error>
    requires p.RunWebhook?
  {
    if HasHook(db, p.hook) then Some(DuplicateWebhook)
    else if FindPayment(db, p.reference).None? then Some(PaymentNotFound)
    else
      var pay := db.payments[FindPayment(db, p.reference).value];
      if !ValidTransition(pay.status, p.status) then Some(InvalidTransition)
      else if p.status == Succeeded then CreditError(db, pay, p.lid)
      else None
  }

  /** Why crediting a payment fails: the balance, the ledger check, a repeated id or a missing account. */
  function CreditError(db: Db, pay: Payment, lid: Id): Option<Error>
    requires pay.wallet in db.wallets
  {
    if AddToBalance(db, pay.wallet, pay.amount).Err? then Some(AddToBalance(db, pay.wallet, pay.amount).error)
    else if pay.amount <= 0 then Some(Ledger(NonPositiveAmount))
    else if HasLedgerTxn(db, lid) then Some(UniqueViolation)
    else if EXTERNAL_ACCOUNT !in db.accounts || db.wallets[pay.wallet].account !in db.accounts then Some(ForeignKeyViolation)
    else None
  }

  function WebhookEffect(db: Db, p: Program): Db
    requires p.RunWebhook? && WebhookError(db, p).None?
  {
    var pid := FindPayment(db, p.reference).value;
    var pay := db.payments[pid];
    var marked := db.(
      hooks := db.hooks + [Hook(p.hook, p.reference, p.status)],
      payments := db.payments[pid := pay.(status := p.status)],
      outbox := db.outbox + [PaymentEvent(pid, p.status, pay.amount, pay.currency)]);
    if p.status != Succeeded then marked
    else
      var w := db.wallets[pay.wallet];
      marked.(
      wallets := db.wallets[pay.wallet := w.(available := w.available + pay.amount)],
      ledger := db.ledger + [LedgerTxn(p.lid, pid, PaymentTxn)],
      entries := db.entries + Pair(p.lid, EXTERNAL_ACCOUNT, w.account, pay.amount, pay.currency))
  }

  // ---- Payments ----

  function PaymentError(db: Db, p: Program): Option<Error>
    requires p.CreatePayment?
  {
    if p.amount <= 0 then Some(CheckViolation)
    else if p.pid in db.payments || p.reference in db.references then Some(UniqueViolation)
    else if p.wallet !in db.wallets then Some(ForeignKeyViolation)
    else None
  }

  function NewPayment(p: Program): Payment
    requires p.CreatePayment?
  {
    Payment(p.wallet, p.amount, p.currency, if p.accepted then Processing else Failed, p.reference)
  }

  /** Running a whole operation alone, from BEGIN to COMMIT: the new tables, or why it rolled back. */
  function Apply(db: Db, p: Program): Result<Db, Error> {
    match p
    case RunTransfer(_, _, _, _, _, _, _) =>
      if TransferError(db, p).Some? then Err(TransferError(db, p).value) else Ok(TransferEffect(db, p))
    case RunWebhook(_, _, _, _) =>
      if WebhookError(db, p).Some? then Err(WebhookError(db, p).value) else Ok(WebhookEffect(db, p))
    case CreateWallet(wid, aid, owner, kind, currency) =>
      if aid in db.accounts || wid in db.wallets then Err(UniqueViolation)
      else Ok(db.(accounts := db.accounts[aid := Account(kind, currency)],
                  wallets := db.wallets[wid := Wallet(owner, aid, currency, 0, 0, Active)]))
    case SetStatus(wid, status) =>
      if wid !in db.wallets then Err(WalletNotFound)
      else Ok(db.(wallets := db.wallets[wid := db.wallets[wid].(status := status)]))
    case CreatePayment(pid, _, _, _, _, reference) =>
      if PaymentError(db, p).Some? then Err(PaymentError(db, p).value)
      else Ok(db.(payments := db.payments[pid := NewPayment(p)], references := db.references[reference := pid]))
    case AcquireKey(key, request) =>
      if key in db.keys then Err(UniqueViolation)
      else Ok(db.(keys := db.keys[key := KeyRecord(InProgress, request, None, None)]))
    case CompleteKey(key, response, code) =>
      if key !in db.keys then Ok(db)
      else Ok(db.(keys := db.keys[key := db.keys[key].(status := Completed, response := Some(response), code := Some(code))]))
  }

  /** Running a list of operations one at a time; every one of them must succeed. */
  function ApplyAll(db: Db, ps: seq<Program>): Option<Db> {
    if ps == [] then Some(db)
    else
      var before := ApplyAll(db, ps[..|ps| - 1]);
      if before.None? then None
      else
        var r := Apply(before.value, ps[|ps| - 1]);
        if r.Ok? then Some(r.value) else None
  }
}
