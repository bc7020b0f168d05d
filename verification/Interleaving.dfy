/**
 * The services under concurrency: each statement is a step, row locks are held until commit,
 * and a transaction's row versions become visible only when it commits.
 */
module Interleaving {
  import opened Base
  import opened LedgerModel
  import opened Tables
  import opened Programs

  /** Postgres row lock modes in use: SELECT FOR UPDATE, a plain UPDATE, a foreign key check. */
  datatype Mode = ForUpdate | NoKeyUpdate | KeyShare

  /** A row, or a place in a unique index that an uncommitted INSERT occupies. */
  datatype Lock =
    | IdemRow(key: string)
    | HookRow(hook: HookKey)
    | PaymentRow(pid: Id)
    | ReferenceRow(reference: string)
    | AccountRow(aid: Id)
    | WalletRow(wid: Id, mode: Mode)
    | TransferRow(tid: Id)
    | LedgerRow(lid: Id)

  predicate Conflict(a: Lock, b: Lock) {
    if a.WalletRow? && b.WalletRow? then
      a.wid == b.wid && (a.mode == ForUpdate || b.mode == ForUpdate || (a.mode == NoKeyUpdate && b.mode == NoKeyUpdate))
    else a == b
  }

  predicate Covers(held: set<Lock>, want: Lock) {
    want in held || (want.WalletRow? && WalletRow(want.wid, ForUpdate) in held)
  }

  /** The state of a running call: next statement, locks, uncommitted writes, and its variables. */
  datatype Local = Local(pc: nat, held: set<Lock>, pend: seq<Write>,
                         first: Option<Fetched>, second: Option<Fetched>, found: Option<Found>)

  const FRESH := Local(0, {}, [], None, None, None)

  /** How many statements come before COMMIT. */
  function Length(p: Program): nat {
    match p
    case RunTransfer(_, _, _, _, _, _, _) => 10
    case RunWebhook(_, _, _, _) => 8
    case CreateWallet(_, _, _, _, _) => 2
    case CreatePayment(_, _, _, _, _, _) => 3
    case SetStatus(_, _) => 1
    case AcquireKey(_, _) => 1
    case CompleteKey(_, _, _) => 1
  }

  // ---- Transfers, statement by statement ----

  /** Lock order: the smaller wallet id first, the same choice for both directions. */
  function FirstLock(p: Program): Id
    requires p.RunTransfer?
  {
    if p.source > p.destination then p.destination else p.source
  }

  function SecondLock(p: Program): Id
    requires p.RunTransfer?
  {
    if p.source > p.destination then p.source else p.destination
  }

  /** Source and destination again, recognised by comparing the first row's id with the request. */
  function MapBack(p: Program, first: Fetched, second: Fetched): (Fetched, Fetched)
    requires p.RunTransfer?
  {
    if first.id == p.source then (first, second) else (second, first)
  }

  function Write1(l: Local, w: Write): Local {
    l.(pend := l.pend + [w])
  }

  function BalanceStatement(v: Db, l: Local, wid: Id, delta: int): Result<Local, Error> {
    match AddToBalance(v, wid, delta)
    case Err(e) => Err(e)
    case Ok(None) => Ok(l)
    case Ok(Some(w)) => Ok(Write1(l, PutWallet(wid, w)))
  }

  /** The check of the ledger repository, then INSERT INTO ledger_transactions. */
  function LedgerStatement(v: Db, l: Local, x: LedgerTxn, es: seq<Entry>): Result<Local, Error> {
    if LedgerCheck(es).Some? then Err(Ledger(LedgerCheck(es).value))
    else if HasLedgerTxn(v, x.id) then Err(UniqueViolation)
    else Ok(Write1(l, AddLedgerTxn(x)))
  }

  function EntriesStatement(v: Db, l: Local, es: seq<Entry>): Result<Local, Error> {
    if InsertEntriesError(v, es).Some? then Err(InsertEntriesError(v, es).value)
    else Ok(Write1(l, AddEntries(es)))
  }

  function TransferEntries(p: Program, l: Local): seq<Entry>
    requires p.RunTransfer? && l.first.Some? && l.second.Some?
  {
    var (s, d) := MapBack(p, l.first.value, l.second.value);
    Pair(p.lid, s.wallet.account, d.wallet.account, p.amount, p.currency)
  }

  function TransferBody(v: Db, p: Program, l: Local): Result<Local, Error>
    requires p.RunTransfer?
  {
    match l.pc
    case 0 =>
      if p.source == p.destination then Err(SameWallet)
      else if p.amount <= 0 then Err(AmountNotPositive)
      else Ok(l)
    case 1 =>
      if FirstLock(p) !in v.wallets then Err(NoSuchRow)
      else Ok(l.(first := Some(Fetched(FirstLock(p), v.wallets[FirstLock(p)]))))
    case 2 =>
      if SecondLock(p) !in v.wallets then Err(NoSuchRow)
      else Ok(l.(second := Some(Fetched(SecondLock(p), v.wallets[SecondLock(p)]))))
    case _ =>
      if l.first.None? || l.second.None? then Ok(l)
      else
        var (s, d) := MapBack(p, l.first.value, l.second.value);
        match l.pc
        case 3 =>
          if s.wallet.status != Active || d.wallet.status != Active then Err(NotActive)
          else if s.wallet.currency != p.currency || d.wallet.currency != p.currency then Err(CurrencyMismatch)
          else if s.wallet.available < p.amount then Err(InsufficientFunds)
          else Ok(l)
        case 4 => BalanceStatement(v, l, s.id, 0 - (p.amount as int))
        case 5 => BalanceStatement(v, l, d.id, p.amount)
        case 6 =>
          var t := Transfer(p.tid, p.source, p.destination, p.amount, p.currency, p.key);
          if InsertTransferError(v, t).Some? then Err(InsertTransferError(v, t).value)
          else Ok(Write1(l, AddTransfer(t)))
        case 7 => LedgerStatement(v, l, LedgerTxn(p.lid, p.tid, TransferTxn), TransferEntries(p, l))
        case 8 => EntriesStatement(v, l, TransferEntries(p, l))
        case _ => Ok(Write1(l, AddEvent(TransferEvent(p.tid, p.amount, p.currency))))
  }

  function TransferWant(v: Db, p: Program, l: Local): Option<Lock>
    requires p.RunTransfer?
  {
    match l.pc
    case 1 => if FirstLock(p) in v.wallets then Some(WalletRow(FirstLock(p), ForUpdate)) else None
    case 2 => if SecondLock(p) in v.wallets then Some(WalletRow(SecondLock(p), ForUpdate)) else None
    case 4 => if p.source in v.wallets then Some(WalletRow(p.source, NoKeyUpdate)) else None
    case 5 => if p.destination in v.wallets then Some(WalletRow(p.destination, NoKeyUpdate)) else None
    case 6 => if HasTransfer(v, p.tid) then None else Some(TransferRow(p.tid))
    case 7 => if HasLedgerTxn(v, p.lid) then None else Some(LedgerRow(p.lid))
    case _ => None
  }

  // ---- Webhooks, statement by statement ----

  function WebhookBody(v: Db, p: Program, l: Local): Result<Local, Error>
    requires p.RunWebhook?
  {
    match l.pc
    case 0 =>
      if HasHook(v, p.hook) then Err(DuplicateWebhook)
      else Ok(Write1(l, AddHook(Hook(p.hook, p.reference, p.status))))
    case 1 =>
      (match FindPayment(v, p.reference)
       case None => Err(PaymentNotFound)
       case Some(pid) =>
         Ok(l.(found := Some(Found(pid, v.payments[pid], v.wallets[v.payments[pid].wallet].account)))))
    case _ =>
      if l.found.None? then Ok(l)
      else
        var Found(pid, pay, account) := l.found.value;
        var es := Pair(p.lid, EXTERNAL_ACCOUNT, account, pay.amount, pay.currency);
        match l.pc
        case 2 => if !ValidTransition(pay.status, p.status) then Err(InvalidTransition) else Ok(l)
        case 3 =>
          if pid !in v.payments then Ok(l) else Ok(Write1(l, PutPayment(pid, v.payments[pid].(status := p.status))))
        case 4 => if p.status == Succeeded then BalanceStatement(v, l, pay.wallet, pay.amount) else Ok(l)
        case 5 => if p.status == Succeeded then LedgerStatement(v, l, LedgerTxn(p.lid, pid, PaymentTxn), es) else Ok(l)
        case 6 => if p.status == Succeeded then EntriesStatement(v, l, es) else Ok(l)
        case _ => Ok(Write1(l, AddEvent(PaymentEvent(pid, p.status, pay.amount, pay.currency))))
  }

  function WebhookWant(v: Db, p: Program, l: Local): Option<Lock>
    requires p.RunWebhook?
  {
    match l.pc
    case 0 => if HasHook(v, p.hook) then None else Some(HookRow(p.hook))
    case 1 => if FindPayment(v, p.reference).Some? then Some(PaymentRow(FindPayment(v, p.reference).value)) else None
    case 3 =>
      if l.found.Some? && l.found.value.pid in v.payments then Some(PaymentRow(l.found.value.pid)) else None
    case 4 =>
      if p.status == Succeeded && l.found.Some? && l.found.value.payment.wallet in v.wallets
      then Some(WalletRow(l.found.value.payment.wallet, NoKeyUpdate)) else None
    case 5 => if p.status == Succeeded && !HasLedgerTxn(v, p.lid) then Some(LedgerRow(p.lid)) else None
    case _ => None
  }

  // ---- The shorter operations ----

  function CreateWalletBody(v: Db, p: Program, l: Local): Result<Local, Error>
    requires p.CreateWallet?
  {
    match l.pc
    case 0 => if p.aid in v.accounts then Err(UniqueViolation) else Ok(Write1(l, PutAccount(p.aid, Account(p.kind, p.currency))))
    case _ =>
      if p.wid in v.wallets then Err(UniqueViolation)
      else if p.aid !in v.accounts then Err(ForeignKeyViolation)
      else Ok(Write1(l, PutWallet(p.wid, Wallet(p.owner, p.aid, p.currency, 0, 0, Active))))
  }

  function CreatePaymentBody(v: Db, p: Program, l: Local): Result<Local, Error>
    requires p.CreatePayment?
  {
    match l.pc
    case 0 =>
      if p.amount <= 0 then Err(CheckViolation)
      else if p.pid in v.payments then Err(UniqueViolation)
      else Ok(Write1(l, PutPayment(p.pid, NewPayment(p))))
    case 1 =>
      if p.reference in v.references then Err(UniqueViolation) else Ok(Write1(l, PutReference(p.reference, p.pid)))
    case _ =>
      if p.wallet !in v.wallets then Err(ForeignKeyViolation) else Ok(l)
  }

  /** What the next statement does, on the tables as the call sees them. */
  function Body(v: Db, p: Program, l: Local): Result<Local, Error> {
    match p
    case RunTransfer(_, _, _, _, _, _, _) => TransferBody(v, p, l)
    case RunWebhook(_, _, _, _) => WebhookBody(v, p, l)
    case CreateWallet(_, _, _, _, _) => CreateWalletBody(v, p, l)
    case CreatePayment(_, _, _, _, _, _) => CreatePaymentBody(v, p, l)
    case SetStatus(wid, status) =>
      if wid !in v.wallets then Err(WalletNotFound) else Ok(Write1(l, PutWallet(wid, v.wallets[wid].(status := status))))
    case AcquireKey(key, request) =>
      if key in v.keys then Err(UniqueViolation) else Ok(Write1(l, PutKey(key, KeyRecord(InProgress, request, None, None))))
    case CompleteKey(key, response, code) =>
      if key !in v.keys then Ok(l)
      else Ok(Write1(l, PutKey(key, v.keys[key].(status := Completed, response := Some(response), code := Some(code)))))
  }

  /** The row lock (or index place) the next statement has to have. */
  function Want(v: Db, p: Program, l: Local): Option<Lock> {
    match p
    case RunTransfer(_, _, _, _, _, _, _) => TransferWant(v, p, l)
    case RunWebhook(_, _, _, _) => WebhookWant(v, p, l)
    case CreateWallet(wid, aid, _, _, _) =>
      if l.pc == 0 then if aid in v.accounts then None else Some(AccountRow(aid))
      else if wid in v.wallets then None else Some(WalletRow(wid, ForUpdate))
    case CreatePayment(pid, wallet, _, _, _, reference) =>
      if l.pc == 0 then if pid in v.payments then None else Some(PaymentRow(pid))
      else if l.pc == 1 then if reference in v.references then None else Some(ReferenceRow(reference))
      else if wallet in v.wallets then Some(WalletRow(wallet, KeyShare)) else None
    case SetStatus(wid, _) => if wid in v.wallets then Some(WalletRow(wid, NoKeyUpdate)) else None
    case AcquireKey(key, _) => if key in v.keys then None else Some(IdemRow(key))
    case CompleteKey(key, _, _) => if key in v.keys then Some(IdemRow(key)) else None
  }

  /** The lock to wait for: none when a lock already held is strong enough. */
  function Need(v: Db, p: Program, l: Local): Option<Lock> {
    var want := Want(v, p, l);
    if want.Some? && Covers(l.held, want.value) then None else want
  }

  function NeedSet(v: Db, p: Program, l: Local): set<Lock> {
    var need := Need(v, p, l);
    if need.Some? then {need.value} else {}
  }

  /** Executing the next statement once its lock is granted. */
  function Execute(v: Db, p: Program, l: Local): Result<Local, Error> {
    match Body(v, p, l)
    case Err(e) => Err(e)
    case Ok(m) => Ok(m.(pc := l.pc + 1, held := l.held + NeedSet(v, p, l)))
  }

  // ---- The system ----

  datatype Proc =
    | Running(prog: Program, local: Local)
    | Finished(prog: Program)
    | Aborted(prog: Program, error: Error)

  /** Committed tables, every call started so far, and the committed calls in commit order. */
  datatype Sys = Sys(db: Db, procs: seq<Proc>, log: seq<Program>)

  datatype Action = Spawn(prog: Program) | Advance(i: nat) | Crash(i: nat)

  /** A new account's random id is never the external account's; only an acquired key is completed. */
  predicate MaySpawn(db: Db, p: Program) {
    && (p.CreateWallet? ==> p.aid != EXTERNAL_ACCOUNT)
    && (p.CompleteKey? ==> p.key in db.keys)
  }

  predicate Live(s: Sys, i: nat) {
    i < |s.procs| && s.procs[i].Running?
  }

  function NeedOf(s: Sys, i: nat): Option<Lock>
    requires Live(s, i)
  {
    var Running(p, l) := s.procs[i];
    if l.pc >= Length(p) then None else Need(View(s.db, l.pend), p, l)
  }

  predicate Holds(s: Sys, j: nat, lock: Lock) {
    Live(s, j) && exists h :: h in s.procs[j].local.held && Conflict(h, lock)
  }

  predicate Blocked(s: Sys, i: nat)
    requires Live(s, i)
  {
    NeedOf(s, i).Some? && exists j | 0 <= j < |s.procs| :: j != i && Holds(s, j, NeedOf(s, i).value)
  }

  predicate CanAdvance(s: Sys, i: nat) {
    Live(s, i) && !Blocked(s, i)
  }

  function AdvanceProc(s: Sys, i: nat): Sys
    requires CanAdvance(s, i)
  {
    var Running(p, l) := s.procs[i];
    if l.pc >= Length(p) then
      Sys(View(s.db, l.pend), s.procs[i := Finished(p)], s.log + [p])
    else
      match Execute(View(s.db, l.pend), p, l)
      case Ok(m) => s.(procs := s.procs[i := Running(p, m)])
      case Err(e) => s.(procs := s.procs[i := Aborted(p, e)])
  }

  /** One step of the whole system; an action that is not possible changes nothing. */
  function Next(s: Sys, a: Action): Sys {
    match a
    case Spawn(p) => if MaySpawn(s.db, p) then s.(procs := s.procs + [Running(p, FRESH)]) else s
    case Advance(i) => if CanAdvance(s, i) then AdvanceProc(s, i) else s
    case Crash(i) => if Live(s, i) then s.(procs := s.procs[i := Aborted(s.procs[i].prog, ConnectionLost)]) else s
  }

  function Run(s: Sys, actions: seq<Action>): Sys {
    if actions == [] then s else Next(Run(s, actions[..|actions| - 1]), actions[|actions| - 1])
  }

  function Start(db: Db): Sys {
    Sys(db, [], [])
  }

  /** Every system state any schedule can lead to from empty tables. */
  ghost predicate Reachable(s: Sys) {
    exists ext: bool, actions: seq<Action> :: s == Run(Start(EmptyDb(ext)), actions)
  }
}
