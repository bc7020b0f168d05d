/** Statement by statement and alone, each operation does exactly what its specification says. */
module Alone {
  import opened Base
  import opened LedgerModel
  import opened Tables
  import opened Programs
  import opened Interleaving
  import opened Isolation

  /** The outcome of running all statements of a call alone and then committing. */
  function Outcome(db: Db, p: Program): Result<Db, Error> {
    match Replay(db, p, Length(p))
    case Err(e) => Err(e)
    case Ok(l) => Ok(View(db, l.pend))
  }

  /** A statement that fails decides the outcome. */
  lemma Fails(db: Db, p: Program, n: nat, e: Error)
    requires n <= Length(p) && Replay(db, p, n) == Err(e)
    ensures Outcome(db, p) == Err(e)
  {
    hide Body, Want;
    ReplayPrefix(db, p, n, Length(p));
  }

  // ---- The same run, told forwards over the tables the call sees ----

  /** A local state without its locks and write list, which no statement looks at. */
  function Bare(l: Local): Local {
    l.(held := {}, pend := [])
  }

  function Forward(v: Db, p: Program, l: Local): Result<Db, Error>
    decreases Length(p) - l.pc
  {
    if l.pc >= Length(p) then Ok(v)
    else
      match Body(v, p, Bare(l))
      case Err(e) => Err(e)
      case Ok(m) => Forward(if m.pend == [] then v else ApplyWrite(v, m.pend[0]), p, Bare(m.(pc := l.pc + 1)))
  }

  /** The same statement run from l and from the bare l: same error, or the same change and write. */
  predicate SameStep(l: Local, r: Result<Local, Error>, bare: Result<Local, Error>) {
    match r
    case Err(_) => bare == r
    case Ok(m) => bare.Ok? && Bare(m) == Bare(bare.value) && |bare.value.pend| <= 1 && m.pend == l.pend + bare.value.pend
  }

  lemma BareBalance(v: Db, l: Local, wid: Id, delta: int)
    ensures SameStep(l, BalanceStatement(v, l, wid, delta), BalanceStatement(v, Bare(l), wid, delta))
  {
  }

  lemma BareTransfer(v: Db, p: Program, l: Local)
    requires p.RunTransfer?
    ensures SameStep(l, TransferBody(v, p, l), TransferBody(v, p, Bare(l)))
  {
    hide BalanceStatement, LedgerCheck;
    if l.pc >= 3 && l.first.Some? && l.second.Some? {
      var (s, d) := MapBack(p, l.first.value, l.second.value);
      BareBalance(v, l, s.id, 0 - (p.amount as int));
      BareBalance(v, l, d.id, p.amount);
    }
  }

  lemma BareWebhook(v: Db, p: Program, l: Local)
    requires p.RunWebhook?
    ensures SameStep(l, WebhookBody(v, p, l), WebhookBody(v, p, Bare(l)))
  {
    hide BalanceStatement, LedgerCheck;
    if l.found.Some? {
      BareBalance(v, l, l.found.value.payment.wallet, l.found.value.payment.amount);
    }
  }

  lemma BareBody(v: Db, p: Program, l: Local)
    ensures SameStep(l, Body(v, p, l), Body(v, p, Bare(l)))
  {
    hide TransferBody, WebhookBody;
    if p.RunTransfer? {
      BareTransfer(v, p, l);
    } else if p.RunWebhook? {
      BareWebhook(v, p, l);
    }
  }

  lemma ExecuteForward(v: Db, p: Program, l: Local)
    requires l.pc < Length(p)
    ensures Execute(v, p, l).Err? ==> Forward(v, p, Bare(l)) == Err(Execute(v, p, l).error)
    ensures Execute(v, p, l).Ok? ==>
              var m := Execute(v, p, l).value;
              && (m.pend == l.pend || exists x :: m.pend == l.pend + [x])
              && Forward(v, p, Bare(l)) == Forward(if m.pend == l.pend then v else ApplyWrite(v, m.pend[|m.pend| - 1]), p, Bare(m))
  {
    hide Body, Want;
    BareBody(v, p, l);
    assert Bare(Bare(l)) == Bare(l);
    if Execute(v, p, l).Ok? {
      var n := Body(v, p, Bare(l)).value;
      assert n.pend == [] || n.pend == [n.pend[0]];
      assert l.pend + [] == l.pend;
    }
  }

  lemma {:induction false} ReplayForward(db: Db, p: Program, n: nat)
    requires n <= Length(p)
    ensures Replay(db, p, n).Err? ==> Forward(db, p, FRESH) == Err(Replay(db, p, n).error)
    ensures Replay(db, p, n).Ok? ==>
              var l := Replay(db, p, n).value;
              l.pc == n && Forward(db, p, FRESH) == Forward(View(db, l.pend), p, Bare(l))
  {
    hide Body, Want, Forward;
    if n == 0 {
      assert Bare(FRESH) == FRESH;
    } else {
      ReplayForward(db, p, n - 1);
      if Replay(db, p, n - 1).Ok? {
        var l := Replay(db, p, n - 1).value;
        ExecuteForward(View(db, l.pend), p, l);
        if Replay(db, p, n).Ok? {
          var m := Replay(db, p, n).value;
          if m.pend != l.pend {
            ViewAppend(db, l.pend, m.pend[|m.pend| - 1]);
          }
        }
      }
    }
  }

  lemma OutcomeIsForward(db: Db, p: Program)
    ensures Outcome(db, p) == Forward(db, p, FRESH)
  {
    hide Body, Want;
    ReplayForward(db, p, Length(p));
  }

  // ---- Transfers ----

  /** A transfer's variables once both rows are locked. */
  function Locked(db: Db, p: Program, pc: nat): Local
    requires p.RunTransfer? && p.source in db.wallets && p.destination in db.wallets
  {
    Local(pc, {}, [], Some(Fetched(FirstLock(p), db.wallets[FirstLock(p)])),
          Some(Fetched(SecondLock(p), db.wallets[SecondLock(p)])), None)
  }

  /** Whichever row was locked first, source and destination are told apart again. */
  lemma MapBackRight(db: Db, p: Program, pc: nat)
    requires p.RunTransfer? && p.source in db.wallets && p.destination in db.wallets
    ensures MapBack(p, Locked(db, p, pc).first.value, Locked(db, p, pc).second.value)
            == (Fetched(p.source, db.wallets[p.source]), Fetched(p.destination, db.wallets[p.destination]))
  {
  }

  lemma TransferLocks(db: Db, p: Program)
    requires p.RunTransfer?
    ensures Forward(db, p, FRESH) ==
            if p.source == p.destination then Err(SameWallet)
            else if p.amount <= 0 then Err(AmountNotPositive)
            else if p.source !in db.wallets || p.destination !in db.wallets then Err(NoSuchRow)
            else Forward(db, p, Locked(db, p, 3))
  {
    if p.source != p.destination && p.amount > 0 {
      var l1 := FRESH.(pc := 1);
      assert Forward(db, p, FRESH) == Forward(db, p, l1);
      if FirstLock(p) in db.wallets {
        var l2 := l1.(pc := 2, first := Some(Fetched(FirstLock(p), db.wallets[FirstLock(p)])));
        assert Forward(db, p, l1) == Forward(db, p, l2);
      }
    }
  }

  /** The two balances after a transfer. */
  function Moved(db: Db, p: Program): Db
    requires p.RunTransfer? && p.amount > 0 && p.source in db.wallets && p.destination in db.wallets
    requires db.wallets[p.source].available >= p.amount && AddToBalance(db, p.destination, p.amount).Ok?
  {
    var s, d := db.wallets[p.source], db.wallets[p.destination];
    db.(wallets := db.wallets[p.source := s.(available := s.available - p.amount)]
                             [p.destination := d.(available := d.available + p.amount)])
  }

  lemma TransferMoves(db: Db, p: Program)
    requires p.RunTransfer? && p.source != p.destination && p.amount > 0
    requires p.source in db.wallets && p.destination in db.wallets
    ensures Forward(db, p, Locked(db, p, 3)) ==
            var s, d := db.wallets[p.source], db.wallets[p.destination];
            if s.status != Active || d.status != Active then Err(NotActive)
            else if s.currency != p.currency || d.currency != p.currency then Err(CurrencyMismatch)
            else if s.available < p.amount then Err(InsufficientFunds)
            else if AddToBalance(db, p.destination, p.amount).Err? then Err(AddToBalance(db, p.destination, p.amount).error)
            else Forward(Moved(db, p), p, Locked(db, p, 6))
  {
    MapBackRight(db, p, 3);
    var s, d := db.wallets[p.source], db.wallets[p.destination];
    if s.status == d.status == Active && s.currency == d.currency == p.currency && s.available >= p.amount {
      assert Forward(db, p, Locked(db, p, 3)) == Forward(db, p, Locked(db, p, 4));
      TransferDebits(db, p);
    }
  }

  lemma TransferDebits(db: Db, p: Program)
    requires p.RunTransfer? && p.source != p.destination && p.amount > 0
    requires p.source in db.wallets && p.destination in db.wallets && db.wallets[p.source].available >= p.amount
    ensures Forward(db, p, Locked(db, p, 4)) ==
            if AddToBalance(db, p.destination, p.amount).Err? then Err(AddToBalance(db, p.destination, p.amount).error)
            else Forward(Moved(db, p), p, Locked(db, p, 6))
  {
    hide Forward, Body;
    MapBackRight(db, p, 4);
    MapBackRight(db, p, 5);
    var s := db.wallets[p.source];
    var v := ApplyWrite(db, PutWallet(p.source, s.(available := s.available - p.amount)));
    ForwardUpdate(db, p, Locked(db, p, 4));
    ForwardUpdate(v, p, Locked(db, p, 5));
    assert AddToBalance(v, p.destination, p.amount) == AddToBalance(db, p.destination, p.amount);
  }

  /** The balance statements: the fifth debits the source, the sixth credits the destination. */
  lemma ForwardUpdate(v: Db, p: Program, l: Local)
    requires p.RunTransfer? && l == Bare(l) && (l.pc == 4 || l.pc == 5) && l.first.Some? && l.second.Some?
    ensures var (s, d) := MapBack(p, l.first.value, l.second.value);
            var wid, delta := if l.pc == 4 then s.id else d.id, if l.pc == 4 then 0 - (p.amount as int) else p.amount;
            var update := AddToBalance(v, wid, delta);
            Forward(v, p, l) ==
            if update.Err? then Err(update.error)
            else Forward(if update.value.None? then v else ApplyWrite(v, PutWallet(wid, update.value.value)), p, l.(pc := l.pc + 1))
  {
    hide AddToBalance, MapBack, Pair, LedgerCheck, InsertEntriesError, InsertTransferError;
  }

  /** The record of a transfer: transfer row, ledger transaction, entries, outbox row. */
  function Recorded(v: Db, p: Program, debited: Id, credited: Id): Db
    requires p.RunTransfer?
  {
    v.(transfers := v.transfers + [Transfer(p.tid, p.source, p.destination, p.amount, p.currency, p.key)],
    ledger := v.ledger + [LedgerTxn(p.lid, p.tid, TransferTxn)],
    entries := v.entries + Pair(p.lid, debited, credited, p.amount, p.currency),
    outbox := v.outbox + [TransferEvent(p.tid, p.amount, p.currency)])
  }

  lemma TransferRecords(db: Db, p: Program, v: Db)
    requires p.RunTransfer? && p.source != p.destination && p.amount > 0
    requires p.source in db.wallets && p.destination in db.wallets
    requires p.source in v.wallets && p.destination in v.wallets
    ensures Forward(v, p, Locked(db, p, 6)) ==
            var s, d := db.wallets[p.source], db.wallets[p.destination];
            if HasTransfer(v, p.tid) then Err(UniqueViolation)
            else if p.key !in v.keys then Err(ForeignKeyViolation)
            else if HasLedgerTxn(v, p.lid) then Err(UniqueViolation)
            else if s.account !in v.accounts || d.account !in v.accounts then Err(ForeignKeyViolation)
            else Ok(Recorded(v, p, s.account, d.account))
  {
    var t := Transfer(p.tid, p.source, p.destination, p.amount, p.currency, p.key);
    if !HasTransfer(v, p.tid) && p.key in v.keys {
      var v1 := ApplyWrite(v, AddTransfer(t));
      assert Forward(v, p, Locked(db, p, 6)) == Forward(v1, p, Locked(db, p, 7));
      TransferPosts(db, p, v1);
    }
  }

  lemma TransferPosts(db: Db, p: Program, v: Db)
    requires p.RunTransfer? && p.amount > 0 && p.source in db.wallets && p.destination in db.wallets
    ensures Forward(v, p, Locked(db, p, 7)) ==
            var s, d := db.wallets[p.source], db.wallets[p.destination];
            if HasLedgerTxn(v, p.lid) then Err(UniqueViolation)
            else if s.account !in v.accounts || d.account !in v.accounts then Err(ForeignKeyViolation)
            else Ok(v.(ledger := v.ledger + [LedgerTxn(p.lid, p.tid, TransferTxn)],
                       entries := v.entries + Pair(p.lid, s.account, d.account, p.amount, p.currency),
                       outbox := v.outbox + [TransferEvent(p.tid, p.amount, p.currency)]))
  {
    MapBackRight(db, p, 7);
    var s, d := db.wallets[p.source], db.wallets[p.destination];
    var es := Pair(p.lid, s.account, d.account, p.amount, p.currency);
    PairCheck(p.lid, s.account, d.account, p.amount, p.currency);
    assert TransferEntries(p, Locked(db, p, 7)) == es;
    if !HasLedgerTxn(v, p.lid) {
      var w := AddLedgerTxn(LedgerTxn(p.lid, p.tid, TransferTxn));
      var v1 := ApplyWrite(v, w);
      MembersAfter(v, w);
      hide LedgerCheck;
      assert Forward(v, p, Locked(db, p, 7)) == Forward(v1, p, Locked(db, p, 8));
      TransferEnters(db, p, v1);
    }
  }

  lemma TransferEnters(db: Db, p: Program, v: Db)
    requires p.RunTransfer? && p.amount > 0 && p.source in db.wallets && p.destination in db.wallets && HasLedgerTxn(v, p.lid)
    ensures Forward(v, p, Locked(db, p, 8)) ==
            var s, d := db.wallets[p.source], db.wallets[p.destination];
            if s.account !in v.accounts || d.account !in v.accounts then Err(ForeignKeyViolation)
            else Ok(v.(entries := v.entries + Pair(p.lid, s.account, d.account, p.amount, p.currency),
                       outbox := v.outbox + [TransferEvent(p.tid, p.amount, p.currency)]))
  {
    hide Forward, Body, InsertEntriesError, Pair, MapBack, HasLedgerTxn;
    MapBackRight(db, p, 8);
    var s, d := db.wallets[p.source], db.wallets[p.destination];
    var es := Pair(p.lid, s.account, d.account, p.amount, p.currency);
    PairForeignKeys(v, p.lid, s.account, d.account, p.amount, p.currency);
    assert TransferEntries(p, Locked(db, p, 8)) == es;
    ForwardEntries(v, p, Locked(db, p, 8));
    ForwardEvent(ApplyWrite(v, AddEntries(es)), p, Locked(db, p, 9));
  }

  lemma ForwardEntries(v: Db, p: Program, l: Local)
    requires p.RunTransfer? && l == Bare(l) && l.pc == 8 && l.first.Some? && l.second.Some?
    ensures var es := TransferEntries(p, l);
            Forward(v, p, l) ==
            if InsertEntriesError(v, es).Some? then Err(InsertEntriesError(v, es).value)
            else Forward(ApplyWrite(v, AddEntries(es)), p, l.(pc := 9))
  {
    hide InsertEntriesError, TransferEntries;
  }

  lemma ForwardEvent(v: Db, p: Program, l: Local)
    requires p.RunTransfer? && l == Bare(l) && l.pc == 9 && l.first.Some? && l.second.Some?
    ensures Forward(v, p, l) == Ok(ApplyWrite(v, AddEvent(TransferEvent(p.tid, p.amount, p.currency))))
  {
  }

  lemma TransferAlone(db: Db, p: Program)
    requires p.RunTransfer?
    ensures Forward(db, p, FRESH) == Apply(db, p)
  {
    hide Forward, Body;
    TransferLocks(db, p);
    if p.source != p.destination && p.amount > 0 && p.source in db.wallets && p.destination in db.wallets {
      TransferMoves(db, p);
      if db.wallets[p.source].available >= p.amount && AddToBalance(db, p.destination, p.amount).Ok? {
        TransferRecords(db, p, Moved(db, p));
      }
    }
  }

  // ---- Webhooks ----

  lemma PairForeignKeys(v: Db, txn: Id, debited: Id, credited: Id, amount: int64, currency: string)
    requires amount > 0 && HasLedgerTxn(v, txn)
    ensures InsertEntriesError(v, Pair(txn, debited, credited, amount, currency))
            == if debited in v.accounts && credited in v.accounts then None else Some(ForeignKeyViolation)
  {
    var es := Pair(txn, debited, credited, amount, currency);
    assert es[0] in es && es[1] in es;
  }

  lemma PairCheck(txn: Id, debited: Id, credited: Id, amount: int64, currency: string)
    ensures LedgerCheck(Pair(txn, debited, credited, amount, currency)) == if amount > 0 then None else Some(NonPositiveAmount)
  {
    if amount > 0 {
      PairAccepted(txn, debited, credited, amount, currency);
    } else {
      var es := Pair(txn, debited, credited, amount, currency);
      assert es[..1] == [es[0]] && es[..1][..0] == [];
      assert FirstComplaint(es[..1], currency) == Some(NonPositiveAmount);
    }
  }

  /** A webhook's variables once the payment row is locked. */
  function PaymentLocked(db: Db, pid: Id, pc: nat): Local
    requires pid in db.payments && db.payments[pid].wallet in db.wallets
  {
    Local(pc, {}, [], None, None, Some(Found(pid, db.payments[pid], db.wallets[db.payments[pid].wallet].account)))
  }

  lemma WebhookLocks(db: Db, p: Program)
    requires p.RunWebhook?
    ensures Forward(db, p, FRESH) ==
            if HasHook(db, p.hook) then Err(DuplicateWebhook)
            else if FindPayment(db, p.reference).None? then Err(PaymentNotFound)
            else
              var pid := FindPayment(db, p.reference).value;
              var v := db.(hooks := db.hooks + [Hook(p.hook, p.reference, p.status)]);
              Forward(v, p, PaymentLocked(db, pid, 2))
  {
    if !HasHook(db, p.hook) {
      var v := ApplyWrite(db, AddHook(Hook(p.hook, p.reference, p.status)));
      assert Forward(db, p, FRESH) == Forward(v, p, FRESH.(pc := 1));
      assert FindPayment(v, p.reference) == FindPayment(db, p.reference);
    }
  }

  lemma WebhookMarks(db: Db, p: Program, pid: Id, v: Db)
    requires p.RunWebhook? && pid in db.payments && db.payments[pid].wallet in db.wallets
    requires pid in v.payments && v.payments[pid] == db.payments[pid]
    ensures Forward(v, p, PaymentLocked(db, pid, 2)) ==
            if !ValidTransition(db.payments[pid].status, p.status) then Err(InvalidTransition)
            else Forward(v.(payments := v.payments[pid := db.payments[pid].(status := p.status)]), p, PaymentLocked(db, pid, 4))
  {
    if ValidTransition(db.payments[pid].status, p.status) {
      assert Forward(v, p, PaymentLocked(db, pid, 2)) == Forward(v, p, PaymentLocked(db, pid, 3));
    }
  }

  lemma ForwardSkip(v: Db, p: Program, l: Local)
    requires p.RunWebhook? && p.status != Succeeded && l == Bare(l) && 4 <= l.pc <= 6 && l.found.Some?
    ensures Forward(v, p, l) == Forward(v, p, l.(pc := l.pc + 1))
  {
    hide AddToBalance, Pair, LedgerCheck, InsertEntriesError;
  }

  lemma ForwardAnnounce(v: Db, p: Program, l: Local)
    requires p.RunWebhook? && l == Bare(l) && l.pc == 7 && l.found.Some?
    ensures var Found(pid, pay, _) := l.found.value;
            Forward(v, p, l) == Ok(ApplyWrite(v, AddEvent(PaymentEvent(pid, p.status, pay.amount, pay.currency))))
  {
  }

  /** The entries a webhook posts. */
  function PaymentEntries(p: Program, l: Local): seq<Entry>
    requires p.RunWebhook? && l.found.Some?
  {
    Pair(p.lid, EXTERNAL_ACCOUNT, l.found.value.account, l.found.value.payment.amount, l.found.value.payment.currency)
  }

  lemma ForwardPosting(v: Db, p: Program, l: Local)
    requires p.RunWebhook? && p.status == Succeeded && l == Bare(l) && l.pc == 5 && l.found.Some?
    ensures var es := PaymentEntries(p, l);
            Forward(v, p, l) ==
            if LedgerCheck(es).Some? then Err(Ledger(LedgerCheck(es).value))
            else if HasLedgerTxn(v, p.lid) then Err(UniqueViolation)
            else Forward(ApplyWrite(v, AddLedgerTxn(LedgerTxn(p.lid, l.found.value.pid, PaymentTxn))), p, l.(pc := 6))
  {
    hide LedgerCheck, Pair;
  }

  lemma ForwardPostingEntries(v: Db, p: Program, l: Local)
    requires p.RunWebhook? && p.status == Succeeded && l == Bare(l) && l.pc == 6 && l.found.Some?
    ensures var es := PaymentEntries(p, l);
            Forward(v, p, l) ==
            if InsertEntriesError(v, es).Some? then Err(InsertEntriesError(v, es).value)
            else Forward(ApplyWrite(v, AddEntries(es)), p, l.(pc := 7))
  {
    hide InsertEntriesError, Pair;
  }

  lemma WebhookSkips(db: Db, p: Program, pid: Id, v: Db)
    requires p.RunWebhook? && pid in db.payments && db.payments[pid].wallet in db.wallets && p.status != Succeeded
    ensures Forward(v, p, PaymentLocked(db, pid, 4)) ==
            Ok(v.(outbox := v.outbox + [PaymentEvent(pid, p.status, db.payments[pid].amount, db.payments[pid].currency)]))
  {
    hide Forward;
    ForwardSkip(v, p, PaymentLocked(db, pid, 4));
    ForwardSkip(v, p, PaymentLocked(db, pid, 5));
    ForwardSkip(v, p, PaymentLocked(db, pid, 6));
    ForwardAnnounce(v, p, PaymentLocked(db, pid, 7));
  }

  lemma WebhookCredits(db: Db, p: Program, pid: Id, v: Db)
    requires p.RunWebhook? && pid in db.payments && db.payments[pid].wallet in db.wallets && p.status == Succeeded
    requires v.wallets == db.wallets
    ensures Forward(v, p, PaymentLocked(db, pid, 4)) ==
            var pay := db.payments[pid];
            var w := db.wallets[pay.wallet];
            if AddToBalance(db, pay.wallet, pay.amount).Err? then Err(AddToBalance(db, pay.wallet, pay.amount).error)
            else Forward(v.(wallets := v.wallets[pay.wallet := w.(available := w.available + pay.amount)]), p, PaymentLocked(db, pid, 5))
  {
  }

  lemma WebhookPosts(db: Db, p: Program, pid: Id, v: Db)
    requires p.RunWebhook? && pid in db.payments && db.payments[pid].wallet in db.wallets && p.status == Succeeded
    ensures Forward(v, p, PaymentLocked(db, pid, 5)) ==
            var pay := db.payments[pid];
            var account := db.wallets[pay.wallet].account;
            if pay.amount <= 0 then Err(Ledger(NonPositiveAmount))
            else if HasLedgerTxn(v, p.lid) then Err(UniqueViolation)
            else if EXTERNAL_ACCOUNT !in v.accounts || account !in v.accounts then Err(ForeignKeyViolation)
            else Ok(v.(ledger := v.ledger + [LedgerTxn(p.lid, pid, PaymentTxn)],
                       entries := v.entries + Pair(p.lid, EXTERNAL_ACCOUNT, account, pay.amount, pay.currency),
                       outbox := v.outbox + [PaymentEvent(pid, p.status, pay.amount, pay.currency)]))
  {
    hide Forward, LedgerCheck, InsertEntriesError, Pair, HasLedgerTxn;
    var pay := db.payments[pid];
    var account := db.wallets[pay.wallet].account;
    PairCheck(p.lid, EXTERNAL_ACCOUNT, account, pay.amount, pay.currency);
    ForwardPosting(v, p, PaymentLocked(db, pid, 5));
    if pay.amount > 0 && !HasLedgerTxn(v, p.lid) {
      var w := AddLedgerTxn(LedgerTxn(p.lid, pid, PaymentTxn));
      var v1 := ApplyWrite(v, w);
      MembersAfter(v, w);
      PairForeignKeys(v1, p.lid, EXTERNAL_ACCOUNT, account, pay.amount, pay.currency);
      ForwardPostingEntries(v1, p, PaymentLocked(db, pid, 6));
      ForwardAnnounce(ApplyWrite(v1, AddEntries(PaymentEntries(p, PaymentLocked(db, pid, 6)))), p, PaymentLocked(db, pid, 7));
    }
  }

  lemma WebhookAlone(db: Db, p: Program)
    requires p.RunWebhook?
    ensures Forward(db, p, FRESH) == Apply(db, p)
  {
    hide Forward, Body;
    WebhookLocks(db, p);
    if !HasHook(db, p.hook) && FindPayment(db, p.reference).Some? {
      var pid := FindPayment(db, p.reference).value;
      var pay := db.payments[pid];
      var v := db.(hooks := db.hooks + [Hook(p.hook, p.reference, p.status)]);
      WebhookMarks(db, p, pid, v);
      var v1 := v.(payments := v.payments[pid := pay.(status := p.status)]);
      if p.status != Succeeded {
        WebhookSkips(db, p, pid, v1);
      } else {
        WebhookCredits(db, p, pid, v1);
        if AddToBalance(db, pay.wallet, pay.amount).Ok? {
          var w := db.wallets[pay.wallet];
          var v2 := v1.(wallets := v1.wallets[pay.wallet := w.(available := w.available + pay.amount)]);
          WebhookPosts(db, p, pid, v2);
          assert HasLedgerTxn(v2, p.lid) <==> HasLedgerTxn(db, p.lid);
        }
      }
    }
  }

  // ---- The rest ----

  lemma CreateWalletAlone(db: Db, p: Program)
    requires p.CreateWallet?
    ensures Forward(db, p, FRESH) == Apply(db, p)
  {
    if p.aid !in db.accounts {
      var v := ApplyWrite(db, PutAccount(p.aid, Account(p.kind, p.currency)));
      assert Forward(db, p, FRESH) == Forward(v, p, FRESH.(pc := 1));
      if p.wid !in db.wallets {
        var v1 := ApplyWrite(v, PutWallet(p.wid, Wallet(p.owner, p.aid, p.currency, 0, 0, Active)));
        assert Forward(v, p, FRESH.(pc := 1)) == Forward(v1, p, FRESH.(pc := 2));
      }
    }
  }

  lemma CreatePaymentAlone(db: Db, p: Program)
    requires p.CreatePayment?
    ensures Forward(db, p, FRESH) == Apply(db, p)
  {
    if p.amount > 0 && p.pid !in db.payments {
      var v := ApplyWrite(db, PutPayment(p.pid, NewPayment(p)));
      assert Forward(db, p, FRESH) == Forward(v, p, FRESH.(pc := 1));
      if p.reference !in v.references {
        var v1 := ApplyWrite(v, PutReference(p.reference, p.pid));
        assert Forward(v, p, FRESH.(pc := 1)) == Forward(v1, p, FRESH.(pc := 2));
        if p.wallet in db.wallets {
          assert Forward(v1, p, FRESH.(pc := 2)) == Forward(v1, p, FRESH.(pc := 3));
        }
      }
    }
  }

  /** The operations of one statement. */
  lemma SingleAlone(db: Db, p: Program)
    requires p.SetStatus? || p.AcquireKey? || p.CompleteKey?
    ensures Forward(db, p, FRESH) == Apply(db, p)
  {
  }

  /** Running alone is the atomic specification, outcome for outcome and error for error. */
  lemma RunsAsSpecified(db: Db, p: Program)
    ensures Outcome(db, p) == Apply(db, p)
  {
    hide Outcome, Forward, Body, Apply;
    OutcomeIsForward(db, p);
    match p
    case RunTransfer(_, _, _, _, _, _, _) => TransferAlone(db, p);
    case RunWebhook(_, _, _, _) => WebhookAlone(db, p);
    case CreateWallet(_, _, _, _, _) => CreateWalletAlone(db, p);
    case CreatePayment(_, _, _, _, _, _) => CreatePaymentAlone(db, p);
    case _ => SingleAlone(db, p);
  }
}
