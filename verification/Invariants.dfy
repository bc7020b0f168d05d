/** What every committed operation keeps: balances, ledger, payments and outbox stay in agreement. */
module Invariants {
  import opened Base
  import opened LedgerModel
  import opened Tables
  import opened Programs

  // ---- The statements ----

  function Held(w: Wallet): int {
    w.available + w.locked
  }

  function Settled(p: Payment): int {
    if p.status == Succeeded then p.amount else 0
  }

  /** Each wallet has an account of its own, whose ledger net is the wallet's balance. */
  ghost predicate WalletsMatchLedger(db: Db) {
    && (forall id :: id in db.wallets ==>
          var w := db.wallets[id];
          && w.account in db.accounts && w.account != EXTERNAL_ACCOUNT
          && w.available >= 0 && w.locked == 0
          && Held(w) == Net(db.entries, w.account))
    && (forall a, b :: a in db.wallets && b in db.wallets && a != b ==> db.wallets[a].account != db.wallets[b].account)
    && (forall account :: account !in db.accounts ==> Net(db.entries, account) == 0)
  }

  predicate LedgerBalanced(db: Db) {
    Total(db.entries, Debit) == Total(db.entries, Credit)
  }

  /** All money in wallets came in through settled payments, out of the external account. */
  ghost predicate MoneyConserved(db: Db) {
    && MapSum(db.wallets, Held) == MapSum(db.payments, Settled)
    && Net(db.entries, EXTERNAL_ACCOUNT) == -MapSum(db.payments, Settled)
  }

  predicate PaymentsIndexed(db: Db) {
    && (forall id :: id in db.payments ==>
          var p := db.payments[id];
          && p.wallet in db.wallets && p.amount > 0
          && p.reference in db.references && db.references[p.reference] == id)
    && (forall r :: r in db.references ==> db.references[r] in db.payments && db.payments[db.references[r]].reference == r)
  }

  /** How many ledger transactions credit a payment. */
  function Credits(ledger: seq<LedgerTxn>, payment: Id): nat {
    if ledger == [] then 0
    else
      var x := ledger[|ledger| - 1];
      Credits(ledger[..|ledger| - 1], payment) + if x.kind == PaymentTxn && x.reference == payment then 1 else 0
  }

  ghost predicate CreditedOnce(db: Db) {
    forall id :: Credits(db.ledger, id) == if id in db.payments && db.payments[id].status == Succeeded then 1 else 0
  }

  /** The outbox rows of one topic, in order. */
  function TransferEvents(outbox: seq<Event>): seq<Event> {
    if outbox == [] then []
    else
      var e := outbox[|outbox| - 1];
      TransferEvents(outbox[..|outbox| - 1]) + if e.TransferEvent? then [e] else []
  }

  function PaymentEvents(outbox: seq<Event>): seq<Event> {
    if outbox == [] then []
    else
      var e := outbox[|outbox| - 1];
      PaymentEvents(outbox[..|outbox| - 1]) + if e.PaymentEvent? then [e] else []
  }

  function Announce(t: Transfer): Event {
    TransferEvent(t.id, t.amount, t.currency)
  }

  /** The event a committed status change owes: looked up through the unique provider reference. */
  predicate Announces(db: Db, h: Hook, e: Event) {
    && h.reference in db.references && db.references[h.reference] in db.payments
    && var id := db.references[h.reference];
       e == PaymentEvent(id, h.status, db.payments[id].amount, db.payments[id].currency)
  }

  /** Position by position: one transfer event per transfer, one payment event per status change. */
  predicate OutboxMatches(db: Db) {
    && |TransferEvents(db.outbox)| == |db.transfers|
    && (forall i :: 0 <= i < |db.transfers| ==> TransferEvents(db.outbox)[i] == Announce(db.transfers[i]))
    && |PaymentEvents(db.outbox)| == |db.hooks|
    && (forall i :: 0 <= i < |db.hooks| ==> Announces(db, db.hooks[i], PaymentEvents(db.outbox)[i]))
  }

  /** Primary and unique keys: webhook events, transfers, ledger transactions. */
  predicate RowsUnique(db: Db) {
    && (forall i, j :: 0 <= i < j < |db.hooks| ==> db.hooks[i].key != db.hooks[j].key)
    && (forall i, j :: 0 <= i < j < |db.transfers| ==> db.transfers[i].id != db.transfers[j].id)
    && (forall i, j :: 0 <= i < j < |db.ledger| ==> db.ledger[i].id != db.ledger[j].id)
  }

  ghost predicate Inv(db: Db) {
    && WalletsMatchLedger(db)
    && LedgerBalanced(db)
    && MoneyConserved(db)
    && PaymentsIndexed(db)
    && CreditedOnce(db)
    && OutboxMatches(db)
    && RowsUnique(db)
  }

  // ---- Preservation ----

  lemma TransferKeepsWallets(db: Db, p: Program)
    requires p.RunTransfer? && WalletsMatchLedger(db) && TransferError(db, p).None?
    ensures WalletsMatchLedger(TransferEffect(db, p))
  {
    var s, d := db.wallets[p.source], db.wallets[p.destination];
    var after := TransferEffect(db, p);
    PairTotals(db.entries, p.lid, s.account, d.account, p.amount, p.currency);
    hide Pair, Net, HasTransfer, HasLedgerTxn;
    forall id | id in after.wallets ensures id in db.wallets && after.wallets[id].account == db.wallets[id].account {
    }
  }

  lemma WebhookKeepsWallets(db: Db, p: Program)
    requires p.RunWebhook? && WalletsMatchLedger(db) && WebhookError(db, p).None?
    ensures WalletsMatchLedger(WebhookEffect(db, p))
  {
    var pay := db.payments[FindPayment(db, p.reference).value];
    PairTotals(db.entries, p.lid, EXTERNAL_ACCOUNT, db.wallets[pay.wallet].account, pay.amount, pay.currency);
  }

  lemma WalletsKept(db: Db, p: Program)
    requires WalletsMatchLedger(db) && Apply(db, p).Ok? && (p.CreateWallet? ==> p.aid != EXTERNAL_ACCOUNT)
    ensures WalletsMatchLedger(Apply(db, p).value)
  {
    hide TransferEffect, TransferError, WebhookEffect, WebhookError;
    if p.RunTransfer? {
      TransferKeepsWallets(db, p);
    } else if p.RunWebhook? {
      WebhookKeepsWallets(db, p);
    }
  }

  lemma BalanceKept(db: Db, p: Program)
    requires LedgerBalanced(db) && Apply(db, p).Ok?
    ensures LedgerBalanced(Apply(db, p).value)
  {
    if p.RunTransfer? {
      PairTotals(db.entries, p.lid, db.wallets[p.source].account, db.wallets[p.destination].account, p.amount, p.currency);
    } else if p.RunWebhook? {
      var pay := db.payments[FindPayment(db, p.reference).value];
      PairTotals(db.entries, p.lid, EXTERNAL_ACCOUNT, db.wallets[pay.wallet].account, pay.amount, pay.currency);
    }
  }

  /** A transfer leaves the total of all balances unchanged. */
  lemma TransferConserves(db: Db, p: Program)
    requires p.RunTransfer? && Apply(db, p).Ok?
    ensures MapSum(Apply(db, p).value.wallets, Held) == MapSum(db.wallets, Held)
  {
    var s, d := db.wallets[p.source], db.wallets[p.destination];
    var s' := s.(available := s.available - p.amount);
    MapSumPut(db.wallets, Held, p.source, s');
    MapSumPut(db.wallets[p.source := s'], Held, p.destination, d.(available := d.available + p.amount));
  }

  /** A webhook moves one payment out of an unsettled status; if the new one is SUCCEEDED it credits the
      payment's wallet and posts one ledger transaction for it, and otherwise neither. */
  lemma WebhookWrites(db: Db, p: Program, pid: Id)
    requires p.RunWebhook? && WebhookError(db, p).None? && FindPayment(db, p.reference) == Some(pid)
    ensures pid in db.payments && db.payments[pid].status != Succeeded && db.payments[pid].wallet in db.wallets
    ensures var after, pay := WebhookEffect(db, p), db.payments[pid];
            var w := db.wallets[pay.wallet];
            && after.payments == db.payments[pid := pay.(status := p.status)]
            && (p.status != Succeeded ==> after.wallets == db.wallets && after.ledger == db.ledger && after.entries == db.entries)
            && (p.status == Succeeded ==>
                  && IsInt64(w.available + pay.amount)
                  && after.wallets == db.wallets[pay.wallet := w.(available := w.available + pay.amount)]
                  && after.ledger == db.ledger + [LedgerTxn(p.lid, pid, PaymentTxn)]
                  && after.entries == db.entries + Pair(p.lid, EXTERNAL_ACCOUNT, w.account, pay.amount, pay.currency))
  {
    hide Pair;
  }

  lemma WebhookFound(db: Db, p: Program)
    requires p.RunWebhook? && WebhookError(db, p).None?
    ensures FindPayment(db, p.reference).Some?
  {
  }

  lemma SuccessConserves(db: Db, p: Program, pid: Id)
    requires p.RunWebhook? && WebhookError(db, p).None? && FindPayment(db, p.reference) == Some(pid)
    requires MoneyConserved(db) && WalletsMatchLedger(db) && p.status == Succeeded
    ensures MoneyConserved(WebhookEffect(db, p))
  {
    hide WebhookEffect, WebhookError, FindPayment, MapSum, Net, Total, Pair;
    WebhookWrites(db, p, pid);
    var pay := db.payments[pid];
    var w := db.wallets[pay.wallet];
    assert w.account != EXTERNAL_ACCOUNT;
    hide WalletsMatchLedger;
    MapSumPut(db.payments, Settled, pid, pay.(status := p.status));
    MapSumPut(db.wallets, Held, pay.wallet, w.(available := w.available + pay.amount));
    PairTotals(db.entries, p.lid, EXTERNAL_ACCOUNT, w.account, pay.amount, pay.currency);
  }

  lemma FailureConserves(db: Db, p: Program, pid: Id)
    requires p.RunWebhook? && WebhookError(db, p).None? && FindPayment(db, p.reference) == Some(pid)
    requires MoneyConserved(db) && p.status != Succeeded
    ensures MoneyConserved(WebhookEffect(db, p))
  {
    hide WebhookEffect, WebhookError, FindPayment, MapSum, Net, Total, Pair;
    WebhookWrites(db, p, pid);
    MapSumPut(db.payments, Settled, pid, db.payments[pid].(status := p.status));
  }

  lemma WebhookConserves(db: Db, p: Program)
    requires p.RunWebhook? && WebhookError(db, p).None? && MoneyConserved(db) && WalletsMatchLedger(db)
    ensures MoneyConserved(WebhookEffect(db, p))
  {
    WebhookFound(db, p);
    hide WebhookEffect, WebhookError, FindPayment, MoneyConserved, WalletsMatchLedger;
    var pid := FindPayment(db, p.reference).value;
    if p.status == Succeeded {
      SuccessConserves(db, p, pid);
    } else {
      FailureConserves(db, p, pid);
    }
  }

  lemma TransferKeepsMoney(db: Db, p: Program)
    requires p.RunTransfer? && MoneyConserved(db) && WalletsMatchLedger(db) && Apply(db, p).Ok?
    ensures MoneyConserved(Apply(db, p).value)
  {
    hide Pair, HasTransfer, HasLedgerTxn;
    TransferConserves(db, p);
    PairTotals(db.entries, p.lid, db.wallets[p.source].account, db.wallets[p.destination].account, p.amount, p.currency);
  }

  lemma MoneyKept(db: Db, p: Program)
    requires MoneyConserved(db) && WalletsMatchLedger(db) && Apply(db, p).Ok?
    ensures MoneyConserved(Apply(db, p).value)
  {
    match p
    case RunTransfer(_, _, _, _, _, _, _) => TransferKeepsMoney(db, p);
    case RunWebhook(_, _, _, _) => WebhookConserves(db, p);
    case CreateWallet(wid, aid, owner, kind, currency) =>
      MapSumPut(db.wallets, Held, wid, Wallet(owner, aid, currency, 0, 0, Active));
    case SetStatus(wid, status) => MapSumPut(db.wallets, Held, wid, db.wallets[wid].(status := status));
    case CreatePayment(pid, _, _, _, _, _) => MapSumPut(db.payments, Settled, pid, NewPayment(p));
    case _ =>
  }

  lemma WebhookKeepsPayments(db: Db, p: Program)
    requires p.RunWebhook? && PaymentsIndexed(db) && WebhookError(db, p).None?
    ensures PaymentsIndexed(WebhookEffect(db, p))
  {
    hide AddToBalance, CreditError;
  }

  lemma TransferKeepsPayments(db: Db, p: Program)
    requires p.RunTransfer? && PaymentsIndexed(db) && TransferError(db, p).None?
    ensures PaymentsIndexed(TransferEffect(db, p))
  {
    hide AddToBalance;
  }

  lemma PaymentsKept(db: Db, p: Program)
    requires PaymentsIndexed(db) && Apply(db, p).Ok?
    ensures PaymentsIndexed(Apply(db, p).value)
  {
    hide TransferEffect, TransferError, WebhookEffect, WebhookError;
    if p.RunTransfer? {
      TransferKeepsPayments(db, p);
    } else if p.RunWebhook? {
      WebhookKeepsPayments(db, p);
    }
  }

  lemma CreditsAppend(ledger: seq<LedgerTxn>, x: LedgerTxn, payment: Id)
    ensures Credits(ledger + [x], payment) == Credits(ledger, payment) + if x.kind == PaymentTxn && x.reference == payment then 1 else 0
  {
    assert (ledger + [x])[..|ledger|] == ledger;
  }

  lemma WebhookCreditsOnce(db: Db, p: Program)
    requires p.RunWebhook? && CreditedOnce(db) && WebhookError(db, p).None? && FindPayment(db, p.reference).Some?
    ensures CreditedOnce(WebhookEffect(db, p))
  {
    hide WebhookEffect, WebhookError, FindPayment, Credits;
    var pid := FindPayment(db, p.reference).value;
    var after := WebhookEffect(db, p);
    WebhookWrites(db, p, pid);
    forall id ensures Credits(after.ledger, id) == if id in after.payments && after.payments[id].status == Succeeded then 1 else 0 {
      CreditsAppend(db.ledger, LedgerTxn(p.lid, pid, PaymentTxn), id);
    }
  }

  lemma CreditsKept(db: Db, p: Program)
    requires CreditedOnce(db) && PaymentsIndexed(db) && Apply(db, p).Ok?
    ensures CreditedOnce(Apply(db, p).value)
  {
    hide WebhookEffect, WebhookError;
    if p.RunWebhook? {
      WebhookFound(db, p);
      WebhookCreditsOnce(db, p);
    } else if p.RunTransfer? {
      forall id {
        CreditsAppend(db.ledger, LedgerTxn(p.lid, p.tid, TransferTxn), id);
      }
    }
  }

  lemma EventsAppend(outbox: seq<Event>, e: Event)
    ensures TransferEvents(outbox + [e]) == TransferEvents(outbox) + if e.TransferEvent? then [e] else []
    ensures PaymentEvents(outbox + [e]) == PaymentEvents(outbox) + if e.PaymentEvent? then [e] else []
  {
    assert (outbox + [e])[..|outbox|] == outbox;
  }

  lemma WebhookAnnounced(db: Db, p: Program)
    requires p.RunWebhook? && OutboxMatches(db) && WebhookError(db, p).None?
    ensures OutboxMatches(WebhookEffect(db, p))
  {
    var pid := FindPayment(db, p.reference).value;
    var after := WebhookEffect(db, p);
    EventsAppend(db.outbox, PaymentEvent(pid, p.status, db.payments[pid].amount, db.payments[pid].currency));
    forall i | 0 <= i < |after.hooks| ensures Announces(after, after.hooks[i], PaymentEvents(after.outbox)[i]) {
      if i < |db.hooks| {
        assert Announces(db, db.hooks[i], PaymentEvents(db.outbox)[i]);
      }
    }
  }

  lemma TransferAnnounced(db: Db, p: Program)
    requires p.RunTransfer? && OutboxMatches(db) && TransferError(db, p).None?
    ensures OutboxMatches(TransferEffect(db, p))
  {
    EventsAppend(db.outbox, TransferEvent(p.tid, p.amount, p.currency));
    AnnouncesStays(db, TransferEffect(db, p));
  }

  /** Announcements only look at references and at terms of payments that never change. */
  lemma AnnouncesStays(v: Db, w: Db)
    requires forall r :: r in v.references ==> r in w.references && w.references[r] == v.references[r]
    requires forall id :: id in v.payments ==>
               id in w.payments && w.payments[id].amount == v.payments[id].amount && w.payments[id].currency == v.payments[id].currency
    ensures forall h, e :: Announces(v, h, e) ==> Announces(w, h, e)
  {
  }

  lemma OutboxKept(db: Db, p: Program)
    requires OutboxMatches(db) && Apply(db, p).Ok?
    ensures OutboxMatches(Apply(db, p).value)
  {
    hide WebhookEffect, WebhookError, TransferEffect, TransferError;
    if p.RunWebhook? {
      WebhookAnnounced(db, p);
    } else if p.RunTransfer? {
      TransferAnnounced(db, p);
    } else {
      AnnouncesStays(db, Apply(db, p).value);
    }
  }

  lemma TransferKeepsUnique(db: Db, p: Program)
    requires p.RunTransfer? && RowsUnique(db) && TransferError(db, p).None?
    ensures RowsUnique(TransferEffect(db, p))
  {
    hide AddToBalance, Pair;
  }

  lemma WebhookKeepsUnique(db: Db, p: Program)
    requires p.RunWebhook? && RowsUnique(db) && WebhookError(db, p).None?
    ensures RowsUnique(WebhookEffect(db, p))
  {
    hide AddToBalance, Pair, FindPayment;
  }

  lemma UniqueKept(db: Db, p: Program)
    requires RowsUnique(db) && Apply(db, p).Ok?
    ensures RowsUnique(Apply(db, p).value)
  {
    hide WebhookEffect, WebhookError, TransferEffect, TransferError;
    if p.RunTransfer? {
      TransferKeepsUnique(db, p);
    } else if p.RunWebhook? {
      WebhookKeepsUnique(db, p);
    }
  }

  /** Every committed operation keeps everything. */
  lemma InvKept(db: Db, p: Program)
    requires Inv(db) && Apply(db, p).Ok? && (p.CreateWallet? ==> p.aid != EXTERNAL_ACCOUNT)
    ensures Inv(Apply(db, p).value)
  {
    hide Apply;
    WalletsKept(db, p);
    BalanceKept(db, p);
    MoneyKept(db, p);
    PaymentsKept(db, p);
    CreditsKept(db, p);
    OutboxKept(db, p);
    UniqueKept(db, p);
  }

  // ---- Payments over time ----

  function Stage(s: PaymentStatus): nat {
    match s
    case Created => 0
    case Processing => 1
    case _ => 2
  }

  /** From one state to a later one: payments stay, keep their terms, and move up or not at all. */
  predicate PaymentsAdvance(v: Db, w: Db) {
    forall id :: id in v.payments ==>
      && id in w.payments
      && w.payments[id].(status := v.payments[id].status) == v.payments[id]
      && (w.payments[id].status != v.payments[id].status ==>
            Stage(v.payments[id].status) < Stage(w.payments[id].status) && (w.payments[id].status == Failed || w.payments[id].status == Processing || w.payments[id].status == Succeeded))
  }

  lemma WebhookAdvances(db: Db, p: Program)
    requires p.RunWebhook? && WebhookError(db, p).None?
    ensures PaymentsAdvance(db, WebhookEffect(db, p))
  {
    hide AddToBalance, Pair, HasLedgerTxn, HasHook;
  }

  lemma PaymentsAdvanceStep(db: Db, p: Program)
    requires Apply(db, p).Ok?
    ensures PaymentsAdvance(db, Apply(db, p).value)
  {
    hide WebhookEffect, WebhookError, TransferError;
    if p.RunWebhook? {
      WebhookAdvances(db, p);
    }
  }

  lemma PaymentsAdvanceTransitive(u: Db, v: Db, w: Db)
    requires PaymentsAdvance(u, v) && PaymentsAdvance(v, w)
    ensures PaymentsAdvance(u, w)
  {
  }
}
