/**
 * What each operation refuses and writes, row by row and column by column. Together with
 * Serializability (every commit is the specified one, every abort the specified error) this says what the
 * services do under any schedule, in terms of the tables alone.
 */
module Effects {
  import opened Base
  import opened LedgerModel
  import opened Tables
  import opened Programs
  import opened Invariants

  /** A table has grown by exactly one row. */
  predicate GrownByOne<T(==)>(before: seq<T>, after: seq<T>) {
    |after| == |before| + 1 && after[..|before|] == before
  }

  // ---- Transfers ----

  /** The answer to every transfer request, on tables whose wallets have their accounts. */
  lemma TransferAnswer(db: Db, p: Program)
    requires p.RunTransfer? && WalletsMatchLedger(db)
    ensures var r := Apply(db, p);
            var proper := p.source != p.destination && p.amount > 0;
            var found := proper && p.source in db.wallets && p.destination in db.wallets;
            var active := found && db.wallets[p.source].status == Active && db.wallets[p.destination].status == Active;
            var matching := active && db.wallets[p.source].currency == p.currency && db.wallets[p.destination].currency == p.currency;
            var funded := matching && db.wallets[p.source].available >= p.amount;
            var fits := funded && db.wallets[p.destination].available + p.amount <= MAX_INT64;
            var unused := fits && !(exists t :: t in db.transfers && t.id == p.tid);
            var keyed := unused && p.key in db.keys;
            var posted := keyed && !(exists x :: x in db.ledger && x.id == p.lid);
            && (r == Err(SameWallet) <==> p.source == p.destination)
            && (r == Err(AmountNotPositive) <==> p.source != p.destination && p.amount <= 0)
            && (r == Err(NoSuchRow) <==> proper && !found)
            && (r == Err(NotActive) <==> found && !active)
            && (r == Err(CurrencyMismatch) <==> active && !matching)
            && (r == Err(InsufficientFunds) <==> matching && !funded)
            && (r == Err(OutOfRange) <==> funded && !fits)
            && (r == Err(UniqueViolation) <==> (fits && !unused) || (keyed && !posted))
            && (r == Err(ForeignKeyViolation) <==> unused && !keyed)
            && (r.Ok? <==> posted)
  {
    hide TransferEffect, Net;
  }

  /** A committed transfer: the balances of its two wallets, one transfer row, one ledger transaction with a debit of
      the source's account and a credit of the destination's in the request's currency, one event, and nothing else. */
  lemma TransferWrites(db: Db, p: Program)
    requires p.RunTransfer? && Apply(db, p).Ok?
    ensures var after, n := Apply(db, p).value, |db.entries|;
            && |after.entries| == n + 2 && after.entries[..n] == db.entries
            && p.source in db.wallets && p.destination in db.wallets
            && var debit, credit := after.entries[n], after.entries[n + 1];
               && debit.txn == p.lid && debit.amount == p.amount && debit.currency == p.currency
               && debit.direction == Debit && debit.account == db.wallets[p.source].account
               && credit.txn == p.lid && credit.amount == p.amount && credit.currency == p.currency
               && credit.direction == Credit && credit.account == db.wallets[p.destination].account
    ensures var after := Apply(db, p).value;
            && GrownByOne(db.ledger, after.ledger) && GrownByOne(db.transfers, after.transfers) && GrownByOne(db.outbox, after.outbox)
            && var x, t, e := after.ledger[|db.ledger|], after.transfers[|db.transfers|], after.outbox[|db.outbox|];
               && x.id == p.lid && x.reference == p.tid && x.kind == TransferTxn
               && t.id == p.tid && t.source == p.source && t.destination == p.destination
               && t.amount == p.amount && t.currency == p.currency && t.key == p.key
               && e.TransferEvent? && e.transfer == p.tid && e.amount == p.amount && e.currency == p.currency
    ensures var after := Apply(db, p).value;
            && after.wallets.Keys == db.wallets.Keys
            && (forall w :: w in db.wallets ==>
                  && after.wallets[w].available == db.wallets[w].available
                                                   - (if w == p.source then p.amount else 0) + (if w == p.destination then p.amount else 0)
                  && after.wallets[w].(available := db.wallets[w].available) == db.wallets[w])
            && after.accounts == db.accounts && after.payments == db.payments && after.references == db.references
            && after.keys == db.keys && after.hooks == db.hooks
  {
    hide HasTransfer, HasLedgerTxn;
  }

  // ---- Webhooks ----

  /** The answer to every webhook, on sound tables; in particular the transitions a payment accepts. */
  lemma WebhookAnswer(db: Db, p: Program)
    requires p.RunWebhook? && WalletsMatchLedger(db) && PaymentsIndexed(db)
    ensures var r := Apply(db, p);
            var unused := !(exists h :: h in db.hooks && h.key == p.hook);
            var found := unused && p.reference in db.references;
            && (r == Err(DuplicateWebhook) <==> !unused)
            && (r == Err(PaymentNotFound) <==> unused && !found)
            && (found ==>
                  var pay := db.payments[db.references[p.reference]];
                  var accepted := (pay.status == Processing && (p.status == Succeeded || p.status == Failed))
                                  || (pay.status == Created && (p.status == Processing || p.status == Failed));
                  var credits := accepted && p.status == Succeeded;
                  var fits := credits && db.wallets[pay.wallet].available + pay.amount <= MAX_INT64;
                  var posted := fits && !(exists x :: x in db.ledger && x.id == p.lid);
                  && (r == Err(InvalidTransition) <==> !accepted)
                  && (r == Err(OutOfRange) <==> credits && !fits)
                  && (r == Err(UniqueViolation) <==> fits && !posted)
                  && (r == Err(ForeignKeyViolation) <==> posted && EXTERNAL_ACCOUNT !in db.accounts)
                  && (r.Ok? <==> (accepted && p.status != Succeeded) || (posted && EXTERNAL_ACCOUNT in db.accounts)))
  {
    hide WebhookEffect, Net;
  }

  /** A committed webhook: its event row, the payment's status and nothing else of any payment, and one outbox event.
      Unless it reports success, no money moves. */
  lemma WebhookStores(db: Db, p: Program)
    requires p.RunWebhook? && WalletsMatchLedger(db) && PaymentsIndexed(db) && Apply(db, p).Ok?
    ensures p.reference in db.references && db.references[p.reference] in db.payments
    ensures var after, pid := Apply(db, p).value, db.references[p.reference];
            && GrownByOne(db.hooks, after.hooks) && GrownByOne(db.outbox, after.outbox)
            && after.payments.Keys == db.payments.Keys
            && (forall id :: id in db.payments && id != pid ==> after.payments[id] == db.payments[id])
            && after.payments[pid].status == p.status
            && after.payments[pid].(status := db.payments[pid].status) == db.payments[pid]
            && var h, e := after.hooks[|db.hooks|], after.outbox[|db.outbox|];
               && h.key == p.hook && h.reference == p.reference && h.status == p.status
               && e.PaymentEvent? && e.payment == pid && e.status == p.status
               && e.amount == db.payments[pid].amount && e.currency == db.payments[pid].currency
    ensures var after := Apply(db, p).value;
            && after.accounts == db.accounts && after.references == db.references && after.keys == db.keys
            && after.transfers == db.transfers
            && (p.status != Succeeded ==> after.wallets == db.wallets && after.ledger == db.ledger && after.entries == db.entries)
  {
    hide Net, Pair, HasHook, HasLedgerTxn;
  }

  /** A committed success: the wallet's balance and nothing else of any wallet, and one ledger transaction with a debit of
      the external account and a credit of the wallet's account in the payment's currency. */
  lemma SuccessPosts(db: Db, p: Program)
    requires p.RunWebhook? && WalletsMatchLedger(db) && PaymentsIndexed(db) && Apply(db, p).Ok? && p.status == Succeeded
    ensures p.reference in db.references && db.references[p.reference] in db.payments
    ensures var after, pid, n := Apply(db, p).value, db.references[p.reference], |db.entries|;
            var pay := db.payments[pid];
            && pay.wallet in db.wallets && after.wallets.Keys == db.wallets.Keys
            && (forall w :: w in db.wallets ==>
                  && after.wallets[w].available == db.wallets[w].available + (if w == pay.wallet then pay.amount else 0)
                  && after.wallets[w].(available := db.wallets[w].available) == db.wallets[w])
            && GrownByOne(db.ledger, after.ledger)
            && |after.entries| == n + 2 && after.entries[..n] == db.entries
            && var x, debit, credit := after.ledger[|db.ledger|], after.entries[n], after.entries[n + 1];
               && x.id == p.lid && x.reference == pid && x.kind == PaymentTxn
               && debit.txn == p.lid && debit.amount == pay.amount && debit.currency == pay.currency
               && debit.direction == Debit && debit.account == 0
               && credit.txn == p.lid && credit.amount == pay.amount && credit.currency == pay.currency
               && credit.direction == Credit && credit.account == db.wallets[pay.wallet].account
  {
    hide Net, HasHook, HasLedgerTxn;
  }

  /** A first failure report for a processing payment always commits, fails the payment and moves no money. */
  lemma FailureReported(db: Db, p: Program)
    requires p.RunWebhook? && WalletsMatchLedger(db) && PaymentsIndexed(db) && p.status == Failed
    requires !(exists h :: h in db.hooks && h.key == p.hook) && p.reference in db.references
    requires db.payments[db.references[p.reference]].status == Processing
    ensures Apply(db, p).Ok?
    ensures var after, pid := Apply(db, p).value, db.references[p.reference];
            && pid in after.payments && after.payments[pid].status == Failed
            && GrownByOne(db.hooks, after.hooks) && GrownByOne(db.outbox, after.outbox)
            && after.wallets == db.wallets && after.ledger == db.ledger && after.entries == db.entries
  {
    hide Apply, WalletsMatchLedger, PaymentsIndexed;
    PaymentsThere(db, p.reference);
    WebhookAnswer(db, p);
    WebhookStores(db, p);
  }

  lemma PaymentsThere(db: Db, reference: string)
    requires PaymentsIndexed(db) && reference in db.references
    ensures db.references[reference] in db.payments
  {
  }

  // ---- Payments, wallets ----

  /** A new payment: what the provider answered decides its status; constraints refuse the rest. */
  lemma PaymentAnswer(db: Db, p: Program)
    requires p.CreatePayment?
    ensures var r := Apply(db, p);
            var positive := p.amount > 0;
            var unused := positive && p.pid !in db.payments && p.reference !in db.references;
            && (r == Err(CheckViolation) <==> !positive)
            && (r == Err(UniqueViolation) <==> positive && !unused)
            && (r == Err(ForeignKeyViolation) <==> unused && p.wallet !in db.wallets)
            && (r.Ok? <==> unused && p.wallet in db.wallets)
    ensures Apply(db, p).Ok? ==>
              var after := Apply(db, p).value;
              && after.payments.Keys == db.payments.Keys + {p.pid} && after.references.Keys == db.references.Keys + {p.reference}
              && (forall id :: id in db.payments ==> after.payments[id] == db.payments[id])
              && (forall r :: r in db.references ==> after.references[r] == db.references[r])
              && after.references[p.reference] == p.pid
              && var pay := after.payments[p.pid];
                 && pay.wallet == p.wallet && pay.amount == p.amount && pay.currency == p.currency && pay.reference == p.reference
                 && (p.accepted ==> pay.status == Processing) && (!p.accepted ==> pay.status == Failed)
    ensures Apply(db, p).Ok? ==> Apply(db, p).value.(payments := db.payments, references := db.references) == db
  {
  }

  /** A new wallet: an account and a wallet of the request's kind, owner and currency, empty and active. */
  lemma WalletAnswer(db: Db, p: Program)
    requires p.CreateWallet?
    ensures Apply(db, p).Ok? <==> p.aid !in db.accounts && p.wid !in db.wallets
    ensures Apply(db, p).Err? ==> Apply(db, p).error == UniqueViolation
    ensures Apply(db, p).Ok? ==>
              var after := Apply(db, p).value;
              && after.accounts.Keys == db.accounts.Keys + {p.aid} && after.wallets.Keys == db.wallets.Keys + {p.wid}
              && (forall a :: a in db.accounts ==> after.accounts[a] == db.accounts[a])
              && (forall w :: w in db.wallets ==> after.wallets[w] == db.wallets[w])
              && after.accounts[p.aid].kind == p.kind && after.accounts[p.aid].currency == p.currency
              && var w := after.wallets[p.wid];
                 && w.owner == p.owner && w.account == p.aid && w.currency == p.currency
                 && w.available == 0 && w.locked == 0 && w.status == Active
    ensures Apply(db, p).Ok? ==> Apply(db, p).value.(accounts := db.accounts, wallets := db.wallets) == db
  {
  }

  /** A status change stores the status asked for, in that wallet and nowhere else. */
  lemma StatusAnswer(db: Db, p: Program)
    requires p.SetStatus?
    ensures Apply(db, p).Ok? <==> p.wid in db.wallets
    ensures Apply(db, p).Err? ==> Apply(db, p).error == WalletNotFound
    ensures Apply(db, p).Ok? ==>
              var after := Apply(db, p).value;
              && after.wallets.Keys == db.wallets.Keys
              && after.wallets[p.wid].status == p.newStatus
              && after.wallets[p.wid].(status := db.wallets[p.wid].status) == db.wallets[p.wid]
              && (forall w :: w in db.wallets && w != p.wid ==> after.wallets[w] == db.wallets[w])
              && after.(wallets := db.wallets) == db
  {
  }

  /** Keys: inserted in progress with their request, and completed with an answer, whatever their status was. */
  lemma KeyAnswer(db: Db, p: Program)
    requires p.AcquireKey? || p.CompleteKey?
    ensures p.AcquireKey? ==>
              && (Apply(db, p).Ok? <==> p.key !in db.keys) && (Apply(db, p).Err? ==> Apply(db, p).error == UniqueViolation)
    ensures p.CompleteKey? ==> Apply(db, p).Ok?
    ensures Apply(db, p).Ok? ==>
              var after := Apply(db, p).value;
              && after.(keys := db.keys) == db
              && (forall key :: key != p.key ==> (key in after.keys <==> key in db.keys))
              && (forall key :: key in db.keys && key != p.key ==> after.keys[key] == db.keys[key])
              && (p.AcquireKey? ==>
                    p.key in after.keys
                    && var rec := after.keys[p.key];
                       rec.status == InProgress && rec.request == p.request && rec.response == None && rec.code == None)
              && (p.CompleteKey? ==> (p.key in after.keys <==> p.key in db.keys))
              && (p.CompleteKey? && p.key in db.keys ==>
                    var rec := after.keys[p.key];
                    && rec.status == Completed && rec.request == db.keys[p.key].request
                    && rec.response == Some(p.response) && rec.code == Some(p.code))
  {
  }
}
