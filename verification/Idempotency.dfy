/**
 * The idempotency protocol around a transfer. A handler's database calls (INSERT of the key, the transfer's
 * transaction, UPDATE of the key) are calls of the concurrent system, statement by statement; any number of
 * handlers with the same key interleave, any of them can die at any point, and any reply can get lost.
 */
module Idempotency {
  import opened Base
  import opened Tables
  import opened Programs
  import opened Interleaving
  import opened Serializability
  import opened Store
  import opened Services

  const CREATED := 201
  const BAD_REQUEST := 400
  const FORBIDDEN := 403
  const CONFLICT := 409
  const INTERNAL := 500

  // ---- Requests and answers ----

  /** A transfer request: what to move, under which key, and for whom. */
  datatype Request = Request(key: string, body: string, source: Id, destination: Id, amount: int64, currency: string,
                             caller: Id, system: bool, tid: Id, lid: Id)

  function ProgramOf(q: Request): Program {
    RunTransfer(q.source, q.destination, q.amount, q.currency, q.key, q.tid, q.lid)
  }

  function TransferOf(q: Request): Transfer {
    Transfer(q.tid, q.source, q.destination, q.amount, q.currency, q.key)
  }

  /** The handler's own check: the wallet exists, and the caller owns it or is the system. */
  predicate MayUse(db: Db, q: Request) {
    q.source in db.wallets && (db.wallets[q.source].owner == q.caller || q.system)
  }

  /** The body of a response: plain text (http.Error), or a JSON value. */
  datatype Reply = Text(text: string) | Json(payload: Payload)

  /** How a request that owns its key ends. */
  datatype Answer = Denied | Rejected(text: string) | Made(transfer: Transfer)

  function Code(a: Answer): int {
    match a
    case Denied => FORBIDDEN
    case Rejected(_) => BAD_REQUEST
    case Made(_) => CREATED
  }

  /** What its own caller is sent. */
  function Sent(a: Answer): Reply {
    match a
    case Denied => Text("forbidden")
    case Rejected(text) => Text(text)
    case Made(transfer) => Json(TransferObject(transfer))
  }

  /** What is recorded under the key, for later requests. */
  function Stored(a: Answer): Payload {
    match a
    case Denied => ErrorObject("unauthorized access to source wallet")
    case Rejected(text) => ErrorObject(text)
    case Made(transfer) => TransferObject(transfer)
  }

  // ---- The handler alone on the database ----

  /** INSERT the key; if it is taken, read it: in progress is an error, completed is the stored answer. */
  method TryAcquire(db: Database, key: string, request: string) returns (r: Result<Option<KeyRecord>, Error>)
    modifies db
    ensures key !in old(db.tables).keys ==>
              && r == Ok(None) && Apply(old(db.tables), AcquireKey(key, request)) == Ok(db.tables)
              && db.tables == old(db.tables).(keys := old(db.tables).keys[key := KeyRecord(InProgress, request, None, None)])
    ensures key in old(db.tables).keys ==>
              && db.tables == old(db.tables)
              && r == if db.tables.keys[key].status == InProgress then Err(KeyInProgress) else Ok(Some(db.tables.keys[key]))
  {
    if key !in db.tables.keys {
      db.tables := db.tables.(keys := db.tables.keys[key := KeyRecord(InProgress, request, None, None)]);
      return Ok(None);
    }
    var rec := db.tables.keys[key];
    if rec.status == InProgress {
      return Err(KeyInProgress);
    }
    return Ok(Some(rec));
  }

  method Complete(db: Database, key: string, response: Payload, code: int)
    modifies db
    ensures Apply(old(db.tables), CompleteKey(key, response, code)) == Ok(db.tables)
    ensures key !in old(db.tables).keys ==> db.tables == old(db.tables)
    ensures key in old(db.tables).keys ==>
              db.tables == old(db.tables).(keys := old(db.tables).keys[key :=
                             KeyRecord(Completed, old(db.tables).keys[key].request, Some(response), Some(code))])
  {
    if key in db.tables.keys {
      var rec := db.tables.keys[key].(status := Completed, response := Some(response), code := Some(code));
      db.tables := db.tables.(keys := db.tables.keys[key := rec]);
    }
  }

  lemma TransferLeavesKeys(db: Db, q: Request)
    ensures Apply(db, ProgramOf(q)).Ok? ==> Apply(db, ProgramOf(q)).value.keys == db.keys
  {
    hide HasTransfer, HasLedgerTxn;
  }

  /** These tables, with the key's record completed. */
  function Recorded(db: Db, q: Request, response: Payload, code: int): (r: Db)
    ensures r.(keys := db.keys) == db
    ensures q.key in r.keys && r.keys[q.key] == KeyRecord(Completed, q.body, Some(response), Some(code))
    ensures forall key :: key != q.key ==> (key in r.keys <==> key in db.keys) && (key in db.keys ==> r.keys[key] == db.keys[key])
  {
    db.(keys := db.keys[q.key := KeyRecord(Completed, q.body, Some(response), Some(code))])
  }

  /** One request with nothing else running: a fresh key is answered and recorded, a used one is replayed.
      The wallet may fail to be read, which counts as not being allowed to use it. */
  method HandleTransfer(db: Database, q: Request, readFails: bool, text: string) returns (code: int, body: Reply)
    modifies db
    ensures q.key in old(db.tables).keys ==>
              var rec := old(db.tables).keys[q.key];
              && db.tables == old(db.tables)
              && (rec.status == InProgress ==> code == 409 && body == Text("request is currently in progress"))
              && (rec.status == Completed && rec.code.Some? ==> code == rec.code.value)
              && (rec.status == Completed && rec.response.Some? ==> body == Json(rec.response.value))
    ensures q.key !in old(db.tables).keys ==>
              var allowed := !readFails && q.source in old(db.tables).wallets
                             && (old(db.tables).wallets[q.source].owner == q.caller || q.system);
              var acquired := old(db.tables).(keys := old(db.tables).keys[q.key := KeyRecord(InProgress, q.body, None, None)]);
              var done := Apply(acquired, RunTransfer(q.source, q.destination, q.amount, q.currency, q.key, q.tid, q.lid));
              var made := Transfer(q.tid, q.source, q.destination, q.amount, q.currency, q.key);
              && (!allowed ==>
                    && code == 403 && body == Text("forbidden")
                    && db.tables == Recorded(old(db.tables), q, ErrorObject("unauthorized access to source wallet"), 403))
              && (allowed && done.Err? ==>
                    && code == 400 && body == Text(text)
                    && db.tables == Recorded(old(db.tables), q, ErrorObject(text), 400))
              && (allowed && done.Ok? ==>
                    && code == 201 && body == Json(TransferObject(made))
                    && db.tables == Recorded(done.value, q, TransferObject(made), 201))
  {
    hide Apply;
    var acquired := TryAcquire(db, q.key, q.body);
    if acquired.Err? {
      return CONFLICT, Text("request is currently in progress");
    }
    if acquired.value.Some? {
      var rec := acquired.value.value;
      code := if rec.code.Some? then rec.code.value else 0;
      body := if rec.response.Some? then Json(rec.response.value) else Text("");
      return;
    }
    if readFails || !MayUse(db.tables, q) {
      Complete(db, q.key, ErrorObject("unauthorized access to source wallet"), FORBIDDEN);
      return FORBIDDEN, Text("forbidden");
    }
    TransferLeavesKeys(db.tables, q);
    var r := ExecuteTransfer(db, q.source, q.destination, q.amount, q.currency, q.key, q.tid, q.lid);
    if r.Err? {
      Complete(db, q.key, ErrorObject(text), BAD_REQUEST);
      return BAD_REQUEST, Text(text);
    }
    Complete(db, q.key, TransferObject(r.value), CREATED);
    return CREATED, Json(TransferObject(r.value));
  }

  // ---- Many handlers at once, over the concurrent system ----

  /** First: the answer of the request that owned the key. Replay: read from its record. NotFinal: neither. */
  datatype Kind = First | Replay | NotFinal

  datatype Stage =
    | Arrived
    | Inserting                              // waiting for the INSERT's reply
    | Conflicted                             // the INSERT reported an error; the record is read next
    | Owner                                  // the INSERT succeeded
    | Cleared                                // the wallet check passed
    | Executing                              // waiting for the transfer's transaction
    | Completing                             // the answer is known
    | Recording                              // waiting for the UPDATE's reply
    | Replied(code: int, body: Reply, kind: Kind)

  /** A handler: where it is, whether it still lives, and its calls by their number in the system. */
  datatype Handler = Handler(req: Request, at: Stage, alive: bool,
                             insert: Option<nat>, transfer: Option<nat>, complete: Option<nat>,
                             answer: Option<Answer>,
                             lost: bool)     // the reply of its transfer got lost

  /** The database system, the handlers, and which handler made which call. */
  datatype World = World(sys: Sys, handlers: seq<Handler>, callers: map<nat, nat>)

  datatype Move =
    | Arrive(req: Request)
    | CallInsert(i: nat)
    | InsertReply(i: nat, lost: bool)
    | Read(i: nat)
    | CheckWallet(i: nat, fails: bool)
    | CallTransfer(i: nat)
    | TransferReply(i: nat, lost: bool, text: string)
    | CallComplete(i: nat)
    | CompleteReply(i: nat, lost: bool)      // the handler ignores how its UPDATE went
    | Die(i: nat)
    | Elsewhere(action: Action)              // a step of any call, or a call of the other services

  /** The operations that only handlers call. */
  predicate IsKeyed(p: Program) {
    p.RunTransfer? || p.AcquireKey? || p.CompleteKey?
  }

  predicate Ended(s: Sys, call: Option<nat>) {
    call.Some? && call.value < |s.procs| && !s.procs[call.value].Running?
  }

  /** The call has committed. */
  predicate Done(s: Sys, call: Option<nat>) {
    call.Some? && call.value < |s.procs| && s.procs[call.value].Finished?
  }

  predicate At(w: World, i: nat, at: Stage) {
    i < |w.handlers| && w.handlers[i].alive && w.handlers[i].at == at
  }

  predicate Enabled(w: World, m: Move) {
    match m
    case Arrive(_) => true
    case CallInsert(i) => At(w, i, Arrived)
    case InsertReply(i, lost) => At(w, i, Inserting) && (lost || Ended(w.sys, w.handlers[i].insert))
    case Read(i) => At(w, i, Conflicted)
    case CheckWallet(i, _) => At(w, i, Owner)
    case CallTransfer(i) => At(w, i, Cleared)
    case TransferReply(i, lost, _) => At(w, i, Executing) && (lost || Ended(w.sys, w.handlers[i].transfer))
    case CallComplete(i) => At(w, i, Completing) && w.handlers[i].answer.Some?
    case CompleteReply(i, lost) =>
      At(w, i, Recording) && w.handlers[i].answer.Some? && (lost || Ended(w.sys, w.handlers[i].complete))
    case Die(i) => i < |w.handlers| && w.handlers[i].alive
    case Elsewhere(a) => a.Spawn? ==> !IsKeyed(a.prog)
  }

  function Become(w: World, i: nat, h: Handler): World
    requires i < |w.handlers|
  {
    w.(handlers := w.handlers[i := h])
  }

  /** Starting a database call on behalf of a handler. */
  function Call(w: World, i: nat, p: Program, h: Handler): World
    requires i < |w.handlers|
  {
    World(Next(w.sys, Spawn(p)), w.handlers[i := h], w.callers[|w.sys.procs| := i])
  }

  /** The reply read from an existing record. */
  function ReplyFrom(db: Db, key: string): Stage {
    if key !in db.keys then Replied(INTERNAL, Text("internal server error"), NotFinal)
    else
      var rec := db.keys[key];
      if rec.status == InProgress then Replied(CONFLICT, Text("request is currently in progress"), NotFinal)
      else Replied(if rec.code.Some? then rec.code.value else 0,
                   if rec.response.Some? then Json(rec.response.value) else Text(""), Replay)
  }

  function Take(w: World, m: Move): World
    requires Enabled(w, m)
  {
    match m
    case Arrive(q) => w.(handlers := w.handlers + [Handler(q, Arrived, true, None, None, None, None, false)])
    case CallInsert(i) =>
      var h := w.handlers[i];
      Call(w, i, AcquireKey(h.req.key, h.req.body), h.(at := Inserting, insert := Some(|w.sys.procs|)))
    case InsertReply(i, lost) =>
      var h := w.handlers[i];
      Become(w, i, h.(at := if !lost && Done(w.sys, h.insert) then Owner else Conflicted))
    case Read(i) => Become(w, i, w.handlers[i].(at := ReplyFrom(w.sys.db, w.handlers[i].req.key)))
    case CheckWallet(i, fails) =>
      var h := w.handlers[i];
      Become(w, i, if fails || !MayUse(w.sys.db, h.req) then h.(at := Completing, answer := Some(Denied)) else h.(at := Cleared))
    case CallTransfer(i) =>
      var h := w.handlers[i];
      Call(w, i, ProgramOf(h.req), h.(at := Executing, transfer := Some(|w.sys.procs|)))
    case TransferReply(i, lost, text) =>
      var h := w.handlers[i];
      var answer := if !lost && Done(w.sys, h.transfer) then Made(TransferOf(h.req)) else Rejected(text);
      Become(w, i, h.(at := Completing, answer := Some(answer), lost := lost))
    case CallComplete(i) =>
      var h := w.handlers[i];
      Call(w, i, CompleteKey(h.req.key, Stored(h.answer.value), Code(h.answer.value)),
           h.(at := Recording, complete := Some(|w.sys.procs|)))
    case CompleteReply(i, _) =>
      var h := w.handlers[i];
      Become(w, i, h.(at := Replied(Code(h.answer.value), Sent(h.answer.value), First)))
    case Die(i) => Become(w, i, w.handlers[i].(alive := false))
    case Elsewhere(a) => w.(sys := Next(w.sys, a))
  }

  function Play(w: World, moves: seq<Move>): World {
    if moves == [] then w
    else
      var before := Play(w, moves[..|moves| - 1]);
      if Enabled(before, moves[|moves| - 1]) then Take(before, moves[|moves| - 1]) else before
  }

  function EmptyWorld(ext: bool): World {
    World(Start(EmptyDb(ext)), [], map[])
  }

  ghost predicate Possible(w: World) {
    exists ext: bool, moves: seq<Move> :: w == Play(EmptyWorld(ext), moves)
  }

  // ---- Handlers only make steps of the concurrent system ----

  /** Whatever the handlers do, the database goes through states of the concurrent system. */
  lemma {:induction false} PlayIsRun(ext: bool, moves: seq<Move>) returns (actions: seq<Action>)
    ensures Play(EmptyWorld(ext), moves).sys == Run(Start(EmptyDb(ext)), actions)
  {
    hide Enabled, Next;
    if moves == [] {
      actions := [];
    } else {
      actions := PlayIsRun(ext, moves[..|moves| - 1]);
      var before := Play(EmptyWorld(ext), moves[..|moves| - 1]);
      if Enabled(before, moves[|moves| - 1]) {
        var a := StepOf(before, moves[|moves| - 1]);
        if a.Some? {
          assert (actions + [a.value])[..|actions|] == actions;
          actions := actions + [a.value];
        }
      }
    }
  }

  /** The step of the system that a move makes, if it makes one. */
  lemma StepOf(w: World, m: Move) returns (a: Option<Action>)
    requires Enabled(w, m)
    ensures Take(w, m).sys == if a.Some? then Next(w.sys, a.value) else w.sys
  {
    hide Next;
    match m
    case CallInsert(i) => a := Some(Spawn(AcquireKey(w.handlers[i].req.key, w.handlers[i].req.body)));
    case CallTransfer(i) => a := Some(Spawn(ProgramOf(w.handlers[i].req)));
    case CallComplete(i) =>
      var h := w.handlers[i];
      a := Some(Spawn(CompleteKey(h.req.key, Stored(h.answer.value), Code(h.answer.value))));
    case Elsewhere(b) => a := Some(b);
    case _ => a := None;
  }

  /** So everything proved of reachable states holds next to what is proved here. */
  lemma HandlersStayReachable(w: World)
    requires Possible(w)
    ensures Reachable(w.sys)
  {
    var ext: bool, moves: seq<Move> :| w == Play(EmptyWorld(ext), moves);
    hide Play, Run;
    var actions := PlayIsRun(ext, moves);
  }
}
