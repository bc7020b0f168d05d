/** The outbox table's delivery columns and the worker that publishes due events. */
module Outbox {
  import opened Base
  import opened Tables

  datatype Status = Pending | Published | GaveUp

  /** Times are in microseconds; the event itself is what module Tables stores. */
  datatype Row = Row(event: Event, created: int, status: Status, attempts: nat, nextRetry: int)

  const TEN_SECONDS := 10_000_000
  const BATCH := 50

  function Pow2(n: nat): nat {
    if n == 0 then 1 else 2 * Pow2(n - 1)
  }

  /** The earliest moment after which a row with this many recorded failures may be tried. */
  function Earliest(created: int, attempts: nat): int {
    created + TEN_SECONDS * (Pow2(attempts) - 1)
  }

  /** INSERT with the column defaults; created is the inserting transaction's start. */
  function NewRow(event: Event, created: int): Row {
    Row(event, created, Pending, 0, created)
  }

  function MarkedPublished(r: Row): Row {
    r.(status := Published)
  }

  /** UPDATE reads the old attempts everywhere: the sixth recorded failure is the one that gives up. */
  function MarkedFailed(r: Row, now: int): Row {
    r.(attempts := r.attempts + 1,
       nextRetry := now + TEN_SECONDS * Pow2(r.attempts),
       status := if r.attempts >= 5 then GaveUp else Pending)
  }

  /** One more failure, the delay doubled each time from 10 seconds, given up on the sixth, and nothing else. */
  predicate IsMarkedFailed(before: Row, now: int, after: Row) {
    && after.attempts == before.attempts + 1
    && after.nextRetry == now + 10_000_000 * Pow2(before.attempts)
    && (before.attempts <= 5 ==> after.nextRetry == now + 1_000_000 * [10, 20, 40, 80, 160, 320][before.attempts])
    && (before.attempts < 5 ==> after.status == Pending) && (before.attempts >= 5 ==> after.status == GaveUp)
    && after.event == before.event && after.created == before.created
  }

  lemma MarkedFailedIs(r: Row, now: int)
    ensures IsMarkedFailed(r, now, MarkedFailed(r, now))
  {
    assert Pow2(0) == 1 && Pow2(1) == 2 && Pow2(2) == 4 && Pow2(3) == 8 && Pow2(4) == 16 && Pow2(5) == 32;
  }

  predicate Due(r: Row, now: int) {
    r.status == Pending && r.nextRetry <= now
  }

  predicate Distinct(q: seq<nat>) {
    forall a, b :: 0 <= a < b < |q| ==> q[a] != q[b]
  }

  /** What ORDER BY created_at ASC LIMIT may return: due rows, oldest first, none left out that is older. */
  predicate IsFetch(rows: seq<Row>, now: int, limit: nat, q: seq<nat>) {
    && Distinct(q) && |q| <= limit
    && (forall a :: 0 <= a < |q| ==> q[a] < |rows| && Due(rows[q[a]], now))
    && (forall a, b :: 0 <= a < b < |q| ==> rows[q[a]].created <= rows[q[b]].created)
    && (forall i :: 0 <= i < |rows| && Due(rows[i], now) && i !in q ==>
          |q| == limit && forall a :: 0 <= a < |q| ==> rows[q[a]].created <= rows[i].created)
  }

  // ---- The repository and the worker ----

  datatype Attempt = Attempt(at: int, produced: bool, marked: bool)

  /** What one attempt does to its row, depending on whether the message was produced and the UPDATE went through. */
  function Tried(r: Row, t: Attempt): Row {
    if !t.marked then r else if t.produced then MarkedPublished(r) else MarkedFailed(r, t.at)
  }

  function TriedAll(rows: seq<Row>, q: seq<nat>, ts: seq<Attempt>): (after: seq<Row>)
    requires |q| <= |ts| && forall a :: 0 <= a < |q| ==> q[a] < |rows|
    ensures |after| == |rows|
  {
    if q == [] then rows
    else
      var n := |q| - 1;
      var before := TriedAll(rows, q[..n], ts);
      before[q[n] := Tried(before[q[n]], ts[n])]
  }

  class Repository {
    var rows: seq<Row>

    constructor ()
      ensures rows == []
    {
      rows := [];
    }

    method InsertEvent(event: Event, created: int)
      modifies this
      ensures rows == old(rows) + [Row(event, created, Pending, 0, created)]
    {
      rows := rows + [NewRow(event, created)];
    }

    /** The oldest due row not taken yet, as the ORDER BY finds it. */
    method Oldest(now: int, taken: seq<nat>) returns (best: Option<nat>)
      ensures best.None? ==> forall i :: 0 <= i < |rows| && Due(rows[i], now) ==> i in taken
      ensures best.Some? ==>
                && best.value < |rows| && Due(rows[best.value], now) && best.value !in taken
                && forall i :: 0 <= i < |rows| && Due(rows[i], now) && i !in taken ==> rows[best.value].created <= rows[i].created
    {
      best := None;
      for i := 0 to |rows|
        invariant best.None? ==> forall j :: 0 <= j < i && Due(rows[j], now) ==> j in taken
        invariant best.Some? ==>
                    && best.value < |rows| && Due(rows[best.value], now) && best.value !in taken
                    && forall j :: 0 <= j < i && Due(rows[j], now) && j !in taken ==> rows[best.value].created <= rows[j].created
      {
        if Due(rows[i], now) && i !in taken && (best.None? || rows[i].created < rows[best.value].created) {
          best := Some(i);
        }
      }
    }

    method FetchPendingEvents(now: int, limit: nat) returns (events: seq<nat>)
      ensures |events| <= limit && forall a, b :: 0 <= a < b < |events| ==> events[a] != events[b]
      ensures forall i :: i in events ==> i < |rows| && rows[i].status == Pending && rows[i].nextRetry <= now
      ensures forall a, b :: 0 <= a < b < |events| ==>
                events[a] < |rows| && events[b] < |rows| && rows[events[a]].created <= rows[events[b]].created
      ensures forall i :: 0 <= i < |rows| && rows[i].status == Pending && rows[i].nextRetry <= now && i !in events ==>
                |events| == limit && forall k :: k in events ==> rows[k].created <= rows[i].created
      ensures IsFetch(rows, now, limit, events)
    {
      events := [];
      var done := false;
      while !done && |events| < limit
        invariant |events| <= limit
        invariant IsFetch(rows, now, |events|, events)
        invariant done ==> forall i :: 0 <= i < |rows| && Due(rows[i], now) ==> i in events
        decreases limit - |events|, !done
      {
        var next := Oldest(now, events);
        if next.None? {
          done := true;
        } else {
          events := events + [next.value];
        }
      }
    }

    method MarkPublished(i: nat)
      requires i < |rows|
      modifies this
      ensures |rows| == |old(rows)| && forall j :: 0 <= j < |rows| && j != i ==> rows[j] == old(rows)[j]
      ensures rows[i].status == Published && rows[i].(status := old(rows)[i].status) == old(rows)[i]
      ensures rows == old(rows)[i := MarkedPublished(old(rows)[i])]
    {
      rows := rows[i := rows[i].(status := Published)];
    }

    method MarkFailed(i: nat, now: int)
      requires i < |rows|
      modifies this
      ensures |rows| == |old(rows)| && forall j :: 0 <= j < |rows| && j != i ==> rows[j] == old(rows)[j]
      ensures IsMarkedFailed(old(rows)[i], now, rows[i])
      ensures rows == old(rows)[i := MarkedFailed(old(rows)[i], now)]
    {
      var r := rows[i];
      MarkedFailedIs(r, now);
      rows := rows[i := Row(r.event, r.created, if r.attempts >= 5 then GaveUp else Pending, r.attempts + 1,
      now + TEN_SECONDS * Pow2(r.attempts))];
    }
  }

  lemma FetchInRange(rows: seq<Row>, now: int, limit: nat, q: seq<nat>)
    requires IsFetch(rows, now, limit, q)
    ensures |q| <= limit && forall a :: 0 <= a < |q| ==> q[a] < |rows|
  {
  }

  lemma TriedNone(rows: seq<Row>, q: seq<nat>, ts: seq<Attempt>)
    requires |q| <= |ts| && forall a :: 0 <= a < |q| ==> q[a] < |rows|
    ensures TriedAll(rows, q[..0], ts) == rows
  {
  }

  lemma TriedNext(rows: seq<Row>, q: seq<nat>, ts: seq<Attempt>, k: nat)
    requires k < |q| <= |ts| && forall a :: 0 <= a < |q| ==> q[a] < |rows|
    ensures var before := TriedAll(rows, q[..k], ts);
            TriedAll(rows, q[..k + 1], ts) == before[q[k] := Tried(before[q[k]], ts[k])]
  {
    assert q[..k + 1][..k] == q[..k];
  }

  /** One tick of the worker; tries says how each publish and each mark turned out. */
  method ProcessBatch(repo: Repository, now: int, tries: seq<Attempt>) returns (events: seq<nat>)
    requires |tries| >= BATCH
    modifies repo
    ensures IsFetch(old(repo.rows), now, 50, events)
    ensures repo.rows == TriedAll(old(repo.rows), events, tries)
    ensures |repo.rows| == |old(repo.rows)| && forall i :: 0 <= i < |repo.rows| && i !in events ==> repo.rows[i] == old(repo.rows)[i]
    ensures forall k :: 0 <= k < |events| ==> events[k] < |repo.rows| && IsTried(old(repo.rows)[events[k]], tries[k], repo.rows[events[k]])
  {
    events := repo.FetchPendingEvents(now, BATCH);
    FetchInRange(repo.rows, now, BATCH, events);
    hide IsFetch, TriedAll, Pow2;
    TriedNone(repo.rows, events, tries);
    for k := 0 to |events|
      invariant |repo.rows| == |old(repo.rows)|
      invariant repo.rows == TriedAll(old(repo.rows), events[..k], tries)
    {
      TriedNext(old(repo.rows), events, tries, k);
      if !tries[k].produced {
        if tries[k].marked {
          repo.MarkFailed(events[k], tries[k].at);
        }
      } else if tries[k].marked {
        repo.MarkPublished(events[k]);
      }
    }
    assert events[..|events|] == events;
    TriedRows(old(repo.rows), events, tries);
  }

  /** A row after its attempt: unchanged if the UPDATE did not go through, else published or charged. */
  predicate IsTried(before: Row, t: Attempt, after: Row) {
    && (!t.marked ==> after == before)
    && (t.marked && t.produced ==> after.status == Published && after.(status := before.status) == before)
    && (t.marked && !t.produced ==> IsMarkedFailed(before, t.at, after))
  }

  lemma TriedIs(r: Row, t: Attempt)
    ensures IsTried(r, t, Tried(r, t))
  {
    MarkedFailedIs(r, t.at);
  }

  lemma {:induction false} TriedRows(rows: seq<Row>, q: seq<nat>, ts: seq<Attempt>)
    requires |q| <= |ts| && Distinct(q) && forall a :: 0 <= a < |q| ==> q[a] < |rows|
    ensures forall i :: 0 <= i < |rows| && i !in q ==> TriedAll(rows, q, ts)[i] == rows[i]
    ensures forall k :: 0 <= k < |q| ==> IsTried(rows[q[k]], ts[k], TriedAll(rows, q, ts)[q[k]])
  {
    if q != [] {
      var n := |q| - 1;
      TriedRows(rows, q[..n], ts);
      assert q == q[..n] + [q[n]] && q[n] !in q[..n];
      var before := TriedAll(rows, q[..n], ts);
      assert TriedAll(rows, q, ts) == before[q[n] := Tried(before[q[n]], ts[n])];
      hide IsTried, Tried, TriedAll;
      TriedIs(rows[q[n]], ts[n]);
      forall k | 0 <= k < n ensures q[k] != q[n] && IsTried(rows[q[k]], ts[k], before[q[k]]) {
        assert q[..n][k] == q[k];
      }
    }
  }

  // ---- One worker over time ----

  /** A successful produce: which row, when, how many failures it had behind it, and whether it was then marked. */
  datatype Sent = Sent(row: nat, at: int, attempts: nat, marked: bool)

  /** A failed publish that was recorded. */
  datatype Failure = Failure(row: nat, at: int)

  /** The table, the clock, the batch being worked off, everything produced and every failure recorded so far. */
  datatype Box = Box(rows: seq<Row>, clock: int, queue: seq<nat>, sent: seq<Sent>, failures: seq<Failure>)

  datatype Step =
    | Wait(until: int)
    | Commit(event: Event, created: int)       // an event becomes visible
    | Fetch(found: seq<nat>)
    | Try(produced: bool, marked: bool)
    | Restart                                  // the worker stops and loses the batch in hand

  predicate Can(b: Box, s: Step) {
    match s
    case Wait(until) => b.clock <= until
    case Commit(_, created) => created <= b.clock
    case Fetch(found) => b.queue == [] && IsFetch(b.rows, b.clock, BATCH, found)
    case Try(_, _) => b.queue != [] && b.queue[0] < |b.rows|
    case Restart => true
  }

  function Do(b: Box, s: Step): Box
    requires Can(b, s)
  {
    match s
    case Wait(until) => b.(clock := until)
    case Commit(event, created) => b.(rows := b.rows + [NewRow(event, created)])
    case Fetch(found) => b.(queue := found)
    case Try(produced, marked) =>
      var i := b.queue[0];
      b.(rows := b.rows[i := Tried(b.rows[i], Attempt(b.clock, produced, marked))],
      queue := b.queue[1..],
      sent := if produced then b.sent + [Sent(i, b.clock, b.rows[i].attempts, marked)] else b.sent,
      failures := if !produced && marked then b.failures + [Failure(i, b.clock)] else b.failures)
    case Restart => b.(queue := [])
  }

  function Work(b: Box, steps: seq<Step>): Box {
    if steps == [] then b
    else
      var before := Work(b, steps[..|steps| - 1]);
      if Can(before, steps[|steps| - 1]) then Do(before, steps[|steps| - 1]) else before
  }

  function Idle(clock: int): Box {
    Box([], clock, [], [], [])
  }

  // ---- Attempts, backoff, at least once ----

  predicate RowFine(r: Row) {
    && (r.status == Pending ==> r.attempts <= 5)
    && (r.status == GaveUp ==> r.attempts == 6)
    && (r.status == Published ==> r.attempts <= 5)
    && r.nextRetry >= Earliest(r.created, r.attempts)
  }

  predicate WasSent(b: Box, i: nat) {
    exists k :: 0 <= k < |b.sent| && b.sent[k].row == i
  }

  predicate BoxFine(b: Box) {
    && (forall i :: 0 <= i < |b.rows| ==> RowFine(b.rows[i]) && (b.rows[i].status == Published ==> WasSent(b, i)))
    && Distinct(b.queue)
    && (forall a :: 0 <= a < |b.queue| ==> b.queue[a] < |b.rows| && Due(b.rows[b.queue[a]], b.clock))
    && (forall k :: 0 <= k < |b.sent| ==>
          b.sent[k].row < |b.rows| && b.sent[k].at >= Earliest(b.rows[b.sent[k].row].created, b.sent[k].attempts))
  }

  lemma EarliestNext(created: int, attempts: nat, now: int)
    requires now >= Earliest(created, attempts)
    ensures now + TEN_SECONDS * Pow2(attempts) >= Earliest(created, attempts + 1)
  {
    assert Pow2(attempts + 1) == 2 * Pow2(attempts);
  }

  lemma TryFine(b: Box, produced: bool, marked: bool)
    requires BoxFine(b) && Can(b, Try(produced, marked))
    ensures BoxFine(Do(b, Try(produced, marked)))
  {
    hide Earliest;
    var i := b.queue[0];
    var c := Do(b, Try(produced, marked));
    assert Due(b.rows[i], b.clock) && RowFine(b.rows[i]);
    EarliestNext(b.rows[i].created, b.rows[i].attempts, b.clock);
    forall j | 0 <= j < |c.rows| ensures RowFine(c.rows[j]) && (c.rows[j].status == Published ==> WasSent(c, j)) {
      if b.rows[j].status == Published {
        var k :| 0 <= k < |b.sent| && b.sent[k].row == j;
        assert c.sent[k].row == j;
      } else if j == i && produced {
        assert c.sent[|b.sent|].row == j;
      }
    }
  }

  lemma DoFine(b: Box, s: Step)
    requires BoxFine(b) && Can(b, s)
    ensures BoxFine(Do(b, s))
  {
    match s
    case Try(produced, marked) => TryFine(b, produced, marked);
    case Commit(event, created) =>
      var c := Do(b, s);
      forall j | 0 <= j < |c.rows| ensures RowFine(c.rows[j]) && (c.rows[j].status == Published ==> WasSent(c, j)) {
        if j < |b.rows| && b.rows[j].status == Published {
          var k :| 0 <= k < |b.sent| && b.sent[k].row == j;
          assert c.sent[k].row == j;
        }
      }
    case _ => QuietFine(b, s);
  }

  lemma QuietFine(b: Box, s: Step)
    requires BoxFine(b) && Can(b, s) && (s.Wait? || s.Fetch? || s.Restart?)
    ensures BoxFine(Do(b, s))
  {
    var c := Do(b, s);
    forall j | 0 <= j < |c.rows| && c.rows[j].status == Published ensures WasSent(c, j) {
      var k :| 0 <= k < |b.sent| && b.sent[k].row == j;
      assert c.sent[k].row == j;
    }
  }

  lemma {:induction false} WorkFine(b: Box, steps: seq<Step>)
    requires BoxFine(b)
    ensures BoxFine(Work(b, steps))
  {
    hide BoxFine, Can, Do;
    if steps != [] {
      var before := Work(b, steps[..|steps| - 1]);
      WorkFine(b, steps[..|steps| - 1]);
      if Can(before, steps[|steps| - 1]) {
        DoFine(before, steps[|steps| - 1]);
      }
    }
  }

  /** Attempts and status, backoff, and at-least-once, in every state one worker can reach. */
  lemma DeliveryStates(clock: int, steps: seq<Step>, i: nat)
    requires i < |Work(Idle(clock), steps).rows|
    ensures var b := Work(Idle(clock), steps);
            var r := b.rows[i];
            && (r.status == Pending ==> r.attempts <= 5)
            && (r.status == GaveUp ==> r.attempts == 6)
            && (r.status == Published ==> exists k :: 0 <= k < |b.sent| && b.sent[k].row == i)
            && r.nextRetry >= r.created + 10_000_000 * (Pow2(r.attempts) - 1)
            && (forall k :: 0 <= k < |b.sent| && b.sent[k].row == i ==>
                  b.sent[k].at >= r.created + 10_000_000 * (Pow2(b.sent[k].attempts) - 1))
  {
    hide Work;
    WorkFine(Idle(clock), steps);
    var b := Work(Idle(clock), steps);
    assert RowFine(b.rows[i]);
    assert b.rows[i].status == Published ==> WasSent(b, i);
  }

  // ---- The exact columns ----

  /** When failures of a row were recorded. */
  function FailureTimes(fs: seq<Failure>, row: nat): seq<int> {
    if fs == [] then []
    else
      var f := fs[|fs| - 1];
      FailureTimes(fs[..|fs| - 1], row) + if f.row == row then [f.at] else []
  }

  lemma FailureTimesAppend(fs: seq<Failure>, f: Failure, row: nat)
    ensures FailureTimes(fs + [f], row) == FailureTimes(fs, row) + if f.row == row then [f.at] else []
  {
    assert (fs + [f])[..|fs|] == fs;
  }

  lemma {:induction false} NoFailures(fs: seq<Failure>, row: nat)
    requires forall k :: 0 <= k < |fs| ==> fs[k].row != row
    ensures FailureTimes(fs, row) == []
  {
    if fs != [] {
      NoFailures(fs[..|fs| - 1], row);
    }
  }

  predicate WasMarked(sent: seq<Sent>, row: nat) {
    exists k :: 0 <= k < |sent| && sent[k].row == row && sent[k].marked
  }

  predicate RowExact(r: Row, times: seq<int>, marked: bool) {
    && r.attempts == |times|
    && r.nextRetry == (if times == [] then r.created else times[|times| - 1] + 10_000_000 * Pow2(|times| - 1))
    && (r.status == GaveUp <==> |times| == 6)
    && (r.status == Published <==> marked)
  }

  ghost predicate BoxExact(b: Box) {
    && (forall i :: 0 <= i < |b.rows| ==> RowExact(b.rows[i], FailureTimes(b.failures, i), WasMarked(b.sent, i)))
    && (forall k :: 0 <= k < |b.failures| ==> b.failures[k].row < |b.rows|)
    && (forall k :: 0 <= k < |b.sent| ==> b.sent[k].row < |b.rows|)
  }

  lemma TryExact(b: Box, produced: bool, marked: bool)
    requires BoxFine(b) && BoxExact(b) && Can(b, Try(produced, marked))
    ensures BoxExact(Do(b, Try(produced, marked)))
  {
    var i := b.queue[0];
    var c := Do(b, Try(produced, marked));
    assert Due(b.rows[i], b.clock) && RowFine(b.rows[i]);
    hide Pow2, FailureTimes;
    forall j | 0 <= j < |c.rows| ensures RowExact(c.rows[j], FailureTimes(c.failures, j), WasMarked(c.sent, j)) {
      assert RowExact(b.rows[j], FailureTimes(b.failures, j), WasMarked(b.sent, j));
      FailureTimesAppend(b.failures, Failure(i, b.clock), j);
      MarkedAppend(b.sent, Sent(i, b.clock, b.rows[i].attempts, marked), j);
    }
  }

  lemma MarkedAppend(sent: seq<Sent>, s: Sent, row: nat)
    ensures WasMarked(sent + [s], row) <==> WasMarked(sent, row) || (s.row == row && s.marked)
  {
    if k :| 0 <= k < |sent| && sent[k].row == row && sent[k].marked {
      assert (sent + [s])[k] == sent[k];
    }
    assert (sent + [s])[|sent|] == s;
  }

  lemma DoExact(b: Box, s: Step)
    requires BoxFine(b) && BoxExact(b) && Can(b, s)
    ensures BoxExact(Do(b, s))
  {
    match s
    case Try(produced, marked) => TryExact(b, produced, marked);
    case Commit(event, created) => CommitExact(b, event, created);
    case _ => QuietExact(b, s);
  }

  lemma QuietExact(b: Box, s: Step)
    requires BoxExact(b) && Can(b, s) && (s.Wait? || s.Fetch? || s.Restart?)
    ensures BoxExact(Do(b, s))
  {
    hide RowExact, FailureTimes, WasMarked, IsFetch;
  }

  lemma CommitExact(b: Box, event: Event, created: int)
    requires BoxExact(b) && Can(b, Commit(event, created))
    ensures BoxExact(Do(b, Commit(event, created)))
  {
    hide FailureTimes, Pow2;
    NoFailures(b.failures, |b.rows|);
    NewRowExact(event, created, b.sent, |b.rows|);
    hide RowExact, WasMarked, NewRow;
  }

  lemma NewRowExact(event: Event, created: int, sent: seq<Sent>, row: nat)
    requires forall k :: 0 <= k < |sent| ==> sent[k].row != row
    ensures RowExact(NewRow(event, created), [], WasMarked(sent, row))
  {
  }

  lemma {:induction false} WorkExact(b: Box, steps: seq<Step>)
    requires BoxFine(b) && BoxExact(b)
    ensures BoxExact(Work(b, steps))
  {
    hide BoxFine, BoxExact, Can, Do;
    if steps != [] {
      var n := |steps| - 1;
      WorkFine(b, steps[..n]);
      WorkExact(b, steps[..n]);
      if Can(Work(b, steps[..n]), steps[n]) {
        DoExact(Work(b, steps[..n]), steps[n]);
      }
    }
  }

  /** In every state one worker can reach: the attempts are the recorded failures, the next retry is the creation, or the
      last failure plus 10 seconds doubled for each failure before it; a row is given up iff it failed six times, and
      published iff it was produced and marked. */
  lemma RetryTimes(clock: int, steps: seq<Step>, i: nat)
    requires i < |Work(Idle(clock), steps).rows|
    ensures var b := Work(Idle(clock), steps);
            var r, times := b.rows[i], FailureTimes(b.failures, i);
            && r.attempts == |times|
            && r.nextRetry == (if times == [] then r.created else times[|times| - 1] + 10_000_000 * Pow2(|times| - 1))
            && (r.status == GaveUp <==> |times| == 6)
            && (r.status == Published <==> exists k :: 0 <= k < |b.sent| && b.sent[k].row == i && b.sent[k].marked)
  {
    IdleExact(clock);
    hide Work;
    WorkExact(Idle(clock), steps);
    var b := Work(Idle(clock), steps);
    assert RowExact(b.rows[i], FailureTimes(b.failures, i), WasMarked(b.sent, i));
  }

  lemma IdleExact(clock: int)
    ensures BoxFine(Idle(clock)) && BoxExact(Idle(clock))
  {
  }

  /** Each try of the worker, on the row at the head of its batch. */
  lemma TryIs(b: Box, produced: bool, marked: bool)
    requires Can(b, Try(produced, marked))
    ensures var c, i := Do(b, Try(produced, marked)), b.queue[0];
            && |c.rows| == |b.rows| && (forall j :: 0 <= j < |b.rows| && j != i ==> c.rows[j] == b.rows[j])
            && IsTried(b.rows[i], Attempt(b.clock, produced, marked), c.rows[i])
            && c.queue == b.queue[1..]
  {
    TriedIs(b.rows[b.queue[0]], Attempt(b.clock, produced, marked));
  }

  /** Published and given up are final, and delivery never touches an event's contents. */
  lemma {:induction false} FinalAndIntact(b: Box, steps: seq<Step>, i: nat)
    requires BoxFine(b) && i < |b.rows|
    ensures var c := Work(b, steps);
            && i < |c.rows| && c.rows[i].event == b.rows[i].event && c.rows[i].created == b.rows[i].created
            && (b.rows[i].status != Pending ==> c.rows[i] == b.rows[i])
  {
    if steps != [] {
      var n := |steps| - 1;
      FinalAndIntact(b, steps[..n], i);
      WorkFine(b, steps[..n]);
    }
  }

  // ---- No starvation ----

  /** Failures a pending row can still record. */
  function Patience(r: Row): nat {
    if r.status == Pending && r.attempts <= 5 then 6 - r.attempts else 0
  }

  /** A row that the fetch may prefer to row e. */
  predicate Ahead(rows: seq<Row>, e: nat, i: nat)
    requires e < |rows| && i < |rows|
  {
    i != e && rows[i].created <= rows[e].created
  }

  /** The patience of all rows ahead of e among the first n. */
  function Budget(rows: seq<Row>, e: nat, n: nat): nat
    requires e < |rows| && n <= |rows|
  {
    if n == 0 then 0
    else Budget(rows, e, n - 1) + if Ahead(rows, e, n - 1) then Patience(rows[n - 1]) else 0
  }

  /** How many pending rows are ahead of e. */
  function Crowd(rows: seq<Row>, e: nat, n: nat): nat
    requires e < |rows| && n <= |rows|
  {
    if n == 0 then 0
    else Crowd(rows, e, n - 1) + if Ahead(rows, e, n - 1) && rows[n - 1].status == Pending then 1 else 0
  }

  lemma {:induction false} BudgetBound(rows: seq<Row>, e: nat, n: nat)
    requires e < |rows| && n <= |rows|
    ensures Budget(rows, e, n) <= 6 * Crowd(rows, e, n)
  {
    if n > 0 {
      BudgetBound(rows, e, n - 1);
    }
  }

  lemma {:induction false} BudgetUpdate(rows: seq<Row>, e: nat, n: nat, i: nat, r: Row)
    requires e < |rows| && n <= |rows| && i < |rows| && i != e && r.created == rows[i].created
    ensures Budget(rows[i := r], e, n)
            == Budget(rows, e, n) + if i < n && Ahead(rows, e, i) then Patience(r) - Patience(rows[i]) else 0
  {
    if n > 0 {
      BudgetUpdate(rows, e, n - 1, i, r);
    }
  }

  lemma {:induction false} BudgetAppend(rows: seq<Row>, e: nat, n: nat, r: Row)
    requires e < |rows| && n <= |rows|
    ensures Budget(rows + [r], e, n) == Budget(rows, e, n)
  {
    if n > 0 {
      BudgetAppend(rows, e, n - 1, r);
    }
  }

  /** A set of distinct pending rows ahead of e is no larger than the budget. */
  lemma {:induction false} QueueWithinBudget(rows: seq<Row>, e: nat, q: set<nat>, n: nat)
    requires e < |rows| && n <= |rows|
    requires forall i :: i in q ==> i < n && Ahead(rows, e, i) && Patience(rows[i]) > 0
    ensures |q| <= Budget(rows, e, n)
  {
    if n > 0 {
      if n - 1 in q {
        QueueWithinBudget(rows, e, q - {n - 1}, n - 1);
      } else {
        QueueWithinBudget(rows, e, q, n - 1);
      }
    } else {
      if i :| i in q {
        assert false;
      }
    }
  }

  function Members(q: seq<nat>): set<nat> {
    set i | i in q
  }

  lemma {:induction false} DistinctCount(q: seq<nat>)
    requires Distinct(q)
    ensures |Members(q)| == |q|
  {
    if q == [] {
      assert Members(q) == {};
    } else {
      var n := |q| - 1;
      DistinctCount(q[..n]);
      assert q == q[..n] + [q[n]] && q[n] !in q[..n];
      assert Members(q) == Members(q[..n]) + {q[n]};
    }
  }

  /** A step of a worker that runs on and whose marks go through, with no older event becoming visible. */
  predicate Steady(b: Box, e: nat, s: Step)
    requires e < |b.rows|
  {
    && !s.Restart?
    && (s.Try? ==> s.marked)
    && (s.Commit? ==> s.created > b.rows[e].created)
  }

  /** Every step was possible and kept steady. */
  predicate SteadyRun(b: Box, e: nat, steps: seq<Step>) {
    steps == [] ||
    var n := |steps| - 1;
    && SteadyRun(b, e, steps[..n])
    && e < |Work(b, steps[..n]).rows|
    && Can(Work(b, steps[..n]), steps[n]) && Steady(Work(b, steps[..n]), e, steps[n])
  }

  function Fetches(steps: seq<Step>): nat {
    if steps == [] then 0 else Fetches(steps[..|steps| - 1]) + if steps[|steps| - 1].Fetch? then 1 else 0
  }

  /** Row e is untouched and due, and not in hand; everything in hand is ahead of it; each fetch so far has used
      up 50 of the budget. */
  predicate Passed(b: Box, e: nat, row: Row, fetches: nat, budget: nat) {
    && BoxFine(b) && e < |b.rows| && b.rows[e] == row && Due(row, b.clock) && e !in b.queue
    && (forall a :: 0 <= a < |b.queue| ==> b.queue[a] < |b.rows| && Ahead(b.rows, e, b.queue[a]))
    && Budget(b.rows, e, |b.rows|) + BATCH * fetches <= budget + |b.queue|
  }

  lemma PassedBound(b: Box, e: nat, row: Row, fetches: nat, budget: nat)
    requires Passed(b, e, row, fetches, budget)
    ensures BATCH * fetches <= budget
  {
    var q := Members(b.queue);
    DistinctCount(b.queue);
    forall i | i in q ensures i < |b.rows| && Ahead(b.rows, e, i) && Patience(b.rows[i]) > 0 {
      var a :| 0 <= a < |b.queue| && b.queue[a] == i;
      assert RowFine(b.rows[i]);
    }
    QueueWithinBudget(b.rows, e, q, |b.rows|);
  }

  lemma StepPasses(b: Box, e: nat, row: Row, s: Step, fetches: nat, budget: nat)
    requires Passed(b, e, row, fetches, budget) && Can(b, s) && Steady(b, e, s)
    requires s.Fetch? ==> e !in s.found
    ensures Passed(Do(b, s), e, row, if s.Fetch? then fetches + 1 else fetches, budget)
  {
    hide BoxFine;
    DoFine(b, s);
    match s
    case Wait(_) =>
    case Commit(event, created) =>
      BudgetAppend(b.rows, e, |b.rows|, NewRow(event, created));
    case Fetch(found) =>
      assert |found| == BATCH;
    case Try(produced, marked) =>
      TryPasses(b, e, row, produced, fetches, budget);
  }

  lemma TryPasses(b: Box, e: nat, row: Row, produced: bool, fetches: nat, budget: nat)
    requires Passed(b, e, row, fetches, budget) && b.queue != []
    ensures var c := Do(b, Try(produced, true));
            && e !in c.queue && c.rows[e] == b.rows[e]
            && (forall a :: 0 <= a < |c.queue| ==> c.queue[a] < |c.rows| && Ahead(c.rows, e, c.queue[a]))
            && Budget(c.rows, e, |c.rows|) + BATCH * fetches <= budget + |c.queue|
  {
    var i := b.queue[0];
    var r := Tried(b.rows[i], Attempt(b.clock, produced, true));
    assert RowFine(b.rows[i]) && Due(b.rows[i], b.clock) && Ahead(b.rows, e, i);
    BudgetUpdate(b.rows, e, |b.rows|, i, r);
  }

  /** Row e fetched and waiting for its turn in the batch, still untouched. */
  predicate InHand(b: Box, e: nat, row: Row) {
    BoxFine(b) && e in b.queue && e < |b.rows| && b.rows[e] == row
  }

  /** The k-th step published row e, or charged it with one more failure. */
  predicate TriedAt(b: Box, e: nat, row: Row, steps: seq<Step>, k: nat) {
    k < |steps| && steps[k].Try? &&
    var before, after := Work(b, steps[..k]), Work(b, steps[..k + 1]);
    && e < |before.rows| && before.rows[e] == row
    && e < |after.rows|
    && before.queue != [] && before.queue[0] == e && steps[k].marked
    && IsTried(row, Attempt(before.clock, steps[k].produced, true), after.rows[e])
  }

  /** Within so many fetches, row e was tried. */
  predicate TriedWithin(b: Box, e: nat, row: Row, steps: seq<Step>, fetches: nat) {
    exists k :: 0 <= k < |steps| && TriedAt(b, e, row, steps, k) && Fetches(steps[..k]) <= fetches
  }

  lemma TriedStays(b: Box, e: nat, row: Row, steps: seq<Step>, fetches: nat)
    requires steps != [] && TriedWithin(b, e, row, steps[..|steps| - 1], fetches)
    ensures TriedWithin(b, e, row, steps, fetches)
  {
    hide Work, Fetches;
    var n := |steps| - 1;
    var k :| 0 <= k < n && TriedAt(b, e, row, steps[..n], k) && Fetches(steps[..n][..k]) <= fetches;
    assert steps[..n][..k] == steps[..k] && steps[..n][..k + 1] == steps[..k + 1];
    assert TriedAt(b, e, row, steps, k);
  }

  /** A batch in hand is worked off in order, whatever else happens meanwhile: row e waits, then is tried. */
  lemma HandMoves(b: Box, e: nat, row: Row, s: Step)
    requires InHand(b, e, row) && Can(b, s) && Steady(b, e, s)
    ensures !s.Fetch?
    ensures InHand(Do(b, s), e, row) ||
            (s.Try? && s.marked && b.queue[0] == e && e < |Do(b, s).rows|
             && IsTried(row, Attempt(b.clock, s.produced, true), Do(b, s).rows[e]))
  {
    DoFine(b, s);
    if s.Try? {
      TryIs(b, s.produced, s.marked);
    }
    hide BoxFine, IsTried, MarkedPublished, MarkedFailed;
    if s.Try? && b.queue[0] != e {
      assert e in b.queue[1..];
    }
  }

  /** What a steady run has come to: row e overlooked so far within the budget, in hand, or tried. */
  predicate Progress(b: Box, e: nat, row: Row, steps: seq<Step>, budget: nat) {
    var c := Work(b, steps);
    || Passed(c, e, row, Fetches(steps), budget)
    || (InHand(c, e, row) && Fetches(steps) <= budget / BATCH + 1)
    || TriedWithin(b, e, row, steps, budget / BATCH + 1)
  }

  lemma {:induction false} SteadyProgress(b: Box, e: nat, row: Row, steps: seq<Step>, budget: nat)
    requires Passed(b, e, row, 0, budget) && SteadyRun(b, e, steps)
    ensures Progress(b, e, row, steps, budget)
  {
    hide Passed, InHand, Can, Do, Steady, TriedWithin;
    if steps != [] {
      var n := |steps| - 1;
      var before := Work(b, steps[..n]);
      SteadyProgress(b, e, row, steps[..n], budget);
      if TriedWithin(b, e, row, steps[..n], budget / BATCH + 1) {
        TriedStays(b, e, row, steps, budget / BATCH + 1);
      } else if InHand(before, e, row) && Fetches(steps[..n]) <= budget / BATCH + 1 {
        HandMoves(before, e, row, steps[n]);
        if !InHand(Work(b, steps), e, row) {
          JustTried(b, e, row, steps, budget / BATCH + 1);
        }
      } else {
        PassedBound(before, e, row, Fetches(steps[..n]), budget);
        if steps[n].Fetch? && e in steps[n].found {
          PassedFetched(before, e, row, steps[n].found, Fetches(steps[..n]), budget);
        } else {
          StepPasses(before, e, row, steps[n], Fetches(steps[..n]), budget);
        }
      }
    }
  }

  lemma PassedFetched(b: Box, e: nat, row: Row, found: seq<nat>, fetches: nat, budget: nat)
    requires Passed(b, e, row, fetches, budget) && Can(b, Fetch(found)) && e in found
    ensures InHand(Do(b, Fetch(found)), e, row)
  {
    DoFine(b, Fetch(found));
  }

  lemma JustTried(b: Box, e: nat, row: Row, steps: seq<Step>, fetches: nat)
    requires steps != [] && Fetches(steps[..|steps| - 1]) <= fetches
    requires var n := |steps| - 1;
             var before := Work(b, steps[..n]);
             && Can(before, steps[n]) && steps[n].Try? && steps[n].marked && InHand(before, e, row) && before.queue[0] == e
             && e < |Do(before, steps[n]).rows|
             && IsTried(row, Attempt(before.clock, steps[n].produced, true), Do(before, steps[n]).rows[e])
    ensures TriedWithin(b, e, row, steps, fetches)
  {
    hide Can, Do, IsTried, BoxFine, Fetches;
    var n := |steps| - 1;
    assert steps[..n + 1] == steps;
    assert TriedAt(b, e, row, steps, n);
  }

  /**
   * No starvation. A due event with N pending rows ahead of it is published, or charged with a failure, within
   * floor(6N/50) + 1 batches, although rows that fail keep coming back in front of it: in any steady run that
   * fetches that often and has worked off its last batch, whatever waiting and committing falls in between.
   */
  lemma NoStarvation(b: Box, e: nat, steps: seq<Step>)
    requires BoxFine(b) && b.queue == [] && e < |b.rows| && Due(b.rows[e], b.clock)
    requires SteadyRun(b, e, steps)
    requires Fetches(steps) > 6 * Crowd(b.rows, e, |b.rows|) / 50 && Work(b, steps).queue == []
    ensures exists k :: 0 <= k < |steps| && TriedAt(b, e, b.rows[e], steps, k)
                        && Fetches(steps[..k]) <= 6 * Crowd(b.rows, e, |b.rows|) / 50 + 1
  {
    var budget := 6 * Crowd(b.rows, e, |b.rows|);
    BudgetBound(b.rows, e, |b.rows|);
    SteadyProgress(b, e, b.rows[e], steps, budget);
    var c := Work(b, steps);
    if Passed(c, e, b.rows[e], Fetches(steps), budget) {
      PassedBound(c, e, b.rows[e], Fetches(steps), budget);
      assert false;
    }
  }

  /** And it shows in the end: published, or with more attempts than before. */
  lemma TriedInTheEnd(b: Box, e: nat, steps: seq<Step>)
    requires BoxFine(b) && b.queue == [] && e < |b.rows| && Due(b.rows[e], b.clock)
    requires SteadyRun(b, e, steps)
    requires Fetches(steps) > 6 * Crowd(b.rows, e, |b.rows|) / 50 && Work(b, steps).queue == []
    ensures var c := Work(b, steps);
            e < |c.rows| && (c.rows[e].status == Published || c.rows[e].attempts > b.rows[e].attempts)
  {
    hide BoxFine, SteadyRun, Fetches, Crowd, Work, Due, TriedAt;
    NoStarvation(b, e, steps);
    var k :| 0 <= k < |steps| && TriedAt(b, e, b.rows[e], steps, k);
    TriedShows(b, e, b.rows[e], steps, k);
    MarksStay(b, e, steps, k + 1);
  }

  lemma TriedShows(b: Box, e: nat, row: Row, steps: seq<Step>, k: nat)
    requires TriedAt(b, e, row, steps, k)
    ensures e < |Work(b, steps[..k + 1]).rows|
    ensures var r := Work(b, steps[..k + 1]).rows[e]; r.status == Published || r.attempts > row.attempts
  {
    hide Work, Pow2;
  }

  /** Published stays and attempts never go down. */
  lemma {:induction false} MarksStay(b: Box, e: nat, steps: seq<Step>, k: nat)
    requires BoxFine(b) && k <= |steps| && e < |Work(b, steps[..k]).rows|
    ensures var v, w := Work(b, steps[..k]), Work(b, steps);
            && e < |w.rows| && w.rows[e].attempts >= v.rows[e].attempts
            && (v.rows[e].status == Published ==> w.rows[e].status == Published)
    decreases |steps|
  {
    if k == |steps| {
      assert steps[..k] == steps;
    } else {
      var n := |steps| - 1;
      assert steps[..n][..k] == steps[..k];
      hide BoxFine, Can, Do, IsFetch, Pow2;
      MarksStay(b, e, steps[..n], k);
      WorkFine(b, steps[..n]);
      var before := Work(b, steps[..n]);
      if Can(before, steps[n]) {
        MarkStays(before, e, steps[n]);
      }
    }
  }

  lemma MarkStays(b: Box, e: nat, s: Step)
    requires BoxFine(b) && Can(b, s) && e < |b.rows|
    ensures var c := Do(b, s);
            && e < |c.rows| && c.rows[e].attempts >= b.rows[e].attempts
            && (b.rows[e].status == Published ==> c.rows[e].status == Published)
  {
  }
}
