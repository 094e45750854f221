/**
 Compensation tasks: a MySQL row says that work is still owed, a ZSet entry says
 when to try it again.  One scanner works them off while any number of producers
 add new ones; every store operation may fail, or take effect without an answer.
 */
module Compensation {
  import opened RedisKeys
  import opened SortedSets
  import B = Backoff

  const MAX_RETRY: nat := 5

  datatype Kind = HotRank | OrderClose | Notification

  datatype Status = Pending | Failed

  datatype Row = Row(kind: Kind, retries: nat, status: Status, nextRetryAt: int)

  /** 1 << (retry - 1) seconds; a negative shift count would panic. */
  function BackoffDelay(retry: nat): int
    requires retry >= 1
  {
    B.Pow2(retry - 1) * SECOND
  }

  /** A pending row after one more failure was recorded. */
  function AfterFailure(row: Row, now: int): Row
  {
    var n := row.retries + 1;
    if n >= MAX_RETRY then row.(status := Failed, retries := n, nextRetryAt := now)
    else row.(retries := n, nextRetryAt := now + BackoffDelay(n))
  }

  ghost predicate RowOk(row: Row)
  {
    row.retries <= MAX_RETRY && (row.status == Failed <==> row.retries == MAX_RETRY)
  }

  /** The reply of the failure update: retry count and whether the row became final. */
  datatype FailReply = Recorded(retryCount: nat, terminal: bool) | DbError

  // ---- Table and ZSet together ------------------------------------------------------------

  /** Rows and entries, with four ghosts beside them: ids ever inserted, ids ever scheduled,
      how many failures were recorded for each, and how each execution of its action ended. */
  datatype Book = Book(
    rows: map<int, Row>, zset: map<int, int>, now: int,
    born: set<int>, enqueued: set<int>, recorded: map<int, nat>, tried: map<int, seq<bool>>)

  function FailedTries(tries: seq<bool>): nat
  {
    if tries == [] then 0 else FailedTries(tries[..|tries| - 1]) + (if tries[|tries| - 1] then 0 else 1)
  }

  /** The last execution failed and is not counted yet. */
  predicate Uncounted(b: Book, id: int)
  {
    LastTry(b, id, false) && id in b.recorded && b.recorded[id] < FailedTries(b.tried[id])
  }

  predicate LastTry(b: Book, id: int, ok: bool)
  {
    id in b.tried && b.tried[id] != [] && b.tried[id][|b.tried[id]| - 1] == ok
  }

  /** How long after its last failure a row is to be tried again. */
  function Wait(retries: nat): int
  {
    if retries == 0 then 0 else BackoffDelay(retries)
  }

  function IdsOf(ids: seq<int>): set<int>
  {
    set id | id in ids
  }

  lemma IdsWithin(ids: seq<int>, within: set<int>)
    requires forall id :: id in ids ==> id in within
    ensures IdsOf(ids) <= within
  {
    forall id | id in IdsOf(ids) ensures id in within {
    }
  }

  predicate IsPending(b: Book, id: int)
  {
    id in b.rows && b.rows[id].status == Pending
  }

  /** Names an id to be looked at; the scanner carries along unopened what is said of those. */
  ghost predicate Watched(id: int) { true }

  /** Work is dropped only when it was done, and given up only when it failed that often. */
  ghost predicate NothingIsDropped(b: Book)
  {
    forall id {:trigger Watched(id)} :: Watched(id) && id in b.born ==>
      && id in b.tried && id in b.recorded
      && (id !in b.rows ==> true in b.tried[id])
      && b.recorded[id] <= FailedTries(b.tried[id])
  }

  /** A pending row is tried again as soon as its wait is over. */
  ghost predicate InTime(b: Book)
  {
    forall id {:trigger Watched(id)} :: Watched(id) && id in b.zset && IsPending(b, id) ==>
      b.zset[id] <= Unix(b.now + Wait(b.rows[id].retries))
  }

  /** Holds at every moment: what was scheduled stays in the ZSet while its row is pending,
      nothing is in the ZSet that never had a row, and failures are counted exactly. */
  ghost predicate Sound(b: Book)
  {
    && NothingIsDropped(b) && InTime(b)
    && b.rows.Keys <= b.born && b.enqueued <= b.born && b.zset.Keys <= b.enqueued
    && b.recorded.Keys == b.born && b.tried.Keys == b.born
    && (forall id :: id in b.rows ==> RowOk(b.rows[id]) && b.recorded[id] == b.rows[id].retries)
    && (forall id :: id in b.born ==> b.recorded[id] <= MAX_RETRY)
    && (forall id :: id in b.enqueued && IsPending(b, id) ==> id in b.zset)
    && (forall id :: id in b.rows && id !in b.enqueued ==> IsPending(b, id) && b.rows[id].retries == 0)
  }

  predicate SameRow(b: Book, b': Book, id: int)
  {
    && (id in b.rows <==> id in b'.rows) && (id in b.rows ==> b'.rows[id] == b.rows[id])
    && (id in b.recorded <==> id in b'.recorded) && (id in b.recorded ==> b'.recorded[id] == b.recorded[id])
    && SameTries(b, b', id)
  }

  predicate SameTries(b: Book, b': Book, id: int)
  {
    (id in b.tried <==> id in b'.tried) && (id in b.tried ==> b'.tried[id] == b.tried[id])
  }

  /** The action was executed once and ended in `ok`. */
  predicate TriedOnce(b: Book, b': Book, id: int, ok: bool)
  {
    id in b.tried && id in b'.tried && b'.tried[id] == b.tried[id] + [ok]
  }

  predicate SameEntry(b: Book, b': Book, id: int)
  {
    (id in b.zset <==> id in b'.zset) && (id in b.zset ==> b'.zset[id] == b.zset[id])
  }

  /** Apart from the rows and entries of `but`, all that can have happened is that time
      passed and producers added fresh rows, and entries to rows that had none yet. */
  ghost predicate Onward(b: Book, b': Book, but: set<int>)
  {
    && b.now <= b'.now && b.born <= b'.born && b.enqueued <= b'.enqueued
    && (forall id :: id in b.born && id !in but ==> SameRow(b, b', id))
    && (forall id :: id in b.enqueued && id !in but ==> SameEntry(b, b', id))
    && (forall id :: id in b'.rows && id !in b.born ==> IsPending(b', id) && b'.rows[id].retries == 0)
  }

  lemma OnwardTwice(a: Book, b: Book, c: Book, some: set<int>, more: set<int>)
    requires Onward(a, b, some) && Onward(b, c, more) && more <= a.enqueued <= a.born
    ensures Onward(a, c, some + more)
  {
    forall id | id in a.born && id !in some + more ensures SameRow(a, c, id) {
      assert SameRow(a, b, id) && SameRow(b, c, id);
    }
    forall id | id in a.enqueued && id !in some + more ensures SameEntry(a, c, id) {
      assert SameEntry(a, b, id) && SameEntry(b, c, id);
    }
    forall id | id in c.rows && id !in a.born ensures IsPending(c, id) && c.rows[id].retries == 0 {
      assert id in b.born ==> SameRow(b, c, id);
    }
  }

  lemma OnwardWider(b: Book, b': Book, some: set<int>, more: set<int>)
    requires Onward(b, b', some) && some <= more
    ensures Onward(b, b', more)
  {
  }

  /** One more failure, recorded at some moment between the two. */
  predicate FailedOnce(row: Row, row': Row, from: int, to: int)
  {
    var n := row.retries + 1;
    var at := row'.nextRetryAt - (if n >= MAX_RETRY then 0 else BackoffDelay(n));
    from <= at <= to && row' == AfterFailure(row, at)
  }

  /** What may become of a pending row, given how its action ended: only done work is
      deleted, and only failed work is counted as failed. */
  ghost predicate Handled(b: Book, b': Book, id: int, ok: bool)
  {
    && id in b.rows
    && (id !in b'.rows ==> ok)
    && (id in b'.rows && b'.rows[id] != b.rows[id] ==>
          !ok && FailedOnce(b.rows[id], b'.rows[id], b.now, b'.now))
    && (id !in b'.zset ==> !IsPending(b', id))
  }

  /** What becomes of it when MySQL and Redis answer. */
  ghost predicate ServedAs(b: Book, b': Book, id: int, ok: bool)
  {
    if ok then id !in b'.rows && id !in b'.zset
    else
      && id in b.rows && id in b'.rows && FailedOnce(b.rows[id], b'.rows[id], b.now, b'.now)
      && if b'.rows[id].status == Failed then id !in b'.zset
         else id in b'.zset && Rescheduled(b'.zset[id], b'.rows[id].retries, b.now, b'.now)
  }

  /** What a round can make of a pending row at worst: an execution and what follows from it,
      or nothing. */
  ghost predicate Stepped(b: Book, b': Book, id: int)
  {
    || (TriedOnce(b, b', id, true) && Handled(b, b', id, true))
    || (TriedOnce(b, b', id, false) && Handled(b, b', id, false))
    || (IsPending(b, id) && SameRow(b, b', id) && id in b'.zset)
  }

  /** What a round makes of it when MySQL and Redis answer. */
  ghost predicate Served(b: Book, b': Book, id: int)
  {
    || (TriedOnce(b, b', id, true) && ServedAs(b, b', id, true))
    || (TriedOnce(b, b', id, false) && ServedAs(b, b', id, false))
  }

  /** A failure that was told is recorded; one that was not may be. */
  predicate FailureTold(b: Book, b': Book, id: int, r: FailReply)
  {
    && id in b.rows && id in b'.rows && SameTries(b, b', id)
    && (FailedOnce(b.rows[id], b'.rows[id], b.now, b'.now) || (r.DbError? && SameRow(b, b', id)))
    && (r.Recorded? ==> r.retryCount == b'.rows[id].retries && (r.terminal <==> b'.rows[id].status == Failed))
  }

  predicate Rescheduled(score: int, retry: nat, from: int, to: int)
  {
    1 <= retry <= 4 && Unix(from + BackoffDelay(retry)) <= score <= Unix(to + BackoffDelay(retry))
  }

  /** What was handled since b was handled since any earlier a with the same row. */
  lemma HandledSince(a: Book, b: Book, c: Book, id: int, ok: bool)
    requires a.now <= b.now && id in a.rows && id in b.rows && a.rows[id] == b.rows[id] && Handled(b, c, id, ok)
    ensures Handled(a, c, id, ok) && (ServedAs(b, c, id, ok) ==> ServedAs(a, c, id, ok))
  {
    if !ok && ServedAs(b, c, id, ok) && c.rows[id].status != Failed {
      UnixGrows(a.now + BackoffDelay(c.rows[id].retries), b.now + BackoffDelay(c.rows[id].retries));
    }
  }

  lemma DifferentTries(a: Book, b: Book, id: int)
    ensures !(TriedOnce(a, b, id, true) && TriedOnce(a, b, id, false))
  {
    if TriedOnce(a, b, id, true) {
      assert b.tried[id][|a.tried[id]|];
    }
  }

  /** Later steps that leave id alone change nothing about how it was dealt with. */
  lemma SteppedStays(a: Book, b: Book, c: Book, but: set<int>, id: int)
    requires Onward(b, c, but) && id in b.enqueued && id in b.born && id !in but && Stepped(a, b, id)
    ensures Stepped(a, c, id) && (Served(a, b, id) ==> Served(a, c, id))
  {
    assert SameRow(b, c, id) && SameEntry(b, c, id);
    if Served(a, b, id) && id in b.rows && b.rows[id].status != Failed {
      UnixGrows(b.now + BackoffDelay(b.rows[id].retries), c.now + BackoffDelay(b.rows[id].retries));
    }
  }

  lemma AllSteppedStay(a: Book, b: Book, c: Book, ids: seq<int>, id: int)
    requires Onward(b, c, {id}) && id !in ids && b.enqueued <= b.born
    requires forall x :: x in ids ==> x in b.enqueued && Stepped(a, b, x)
    ensures forall x :: x in ids ==> Stepped(a, c, x)
    ensures (forall x :: x in ids ==> Served(a, b, x)) ==> forall x :: x in ids ==> Served(a, c, x)
  {
    forall x | x in ids ensures Stepped(a, c, x) && (Served(a, b, x) ==> Served(a, c, x)) {
      SteppedStays(a, b, c, {id}, x);
    }
  }

  /** What was dealt with since b was dealt with since any earlier a with the same row. */
  lemma SteppedSince(a: Book, b: Book, c: Book, id: int)
    requires a.now <= b.now && SameRow(a, b, id) && Stepped(b, c, id)
    ensures Stepped(a, c, id)
    ensures Served(b, c, id) ==> Served(a, c, id)
  {
    if TriedOnce(b, c, id, true) {
      DifferentTries(b, c, id);
      HandledSince(a, b, c, id, true);
    } else if TriedOnce(b, c, id, false) {
      HandledSince(a, b, c, id, false);
    }
  }

  /** What a round makes of a listed id: one step of a pending row, nothing of any other. */
  ghost predicate Dealt(b: Book, b': Book, id: int)
  {
    if IsPending(b, id) then Stepped(b, b', id) else SameRow(b, b', id)
  }

  ghost predicate WellDealt(b: Book, b': Book, id: int)
  {
    if IsPending(b, id) then Served(b, b', id) else id !in b'.zset
  }

  lemma DealtSince(a: Book, b: Book, c: Book, id: int)
    requires a.now <= b.now && SameRow(a, b, id) && Dealt(b, c, id)
    ensures Dealt(a, c, id) && (WellDealt(b, c, id) ==> WellDealt(a, c, id))
  {
    if IsPending(b, id) {
      SteppedSince(a, b, c, id);
    }
  }

  // ---- Single operations -------------------------------------------------------------------

  /** What anybody does to table and ZSet, one statement or command at a time; time passes, too. */
  datatype Op =
    | Pass(time: int)
    | Insert(id: int, kind: Kind)      // producer: the row
    | Add(id: int)                     // producer: its first entry
    | Try(id: int, ok: bool)           // scanner: the action itself
    | Delete(id: int)                  // scanner: the row of finished work
    | Count(id: int)                   // scanner: one more failure
    | Drop(id: int)                    // scanner: the entry of a row no longer pending
    | Put(id: int, score: int)         // scanner: a later entry

  /** When the code does it. */
  predicate Possible(b: Book, op: Op)
  {
    match op
    case Pass(time) => b.now <= time
    case Insert(id, _) => id !in b.born
    case Add(id) => id in b.rows && id !in b.enqueued
    case Try(id, _) => IsPending(b, id) && id in b.enqueued && id in b.tried
    case Delete(id) => IsPending(b, id) && id in b.enqueued && LastTry(b, id, true)
    case Count(id) => IsPending(b, id) && id in b.enqueued && Uncounted(b, id)
    case Drop(id) => !IsPending(b, id) && id in b.enqueued
    case Put(id, score) =>
      IsPending(b, id) && id in b.enqueued && score == Unix(b.now + Wait(b.rows[id].retries))
  }

  function After(b: Book, op: Op): Book
    requires Possible(b, op)
  {
    match op
    case Pass(time) => b.(now := time)
    case Insert(id, kind) =>
      b.(rows := b.rows[id := Row(kind, 0, Pending, b.now)], born := b.born + {id},
         recorded := b.recorded[id := 0], tried := b.tried[id := []])
    case Add(id) => b.(zset := b.zset[id := Unix(b.now)], enqueued := b.enqueued + {id})
    case Try(id, ok) => b.(tried := b.tried[id := b.tried[id] + [ok]])
    case Delete(id) => b.(rows := b.rows - {id})
    case Count(id) =>
      b.(rows := b.rows[id := AfterFailure(b.rows[id], b.now)], recorded := b.recorded[id := b.recorded[id] + 1])
    case Drop(id) => b.(zset := b.zset - {id})
    case Put(id, score) => b.(zset := b.zset[id := score])
  }

  predicate Produces(op: Op)
  {
    op.Pass? || op.Insert? || op.Add?
  }

  lemma WaitsGrow(n: nat)
    ensures 0 <= Wait(n) <= Wait(n + 1)
  {
  }

  lemma TryCounts(tries: seq<bool>, ok: bool)
    ensures FailedTries(tries + [ok]) == FailedTries(tries) + (if ok then 0 else 1)
  {
    assert (tries + [ok])[..|tries|] == tries;
  }

  lemma OperationKeepsSound(b: Book, op: Op)
    requires Sound(b) && Possible(b, op)
    ensures Sound(After(b, op))
  {
    OperationDropsNothing(b, op);
    OperationIsInTime(b, op);
  }

  lemma OperationDropsNothing(b: Book, op: Op)
    requires Sound(b) && Possible(b, op)
    ensures NothingIsDropped(After(b, op))
  {
    if op.Try? {
      TryCounts(b.tried[op.id], op.ok);
      assert forall x :: x in b.tried[op.id] ==> x in b.tried[op.id] + [op.ok];
    }
  }

  lemma OperationIsInTime(b: Book, op: Op)
    requires Sound(b) && Possible(b, op)
    ensures InTime(After(b, op))
  {
    var b' := After(b, op);
    forall id | Watched(id) && id in b'.zset && IsPending(b', id)
      ensures b'.zset[id] <= Unix(b'.now + Wait(b'.rows[id].retries))
    {
      if IsPending(b, id) {
        var n := b.rows[id].retries;
        WaitsGrow(n);
        UnixGrows(b.now + Wait(n), b'.now + Wait(n));
        UnixGrows(b'.now + Wait(n), b'.now + Wait(n + 1));
      }
    }
  }

  /** Work leaves the table only after it was done, and is given up only after five failures. */
  lemma DroppedMeansDone(b: Book, id: int)
    requires Sound(b) && id in b.born
    ensures id !in b.rows ==> true in b.tried[id]
    ensures id in b.rows && b.rows[id].status == Failed ==> FailedTries(b.tried[id]) >= 5
  {
    assert Watched(id);
  }

  /** A scheduled pending row is due within a second after its wait: a fresh one at once, one
      that has failed n times after 2^(n-1) seconds. */
  lemma EntriesFallDue(b: Book, id: int, now: int)
    requires Sound(b) && IsPending(b, id) && id in b.enqueued
    requires b.now + Wait(b.rows[id].retries) + SECOND <= now
    ensures id in b.zset && b.zset[id] < Unix(now)
  {
    assert Watched(id);
    UnixGrows(b.now + Wait(b.rows[id].retries) + SECOND, now);
  }

  lemma OperationGoesOnward(b: Book, op: Op)
    requires Sound(b) && Possible(b, op)
    ensures Onward(b, After(b, op), if Produces(op) then {} else {op.id})
  {
  }

  /** A row not scheduled yet, and known to one producer only. */
  predicate IsFresh(b: Book, mine: int)
  {
    mine in b.born && mine !in b.enqueued
  }

  lemma OperationSparesTheFresh(b: Book, op: Op, mine: int)
    requires Sound(b) && Possible(b, op) && IsFresh(b, mine) && op != Add(mine)
    ensures IsFresh(After(b, op), mine) && SameRow(b, After(b, op), mine)
  {
  }

  predicate AllPossible(b: Book, ops: seq<Op>)
    decreases |ops|
  {
    ops == [] || (Possible(b, ops[0]) && AllPossible(After(b, ops[0]), ops[1..]))
  }

  function AfterAll(b: Book, ops: seq<Op>): Book
    requires AllPossible(b, ops)
    decreases |ops|
  {
    if ops == [] then b else AfterAll(After(b, ops[0]), ops[1..])
  }

  /** Any number of producers, interleaved as they please, keep everything the scanner knows. */
  lemma {:induction false} ProducersGoOnward(b: Book, ops: seq<Op>)
    requires Sound(b) && AllPossible(b, ops) && forall op :: op in ops ==> Produces(op)
    ensures Sound(AfterAll(b, ops)) && Onward(b, AfterAll(b, ops), {})
    decreases |ops|
  {
    if ops != [] {
      var next := After(b, ops[0]);
      OperationKeepsSound(b, ops[0]);
      OperationGoesOnward(b, ops[0]);
      ProducersGoOnward(next, ops[1..]);
      OnwardTwice(b, next, AfterAll(b, ops), {}, {});
    }
  }

  /** Whatever scanners and producers do, a row whose producer has not added its entry yet is
      as it was inserted, and is not scheduled. */
  lemma {:induction false} FreshRowsAreSpared(b: Book, ops: seq<Op>, mine: int)
    requires Sound(b) && AllPossible(b, ops) && IsFresh(b, mine) && Add(mine) !in ops
    ensures var b' := AfterAll(b, ops); Sound(b') && IsFresh(b', mine) && SameRow(b, b', mine)
    decreases |ops|
  {
    if ops != [] {
      OperationKeepsSound(b, ops[0]);
      OperationSparesTheFresh(b, ops[0], mine);
      FreshRowsAreSpared(After(b, ops[0]), ops[1..], mine);
    }
  }

  // ---- Scanner and producers ---------------------------------------------------------------

  class Scanner {
    const reliable: bool            // MySQL and Redis answer every operation
    var rows: map<int, Row>         // compensation_tasks
    var zset: map<int, int>         // delay:compensation:retry, score in seconds
    var now: int
    ghost var born: set<int>
    ghost var enqueued: set<int>
    ghost var recorded: map<int, nat>
    ghost var tried: map<int, seq<bool>>

    ghost function Here(): Book
      reads this
    {
      Book(rows, zset, now, born, enqueued, recorded, tried)
    }
    ghost predicate Valid()
      reads this
    {
      Sound(Here())
    }

    constructor (reliable: bool, now: int)
      ensures Valid() && rows == map[] && zset == map[] && this.reliable == reliable && this.now == now
    {
      this.reliable, this.now := reliable, now;
      rows, zset, born, enqueued, recorded, tried := map[], map[], {}, {}, map[], map[];
    }

    method Succeeds() returns (ok: bool)
      ensures reliable ==> ok
    {
      ok := *;
      if reliable {
        ok := true;
      }
    }

    /** Whether an operation takes effect, and whether the caller learns that it did. */
    method Attempt() returns (done: bool, seen: bool)
      ensures seen ==> done
      ensures reliable ==> seen
    {
      done := Succeeds();
      seen := Succeeds();
      seen := done && seen;
    }

    /** What the scanner has to reckon with between two of its operations: ProducersGoOnward
        proves it of any number of them. */
    method Producers()
      requires Valid()
      modifies this
      ensures Valid() && Onward(old(Here()), Here(), {})
    {
    }

    /** What a producer has to reckon with while its row is not scheduled: FreshRowsAreSpared
        proves it of the scanner and all other producers. */
    method Everybody(ghost mine: int)
      requires Valid() && IsFresh(Here(), mine)
      modifies this
      ensures Valid() && IsFresh(Here(), mine) && SameRow(old(Here()), Here(), mine)
    {
    }

    // ---- Single operations ------------------------------------------------------------------

    method InsertRow(id: int, kind: Kind)
      requires Valid() && Possible(Here(), Insert(id, kind))
      modifies this
      ensures Valid() && Here() == After(old(Here()), Insert(id, kind))
    {
      OperationKeepsSound(Here(), Insert(id, kind));
      rows := rows[id := Row(kind, 0, Pending, now)];
      born, recorded, tried := born + {id}, recorded[id := 0], tried[id := []];
    }

    method AddEntry(id: int)
      requires Valid() && Possible(Here(), Add(id))
      modifies this
      ensures Valid() && Here() == After(old(Here()), Add(id))
    {
      OperationKeepsSound(Here(), Add(id));
      zset := zset[id := Unix(now)];
      enqueued := enqueued + {id};
    }

    method DeleteRow(id: int)
      requires Valid() && Possible(Here(), Delete(id))
      modifies this
      ensures Valid() && Here() == After(old(Here()), Delete(id))
    {
      OperationKeepsSound(Here(), Delete(id));
      rows := rows - {id};
    }

    /** UPDATE ... WHERE id AND pending, with the count computed from the row read before. */
    method CountFailure(id: int, n: nat)
      requires Valid() && Possible(Here(), Count(id)) && n == rows[id].retries + 1
      modifies this
      ensures Valid() && Here() == After(old(Here()), Count(id))
    {
      ghost var after := After(Here(), Count(id));
      OperationKeepsSound(Here(), Count(id));
      var row := if n >= MAX_RETRY then rows[id].(status := Failed, retries := n, nextRetryAt := now)
                 else rows[id].(retries := n, nextRetryAt := now + BackoffDelay(n));
      assert row == AfterFailure(rows[id], now);
      rows := rows[id := row];
      recorded := recorded[id := recorded[id] + 1];
      assert Here() == after;
    }

    method DropEntry(id: int)
      requires Valid() && Possible(Here(), Drop(id))
      modifies this
      ensures Valid() && Here() == After(old(Here()), Drop(id))
    {
      OperationKeepsSound(Here(), Drop(id));
      zset := zset - {id};
    }

    method PutEntry(id: int, score: int)
      requires Valid() && Possible(Here(), Put(id, score))
      modifies this
      ensures Valid() && Here() == After(old(Here()), Put(id, score))
    {
      OperationKeepsSound(Here(), Put(id, score));
      zset := zset[id := score];
    }

    // ---- Producing --------------------------------------------------------------------------

    /** Records owed work where a side action failed: the row first, then its entry. */
    method Compensate(id: int, kind: Kind)
      requires Valid() && id !in born
      modifies this
      ensures Valid()
      ensures id in rows ==> IsPending(Here(), id) && rows[id].kind == kind && rows[id].retries == 0
      ensures id in zset ==> id in rows
      ensures reliable ==> id in rows && id in zset
    {
      var done, seen := Attempt();
      if done {
        InsertRow(id, kind);
      }
      if !seen {
        return;
      }
      Everybody(id);
      done, seen := Attempt();
      if done {
        AddEntry(id);
      }
    }

    // ---- Scanning ---------------------------------------------------------------------------

    /** The compensating action itself: a recount, a replayed ZADD or a resent message. */
    method Execute(id: int, kind: Kind) returns (ok: bool)
      requires Valid() && IsPending(Here(), id) && id in enqueued && rows[id].kind == kind
      modifies this`tried
      ensures Valid() && Possible(old(Here()), Try(id, ok)) && Here() == After(old(Here()), Try(id, ok))
    {
      ok := *;
      OperationKeepsSound(Here(), Try(id, ok));
      tried := tried[id := tried[id] + [ok]];
    }

    predicate Due(id: int)
      reads this
    {
      id in zset && zset[id] < Unix(now)
    }

    /** FailCompensationTask: reads the row, then updates it only while it is pending.  An
        error may hide an update that took effect. */
    method RecordFailure(id: int) returns (r: FailReply)
      requires Valid() && id in enqueued && (IsPending(Here(), id) ==> Uncounted(Here(), id))
      modifies this
      ensures Valid() && Onward(old(Here()), Here(), {id}) && SameEntry(old(Here()), Here(), id)
      ensures reliable ==> r.Recorded?
      ensures id !in old(rows) && r.Recorded? ==> r == Recorded(0, false)
      ensures !IsPending(old(Here()), id) ==> SameRow(old(Here()), Here(), id)
      ensures IsPending(old(Here()), id) ==> FailureTold(old(Here()), Here(), id, r)
    {
      ghost var start := Here();
      var readable := Succeeds();
      if !readable {
        return DbError;
      }
      if id !in rows {
        return Recorded(0, false);
      }
      var n := rows[id].retries + 1;
      Producers();
      ghost var waited := Here();
      assert SameRow(start, waited, id) && SameEntry(start, waited, id);
      r := GuardedUpdate(id, n);
      OnwardTwice(start, waited, Here(), {}, {id});
      assert {} + {id} == {id};
    }

    method GuardedUpdate(id: int, n: nat) returns (r: FailReply)
      requires Valid() && id in rows && id in enqueued && n == rows[id].retries + 1
      requires IsPending(Here(), id) ==> Uncounted(Here(), id)
      modifies this
      ensures Valid() && Onward(old(Here()), Here(), {id}) && SameEntry(old(Here()), Here(), id)
      ensures reliable ==> r.Recorded?
      ensures !IsPending(old(Here()), id) ==> SameRow(old(Here()), Here(), id)
      ensures IsPending(old(Here()), id) ==> FailureTold(old(Here()), Here(), id, r)
    {
      var done, seen := Attempt();
      var hit := done && rows[id].status == Pending;
      if hit {
        OperationGoesOnward(Here(), Count(id));
        CountFailure(id, n);
      }
      r := if !seen then DbError else Recorded(n, n >= MAX_RETRY && hit);
    }

    /** Best-effort removal of a schedule entry whose row is no longer pending. */
    method RemoveEntry(id: int)
      requires Valid() && id in enqueued && !IsPending(Here(), id)
      modifies this
      ensures Valid() && Onward(old(Here()), Here(), {id}) && SameRow(old(Here()), Here(), id)
      ensures SameEntry(old(Here()), Here(), id) || id !in zset
      ensures reliable ==> id !in zset
    {
      ghost var start := Here();
      Producers();
      assert SameRow(start, Here(), id) && SameEntry(start, Here(), id);
      var done, seen := Attempt();
      if done {
        ghost var before := Here();
        OperationGoesOnward(before, Drop(id));
        DropEntry(id);
        OnwardTwice(start, before, Here(), {}, {id});
        assert {} + {id} == {id};
      }
    }

    /** Success: the row is deleted, and its entry once that is known. */
    method Finish(id: int)
      requires Valid() && IsPending(Here(), id) && id in enqueued && LastTry(Here(), id, true)
      modifies this
      ensures Valid() && Onward(old(Here()), Here(), {id}) && SameTries(old(Here()), Here(), id)
      ensures Handled(old(Here()), Here(), id, true)
      ensures reliable ==> ServedAs(old(Here()), Here(), id, true)
      ensures id in zset ==> SameEntry(old(Here()), Here(), id)
    {
      ghost var start := Here();
      var done, seen := Attempt();
      if done {
        OperationGoesOnward(Here(), Delete(id));
        DeleteRow(id);
      }
      if !seen {
        return;
      }
      ghost var deleted := Here();
      RemoveEntry(id);
      OnwardTwice(start, deleted, Here(), {id}, {id});
    }

    /** Failure: counted, then retired or put off. */
    method PutOff(id: int)
      requires Valid() && IsPending(Here(), id) && id in enqueued && Uncounted(Here(), id)
      modifies this
      ensures Valid() && Onward(old(Here()), Here(), {id}) && SameTries(old(Here()), Here(), id)
      ensures Handled(old(Here()), Here(), id, false)
      ensures reliable ==> ServedAs(old(Here()), Here(), id, false)
      ensures id in zset && !SameEntry(old(Here()), Here(), id) ==>
                exists retry :: Rescheduled(zset[id], retry, old(now), now)
    {
      ghost var start := Here();
      var r := RecordFailure(id);
      if r.DbError? {
        return;
      }
      ghost var counted := Here();
      if r.terminal {
        RemoveEntry(id);
      } else {
        Reschedule(id, r.retryCount);
        UnixGrows(start.now + BackoffDelay(r.retryCount), counted.now + BackoffDelay(r.retryCount));
        assert !SameEntry(counted, Here(), id) ==> Rescheduled(zset[id], r.retryCount, start.now, now);
      }
      OnwardTwice(start, counted, Here(), {id}, {id});
    }

    /** A later entry for a row that has failed one to four times. */
    method Reschedule(id: int, retry: nat)
      requires Valid() && IsPending(Here(), id) && id in enqueued && 1 <= retry == rows[id].retries
      modifies this
      ensures Valid() && Onward(old(Here()), Here(), {id}) && SameRow(old(Here()), Here(), id) && id in zset
      ensures SameEntry(old(Here()), Here(), id) || Rescheduled(zset[id], retry, old(now), now)
      ensures reliable ==> Rescheduled(zset[id], retry, old(now), now)
      ensures retry <= 4
    {
      ghost var start := Here();
      Producers();
      assert SameRow(start, Here(), id) && SameEntry(start, Here(), id);
      var done, seen := Attempt();
      if done {
        ghost var before := Here();
        var score := Unix(now + BackoffDelay(retry));
        UnixGrows(start.now + BackoffDelay(retry), now + BackoffDelay(retry));
        OperationGoesOnward(before, Put(id, score));
        PutEntry(id, score);
        OnwardTwice(start, before, Here(), {}, {id});
        assert {} + {id} == {id};
      }
    }

    /** Carries out one task: its action once, and then, if that worked, the row is deleted, and
        if it failed, the failure counted, as far as MySQL answers.  The entry leaves the ZSet
        only when the row is no longer pending. */
    method RunTask(id: int)
      requires Valid() && IsPending(Here(), id) && id in enqueued
      modifies this
      ensures Valid() && Onward(old(Here()), Here(), {id})
      ensures TriedOnce(old(Here()), Here(), id, true) || TriedOnce(old(Here()), Here(), id, false)
      ensures TriedOnce(old(Here()), Here(), id, true) ==> Handled(old(Here()), Here(), id, true)
      ensures TriedOnce(old(Here()), Here(), id, false) ==> Handled(old(Here()), Here(), id, false)
      ensures reliable && TriedOnce(old(Here()), Here(), id, true) ==> ServedAs(old(Here()), Here(), id, true)
      ensures reliable && TriedOnce(old(Here()), Here(), id, false) ==> ServedAs(old(Here()), Here(), id, false)
      ensures id in zset && !SameEntry(old(Here()), Here(), id) ==>
                exists retry :: Rescheduled(zset[id], retry, old(now), now)
    {
      ghost var start := Here();
      var executed := Execute(id, rows[id].kind);
      ghost var tried := Here();
      AfterTry(start, id, executed);
      Settle(id, executed);
      OnwardTwice(start, tried, Here(), {id}, {id});
      HandledSince(start, tried, Here(), id, executed);
      DifferentTries(start, Here(), id);
    }

    lemma AfterTry(b: Book, id: int, ok: bool)
      requires Sound(b) && Possible(b, Try(id, ok))
      ensures var b' := After(b, Try(id, ok));
              && Onward(b, b', {id}) && b'.rows == b.rows && SameEntry(b, b', id) && TriedOnce(b, b', id, ok)
              && LastTry(b', id, ok) && (!ok ==> Uncounted(b', id))
    {
      assert Watched(id);
      TryCounts(b.tried[id], ok);
      OperationGoesOnward(b, Try(id, ok));
    }

    /** What follows from the outcome of the action. */
    method Settle(id: int, executed: bool)
      requires Valid() && IsPending(Here(), id) && id in enqueued && LastTry(Here(), id, executed)
      requires !executed ==> Uncounted(Here(), id)
      modifies this
      ensures Valid() && Onward(old(Here()), Here(), {id}) && SameTries(old(Here()), Here(), id)
      ensures Handled(old(Here()), Here(), id, executed)
      ensures reliable ==> ServedAs(old(Here()), Here(), id, executed)
      ensures id in zset && !SameEntry(old(Here()), Here(), id) ==>
                exists retry :: Rescheduled(zset[id], retry, old(now), now)
    {
      ghost var start := Here();
      Producers();
      ghost var waited := Here();
      assert SameRow(start, waited, id) && SameEntry(start, waited, id);
      if executed {
        Finish(id);
      } else {
        PutOff(id);
        if retry :| id in zset && Rescheduled(zset[id], retry, waited.now, now) {
          UnixGrows(start.now + BackoffDelay(retry), waited.now + BackoffDelay(retry));
          assert Rescheduled(zset[id], retry, start.now, now);
        }
      }
      OnwardTwice(start, waited, Here(), {}, {id});
      HandledSince(start, waited, Here(), id, executed);
    }

    /** ZRANGEBYSCORE -inf (now LIMIT 1000. */
    method ListDue() returns (ids: seq<int>)
      ensures LowestFirst(zset, Unix(now), SCAN_LIMIT, ids)
    {
      ids := RangeByScore(zset, Unix(now), SCAN_LIMIT);
    }

    /** The rows of the listed tasks that are still pending. */
    method PendingOf(ids: seq<int>) returns (tasks: seq<int>)
      requires forall i, j :: 0 <= i < j < |ids| ==> ids[i] != ids[j]
      ensures forall id :: id in tasks <==> id in ids && IsPending(Here(), id)
      ensures forall i, j :: 0 <= i < j < |tasks| ==> tasks[i] != tasks[j]
    {
      tasks := [];
      for i := 0 to |ids|
        invariant forall id :: id in tasks <==> id in ids[..i] && IsPending(Here(), id)
        invariant forall j, k :: 0 <= j < k < |tasks| ==> tasks[j] != tasks[k]
      {
        assert ids[..i + 1] == ids[..i] + [ids[i]] && ids[i] !in ids[..i];
        if ids[i] in rows && rows[ids[i]].status == Pending {
          tasks := tasks + [ids[i]];
        }
      }
      assert ids[..|ids|] == ids;
    }

    /** Residue: entries that were listed but had no pending row.  A row always comes before
        its entry, so such a row is gone or final for good and none can appear any more. */
    method CleanUp(ids: seq<int>, tasks: seq<int>)
      requires Valid() && forall id :: id in ids ==> id in enqueued && (id in tasks || !IsPending(Here(), id))
      modifies this
      ensures Valid() && Onward(old(Here()), Here(), IdsOf(ids) - IdsOf(tasks))
      ensures forall id :: id in ids ==> SameRow(old(Here()), Here(), id)
      ensures reliable ==> forall id :: id in ids && id !in tasks ==> id !in zset
    {
      ghost var start := Here();
      ghost var residue := IdsOf(ids) - IdsOf(tasks);
      IdsWithin(ids, start.enqueued);
      for i := 0 to |ids|
        invariant Valid() && Onward(start, Here(), residue)
        invariant forall id :: id in ids ==> SameRow(start, Here(), id)
        invariant reliable ==> forall x :: x in ids[..i] && x !in tasks ==> x !in zset
      {
        assert ids[..i + 1] == ids[..i] + [ids[i]];
        if ids[i] !in tasks {
          ghost var before := Here();
          assert ids[i] in ids && SameRow(start, before, ids[i]);
          RemoveEntry(ids[i]);
          OnwardTwice(start, before, Here(), residue, {ids[i]});
          OnwardWider(start, Here(), residue + {ids[i]}, residue);
          CleanedStay(start, before, Here(), ids, ids[i]);
          forall x | x in ids[..i] && x !in tasks ensures reliable ==> x !in zset {
            assert x in ids && x in before.enqueued;
          }
        }
      }
      assert ids[..|ids|] == ids;
    }

    lemma CleanedStay(start: Book, before: Book, after: Book, ids: seq<int>, id: int)
      requires Onward(before, after, {id}) && SameRow(before, after, id)
      requires Sound(before) && forall x :: x in ids ==> x in before.enqueued && SameRow(start, before, x)
      ensures forall x :: x in ids ==> SameRow(start, after, x)
      ensures forall x :: x in ids && x != id && x !in before.zset ==> x !in after.zset
    {
      forall x | x in ids ensures SameRow(start, after, x) {
        assert SameRow(start, before, x) && SameRow(before, after, x);
      }
      forall x | x in ids && x != id ensures x !in before.zset ==> x !in after.zset {
        assert SameEntry(before, after, x);
      }
    }

    method RunAll(tasks: seq<int>)
      requires Valid() && (forall i, j :: 0 <= i < j < |tasks| ==> tasks[i] != tasks[j])
      requires forall id :: id in tasks ==> IsPending(Here(), id) && id in enqueued
      modifies this
      ensures Valid() && Onward(old(Here()), Here(), IdsOf(tasks))
      ensures forall id :: id in tasks ==> Stepped(old(Here()), Here(), id)
      ensures reliable ==> forall id :: id in tasks ==> Served(old(Here()), Here(), id)
    {
      ghost var start := Here();
      for i := 0 to |tasks|
        invariant Valid() && Onward(start, Here(), IdsOf(tasks[..i]))
        invariant forall id :: id in tasks[..i] ==> Stepped(start, Here(), id)
        invariant reliable ==> forall id :: id in tasks[..i] ==> Served(start, Here(), id)
      {
        ghost var before := Here();
        OneMoreTask(start, before, tasks, i);
        RunTask(tasks[i]);
        TaskIsDone(start, before, Here(), tasks, i);
      }
      assert tasks[..|tasks|] == tasks;
    }

    /** The next task of a round is as it was when the round began. */
    lemma OneMoreTask(start: Book, before: Book, tasks: seq<int>, i: nat)
      requires i < |tasks| && forall j, k :: 0 <= j < k < |tasks| ==> tasks[j] != tasks[k]
      requires Sound(start) && Sound(before) && Onward(start, before, IdsOf(tasks[..i]))
      requires IsPending(start, tasks[i]) && tasks[i] in start.enqueued
      ensures SameRow(start, before, tasks[i]) && IsPending(before, tasks[i]) && tasks[i] in before.enqueued
      ensures IdsOf(tasks[..i + 1]) == IdsOf(tasks[..i]) + {tasks[i]} && tasks[i] !in tasks[..i]
    {
      assert tasks[..i + 1] == tasks[..i] + [tasks[i]];
    }

    lemma TaskIsDone(start: Book, before: Book, after: Book, tasks: seq<int>, i: nat)
      requires i < |tasks| && forall j, k :: 0 <= j < k < |tasks| ==> tasks[j] != tasks[k]
      requires Sound(start) && Sound(before) && Onward(start, before, IdsOf(tasks[..i]))
      requires forall id :: id in tasks ==> IsPending(start, id) && id in start.enqueued
      requires Onward(before, after, {tasks[i]}) && Stepped(before, after, tasks[i])
      requires forall id :: id in tasks[..i] ==> Stepped(start, before, id)
      ensures Onward(start, after, IdsOf(tasks[..i + 1]))
      ensures forall id :: id in tasks[..i + 1] ==> Stepped(start, after, id)
      ensures (forall id :: id in tasks[..i] ==> Served(start, before, id)) && Served(before, after, tasks[i]) ==>
                forall id :: id in tasks[..i + 1] ==> Served(start, after, id)
    {
      var id := tasks[i];
      OneMoreTask(start, before, tasks, i);
      OnwardTwice(start, before, after, IdsOf(tasks[..i]), {id});
      SteppedSince(start, before, after, id);
      assert forall x :: x in tasks[..i] ==> x in tasks && x in before.enqueued;
      AllSteppedStay(start, before, after, tasks[..i], id);
      assert tasks[..i + 1] == tasks[..i] + [id];
    }

    /** One round.  Rows and entries that were not listed are left alone; a listed pending row
        ends deleted, with one more failure, or as it was; entries vanish only for rows that
        are no longer pending, and final rows stay. */
    method ProcessDue() returns (listed: seq<int>)
      requires Valid()
      modifies this
      ensures Valid() && Onward(old(Here()), Here(), IdsOf(listed))
      ensures forall id :: id in listed ==> old(Due(id))
      ensures reliable && |listed| < SCAN_LIMIT ==> forall id :: old(Due(id)) ==> id in listed
      ensures forall id :: id in old(enqueued) && id !in zset ==> !IsPending(Here(), id)
      ensures forall id :: id in listed ==> Dealt(old(Here()), Here(), id)
      ensures reliable ==> forall id :: id in listed ==> WellDealt(old(Here()), Here(), id)
    {
      listed := [];
      var answered := Succeeds();
      if !answered {
        return;
      }
      listed := ListDue();
      assert forall id :: id in listed ==> id in enqueued;
      ReadAndWorkOff(listed);
    }

    /** The rest of a round, once the due entries are listed. */
    method ReadAndWorkOff(listed: seq<int>)
      requires Valid() && forall id :: id in listed ==> id in enqueued
      requires forall i, j :: 0 <= i < j < |listed| ==> listed[i] != listed[j]
      modifies this
      ensures Valid() && Onward(old(Here()), Here(), IdsOf(listed))
      ensures forall id :: id in listed ==> Dealt(old(Here()), Here(), id)
      ensures reliable ==> forall id :: id in listed ==> WellDealt(old(Here()), Here(), id)
    {
      ghost var start := Here();
      Producers();
      ghost var waited := Here();
      OnwardWider(start, waited, {}, IdsOf(listed));
      forall id | id in listed ensures SameRow(start, waited, id) && Dealt(start, waited, id) {
        assert SameEntry(start, waited, id);
      }
      var readable := Succeeds();
      if !readable {
        return;
      }
      var tasks := PendingOf(listed);
      WorkOff(listed, tasks);
      IdsWithin(listed, start.enqueued);
      OnwardTwice(start, waited, Here(), {}, IdsOf(listed));
      assert {} + IdsOf(listed) == IdsOf(listed);
      forall id | id in listed ensures Dealt(start, Here(), id) && (reliable ==> WellDealt(start, Here(), id)) {
        DealtSince(start, waited, Here(), id);
      }
    }

    /** The part of a round that writes. */
    method WorkOff(listed: seq<int>, tasks: seq<int>)
      requires Valid() && forall id :: id in listed ==> id in enqueued
      requires forall id :: id in tasks <==> id in listed && IsPending(Here(), id)
      requires forall i, j :: 0 <= i < j < |tasks| ==> tasks[i] != tasks[j]
      modifies this
      ensures Valid() && Onward(old(Here()), Here(), IdsOf(listed))
      ensures forall id :: id in listed ==> Dealt(old(Here()), Here(), id)
      ensures reliable ==> forall id :: id in listed ==> WellDealt(old(Here()), Here(), id)
    {
      ghost var start := Here();
      ghost var all, residue := IdsOf(listed), IdsOf(listed) - IdsOf(tasks);
      IdsWithin(tasks, all);
      IdsWithin(listed, start.enqueued);
      Producers();
      ghost var waited := Here();
      assert forall id :: id in listed ==> SameRow(start, waited, id);
      CleanUp(listed, tasks);
      ghost var cleaned := Here();
      OnwardTwice(start, waited, cleaned, {}, residue);
      forall id | id in listed ensures SameRow(start, cleaned, id) {
        assert SameRow(start, waited, id) && SameRow(waited, cleaned, id);
      }
      RunAll(tasks);
      OnwardTwice(start, cleaned, Here(), {} + residue, IdsOf(tasks));
      assert {} + residue + IdsOf(tasks) == all;
      forall id | id in listed ensures Dealt(start, Here(), id) && (reliable ==> WellDealt(start, Here(), id)) {
        if id in tasks {
          SteppedSince(start, cleaned, Here(), id);
        } else {
          assert SameRow(cleaned, Here(), id) && SameEntry(cleaned, Here(), id);
        }
      }
    }
  }

  // ---- The life of one row ----------------------------------------------------------------

  /** A fresh row after n recorded failures, at the given times. */
  function Failures(kind: Kind, times: seq<int>): Row
  {
    if times == [] then Row(kind, 0, Pending, 0)
    else AfterFailure(Failures(kind, times[..|times| - 1]), times[|times| - 1])
  }

  /** A task that only ever fails is given up at its fifth failure, after waits of
      1, 2, 4 and 8 seconds. */
  lemma {:induction false} FifthFailureIsFinal(kind: Kind, times: seq<int>)
    requires |times| <= MAX_RETRY
    ensures var row := Failures(kind, times);
            && row.retries == |times| && row.kind == kind
            && (row.status == Failed <==> |times| == MAX_RETRY)
            && (1 <= |times| < MAX_RETRY ==>
                  row.nextRetryAt - times[|times| - 1] == [1, 2, 4, 8][|times| - 1] * SECOND)
  {
    if times != [] {
      FifthFailureIsFinal(kind, times[..|times| - 1]);
      assert B.Pow2(0) == 1 && B.Pow2(1) == 2 && B.Pow2(2) == 4 && B.Pow2(3) == 8;
    }
  }
}
