/**
 The notification table and its consumer: rows are unique per (user, category,
 ref), so repeated deliveries leave one row, and reading twice is reading once.
 */
module Notifications {
  import opened Model

  datatype Row = Row(n: Notice, isRead: bool)

  datatype Outcome = Stored | Duplicate | DbDown

  datatype ReadReply = Fine | NotExist | NotOwner

  /** A message without recipient or reference can never be stored. */
  predicate WellFormed(n: Notice) { n.user > 0 && n.ref > 0 }

  class Table {
    var rows: map<int, Row>

    ghost predicate Valid()
      reads this
    {
      forall i, j :: i in rows && j in rows && rows[i].n == rows[j].n ==> i == j
    }

    ghost function Texts(): set<Notice>
      reads this
    {
      set i | i in rows :: rows[i].n
    }

    constructor ()
      ensures Valid() && rows == map[]
    {
      rows := map[];
    }

    /** Insert under the unique key: `done` says whether the statement took effect, `seen`
        whether the caller learned of it. */
    method Create(id: int, n: Notice, done: bool, seen: bool) returns (r: Outcome)
      requires Valid() && id !in rows && (seen ==> done)
      modifies this
      ensures Valid()
      ensures r == if !seen then DbDown else if n in old(Texts()) then Duplicate else Stored
      ensures rows == if done && n !in old(Texts()) then old(rows)[id := Row(n, false)] else old(rows)
    {
      var missing := !exists i :: i in rows && rows[i].n == n;
      if done && missing {
        rows := rows[id := Row(n, false)];
      }
      return if !seen then DbDown else if missing then Stored else Duplicate;
    }

    /** UPDATE ... WHERE id AND user AND NOT is_read. */
    method MarkRead(id: int, user: int) returns (hit: bool)
      requires Valid()
      modifies this
      ensures Valid()
      ensures hit <==> id in old(rows) && old(rows)[id].n.user == user && !old(rows)[id].isRead
      ensures rows == if hit then old(rows)[id := old(rows)[id].(isRead := true)] else old(rows)
    {
      hit := id in rows && rows[id].n.user == user && !rows[id].isRead;
      if hit {
        rows := rows[id := rows[id].(isRead := true)];
      }
    }

    /** The request: an update that hits nothing counts as success. */
    method MarkNotificationRead(user: int, id: int) returns (r: ReadReply)
      requires Valid()
      modifies this
      ensures Valid()
      ensures r == if id !in old(rows) then NotExist else if old(rows)[id].n.user != user then NotOwner else Fine
      ensures rows == if r == Fine then old(rows)[id := old(rows)[id].(isRead := true)] else old(rows)
    {
      if id !in rows {
        return NotExist;
      }
      if rows[id].n.user != user {
        return NotOwner;
      }
      var hit := MarkRead(id, user);
      return Fine;
    }

    /** The consumer's handler: acknowledged unless a well-formed message went unanswered. */
    method Handle(id: int, n: Notice, done: bool, seen: bool) returns (ack: bool)
      requires Valid() && id !in rows && (seen ==> done)
      modifies this
      ensures Valid() && (ack <==> seen || !WellFormed(n))
      ensures Texts() == old(Texts()) + (if done && WellFormed(n) then {n} else {})
      ensures rows.Keys <= old(rows.Keys) + {id} && forall i :: i in old(rows) ==> i in rows && rows[i] == old(rows)[i]
    {
      if !WellFormed(n) {
        return true;
      }
      ghost var before := rows;
      var r := Create(id, n, done, seen);
      assert id in rows ==> rows[id].n == n;
      assert forall i :: i in before ==> rows[i] == before[i];
      return r != DbDown;
    }
  }

  datatype Delivery = Delivery(n: Notice, done: bool, seen: bool)

  /** The notices that some delivery got stored, heard or not. */
  function StoredBy(ds: seq<Delivery>): set<Notice>
  {
    set d | d in ds && d.done && WellFormed(d.n) :: d.n
  }

  /** Any deliveries, repeated, failing and unanswered as they please: the table gains exactly
      the well-formed notices some insert of which took effect, one row each. */
  method ConsumeAll(t: Table, ds: seq<Delivery>, firstId: int) returns (acks: seq<bool>)
    requires t.Valid() && forall i :: i in t.rows ==> i < firstId
    requires forall d :: d in ds ==> (d.seen ==> d.done)
    modifies t
    ensures t.Valid() && t.Texts() == old(t.Texts()) + StoredBy(ds)
    ensures |acks| == |ds| && forall i :: 0 <= i < |ds| ==> acks[i] == (ds[i].seen || !WellFormed(ds[i].n))
    ensures forall i :: i in old(t.rows) ==> i in t.rows && t.rows[i] == old(t.rows)[i]
  {
    acks := [];
    for i := 0 to |ds|
      invariant t.Valid() && t.Texts() == old(t.Texts()) + StoredBy(ds[..i])
      invariant forall x :: x in t.rows ==> x < firstId + i
      invariant |acks| == i && forall j :: 0 <= j < i ==> acks[j] == (ds[j].seen || !WellFormed(ds[j].n))
      invariant forall x :: x in old(t.rows) ==> x in t.rows && t.rows[x] == old(t.rows)[x]
    {
      assert ds[i] in ds;
      var ack := t.Handle(firstId + i, ds[i].n, ds[i].done, ds[i].seen);
      acks := acks + [ack];
      StoredByOneMore(ds, i);
    }
    assert ds[..|ds|] == ds;
  }

  lemma StoredByOneMore(ds: seq<Delivery>, i: nat)
    requires i < |ds|
    ensures StoredBy(ds[..i + 1]) == StoredBy(ds[..i]) + (if ds[i].done && WellFormed(ds[i].n) then {ds[i].n} else {})
  {
    assert ds[..i + 1] == ds[..i] + [ds[i]];
    assert ds[i] in ds[..i + 1];
  }
}
