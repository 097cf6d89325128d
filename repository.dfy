/** An in-memory ticket repository that keeps the repository interface's contract.
    `tickets` is the identity map of managed entities (what `findById` hands out);
    `rows` is the last saved state of each ticket; `flushes` counts the writes. */
module Repository {
  import opened Wrappers
  import opened Entity

  /** Newest first: createdAt never increases along the sequence. */
  ghost predicate NewestFirst(s: seq<Ticket>) {
    forall i, j :: 0 <= i < j < |s| ==> s[i].createdAt >= s[j].createdAt
  }

  ghost predicate NoDuplicates(s: seq<Ticket>) {
    forall i, j :: 0 <= i < j < |s| ==> s[i] != s[j]
  }

  /** Put `t` into a newest-first list, after every ticket at least as new. */
  function InsertNewestFirst(s: seq<Ticket>, t: Ticket): (r: seq<Ticket>)
    ensures |r| == |s| + 1
    ensures t in r && (forall x | x in s :: x in r) && (forall x | x in r :: x in s || x == t)
  {
    if s == [] then [t]
    else if t.createdAt > s[0].createdAt then [t] + s
    else [s[0]] + InsertNewestFirst(s[1..], t)
  }

  /** In a newest-first list the head is at least as new as every element. */
  lemma HeadIsNewest(s: seq<Ticket>)
    requires s != [] && NewestFirst(s)
    ensures forall x | x in s :: x.createdAt <= s[0].createdAt
  {
    forall x | x in s
      ensures x.createdAt <= s[0].createdAt
    {
      var k :| 0 <= k < |s| && s[k] == x;
    }
  }

  /** A newest-first tail behind a head at least as new as all of it. */
  lemma ConsKeepsNewestFirst(h: Ticket, rest: seq<Ticket>)
    requires NewestFirst(rest)
    requires forall x | x in rest :: x.createdAt <= h.createdAt
    ensures NewestFirst([h] + rest)
  {
    var r := [h] + rest;
    forall i, j | 0 <= i < j < |r|
      ensures r[i].createdAt >= r[j].createdAt
    {
      assert r[j] == rest[j - 1];
      if i == 0 {
        assert r[j] in rest;
      } else {
        assert r[i] == rest[i - 1];
      }
    }
  }

  lemma {:induction false} InsertKeepsNewestFirst(s: seq<Ticket>, t: Ticket)
    requires NewestFirst(s)
    ensures NewestFirst(InsertNewestFirst(s, t))
  {
    if s != [] && t.createdAt <= s[0].createdAt {
      var rest := InsertNewestFirst(s[1..], t);
      assert NewestFirst(s[1..]);
      InsertKeepsNewestFirst(s[1..], t);
      HeadIsNewest(s);
      assert forall x | x in s[1..] :: x in s;
      ConsKeepsNewestFirst(s[0], rest);
    }
  }

  lemma {:induction false} InsertKeepsNoDuplicates(s: seq<Ticket>, t: Ticket)
    requires NoDuplicates(s) && t !in s
    ensures NoDuplicates(InsertNewestFirst(s, t))
  {
    if s != [] && t.createdAt <= s[0].createdAt {
      var rest := InsertNewestFirst(s[1..], t);
      InsertKeepsNoDuplicates(s[1..], t);
      assert s[0] !in s[1..];
      var r := [s[0]] + rest;
      forall i, j | 0 <= i < j < |r|
        ensures r[i] != r[j]
      {
        if i == 0 {
          assert r[j] == rest[j - 1];
          assert r[j] in rest;
        } else {
          assert r[i] == rest[i - 1] && r[j] == rest[j - 1];
        }
      }
    }
  }

  class TicketRepository {
    var tickets: map<Uuid, Ticket>
    var rows: map<Uuid, TicketData>
    var flushes: nat

    ghost predicate Valid()
      reads this, tickets.Values
    {
      && tickets.Keys == rows.Keys
      && (forall id | id in tickets :: tickets[id].id == id && tickets[id].Valid())
      && (forall id | id in rows :: rows[id].id == id)
    }

    constructor ()
      ensures Valid()
      ensures tickets == map[] && rows == map[] && flushes == 0
    {
      tickets, rows, flushes := map[], map[], 0;
    }

    /** `findById`: the managed ticket with that identifier, if any. */
    function FindById(id: Uuid): (r: Option<Ticket>)
      reads this
      ensures r.Some? <==> id in tickets
      ensures r.Some? ==> r.value == tickets[id]
    {
      if id in tickets then Some(tickets[id]) else None
    }

    /** `findByUser`: exactly the user's tickets, each once, newest first. */
    method FindByUser(user: User) returns (r: seq<Ticket>)
      requires Valid()
      ensures forall t :: t in r <==> t in tickets.Values && t.owner.id == user.id
      ensures NoDuplicates(r)
      ensures NewestFirst(r)
    {
      r := [];
      var remaining := tickets.Keys;
      while remaining != {}
        invariant remaining <= tickets.Keys
        invariant forall t :: t in r <==>
          t.id in tickets && t.id !in remaining && tickets[t.id] == t && t.owner.id == user.id
        invariant NoDuplicates(r)
        invariant NewestFirst(r)
        decreases remaining
      {
        var k :| k in remaining;
        var t := tickets[k];
        if t.owner.id == user.id {
          InsertKeepsNewestFirst(r, t);
          InsertKeepsNoDuplicates(r, t);
          r := InsertNewestFirst(r, t);
        }
        remaining := remaining - {k};
      }
      forall t | t in tickets.Values
        ensures t.id in tickets && tickets[t.id] == t
      {
        var k :| k in tickets && tickets[k] == t;
      }
    }

    /** `save`: upsert the ticket and persist its current state. */
    method Save(t: Ticket)
      requires Valid() && t.Valid()
      modifies this
      ensures Valid()
      ensures tickets == old(tickets)[t.id := t]
      ensures rows == old(rows)[t.id := t.Data()]
      ensures flushes == old(flushes) + 1
    {
      tickets := tickets[t.id := t];
      rows := rows[t.id := t.Data()];
      flushes := flushes + 1;
    }

    /** `delete`: remove the ticket for good. */
    method Delete(t: Ticket)
      requires Valid()
      modifies this
      ensures Valid()
      ensures tickets == old(tickets) - {t.id}
      ensures rows == old(rows) - {t.id}
      ensures flushes == old(flushes) + 1
    {
      tickets := tickets - {t.id};
      rows := rows - {t.id};
      flushes := flushes + 1;
    }
  }
}
