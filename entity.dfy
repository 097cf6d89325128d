/** The Ticket entity and the minimal User it belongs to. */
module Entity {
  import opened Wrappers
  import opened Status
  import opened Priority
  import opened Exceptions

  /** A 128-bit UUID, for tickets and users alike. */
  newtype Uuid = x: int | 0 <= x < 0x1_0000_0000_0000_0000_0000_0000_0000_0000

  /** A user, reduced to its identifier and the back-reference list of tickets that
      were created for it. */
  class User {
    const id: Uuid
    var tickets: seq<Ticket>

    constructor (id: Uuid)
      ensures this.id == id && tickets == []
    {
      this.id := id;
      tickets := [];
    }

    method AddTicket(t: Ticket)
      modifies this
      ensures tickets == old(tickets) + [t]
    {
      tickets := tickets + [t];
    }
  }

  /** Everything a ticket holds, as a value: what the repository persists. */
  datatype TicketData = TicketData(
    id: Uuid,
    title: string,
    description: string,
    status: TicketStatus,
    priority: TicketPriority,
    ownerId: Uuid,
    createdAt: int,
    updatedAt: int)

  /** Two snapshots of the same ticket agree on what no method may change. */
  predicate SameIdentity(d: TicketData, e: TicketData) {
    d.id == e.id && d.ownerId == e.ownerId && d.createdAt == e.createdAt
  }

  /** One setter call on a ticket. */
  datatype TicketChange =
    | ChangeTitle(title: string)
    | ChangeDescription(description: string)
    | ChangeStatus(status: TicketStatus)
    | ChangePriority(priority: TicketPriority)

  /** What one setter call at time `now` does to a ticket's data: the new data, or the
      transition error `setStatus` throws. */
  function ApplyChange(d: TicketData, c: TicketChange, now: int): (r: Result<TicketData, InvalidTicketStatusTransition>)
    ensures r.Failure? <==> c.ChangeStatus? && c.status != d.status && !CanTransitionTo(d.status, c.status)
    ensures r.Failure? ==> r.error == InvalidTicketStatusTransition(d.status, c.status)
    ensures r.Success? ==> SameIdentity(d, r.value) && (r.value == d || r.value.updatedAt == now)
    ensures r.Success? && c.ChangeStatus? ==> r.value.status == c.status
  {
    match c
    case ChangeTitle(t) => Success(d.(title := t, updatedAt := now))
    case ChangeDescription(t) => Success(d.(description := t, updatedAt := now))
    case ChangePriority(p) => Success(d.(priority := p, updatedAt := now))
    case ChangeStatus(s) =>
      if d.status == s then Success(d)
      else if !CanTransitionTo(d.status, s) then Failure(InvalidTicketStatusTransition(d.status, s))
      else Success(d.(status := s, updatedAt := now))
  }

  /** One setter call as the entity lives it: a rejected status change leaves the
      ticket as it was. */
  function Step(d: TicketData, c: TicketChange, now: int): (e: TicketData)
    ensures SameIdentity(d, e)
    ensures e.updatedAt == d.updatedAt || e.updatedAt == now
  {
    match ApplyChange(d, c, now)
    case Success(e) => e
    case Failure(_) => d
  }

  /** A run of setter calls, the i-th at time `clock[i]`. */
  function Replay(d: TicketData, changes: seq<TicketChange>, clock: seq<int>): TicketData
    requires |clock| == |changes|
    decreases |changes|
  {
    if changes == [] then d
    else Replay(Step(d, changes[0], clock[0]), changes[1..], clock[1..])
  }

  /** The clock never runs backwards, starting from `start`. */
  predicate NonDecreasingFrom(start: int, clock: seq<int>) {
    && (|clock| > 0 ==> start <= clock[0])
    && forall i :: 0 < i < |clock| ==> clock[i - 1] <= clock[i]
  }

  /** Whatever the setters do, id, owner and createdAt stay fixed, and with a
      non-decreasing clock updatedAt never moves back nor falls below createdAt. */
  lemma {:induction false} ReplayKeepsTimestampsOrdered(d: TicketData, changes: seq<TicketChange>, clock: seq<int>)
    requires |clock| == |changes|
    requires d.createdAt <= d.updatedAt
    requires NonDecreasingFrom(d.updatedAt, clock)
    ensures SameIdentity(d, Replay(d, changes, clock))
    ensures d.updatedAt <= Replay(d, changes, clock).updatedAt
    ensures Replay(d, changes, clock).createdAt <= Replay(d, changes, clock).updatedAt
    decreases |changes|
  {
    if changes != [] {
      var next := Step(d, changes[0], clock[0]);
      if |clock| > 1 {
        assert clock[0] <= clock[1];
      }
      ReplayKeepsTimestampsOrdered(next, changes[1..], clock[1..]);
    }
  }

  /** `closed` is final: once a ticket is closed, no run of setter calls reopens it. */
  lemma {:induction false} ClosedStaysClosed(d: TicketData, changes: seq<TicketChange>, clock: seq<int>)
    requires |clock| == |changes|
    requires d.status == Closed
    ensures Replay(d, changes, clock).status == Closed
    decreases |changes|
  {
    if changes != [] {
      if changes[0].ChangeStatus? {
        ClosedIsTerminal(changes[0].status);
      }
      ClosedStaysClosed(Step(d, changes[0], clock[0]), changes[1..], clock[1..]);
    }
  }

  /** `open` cannot jump to `resolved`, but gets there through `in_progress`. */
  lemma OpenReachesResolvedThroughInProgress(d: TicketData, t1: int, t2: int)
    requires d.status == Open
    ensures ApplyChange(d, ChangeStatus(Resolved), t1) == Failure(InvalidTicketStatusTransition(Open, Resolved))
    ensures Replay(d, [ChangeStatus(InProgress), ChangeStatus(Resolved)], [t1, t2]).status == Resolved
  {
    var e := Step(d, ChangeStatus(InProgress), t1);
    assert e.status == InProgress;
    assert Replay(d, [ChangeStatus(InProgress), ChangeStatus(Resolved)], [t1, t2])
        == Replay(e, [ChangeStatus(Resolved)], [t2]);
  }

  /** The ticket entity. id, owner and createdAt are `const`: nothing can change them. */
  class Ticket {
    const id: Uuid
    var title: string
    var description: string
    var status: TicketStatus
    var priority: TicketPriority
    const owner: User
    const createdAt: int
    var updatedAt: int

    ghost predicate Valid()
      reads this
    {
      createdAt <= updatedAt
    }

    /** The ticket's whole state as a value. */
    function Data(): TicketData
      reads this
    {
      TicketData(id, title, description, status, priority, owner.id, createdAt, updatedAt)
    }

    /** A new ticket is open, stamped `now` twice, and appended to its owner's list. */
    constructor (id: Uuid, now: int, title: string, description: string, owner: User, priority: TicketPriority := Medium)
      modifies owner
      ensures Valid()
      ensures Data() == TicketData(id, title, description, Open, priority, owner.id, now, now)
      ensures this.owner == owner
      ensures owner.tickets == old(owner.tickets) + [this]
      ensures forall u: User :: BelongsTo(u) <==> u.id == owner.id
    {
      this.id := id;
      this.title := title;
      this.description := description;
      this.owner := owner;
      this.priority := priority;
      this.status := Open;
      this.createdAt := now;
      this.updatedAt := now;
      new;
      owner.AddTicket(this);
    }

    /** `touch()`: refresh updatedAt from the clock. */
    method Touch(now: int)
      requires Valid() && updatedAt <= now
      modifies this
      ensures Valid()
      ensures Data() == old(Data()).(updatedAt := now)
    {
      updatedAt := now;
    }

    method SetTitle(title: string, now: int)
      requires Valid() && updatedAt <= now
      modifies this
      ensures Valid()
      ensures Data() == old(Data()).(title := title, updatedAt := now)
      ensures Success(Data()) == ApplyChange(old(Data()), ChangeTitle(title), now)
    {
      this.title := title;
      Touch(now);
    }

    method SetDescription(description: string, now: int)
      requires Valid() && updatedAt <= now
      modifies this
      ensures Valid()
      ensures Data() == old(Data()).(description := description, updatedAt := now)
      ensures Success(Data()) == ApplyChange(old(Data()), ChangeDescription(description), now)
    {
      this.description := description;
      Touch(now);
    }

    method SetPriority(priority: TicketPriority, now: int)
      requires Valid() && updatedAt <= now
      modifies this
      ensures Valid()
      ensures Data() == old(Data()).(priority := priority, updatedAt := now)
      ensures Success(Data()) == ApplyChange(old(Data()), ChangePriority(priority), now)
    {
      this.priority := priority;
      Touch(now);
    }

    /** `setStatus`: the same status is a silent no-op; a move the table allows
        changes the status and touches the ticket; any other move fails with both
        statuses and changes nothing. */
    method SetStatus(newStatus: TicketStatus, now: int) returns (r: Outcome<InvalidTicketStatusTransition>)
      requires Valid() && updatedAt <= now
      modifies this
      ensures Valid()
      ensures old(status) == newStatus ==> r == Pass && Data() == old(Data())
      ensures old(status) != newStatus && !CanTransitionTo(old(status), newStatus) ==>
        r == Fail(InvalidTicketStatusTransition(old(status), newStatus)) && Data() == old(Data())
      ensures old(status) != newStatus && CanTransitionTo(old(status), newStatus) ==>
        r == Pass && Data() == old(Data()).(status := newStatus, updatedAt := now)
      ensures match ApplyChange(old(Data()), ChangeStatus(newStatus), now)
              case Success(d) => r == Pass && Data() == d
              case Failure(e) => r == Fail(e) && Data() == old(Data())
    {
      if status == newStatus {
        return Pass;
      }
      if !CanTransitionTo(status, newStatus) {
        return Fail(InvalidTicketStatusTransition(status, newStatus));
      }
      status := newStatus;
      Touch(now);
      r := Pass;
    }

    /** `belongsTo`: ownership is decided by the user identifier alone, so the owner
        object passes, and so does any other User object with the same identifier. */
    predicate BelongsTo(u: User): (r: bool)
      ensures u == owner ==> r
      ensures u != owner ==> (r <==> u.id == owner.id)
    {
      owner.id == u.id
    }

    /** `isOpen`: an open ticket can be taken into work. */
    predicate IsOpen(): (r: bool)
      reads this
      ensures r ==> CanTransitionTo(status, InProgress)
    {
      status == Open
    }

    /** `isClosed`: closed is exactly the status from which no move is allowed. */
    predicate IsClosed(): (r: bool)
      reads this
      ensures r <==> forall to :: !CanTransitionTo(status, to)
    {
      EveryLiveStatusCanClose(status);
      status == Closed
    }
  }
}
