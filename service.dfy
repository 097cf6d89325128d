/** The ticket service: the one place that resolves identifiers, checks ownership and
    then mutates, saves or deletes. */
module Service {
  import opened Wrappers
  import opened Status
  import opened Priority
  import opened Exceptions
  import opened Entity
  import opened Repository
  import UpdateDto
  import CreateDto

  const AccessDeniedMessage: string := "You do not have access to this ticket"

  /** What `updateTicket` leaves on the entity, and how it ends, when it starts from
      `d` at time `now`. The fields are applied in the source's order (title,
      description, status, priority); the first failure stops the sequence and what
      was applied before it stays applied. An update never changes the ticket's
      identity, either leaves it untouched or stamps it `now`, and can only fail on a
      request value, never on lookup or ownership. */
  function UpdateOutcome(d: TicketData, dto: UpdateDto.UpdateTicketDTO, now: int): (r: (TicketData, Outcome<ServiceError>))
    ensures SameIdentity(d, r.0)
    ensures r.0 == d || r.0.updatedAt == now
    ensures r.1.Fail? ==> r.1.error.InvalidValue? || r.1.error.InvalidTransition?
  {
    var d1 := if dto.title.Some? then ApplyChange(d, ChangeTitle(dto.title.value), now).value else d;
    var d2 := if dto.description.Some? then ApplyChange(d1, ChangeDescription(dto.description.value), now).value else d1;
    if dto.status.Some? then
      match dto.GetStatusEnum()
      case Failure(e) => (d2, Fail(InvalidValue(e)))
      case Success(s) =>
        match ApplyChange(d2, ChangeStatus(s.value), now)
        case Failure(e) => (d2, Fail(InvalidTransition(e)))
        case Success(d3) => PriorityOutcome(d3, dto, now)
    else PriorityOutcome(d2, dto, now)
  }

  /** The last step of `updateTicket`: the priority, if one was given. */
  function PriorityOutcome(d: TicketData, dto: UpdateDto.UpdateTicketDTO, now: int): (TicketData, Outcome<ServiceError>)
  {
    if dto.priority.Some? then
      match dto.GetPriorityEnum()
      case Failure(e) => (d, Fail(InvalidValue(e)))
      case Success(p) => (ApplyChange(d, ChangePriority(p.value), now).value, Pass)
    else (d, Pass)
  }

  /** A requested status is acceptable when it names a case that the current status
      may move to, or the current status itself. */
  predicate StatusAcceptable(current: TicketStatus, requested: Option<string>) {
    requested.None? ||
    (Status.From(requested.value).Success? &&
     var s := Status.From(requested.value).value; s == current || CanTransitionTo(current, s))
  }

  predicate PriorityAcceptable(requested: Option<string>) {
    requested.None? || Priority.From(requested.value).Success?
  }

  // ---- properties of an update ----

  /** An update succeeds exactly when its status and priority strings are acceptable. */
  lemma UpdateSucceedsIff(d: TicketData, dto: UpdateDto.UpdateTicketDTO, now: int)
    ensures UpdateOutcome(d, dto, now).1.Pass? <==>
      StatusAcceptable(d.status, dto.status) && PriorityAcceptable(dto.priority)
  {
  }

  /** A successful update leaves each given field at the requested value and every
      other field as it was. */
  lemma UpdateAppliesGivenFields(d: TicketData, dto: UpdateDto.UpdateTicketDTO, now: int)
    requires UpdateOutcome(d, dto, now).1.Pass?
    ensures var e := UpdateOutcome(d, dto, now).0;
      && SameIdentity(d, e)
      && e.title == dto.title.GetOr(d.title)
      && e.description == dto.description.GetOr(d.description)
      && (dto.status.None? ==> e.status == d.status)
      && (dto.status.Some? ==> Status.Value(e.status) == dto.status.value)
      && (dto.priority.None? ==> e.priority == d.priority)
      && (dto.priority.Some? ==> Priority.Value(e.priority) == dto.priority.value)
  {
  }

  /** A rejected transition: title and description are already applied, status and
      priority are not, and the error carries the current and the requested status. */
  lemma RejectedTransitionKeepsEarlierFields(d: TicketData, dto: UpdateDto.UpdateTicketDTO, now: int, s: TicketStatus)
    requires dto.status == Some(Status.Value(s))
    requires s != d.status && !CanTransitionTo(d.status, s)
    ensures var (e, outcome) := UpdateOutcome(d, dto, now);
      && outcome == Fail(InvalidTransition(InvalidTicketStatusTransition(d.status, s)))
      && SameIdentity(d, e)
      && e.title == dto.title.GetOr(d.title)
      && e.description == dto.description.GetOr(d.description)
      && e.status == d.status
      && e.priority == d.priority
  {
    Status.FromValue(s);
  }

  /** An unknown status string fails with a ValueError after title and description
      were applied; status and priority are untouched. */
  lemma UnknownStatusKeepsEarlierFields(d: TicketData, dto: UpdateDto.UpdateTicketDTO, now: int)
    requires dto.status.Some? && dto.status.value !in Status.Values()
    ensures var (e, outcome) := UpdateOutcome(d, dto, now);
      && outcome == Fail(InvalidValue(ValueErrors.ValueError("TicketStatus", dto.status.value)))
      && e == d.(title := dto.title.GetOr(d.title),
                 description := dto.description.GetOr(d.description),
                 updatedAt := if dto.title.Some? || dto.description.Some? then now else d.updatedAt)
  {
  }

  /** An unknown priority string fails with a ValueError after everything else was
      applied; the priority is untouched. */
  lemma UnknownPriorityKeepsPriority(d: TicketData, dto: UpdateDto.UpdateTicketDTO, now: int)
    requires StatusAcceptable(d.status, dto.status)
    requires dto.priority.Some? && dto.priority.value !in Priority.Values()
    ensures var (e, outcome) := UpdateOutcome(d, dto, now);
      && outcome == Fail(InvalidValue(ValueErrors.ValueError("TicketPriority", dto.priority.value)))
      && e.title == dto.title.GetOr(d.title)
      && e.description == dto.description.GetOr(d.description)
      && (dto.status.None? ==> e.status == d.status)
      && (dto.status.Some? ==> Status.Value(e.status) == dto.status.value)
      && e.priority == d.priority
  {
  }

  /** With a clock that has not run backwards, an update keeps updatedAt at or after
      both its previous value and createdAt. */
  lemma UpdateKeepsTimestampsOrdered(d: TicketData, dto: UpdateDto.UpdateTicketDTO, now: int)
    requires d.createdAt <= d.updatedAt <= now
    ensures var e := UpdateOutcome(d, dto, now).0;
      SameIdentity(d, e) && d.updatedAt <= e.updatedAt && e.createdAt <= e.updatedAt
  {
  }

  /** A request without changes succeeds and leaves the ticket exactly as it was. */
  lemma EmptyUpdateChangesNothing(d: TicketData, dto: UpdateDto.UpdateTicketDTO, now: int)
    requires !dto.HasChanges()
    ensures UpdateOutcome(d, dto, now) == (d, Pass)
  {
  }

  class TicketService {
    const repo: TicketRepository
    /** `Uuid::fromString`: a partial parser, supplied from outside. */
    const parse: string -> Option<Uuid>

    constructor (repo: TicketRepository, parse: string -> Option<Uuid>)
      ensures this.repo == repo && this.parse == parse
    {
      this.repo := repo;
      this.parse := parse;
    }

    /** No stored ticket was last touched later than `now`: the clock has not run
        backwards. */
    ghost predicate ClockNotBehind(now: int)
      reads repo, repo.tickets.Values
    {
      forall t | t in repo.tickets.Values :: t.updatedAt <= now
    }

    /** `findTicketOrFail`: an identifier that does not parse, or that names no stored
        ticket, is "not found" quoting the identifier as given. */
    function FindTicketOrFail(id: string): (r: Result<Ticket, ServiceError>)
      reads repo
      ensures r.Success? <==> parse(id).Some? && parse(id).value in repo.tickets
      ensures r.Success? ==> r.value == repo.tickets[parse(id).value]
      ensures r.Failure? ==> r.error == TicketNotFound(id)
    {
      match parse(id)
      case None => Failure(TicketNotFound(id))
      case Some(uuid) =>
        match repo.FindById(uuid)
        case None => Failure(TicketNotFound(id))
        case Some(t) => Success(t)
    }

    /** `ensureUserOwnsTicket`. */
    function EnsureUserOwnsTicket(t: Ticket, user: User): (r: Outcome<ServiceError>)
      ensures r.Pass? <==> t.owner.id == user.id
      ensures r.Fail? ==> r.error == AccessDenied(AccessDeniedMessage)
    {
      if !t.BelongsTo(user) then Fail(AccessDenied(AccessDeniedMessage)) else Pass
    }

    /** `getTicket`: lookup first, ownership second, so a stored ticket of another user
        is "access denied", never "not found". */
    function GetTicket(id: string, user: User): (r: Result<Ticket, ServiceError>)
      reads repo
      ensures parse(id).None? ==> r == Failure(TicketNotFound(id))
      ensures parse(id).Some? && parse(id).value !in repo.tickets ==> r == Failure(TicketNotFound(id))
      ensures parse(id).Some? && parse(id).value in repo.tickets ==>
        var t := repo.tickets[parse(id).value];
        r == if t.owner.id == user.id then Success(t) else Failure(AccessDenied(AccessDeniedMessage))
    {
      match FindTicketOrFail(id)
      case Failure(e) => Failure(e)
      case Success(t) =>
        match EnsureUserOwnsTicket(t, user)
        case Fail(e) => Failure(e)
        case Pass => Success(t)
    }

    /** The only ticket an update by `user` of `id` may touch. */
    function UpdateTarget(id: string, user: User): set<Ticket>
      reads repo
    {
      match GetTicket(id, user)
      case Success(t) => {t}
      case Failure(_) => {}
    }

    /** `createTicket`: a priority string that is not a case fails before anything
        happens; otherwise a new open ticket owned by `user` is saved once. `freshId`
        stands for `Uuid::v7()`, so it names no stored ticket, and the store grows by
        exactly the new ticket. */
    method CreateTicket(dto: CreateDto.CreateTicketDTO, user: User, freshId: Uuid, now: int)
      returns (r: Result<Ticket, ServiceError>)
      requires repo.Valid()
      requires freshId !in repo.tickets
      modifies repo, user
      ensures repo.Valid()
      ensures dto.GetPriorityEnum().Failure? ==>
        r == Failure(InvalidValue(dto.GetPriorityEnum().error)) && unchanged(repo, user)
      ensures dto.GetPriorityEnum().Success? ==>
        && r.Success? && fresh(r.value) && r.value.owner == user
        && r.value.Data() == TicketData(freshId, dto.title, dto.description, Open, dto.GetPriorityEnum().value, user.id, now, now)
        && repo.tickets == old(repo.tickets)[freshId := r.value]
        && |repo.tickets| == |old(repo.tickets)| + 1
        && (forall id | id in old(repo.tickets) :: repo.tickets[id] == old(repo.tickets)[id])
        && repo.rows == old(repo.rows)[freshId := r.value.Data()]
        && repo.flushes == old(repo.flushes) + 1
        && user.tickets == old(user.tickets) + [r.value]
    {
      var p := dto.GetPriorityEnum();
      if p.Failure? {
        return Failure(InvalidValue(p.error));
      }
      var ticket := new Ticket(freshId, now, dto.title, dto.description, user, p.value);
      repo.Save(ticket);
      r := Success(ticket);
    }

    /** `getTicketsByUser`: the user's tickets, each once, newest first. */
    method GetTicketsByUser(user: User) returns (r: seq<Ticket>)
      requires repo.Valid()
      ensures forall t :: t in r <==> t in repo.tickets.Values && t.owner.id == user.id
      ensures NoDuplicates(r) && NewestFirst(r)
    {
      r := repo.FindByUser(user);
    }

    /** The field updates of `updateTicket`, in the source's order, on one ticket:
        the first failure returns at once and leaves the earlier updates in place. */
    static method ApplyUpdate(ticket: Ticket, dto: UpdateDto.UpdateTicketDTO, now: int)
      returns (outcome: Outcome<ServiceError>)
      requires ticket.Valid() && ticket.updatedAt <= now
      modifies ticket
      ensures ticket.Valid()
      ensures (ticket.Data(), outcome) == UpdateOutcome(old(ticket.Data()), dto, now)
    {
      if dto.title.Some? {
        ticket.SetTitle(dto.title.value, now);
      }
      if dto.description.Some? {
        ticket.SetDescription(dto.description.value, now);
      }
      if dto.status.Some? {
        var s := dto.GetStatusEnum();
        if s.Failure? {
          return Fail(InvalidValue(s.error));
        }
        var moved := ticket.SetStatus(s.value.value, now);
        if moved.Fail? {
          return Fail(InvalidTransition(moved.error));
        }
      }
      outcome := ApplyPriority(ticket, dto, now);
    }

    static method ApplyPriority(ticket: Ticket, dto: UpdateDto.UpdateTicketDTO, now: int)
      returns (outcome: Outcome<ServiceError>)
      requires ticket.Valid() && ticket.updatedAt <= now
      modifies ticket
      ensures ticket.Valid()
      ensures (ticket.Data(), outcome) == PriorityOutcome(old(ticket.Data()), dto, now)
    {
      outcome := Pass;
      if dto.priority.Some? {
        var p := dto.GetPriorityEnum();
        if p.Failure? {
          return Fail(InvalidValue(p.error));
        }
        ticket.SetPriority(p.value.value, now);
      }
    }

    /** `updateTicket`: resolve and authorize, then apply the given fields in order.
        On success the ticket is saved once; on a failure part-way the fields applied
        so far stay on the in-memory entity and nothing is saved. */
    method UpdateTicket(id: string, dto: UpdateDto.UpdateTicketDTO, user: User, now: int)
      returns (r: Result<Ticket, ServiceError>)
      requires repo.Valid() && ClockNotBehind(now)
      modifies repo, UpdateTarget(id, user)
      ensures repo.Valid()
      ensures old(GetTicket(id, user)).Failure? ==>
        r == Failure(old(GetTicket(id, user)).error) && unchanged(repo)
      ensures old(GetTicket(id, user)).Success? ==>
        var t := old(GetTicket(id, user)).value;
        var (e, outcome) := UpdateOutcome(old(t.Data()), dto, now);
        && t.Data() == e
        && repo.tickets == old(repo.tickets)
        && (outcome.Fail? ==> r == Failure(outcome.error) && unchanged(repo))
        && (outcome.Pass? ==>
              (r == Success(t) && repo.rows == old(repo.rows)[t.id := e] && repo.flushes == old(repo.flushes) + 1))
    {
      var found := GetTicket(id, user);
      if found.Failure? {
        return Failure(found.error);
      }
      var ticket := found.value;
      assert ticket in repo.tickets.Values;
      var outcome := ApplyUpdate(ticket, dto, now);
      if outcome.Fail? {
        return Failure(outcome.error);
      }
      repo.Save(ticket);
      r := Success(ticket);
    }

    /** `deleteTicket`: the ticket is removed only after lookup and ownership pass;
        otherwise the store is untouched. */
    method DeleteTicket(id: string, user: User) returns (r: Outcome<ServiceError>)
      requires repo.Valid()
      modifies repo
      ensures repo.Valid()
      ensures old(GetTicket(id, user)).Failure? ==>
        r == Fail(old(GetTicket(id, user)).error) && unchanged(repo)
      ensures old(GetTicket(id, user)).Success? ==>
        && r == Pass
        && repo.tickets == old(repo.tickets) - {parse(id).value}
        && repo.rows == old(repo.rows) - {parse(id).value}
        && repo.flushes == old(repo.flushes) + 1
    {
      var found := GetTicket(id, user);
      if found.Failure? {
        return Fail(found.error);
      }
      repo.Delete(found.value);
      r := Pass;
    }
  }

  /** What `getTicket` hands out is the stored ticket named by the parsed identifier,
      and it belongs to the requester. */
  lemma GetTicketReturnsOwnedTicket(service: TicketService, id: string, user: User)
    requires service.repo.Valid()
    requires service.GetTicket(id, user).Success?
    ensures var t := service.GetTicket(id, user).value;
      && service.parse(id).Some?
      && t.id == service.parse(id).value
      && t in service.repo.tickets.Values
      && t.BelongsTo(user)
  {
  }
}
