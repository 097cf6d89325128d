# Support tickets: the ticket domain, in Dafny

This project models the ticket core of a Symfony support-ticket application. Users own
tickets; each ticket moves through a four-state lifecycle with a fixed transition table
and has one of four weighted priorities. A ticket service resolves ticket identifiers,
checks ownership and then changes, saves or deletes tickets through a repository.

What is modelled, file by file:

- `status.dfy` (`Status`): the `TicketStatus` backed enum: backing strings, `cases()`,
  `values()`, `from` (a `ValueError` for an unknown string), labels and the transition
  table `canTransitionTo`.
- `priority.dfy` (`Priority`): the `TicketPriority` backed enum with weights 1 to 4,
  labels, `from`, and `isHigherThan`, proved to be a strict total order.
- `exceptions.dfy` (`Exceptions`): the transition error with its two statuses and its
  message, and one `ServiceError` datatype that stands for the service's exceptions
  (not found, access denied, invalid transition, and PHP's `ValueError`).
- `entity.dfy` (`Entity`): the `Ticket` entity as a class whose setters update fields in
  place and refresh `updatedAt`, and a minimal `User` (an identifier and its list of
  tickets). `TicketData` is a ticket's state as a value. `ApplyChange` gives what one
  setter call does to that state, and `Replay` gives a whole run of setter calls.
- `repository.dfy` (`Repository`): an in-memory store that keeps the repository
  interface's contract. It holds a map from identifier to managed `Ticket` object.
  This is what `findById` hands out, as Doctrine's identity map does. It also holds a
  map from identifier to the last saved `TicketData`, and a count of writes.
- `update_dto.dfy`, `create_dto.dfy` (`UpdateDto`, `CreateDto`): the two request objects
  built from a request array, with their defaults and enum conversions.
- `service.dfy` (`Service`): `TicketService`, with lookup and ownership as functions of
  the store. Create, update and delete are methods. `UpdateOutcome` is the
  specification of an update: the fields are applied in the source's order, and a
  failure part-way leaves earlier fields applied.

Time, identifiers and the UUID parser are abstract:

- The clock is an integer `now` passed to each call that stamps a ticket. A
  non-decreasing clock is stated as `updatedAt <= now` for the ticket concerned (for the
  service, for every stored ticket).
- A new ticket's identifier is a parameter (`freshId`).
- `Uuid::fromString` is the service's `parse` field, a partial function from strings to
  128-bit identifiers.

Two points about the code matter here:

- `updateTicket` is not atomic. The code applies title, then description, then status,
  then priority. A rejected transition or an unknown status or priority string stops it
  there. The fields applied before that stay on the in-memory entity, and `save` is not
  called. The model does exactly that (`Service.UpdateOutcome`,
  `Service.TicketService.UpdateTicket`); it does not validate first.
- The ticket service itself does not check that status and priority strings are valid.
  An unknown string reaches `TicketStatus::from` or `TicketPriority::from` and raises a
  `ValueError` part-way through the update. The model keeps this as the `InvalidValue`
  error.

## Model

| member | source | states |
|---|---|---|
| `Status.Cases` | src/Domain/ValueObject/TicketStatus.php:14-17 | four cases, pairwise distinct, `open` first and `closed` last |
| `Status.CasesComplete` | src/Domain/ValueObject/TicketStatus.php:14-17 | every status appears in `cases()` |
| `Status.Values` | src/Domain/ValueObject/TicketStatus.php:24-27 | `values()` is exactly `["open", "in_progress", "resolved", "closed"]` |
| `Status.From` | src/Domain/ValueObject/TicketStatus.php:12-17 | `from(v)` yields a case whose backing value is `v`; otherwise it fails with a `ValueError` carrying `v`, and then no case has that backing value |
| `Status.FromValue` | src/Domain/ValueObject/TicketStatus.php:14-17 | case to backing string and back with `from` gives the same case |
| `Status.FromAcceptsExactlyValues` | src/Domain/ValueObject/TicketStatus.php:24-27 | `from(v)` succeeds if and only if `v` is in `values()` |
| `Status.ValueInjective` | src/Domain/ValueObject/TicketStatus.php:14-17 | distinct cases have distinct backing strings |
| `Status.Label` | src/Domain/ValueObject/TicketStatus.php:46-54 | every label is non-empty and starts with a capital letter |
| `Status.LabelTable` | src/Domain/ValueObject/TicketStatus.php:46-54 | labels are "Open", "In Progress", "Resolved", "Closed" |
| `Status.LabelInjective` | src/Domain/ValueObject/TicketStatus.php:46-54 | distinct statuses have distinct labels |
| `Status.CanTransitionTo` | src/Domain/ValueObject/TicketStatus.php:33-41 | an allowed move never stays in place and never leaves `closed`; every status other than `closed` may move to `closed` |
| `Status.OpenTargets` | src/Domain/ValueObject/TicketStatus.php:36 | from `open` exactly `in_progress` and `closed` are allowed |
| `Status.InProgressTargets` | src/Domain/ValueObject/TicketStatus.php:37 | from `in_progress` exactly `resolved`, `open` and `closed` are allowed |
| `Status.ResolvedTargets` | src/Domain/ValueObject/TicketStatus.php:38 | from `resolved` exactly `closed` and `in_progress` are allowed |
| `Status.ClosedIsTerminal` | src/Domain/ValueObject/TicketStatus.php:39 | `closed` may move to no status |
| `Status.NoSelfTransition` | src/Domain/ValueObject/TicketStatus.php:35-40 | no status may transition to itself through the table |
| `Status.EveryLiveStatusCanClose` | src/Domain/ValueObject/TicketStatus.php:35-40 | a status can be closed in one step if and only if it is not already closed |
| `Priority.Cases` | src/Domain/ValueObject/TicketPriority.php:12-15 | four cases, pairwise distinct |
| `Priority.CasesComplete` | src/Domain/ValueObject/TicketPriority.php:12-15 | every priority appears in `cases()` |
| `Priority.Values` | src/Domain/ValueObject/TicketPriority.php:22-25 | `values()` is exactly `["low", "medium", "high", "critical"]` |
| `Priority.From` | src/Domain/ValueObject/TicketPriority.php:10-15 | `from(v)` yields the case with backing value `v`, or a `ValueError` carrying `v` when no case has it |
| `Priority.FromValue` | src/Domain/ValueObject/TicketPriority.php:12-15 | case to backing string and back gives the same case |
| `Priority.FromAcceptsExactlyValues` | src/Domain/ValueObject/TicketPriority.php:22-25 | `from(v)` succeeds if and only if `v` is in `values()` |
| `Priority.ValueInjective` | src/Domain/ValueObject/TicketPriority.php:12-15 | distinct cases have distinct backing strings |
| `Priority.Weight` | src/Domain/ValueObject/TicketPriority.php:31-39 | every weight lies in 1..4 |
| `Priority.WeightIsDeclarationPosition` | src/Domain/ValueObject/TicketPriority.php:31-39 | the weight of the i-th declared case is i+1: low=1, medium=2, high=3, critical=4 |
| `Priority.WeightInjective` | src/Domain/ValueObject/TicketPriority.php:33-38 | distinct priorities have distinct weights |
| `Priority.Label` | src/Domain/ValueObject/TicketPriority.php:44-52 | every label is non-empty and starts with a capital letter |
| `Priority.LabelTable` | src/Domain/ValueObject/TicketPriority.php:44-52 | labels are "Low", "Medium", "High", "Critical" |
| `Priority.LabelInjective` | src/Domain/ValueObject/TicketPriority.php:44-52 | distinct priorities have distinct labels |
| `Priority.IsHigherThan` | src/Domain/ValueObject/TicketPriority.php:57-60 | a is higher than b only for distinct priorities, never with a = low and never with b = critical |
| `Priority.IsHigherThanIrreflexive` | src/Domain/ValueObject/TicketPriority.php:57-60 | no priority is higher than itself |
| `Priority.IsHigherThanAsymmetric` | src/Domain/ValueObject/TicketPriority.php:57-60 | if a is higher than b, b is not higher than a |
| `Priority.IsHigherThanTransitive` | src/Domain/ValueObject/TicketPriority.php:57-60 | higher-than is transitive |
| `Priority.IsHigherThanTotal` | src/Domain/ValueObject/TicketPriority.php:57-60 | of two distinct priorities one is higher than the other |
| `Priority.IsHigherThanChain` | tests/Unit/Domain/ValueObject/TicketPriorityTest.php:38-56 | critical > high > medium > low, and low is not higher than medium |
| `Exceptions.TransitionMessage` | src/Domain/Exception/InvalidTicketStatusTransitionException.php:18-24 | the message is `Cannot transition ticket from "` + current value + `" to "` + attempted value + `"`: its length and fixed prefix |
| `Exceptions.MessageDeterminesStatuses` | src/Domain/Exception/InvalidTicketStatusTransitionException.php:14-24 | two transition errors with the same message carry the same current and attempted statuses |
| `Exceptions.NotFoundMessage` | src/Domain/Exception/TicketNotFoundException.php:14-18 | the not-found message quotes the identifier exactly as given |
| `Entity.ApplyChange` | src/Domain/Entity/Ticket.php:78-135 | one setter call fails if and only if it is a status change to a different status the table forbids, and the error carries (current, requested); a success keeps id, owner and createdAt, and leaves the ticket as it was or stamps it `now` |
| `Entity.Step` | src/Domain/Entity/Ticket.php:107-123 | a setter call, where a rejected status change leaves the ticket unchanged, keeps id, owner and createdAt, and leaves updatedAt or sets it to `now` |
| `Entity.ReplayKeepsTimestampsOrdered` | src/Domain/Entity/Ticket.php:55-62 | over any run of setter calls with a non-decreasing clock, id, owner and createdAt never change, updatedAt never decreases, and createdAt <= updatedAt |
| `Entity.ClosedStaysClosed` | src/Domain/ValueObject/TicketStatus.php:39 | once a ticket is closed, no run of setter calls changes its status |
| `Entity.OpenReachesResolvedThroughInProgress` | tests/Unit/Domain/Entity/TicketTest.php:79-95 | `open` to `resolved` is rejected with (open, resolved); `open` then `in_progress` then `resolved` ends resolved |
| `Entity.User.AddTicket` | src/Domain/Entity/Ticket.php:64-65 | the ticket is appended to the user's ticket list |
| `Entity.Ticket.constructor` | src/Domain/Entity/Ticket.php:49-66 | a new ticket has the given id, title, description, owner and priority (default medium), status open, createdAt = updatedAt = now, is appended to the owner's tickets, and belongs to exactly the users with the owner's id |
| `Entity.Ticket.BelongsTo` | src/Domain/Entity/Ticket.php:155-158 | the owner always passes; any other user passes exactly when it has the owner's id |
| `Entity.Ticket.IsOpen` | src/Domain/Entity/Ticket.php:163-166 | an open ticket may move to `in_progress` |
| `Entity.Ticket.IsClosed` | src/Domain/Entity/Ticket.php:171-174 | closed exactly when the ticket's status allows no move at all |
| `Entity.Ticket.Touch` | src/Domain/Entity/Ticket.php:180-183 | only updatedAt changes, to `now` |
| `Entity.Ticket.SetTitle` | src/Domain/Entity/Ticket.php:78-83 | only title and updatedAt change |
| `Entity.Ticket.SetDescription` | src/Domain/Entity/Ticket.php:90-95 | only description and updatedAt change |
| `Entity.Ticket.SetPriority` | src/Domain/Entity/Ticket.php:130-135 | only priority and updatedAt change |
| `Entity.Ticket.SetStatus` | src/Domain/Entity/Ticket.php:107-123 | the same status changes nothing and succeeds; a forbidden move fails with (current, requested) and changes nothing; an allowed move sets the status and stamps updatedAt |
| `Repository.InsertNewestFirst` | src/Infrastructure/Repository/DoctrineTicketRepository.php:36 | the result has one more element, holds the inserted ticket and all earlier ones, and nothing else |
| `Repository.InsertKeepsNewestFirst` | src/Infrastructure/Repository/DoctrineTicketRepository.php:36 | inserting into a list ordered by createdAt descending keeps it ordered |
| `Repository.InsertKeepsNoDuplicates` | src/Infrastructure/Repository/DoctrineTicketRepository.php:31-38 | inserting a ticket that is not yet listed keeps the list free of duplicates |
| `Repository.TicketRepository.constructor` | src/Domain/Repository/TicketRepositoryInterface.php:17-47 | a new store is empty and valid |
| `Repository.TicketRepository.FindById` | src/Domain/Repository/TicketRepositoryInterface.php:22 | a ticket is found if and only if one is stored under that id, and it is that ticket |
| `Repository.TicketRepository.FindByUser` | src/Domain/Repository/TicketRepositoryInterface.php:29 | exactly the stored tickets whose owner has the user's id, each once, ordered by createdAt descending |
| `Repository.TicketRepository.Save` | src/Domain/Repository/TicketRepositoryInterface.php:41 | upsert under the ticket's id, persisting its current state, with one write |
| `Repository.TicketRepository.Delete` | src/Domain/Repository/TicketRepositoryInterface.php:46 | the ticket's id leaves both the managed and the persisted maps, with one write |
| `UpdateDto.UpdateTicketDTO.GetStatusEnum` | src/Application/DTO/UpdateTicketDTO.php:60-63 | null if and only if status is null; a ValueError if and only if status is a string outside `values()`; otherwise the case with that backing value |
| `UpdateDto.UpdateTicketDTO.GetPriorityEnum` | src/Application/DTO/UpdateTicketDTO.php:65-68 | null if and only if priority is null; a ValueError if and only if priority is a string outside `values()`; otherwise the matching case |
| `UpdateDto.UpdateTicketDTO.HasChanges` | src/Application/DTO/UpdateTicketDTO.php:70-76 | a request has changes exactly when it differs from the all-null request |
| `UpdateDto.FromArray` | src/Application/DTO/UpdateTicketDTO.php:50-58 | each of the four fields is set if and only if its key is present, to that key's value |
| `UpdateDto.FromArrayHasChanges` | src/Application/DTO/UpdateTicketDTO.php:70-76 | `hasChanges()` holds if and only if the request named title, description, status or priority |
| `UpdateDto.EmptyRequestHasNoChanges` | tests/Unit/Application/DTO/UpdateTicketDTOTest.php:62-67 | an empty request, or a DTO built with all defaults, has no changes |
| `CreateDto.CreateTicketDTO.GetPriorityEnum` | src/Application/DTO/CreateTicketDTO.php:54-57 | succeeds if and only if priority is in `values()`, with the case of that backing value; otherwise a ValueError carrying the string |
| `CreateDto.FromArray` | src/Application/DTO/CreateTicketDTO.php:45-52 | present keys are copied; a missing title or description is "", a missing priority is "medium" |
| `CreateDto.MissingPriorityIsMedium` | src/Application/DTO/CreateTicketDTO.php:36 | without a priority key the request converts to priority MEDIUM |
| `Service.UpdateOutcome` | src/Application/Service/TicketService.php:81-95 | the field updates in order: identity is kept, the ticket is either untouched or stamped `now`, and a failure is only ever a ValueError or a rejected transition |
| `Service.UpdateSucceedsIff` | src/Application/Service/TicketService.php:81-97 | an update succeeds if and only if any given status names a case equal to or reachable in one step from the current one, and any given priority names a case |
| `Service.UpdateAppliesGivenFields` | src/Application/Service/TicketService.php:81-95 | after a successful update each given field has the requested value, all others are unchanged, and id, owner and createdAt are kept |
| `Service.RejectedTransitionKeepsEarlierFields` | src/Application/Service/TicketService.php:81-91 | on a rejected transition the error carries (current, requested), title and description are already applied, and status and priority are not |
| `Service.UnknownStatusKeepsEarlierFields` | src/Application/Service/TicketService.php:81-91 | an unknown status string fails with its ValueError after title and description were applied; nothing else changed |
| `Service.UnknownPriorityKeepsPriority` | src/Application/Service/TicketService.php:93-95 | an unknown priority string fails with its ValueError after title, description and status were applied; the priority is unchanged |
| `Service.UpdateKeepsTimestampsOrdered` | src/Domain/Entity/Ticket.php:180-183 | with a clock at or after updatedAt, an update keeps id, owner and createdAt, never moves updatedAt back, and keeps createdAt <= updatedAt |
| `Service.EmptyUpdateChangesNothing` | src/Application/Service/TicketService.php:81-95 | a request without changes leaves the ticket exactly as it was and succeeds |
| `Service.GetTicketReturnsOwnedTicket` | src/Application/Service/TicketService.php:62-68 | a ticket `getTicket` returns is stored under the parsed id and belongs to the requester |
| `Service.TicketService.constructor` | src/Application/Service/TicketService.php:24-27 | the service keeps the given repository and parser |
| `Service.TicketService.FindTicketOrFail` | src/Application/Service/TicketService.php:121-136 | found if and only if the id parses and names a stored ticket, which is returned; otherwise not-found quoting the raw id |
| `Service.TicketService.EnsureUserOwnsTicket` | src/Application/Service/TicketService.php:143-148 | passes if and only if the owner's id is the user's id, otherwise access denied with the service's message |
| `Service.TicketService.GetTicket` | src/Application/Service/TicketService.php:62-68 | unparsable or unknown id: not found; a stored ticket of another user: access denied, never not found; the owner gets exactly the stored ticket |
| `Service.TicketService.CreateTicket` | src/Application/Service/TicketService.php:32-44 | for an id naming no stored ticket: an unknown priority fails with its ValueError and changes nothing; otherwise a new open ticket with the request's title, description and priority, owned by the user, is added to the user's list and saved once, the store grows by one and no stored ticket is replaced |
| `Service.TicketService.GetTicketsByUser` | src/Application/Service/TicketService.php:51-54 | exactly the user's stored tickets, each once, newest first |
| `Service.TicketService.ApplyUpdate` | src/Application/Service/TicketService.php:81-95 | the ticket's new state and the outcome are those of `UpdateOutcome` |
| `Service.TicketService.ApplyPriority` | src/Application/Service/TicketService.php:93-95 | the priority step of an update: a ValueError leaves the ticket as it was, a valid priority is set |
| `Service.TicketService.UpdateTicket` | src/Application/Service/TicketService.php:76-100 | lookup or ownership failure: that error and no change anywhere; otherwise the ticket ends as `UpdateOutcome` says; on success it is saved once and returned; on failure the partly updated entity is not saved and the store is unchanged |
| `Service.TicketService.DeleteTicket` | src/Application/Service/TicketService.php:108-114 | lookup or ownership failure: that error and an unchanged store; otherwise the ticket is removed with one write |

## Left out

- HTTP controllers, JSON decoding and the mapping of errors to HTTP codes: transport, not ticket logic.
- The `#[Assert\...]` length and choice constraints of the request objects: Symfony's validator runs them, not the request objects.
- Doctrine persistence: the store is an in-memory map. Storage failures cannot happen in it, so no storage error is modelled. `findAll` is not modelled, because no core operation uses it.
- The migration, registration, authentication and password hashing: outside the ticket core.
- `Uuid::v7()`, `Uuid::fromString` and `DateTimeImmutable`: they become a supplied identifier, the abstract partial function `parse`, and an integer clock. A clock running backwards is outside the model: every call that stamps a ticket requires `now` to be at least its updatedAt.
- The User entity: src/Domain/Entity/User.php is not part of this model. A user here is an identifier plus the list of tickets its `addTicket` was called with. That call is taken to append.
- The message of PHP's `ValueError`: it is the runtime's own text. The error carries the enum's name and the rejected string instead.
- Getters and the `self` that setters return for chaining: the model reads fields directly and its setters return nothing (`SetStatus` returns its outcome).
- Request arrays are `map<string, string>`. A JSON `null` value behaves like a missing key. A non-string value would make PHP raise a `TypeError`, and that case is not modelled.
- The ordering of `findByUser` by createdAt descending comes from the Doctrine implementation, not from the repository interface. The in-memory store keeps it; tickets with equal createdAt may come in any order.
- The store is one unit of work shared by every service call. Request boundaries and reloads from the database are not modelled, and lookups hand out the managed objects, not the saved rows. So after an update fails part-way, its partly applied fields stay visible to later calls on the same store. A later successful save then persists them. In the application each request has its own entity manager and would reload the saved state.
- Each call reads the clock once: every timestamp one call sets is the same `now`. The source reads the clock anew at each use: twice in the constructor (Ticket.php:61-62), once per `touch()`, and once more at flush time, because `touch()` is also a `PreUpdate` callback (Ticket.php:179). So createdAt = updatedAt for a new ticket, and a single updatedAt after an update, hold only under this abstraction. The flush-time stamp is not modelled.
- `AccessDeniedException`'s default message is not modelled, because the service always passes its own message.
