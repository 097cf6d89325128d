/** The request object of a ticket update: four optional strings. */
module UpdateDto {
  import opened Wrappers
  import opened ValueErrors
  import Status
  import Priority

  /** A request field: the value when the key is present, null otherwise. */
  function Field(data: map<string, string>, key: string): Option<string> {
    if key in data then Some(data[key]) else None
  }

  datatype UpdateTicketDTO = UpdateTicketDTO(
    title: Option<string> := None,
    description: Option<string> := None,
    status: Option<string> := None,
    priority: Option<string> := None)
  {
    /** `hasChanges`: at least one field was given, that is, the request is not the
        all-null one. */
    predicate HasChanges(): (r: bool)
      ensures r <==> this != UpdateTicketDTO()
    {
      title.Some? || description.Some? || status.Some? || priority.Some?
    }

    /** `getStatusEnum`: null for no status, else `TicketStatus::from(status)`. */
    function GetStatusEnum(): (r: Result<Option<Status.TicketStatus>, ValueError>)
      ensures r == Success(None) <==> status.None?
      ensures r.Success? && status.Some? ==> r.value.Some? && Status.Value(r.value.value) == status.value
      ensures r.Failure? <==> status.Some? && status.value !in Status.Values()
      ensures r.Failure? ==> r.error == ValueError("TicketStatus", status.value)
    {
      if status.None? then Success(None)
      else
        Status.FromAcceptsExactlyValues(status.value);
        match Status.From(status.value)
        case Success(s) => Success(Some(s))
        case Failure(e) => Failure(e)
    }

    /** `getPriorityEnum`: null for no priority, else `TicketPriority::from(priority)`. */
    function GetPriorityEnum(): (r: Result<Option<Priority.TicketPriority>, ValueError>)
      ensures r == Success(None) <==> priority.None?
      ensures r.Success? && priority.Some? ==> r.value.Some? && Priority.Value(r.value.value) == priority.value
      ensures r.Failure? <==> priority.Some? && priority.value !in Priority.Values()
      ensures r.Failure? ==> r.error == ValueError("TicketPriority", priority.value)
    {
      if priority.None? then Success(None)
      else
        Priority.FromAcceptsExactlyValues(priority.value);
        match Priority.From(priority.value)
        case Success(p) => Success(Some(p))
        case Failure(e) => Failure(e)
    }
  }

  /** `fromArray`: each field is copied when its key is present and null otherwise. */
  function FromArray(data: map<string, string>): (r: UpdateTicketDTO)
    ensures r.title.Some? <==> "title" in data
    ensures r.description.Some? <==> "description" in data
    ensures r.status.Some? <==> "status" in data
    ensures r.priority.Some? <==> "priority" in data
    ensures r.title.Some? ==> r.title.value == data["title"]
    ensures r.description.Some? ==> r.description.value == data["description"]
    ensures r.status.Some? ==> r.status.value == data["status"]
    ensures r.priority.Some? ==> r.priority.value == data["priority"]
  {
    UpdateTicketDTO(
      title := Field(data, "title"),
      description := Field(data, "description"),
      status := Field(data, "status"),
      priority := Field(data, "priority"))
  }

  /** A request has changes exactly when it names one of the four keys. */
  lemma FromArrayHasChanges(data: map<string, string>)
    ensures FromArray(data).HasChanges() <==>
      "title" in data || "description" in data || "status" in data || "priority" in data
  {
  }

  lemma EmptyRequestHasNoChanges()
    ensures !FromArray(map[]).HasChanges()
    ensures !UpdateTicketDTO().HasChanges()
  {
  }
}
