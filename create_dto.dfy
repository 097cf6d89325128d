/** The request object of ticket creation. */
module CreateDto {
  import opened Wrappers
  import opened ValueErrors
  import Priority

  const DefaultPriority: string := "medium"

  datatype CreateTicketDTO = CreateTicketDTO(title: string, description: string, priority: string := DefaultPriority)
  {
    /** `getPriorityEnum`: `TicketPriority::from(priority)`, a ValueError for an unknown string. */
    function GetPriorityEnum(): (r: Result<Priority.TicketPriority, ValueError>)
      ensures r.Success? <==> priority in Priority.Values()
      ensures r.Success? ==> Priority.Value(r.value) == priority
      ensures r.Failure? ==> r.error == ValueError("TicketPriority", priority)
    {
      Priority.FromAcceptsExactlyValues(priority);
      Priority.From(priority)
    }
  }

  /** `fromArray`: title and description default to the empty string, priority to "medium". */
  function FromArray(data: map<string, string>): (r: CreateTicketDTO)
    ensures r.title == (if "title" in data then data["title"] else "")
    ensures r.description == (if "description" in data then data["description"] else "")
    ensures r.priority == (if "priority" in data then data["priority"] else "medium")
  {
    CreateTicketDTO(
      if "title" in data then data["title"] else "",
      if "description" in data then data["description"] else "",
      if "priority" in data then data["priority"] else DefaultPriority)
  }

  /** Without a priority key the request is a medium-priority one. */
  lemma MissingPriorityIsMedium(data: map<string, string>)
    requires "priority" !in data
    ensures FromArray(data).GetPriorityEnum() == Success(Priority.Medium)
  {
    Priority.FromValue(Priority.Medium);
  }
}
