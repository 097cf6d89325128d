/** The ticket lifecycle: a backed enum with a fixed transition table. */
module Status {
  import opened Wrappers
  import opened ValueErrors

  datatype TicketStatus = Open | InProgress | Resolved | Closed

  /** The backing string of each case. */
  function Value(s: TicketStatus): string {
    match s
    case Open => "open"
    case InProgress => "in_progress"
    case Resolved => "resolved"
    case Closed => "closed"
  }

  /** `cases()`: the cases in declaration order, each once (see CasesComplete). */
  function Cases(): (r: seq<TicketStatus>)
    ensures |r| == 4
    ensures forall i, j :: 0 <= i < j < |r| ==> r[i] != r[j]
    ensures r[0] == Open && r[|r| - 1] == Closed
  {
    [Open, InProgress, Resolved, Closed]
  }

  /** `cases()` lists every case. */
  lemma CasesComplete(s: TicketStatus)
    ensures s in Cases()
  {
  }

  /** `values()`: the backing strings of `cases()`, in the same order. */
  function Values(): (r: seq<string>)
    ensures r == ["open", "in_progress", "resolved", "closed"]
  {
    seq(|Cases()|, i requires 0 <= i < |Cases()| => Value(Cases()[i]))
  }

  /** `TicketStatus::from`: the case whose backing string is `v`, else a ValueError. */
  function From(v: string): (r: Result<TicketStatus, ValueError>)
    ensures r.Success? ==> Value(r.value) == v
    ensures r.Failure? ==> r.error == ValueError("TicketStatus", v) && forall s :: Value(s) != v
  {
    if v == "open" then Success(Open)
    else if v == "in_progress" then Success(InProgress)
    else if v == "resolved" then Success(Resolved)
    else if v == "closed" then Success(Closed)
    else Failure(ValueError("TicketStatus", v))
  }

  /** The human-readable label of each case: a capitalised word or phrase. */
  function Label(s: TicketStatus): (l: string)
    ensures |l| > 0 && 'A' <= l[0] <= 'Z'
  {
    match s
    case Open => "Open"
    case InProgress => "In Progress"
    case Resolved => "Resolved"
    case Closed => "Closed"
  }

  /** The statuses each status may move to, as listed in the source. */
  function AllowedTargets(from: TicketStatus): seq<TicketStatus> {
    match from
    case Open => [InProgress, Closed]
    case InProgress => [Resolved, Open, Closed]
    case Resolved => [Closed, InProgress]
    case Closed => []
  }

  /** `canTransitionTo`: the state machine of the ticket lifecycle. */
  function CanTransitionTo(from: TicketStatus, to: TicketStatus): (b: bool)
    ensures b ==> from != to && from != Closed
    ensures from != Closed && to == Closed ==> b
  {
    to in AllowedTargets(from)
  }

  // ---- the backing values ----

  lemma ValueInjective(a: TicketStatus, b: TicketStatus)
    ensures Value(a) == Value(b) ==> a == b
  {
  }

  lemma FromValue(s: TicketStatus)
    ensures From(Value(s)) == Success(s)
  {
    ValueInjective(From(Value(s)).value, s);
  }

  lemma FromAcceptsExactlyValues(v: string)
    ensures From(v).Success? <==> v in Values()
  {
  }

  // ---- the labels ----

  lemma LabelInjective(a: TicketStatus, b: TicketStatus)
    ensures Label(a) == Label(b) ==> a == b
  {
  }

  lemma LabelTable()
    ensures Label(Open) == "Open" && Label(InProgress) == "In Progress"
    ensures Label(Resolved) == "Resolved" && Label(Closed) == "Closed"
  {
  }

  // ---- the transition table ----

  lemma OpenTargets(to: TicketStatus)
    ensures CanTransitionTo(Open, to) <==> to == InProgress || to == Closed
  {
  }

  lemma InProgressTargets(to: TicketStatus)
    ensures CanTransitionTo(InProgress, to) <==> to == Resolved || to == Open || to == Closed
  {
  }

  lemma ResolvedTargets(to: TicketStatus)
    ensures CanTransitionTo(Resolved, to) <==> to == Closed || to == InProgress
  {
  }

  lemma ClosedIsTerminal(to: TicketStatus)
    ensures !CanTransitionTo(Closed, to)
  {
  }

  lemma NoSelfTransition(s: TicketStatus)
    ensures !CanTransitionTo(s, s)
  {
  }

  /** Every status but `closed` can be closed in one step. */
  lemma EveryLiveStatusCanClose(s: TicketStatus)
    ensures s != Closed <==> CanTransitionTo(s, Closed)
  {
  }
}
