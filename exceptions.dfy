/** The errors the ticket core signals. Exceptions become values: callers inspect the
    variant instead of catching by class. */
module Exceptions {
  import opened Status
  import opened ValueErrors

  /** The fixed text around the two status values in the transition message. */
  const MessagePrefix: string := "Cannot transition ticket from \""
  const MessageMiddle: string := "\" to \""
  const MessageSuffix: string := "\""

  /** `InvalidTicketStatusTransitionException`: the two statuses are fixed at
      construction and read back through the datatype's fields. */
  datatype InvalidTicketStatusTransition =
    InvalidTicketStatusTransition(currentStatus: TicketStatus, attemptedStatus: TicketStatus)

  /** The exception's message, built from the two backing values. */
  function TransitionMessage(e: InvalidTicketStatusTransition): (m: string)
    ensures |m| == |MessagePrefix| + |Value(e.currentStatus)| + |MessageMiddle|
                   + |Value(e.attemptedStatus)| + |MessageSuffix|
    ensures m[..|MessagePrefix|] == MessagePrefix
  {
    MessagePrefix + Value(e.currentStatus) + MessageMiddle + Value(e.attemptedStatus) + MessageSuffix
  }

  /** The error kinds a ticket service call can end in. `InvalidValue` is PHP's own
      `ValueError`, which is not a domain exception. */
  datatype ServiceError =
    | TicketNotFound(id: string)
    | AccessDenied(message: string)
    | InvalidTransition(transition: InvalidTicketStatusTransition)
    | InvalidValue(valueError: ValueError)

  const NotFoundPrefix: string := "Ticket with ID \""
  const NotFoundSuffix: string := "\" not found"

  /** `TicketNotFoundException`'s message quotes the identifier it was given. */
  function NotFoundMessage(id: string): (m: string)
    ensures |m| == |NotFoundPrefix| + |id| + |NotFoundSuffix|
    ensures m[|NotFoundPrefix|..|m| - |NotFoundSuffix|] == id
  {
    NotFoundPrefix + id + NotFoundSuffix
  }

  // ---- the transition message names both statuses unambiguously ----

  lemma NoQuoteInValue(s: TicketStatus, k: int)
    requires 0 <= k < |Value(s)|
    ensures Value(s)[k] != '"'
  {
  }

  /** The backing values have pairwise distinct lengths. */
  lemma ValueLengthInjective(a: TicketStatus, b: TicketStatus)
    ensures |Value(a)| == |Value(b)| ==> a == b
  {
  }

  lemma MessageShape(e: InvalidTicketStatusTransition)
    ensures forall k :: 0 <= k < |Value(e.currentStatus)| ==>
      TransitionMessage(e)[|MessagePrefix| + k] == Value(e.currentStatus)[k]
    ensures TransitionMessage(e)[|MessagePrefix| + |Value(e.currentStatus)|] == '"'
  {
    var v := Value(e.currentStatus);
    var m := TransitionMessage(e);
    assert m == (MessagePrefix + v) + (MessageMiddle + Value(e.attemptedStatus) + MessageSuffix);
  }

  /** The message determines both carried statuses: two transition errors with the
      same message are the same error. */
  lemma {:induction false} MessageDeterminesStatuses(e1: InvalidTicketStatusTransition, e2: InvalidTicketStatusTransition)
    requires TransitionMessage(e1) == TransitionMessage(e2)
    ensures e1 == e2
  {
    var n1, n2 := |Value(e1.currentStatus)|, |Value(e2.currentStatus)|;
    MessageShape(e1);
    MessageShape(e2);
    if n1 < n2 {
      NoQuoteInValue(e2.currentStatus, n1);
      assert false;
    } else if n2 < n1 {
      NoQuoteInValue(e1.currentStatus, n2);
      assert false;
    }
    ValueLengthInjective(e1.currentStatus, e2.currentStatus);
    ValueLengthInjective(e1.attemptedStatus, e2.attemptedStatus);
  }
}
