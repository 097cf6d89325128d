/** Ticket priority: a backed enum ordered by weight. */
module Priority {
  import opened Wrappers
  import opened ValueErrors

  datatype TicketPriority = Low | Medium | High | Critical

  /** The backing string of each case. */
  function Value(p: TicketPriority): string {
    match p
    case Low => "low"
    case Medium => "medium"
    case High => "high"
    case Critical => "critical"
  }

  /** `cases()`: the cases in declaration order, each once (see CasesComplete). */
  function Cases(): (r: seq<TicketPriority>)
    ensures |r| == 4
    ensures forall i, j :: 0 <= i < j < |r| ==> r[i] != r[j]
  {
    [Low, Medium, High, Critical]
  }

  /** `cases()` lists every case. */
  lemma CasesComplete(p: TicketPriority)
    ensures p in Cases()
  {
  }

  /** `values()`: the backing strings of `cases()`, in the same order. */
  function Values(): (r: seq<string>)
    ensures r == ["low", "medium", "high", "critical"]
  {
    seq(|Cases()|, i requires 0 <= i < |Cases()| => Value(Cases()[i]))
  }

  /** `TicketPriority::from`: the case whose backing string is `v`, else a ValueError. */
  function From(v: string): (r: Result<TicketPriority, ValueError>)
    ensures r.Success? ==> Value(r.value) == v
    ensures r.Failure? ==> r.error == ValueError("TicketPriority", v) && forall p :: Value(p) != v
  {
    if v == "low" then Success(Low)
    else if v == "medium" then Success(Medium)
    else if v == "high" then Success(High)
    else if v == "critical" then Success(Critical)
    else Failure(ValueError("TicketPriority", v))
  }

  /** The sorting weight: a higher number is a more urgent ticket. */
  function Weight(p: TicketPriority): (w: int)
    ensures 1 <= w <= 4
  {
    match p
    case Low => 1
    case Medium => 2
    case High => 3
    case Critical => 4
  }

  /** The human-readable label of each case: a capitalised word. */
  function Label(p: TicketPriority): (l: string)
    ensures |l| > 0 && 'A' <= l[0] <= 'Z'
  {
    match p
    case Low => "Low"
    case Medium => "Medium"
    case High => "High"
    case Critical => "Critical"
  }

  /** `isHigherThan`: compares weights only. Nothing is higher than critical, and low
      is higher than nothing. */
  function IsHigherThan(a: TicketPriority, b: TicketPriority): (r: bool)
    ensures r ==> a != b && a != Low && b != Critical
  {
    Weight(a) > Weight(b)
  }

  // ---- backing values and labels ----

  lemma ValueInjective(a: TicketPriority, b: TicketPriority)
    ensures Value(a) == Value(b) ==> a == b
  {
  }

  lemma FromValue(p: TicketPriority)
    ensures From(Value(p)) == Success(p)
  {
    ValueInjective(From(Value(p)).value, p);
  }

  lemma FromAcceptsExactlyValues(v: string)
    ensures From(v).Success? <==> v in Values()
  {
  }

  lemma LabelTable()
    ensures Label(Low) == "Low" && Label(Medium) == "Medium"
    ensures Label(High) == "High" && Label(Critical) == "Critical"
  {
  }

  lemma LabelInjective(a: TicketPriority, b: TicketPriority)
    ensures Label(a) == Label(b) ==> a == b
  {
  }

  // ---- the weights ----

  /** The weight of a case is its 1-based position in declaration order. */
  lemma WeightIsDeclarationPosition(i: int)
    requires 0 <= i < |Cases()|
    ensures Weight(Cases()[i]) == i + 1
  {
  }

  lemma WeightInjective(a: TicketPriority, b: TicketPriority)
    ensures Weight(a) == Weight(b) ==> a == b
  {
  }

  // ---- isHigherThan is a strict total order ----

  lemma IsHigherThanIrreflexive(a: TicketPriority)
    ensures !IsHigherThan(a, a)
  {
  }

  lemma IsHigherThanAsymmetric(a: TicketPriority, b: TicketPriority)
    ensures IsHigherThan(a, b) ==> !IsHigherThan(b, a)
  {
  }

  lemma IsHigherThanTransitive(a: TicketPriority, b: TicketPriority, c: TicketPriority)
    ensures IsHigherThan(a, b) && IsHigherThan(b, c) ==> IsHigherThan(a, c)
  {
  }

  lemma IsHigherThanTotal(a: TicketPriority, b: TicketPriority)
    ensures a != b ==> IsHigherThan(a, b) || IsHigherThan(b, a)
  {
    WeightInjective(a, b);
  }

  lemma IsHigherThanChain()
    ensures IsHigherThan(Critical, High) && IsHigherThan(High, Medium) && IsHigherThan(Medium, Low)
    ensures !IsHigherThan(Low, Medium)
  {
  }
}
