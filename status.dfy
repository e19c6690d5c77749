/** The order status field: its eight choices, the strings the database
    stores for them, and which of them count as "reserved and profitable". */
module OrderStatus {
  import opened Common

  /** `Other` is a status string that is not one of the eight choices; the
      bulk order endpoint stores such a string verbatim. */
  datatype Status =
    | Pending
    | Confirmed
    | Shipping
    | Completed
    | Cancelled
    | RefundRequested
    | Refunding
    | Refunded
    | Other(name: string)

  /** The stored names of the eight choices, in declaration order. */
  const Choices: seq<string> :=
    ["pending", "confirmed", "shipping", "completed",
     "cancelled", "refund_requested", "refunding", "refunded"]

  function Name(s: Status): string {
    match s
    case Pending => "pending"
    case Confirmed => "confirmed"
    case Shipping => "shipping"
    case Completed => "completed"
    case Cancelled => "cancelled"
    case RefundRequested => "refund_requested"
    case Refunding => "refunding"
    case Refunded => "refunded"
    case Other(n) => n
  }

  /** A status whose stored string is read back as itself. */
  ghost predicate WellFormed(s: Status) {
    s.Other? ==> s.name !in Choices
  }

  /** Reads a stored status string. */
  function Parse(name: string): (s: Status)
    ensures Name(s) == name
    ensures s.Other? <==> name !in Choices
    ensures WellFormed(s)
  {
    if name == "pending" then Pending
    else if name == "confirmed" then Confirmed
    else if name == "shipping" then Shipping
    else if name == "completed" then Completed
    else if name == "cancelled" then Cancelled
    else if name == "refund_requested" then RefundRequested
    else if name == "refunding" then Refunding
    else if name == "refunded" then Refunded
    else Other(name)
  }

  /** Statuses whose orders hold reserved stock and contribute to their
      batch's profit. */
  predicate IsCounted(s: Status) {
    s == Confirmed || s == Shipping || s == Completed
  }

  /** The status an order gets when the request names none. */
  const DefaultStatus: Status := Pending

  /** Storing a well-formed status and reading it back gives it back, so the
      enumeration loses nothing of the stored string. */
  lemma ParseName(s: Status)
    requires WellFormed(s)
    ensures Parse(Name(s)) == s
  {
  }

  /** The status named in a status-change request: a missing or empty value
      and a value outside the choices are refused, in that order. */
  function RequestedStatus(requested: Option<string>): (r: Result<Status>)
    ensures r.Ok? <==> requested.Some? && requested.value in Choices
    ensures r.Ok? ==> Name(r.value) == requested.value && !r.value.Other?
    ensures r.Err? ==> r.error == (if requested.None? || requested.value == "" then MissingStatus else InvalidStatus)
  {
    if requested.None? || requested.value == "" then Err(MissingStatus)
    else
      var s := Parse(requested.value);
      if s.Other? then Err(InvalidStatus) else Ok(s)
  }
}
