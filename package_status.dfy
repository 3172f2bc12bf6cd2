/**
 * The eight-state shipment lifecycle (`PackageStatus`), with the ordinal each
 * state is stored under and the name the enumeration object gives it.
 */
module Status {
  import opened Common

  datatype PackageStatus =
    | Unavailable
    | LabelCreated
    | InTransit
    | OutForDelivery
    | DeliveryAttempted
    | ReturnedToSender
    | Exception
    | Delivered

  /** The number the enumeration assigns to a status. */
  function Code(s: PackageStatus): (c: nat)
    ensures c <= 7
    ensures c == 0 <==> s == Unavailable
    ensures c == 7 <==> s == Delivered
  {
    match s
    case Unavailable => 0
    case LabelCreated => 1
    case InTransit => 2
    case OutForDelivery => 3
    case DeliveryAttempted => 4
    case ReturnedToSender => 5
    case Exception => 6
    case Delivered => 7
  }

  /** The status stored under a number, if any. */
  function FromCode(c: int): (r: Option<PackageStatus>)
    ensures r.Some? <==> 0 <= c <= 7
    ensures r.Some? ==> Code(r.value) == c
  {
    if c == 0 then Some(Unavailable)
    else if c == 1 then Some(LabelCreated)
    else if c == 2 then Some(InTransit)
    else if c == 3 then Some(OutForDelivery)
    else if c == 4 then Some(DeliveryAttempted)
    else if c == 5 then Some(ReturnedToSender)
    else if c == 6 then Some(Exception)
    else if c == 7 then Some(Delivered)
    else None
  }

  /** The key of a status in the enumeration object. */
  function Name(s: PackageStatus): string {
    match s
    case Unavailable => "UNAVAILABLE"
    case LabelCreated => "LABEL_CREATED"
    case InTransit => "IN_TRANSIT"
    case OutForDelivery => "OUT_FOR_DELIVERY"
    case DeliveryAttempted => "DELIVERY_ATTEMPTED"
    case ReturnedToSender => "RETURNED_TO_SENDER"
    case Exception => "EXCEPTION"
    case Delivered => "DELIVERED"
  }

  /** Distinct statuses have distinct codes, and decoding a code gives back its status. */
  lemma CodeIsInjective(s: PackageStatus, t: PackageStatus)
    ensures Code(s) == Code(t) ==> s == t
    ensures FromCode(Code(s)) == Some(s)
  {
  }

  /** The codes are exactly 0 through 7. */
  lemma CodesCoverZeroToSeven(c: int)
    ensures (exists s :: Code(s) == c) <==> 0 <= c <= 7
  {
    if 0 <= c <= 7 {
      assert Code(FromCode(c).value) == c;
    }
  }

  /** UNAVAILABLE has the smallest code and DELIVERED the largest. */
  lemma CodeBounds(s: PackageStatus)
    ensures Code(Unavailable) <= Code(s) <= Code(Delivered)
  {
  }

  /** Distinct statuses have distinct names. */
  lemma NameIsInjective(s: PackageStatus, t: PackageStatus)
    ensures Name(s) == Name(t) ==> s == t
  {
  }
}
