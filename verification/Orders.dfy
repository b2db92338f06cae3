/** Order statuses, their rank and the guarded status update. */
module Orders {

  datatype OrderStatus = PendingPayment | Paid | Packed | Shipped | OutForDelivery | Delivered | Canceled

  function Rank(s: OrderStatus): int {
    match s
    case PendingPayment => 0
    case Paid => 1
    case Packed => 2
    case Shipped => 3
    case OutForDelivery => 4
    case Delivered => 5
    case Canceled => -1
  }

  /** The transition table of the guarded update. */
  predicate Allowed(from: OrderStatus, to: OrderStatus) {
    || (from.PendingPayment? && (to.Paid? || to.Canceled?))
    || (from.Paid? && (to.Packed? || to.Canceled?))
    || (from.Packed? && to.Shipped?)
    || (from.Shipped? && to.OutForDelivery?)
    || (from.OutForDelivery? && to.Delivered?)
  }

  function UpdateIfAllowed(from: OrderStatus, to: OrderStatus): OrderStatus {
    if Allowed(from, to) then to else from
  }
}
