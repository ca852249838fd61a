/** The vocabulary of internal/domain/domain.go: lifecycle states, refusals and the receipt of a reservation. */
module Domain {

  /** A row id, a user id or an idempotency key: text that is only compared and hashed. */
  datatype Id = Id(text: string)

  datatype Option<+T> = None | Some(value: T)

  function Get<K, V>(m: map<K, V>, k: K): Option<V> {
    if k in m then Some(m[k]) else None
  }

  /** PostgreSQL `integer` columns hold at most this value; a larger one makes the statement fail. */
  const INT4_MAX: int := 0x7fff_ffff

  datatype ReservationState = Pending | Confirmed | Paid | Cancelled | Expired

  datatype SaleState = Draft | Scheduled | Active | Ended | CalledOff

  /** An order follows its reservation, or remembers a failed payment. */
  datatype OrderState = Follows(state: ReservationState) | PaymentFailed

  datatype Outcome = Successful | Failed | Delayed

  datatype PaymentStatus = Succeeded | Rejected | Waiting

  /** ValidateReservationTransition: the only lifecycle edges. */
  predicate ValidTransition(from: ReservationState, to: ReservationState) {
    || (from == Pending && (to == Confirmed || to == Cancelled || to == Expired))
    || (from == Confirmed && to == Paid)
  }

  /** The states that count against the sale allocation and the per-user limit. */
  predicate Live(s: ReservationState) {
    s == Pending || s == Confirmed || s == Paid
  }

  function StatusOf(outcome: Outcome): PaymentStatus {
    match outcome
    case Successful => Succeeded
    case Failed => Rejected
    case Delayed => Waiting
  }

  /** The refusals Reserve stores with the idempotency key; each stands for one code, message and status. */
  datatype Refusal =
    | SaleNotFound
    | SaleNotActive
    | ProductInactive
    | PurchaseLimitExceeded
    | AllocationSoldOut
    | ProductSoldOut

  /** The reservation as it was created; this is what the stored response body replays. */
  datatype Receipt = Receipt(
    reservationId: Id, orderId: Id, saleId: Id, productId: Id, userId: Id, quantity: int, expiresAt: int)

  datatype Response = Accepted(receipt: Receipt) | Declined(refusal: Refusal)
}
