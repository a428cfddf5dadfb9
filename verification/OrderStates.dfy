/** Order statuses and the transition table every guarded status change goes through. */
module OrderStates {

  datatype OrderStatus =
    | COLLECTING_OFFERS | AWAITING_SELECTION | AWAITING_OFFERS | AWAITING_PAYMENT | PARTIALLY_PAID
    | PREPARATION | PARTIALLY_SHIPPED | PREPARED | VERIFICATION | VERIFICATION_SUCCESS | READY_FOR_SHIPPING
    | NON_MATCHING | CORRECTION_PERIOD | CORRECTION_SUBMITTED | DELAYED_PREPARATION
    | SHIPPED | DELIVERED | WARRANTY_ACTIVE | WARRANTY_EXPIRED | COMPLETED | CLOSED | CANCELLED
    | RETURNED | DISPUTED | REFUNDED | RETURN_REQUESTED | RETURN_APPROVED | RESOLVED

  function Allowed(from: OrderStatus): set<OrderStatus> {
    match from
    case COLLECTING_OFFERS => {AWAITING_SELECTION, AWAITING_PAYMENT, CANCELLED}
    case AWAITING_SELECTION => {AWAITING_PAYMENT, CANCELLED}
    case AWAITING_OFFERS => {AWAITING_PAYMENT, CANCELLED}
    case AWAITING_PAYMENT => {PARTIALLY_PAID, PREPARATION, CANCELLED}
    case PARTIALLY_PAID => {AWAITING_PAYMENT, PREPARATION, CANCELLED}
    case PREPARATION => {PREPARED, DELAYED_PREPARATION, PARTIALLY_SHIPPED, CANCELLED}
    case PARTIALLY_SHIPPED => {PARTIALLY_SHIPPED, SHIPPED, CANCELLED}
    case PREPARED => {VERIFICATION, CANCELLED}
    case VERIFICATION => {VERIFICATION_SUCCESS, NON_MATCHING, CANCELLED}
    case VERIFICATION_SUCCESS => {READY_FOR_SHIPPING, CANCELLED}
    case READY_FOR_SHIPPING => {SHIPPED, PARTIALLY_SHIPPED, CANCELLED}
    case NON_MATCHING => {CORRECTION_PERIOD, CANCELLED}
    case CORRECTION_PERIOD => {CORRECTION_SUBMITTED, CANCELLED}
    case CORRECTION_SUBMITTED => {VERIFICATION_SUCCESS, NON_MATCHING, CANCELLED}
    case DELAYED_PREPARATION => {PREPARED, CANCELLED}
    case SHIPPED => {DELIVERED, RETURNED, DISPUTED}
    case DELIVERED => {COMPLETED, WARRANTY_ACTIVE, CLOSED, RETURNED, DISPUTED}
    case WARRANTY_ACTIVE => {WARRANTY_EXPIRED, RETURNED, DISPUTED, CLOSED}
    case WARRANTY_EXPIRED => {COMPLETED, CLOSED}
    case COMPLETED => {WARRANTY_ACTIVE, CLOSED}
    case CLOSED => {}
    case CANCELLED => {}
    case RETURNED => {COMPLETED, WARRANTY_ACTIVE, CLOSED}
    case DISPUTED => {COMPLETED, WARRANTY_ACTIVE, CLOSED, RETURNED, REFUNDED}
    case REFUNDED => {}
    case RETURN_REQUESTED => {RETURN_APPROVED, DISPUTED}
    case RETURN_APPROVED => {RETURNED}
    case RESOLVED => {COMPLETED, WARRANTY_ACTIVE, CLOSED}
  }
}
