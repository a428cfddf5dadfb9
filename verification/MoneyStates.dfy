/** The statuses of payments and of the escrow that holds them. */
module MoneyStates {
  datatype EscrowStatus = HELD | RELEASED | FROZEN | REFUNDED
  datatype PaymentStatus = PENDING | SUCCESS | FAILED | PAYMENT_REFUNDED
}
