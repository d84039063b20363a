/** The stored entities. A payer carries the event it was first recorded under
    (the `event_id` column of the payers table). */
module Entity {

  import opened ValueObject

  /** `PaymentID` wraps a random UUID in Go; here it is an opaque number drawn
      from a counter that never repeats. */
  datatype PaymentID = PaymentID(uuid: nat)

  datatype Event = Event(id: EventID)

  datatype Payer = Payer(id: PayerID, eventID: EventID)

  datatype Payment = Payment(id: PaymentID, eventID: EventID, payerID: PayerID, amount: Yen)

}
