/** Vocabulary shared by every module of the order-to-cash kernel. */
module Common {

  datatype Option<+T> = None | Some(value: T)

  /** How a service call ends. `Failed` stands for the raised exception. */
  datatype Outcome<+T> = Done(value: T) | Failed(error: Error)

  datatype Error =
    | NotFound
    | InvalidLines
    | UnknownAccount
    | ControlAccount
    | PeriodNotOpen
    | ReversalNotAllowed
    | SourceConflict       // the unique index on (company, source type, source id)
    | CheckViolation       // any other constraint of the schema
    | InsufficientStock
    | Conflict             // HTTP 409 raised by a service
    | Rejected             // HTTP 422 raised by a service

  /** A UUID, ordered by its 128-bit value. */
  type Id = nat

  /** A calendar date: its ordinal day, and the year and month it falls in. */
  datatype Date = Date(day: int, year: int, month: int)

  datatype Month = Month(year: int, month: int)

  function MonthOf(d: Date): Month { Month(d.year, d.month) }

  datatype EventType =
    | OrderConfirmed
    | GoodsShipped
    | InvoiceIssued
    | InvoiceVoided
    | PaymentReceived
    | PaymentVoided

  /** The idempotency key of an event inside one company. */
  datatype Source = Source(event: EventType, id: Id)
}
