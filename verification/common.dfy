/** Identifiers, request bodies and HTTP outcomes shared by the whole model. */
module Common {

  datatype Option<+T> = None | Some(value: T)

  datatype Result<+T, +E> = Success(value: T) | Failure(error: E)

  /** Primary keys. Request bodies may carry any integer, so keys are plain integers
      and a key that names no row is simply absent from its table. */
  type UserId = int
  type ItemId = int
  type CategoryId = int
  type OrderId = int

  /** The calendar day an order is placed on; the clock is an input of the model. */
  type Date = nat

  /** Money in cents: the two-decimal `Decimal` amounts of the source, exactly. */
  type Cents = int

  /** The integer-valued fields of a request body, by field name. */
  type RequestData = map<string, int>

  /** The HTTP methods the modelled views distinguish. */
  datatype Method = GET | POST | PUT | PATCH | DELETE

  /** Status codes of the responses the modelled views produce. */
  datatype Status =
    | Ok200
    | Created201
    | BadRequest400
    | Unauthorized401
    | Forbidden403
    | NotFound404
    | ServerError500
}
