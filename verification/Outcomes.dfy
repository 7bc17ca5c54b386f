/** Option and Result values shared by every component, and the errors the API answers with. */
module Outcomes {

  datatype Option<+T> = None | Some(value: T) {
    function GetOr(fallback: T): T {
      if Some? then value else fallback
    }
  }

  /** BadRequest is HTTP 400 and NotFound 404. Conflict, KeyReused and KeyBusy are HTTP 409.
      Duplicate is an unhandled unique-key violation, answered with HTTP 500. */
  datatype Error = BadRequest | NotFound | Conflict | KeyReused | KeyBusy | Duplicate

  datatype Result<+T> = Ok(value: T) | Fail(error: Error)

  function Least(a: int, b: int): int {
    if a < b then a else b
  }
}
