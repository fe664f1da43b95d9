/** Values shared by every component of the alert relay: optional values,
    results, the failures the handler can raise, and the one HTTP status
    both external services report success with. */
module Common {

  datatype Option<+T> = None | Some(value: T)

  datatype Result<+T, +E> = Ok(value: T) | Err(error: E)

  /** The ways one webhook call can end in an exception. */
  datatype Error =
    | AuthFailure          // the identity provider answered with a status other than 200
    | MissingAccessToken   // a 200 answer without an `access_token` field (a KeyError)
    | DeliveryFailure      // the SMS gateway answered with a status other than 200
    | MissingDefaultTeam   // the fallback team is not a key of the contact directory (a KeyError)
    | UnboundMember        // the fallback team is empty, so the extra send names an unbound member

  /** The only status either external service reports success with. */
  const HttpOk := 200
}
