/**
 * The exceptions the authentication service can raise. Every one of them is
 * a `RuntimeException`; only `AuthenticationFailure` is also an
 * `AuthenticationException`.
 */
module Exceptions {

  datatype Thrown =
    /** `new RuntimeException(message)`, as thrown for a wrong admin code. */
    | Runtime(message: string)
    /** The unique key on `email` refused an insert; `message` is what the database reports. */
    | DataIntegrityViolation(message: string)
    /** `Optional.orElseThrow()` on an empty result. */
    | NoSuchElement
    /** The authentication manager refused the credentials, with its own message. */
    | AuthenticationFailure(message: string)

  /** `e.getMessage()`. */
  function Message(e: Thrown): string {
    match e
    case Runtime(m) => m
    case DataIntegrityViolation(m) => m
    case NoSuchElement => "No value present"
    case AuthenticationFailure(m) => m
  }

  predicate IsAuthentication(e: Thrown) {
    e.AuthenticationFailure?
  }
}

/**
 * The controller advice: an authentication failure answers 401 with a fixed
 * message, any other runtime exception answers 400 with its own message.
 * Spring picks the handler whose exception type is closest to the thrown
 * one, so an `AuthenticationException`, though also a `RuntimeException`,
 * reaches the 401 handler.
 */
module ExceptionHandler {
  import opened Wrappers
  import opened Exceptions
  import Http
  import Submission

  const AuthFailureMessage := "Invalid email or password."

  /** The HTTP response the advice builds for `e`: a status and a JSON body. */
  function Handle(e: Thrown): (r: Http.Response)
    ensures r.status == 401 <==> IsAuthentication(e)
    ensures r.status == 400 <==> !IsAuthentication(e)
    ensures r.json.Some? && r.json.value.Keys == {"message"}
    ensures IsAuthentication(e) ==> r.json.value["message"] == AuthFailureMessage
    ensures !IsAuthentication(e) ==> r.json.value["message"] == Message(e)
  {
    if IsAuthentication(e) then Http.Response(401, Some(map["message" := AuthFailureMessage]))
    else Http.Response(400, Some(map["message" := Message(e)]))
  }

  /** The 401 message is the same whatever the authentication failure said. */
  lemma AuthMessageIgnored(a: string, b: string)
    ensures Handle(AuthenticationFailure(a)) == Handle(AuthenticationFailure(b))
  {
  }

  /**
   * A page reads every handled exception as a refusal carrying the
   * response's message: never as an ok answer, never as a network failure.
   */
  lemma HandledIsRefusal(e: Thrown)
    ensures !Http.IsOk(Handle(e))
    ensures Submission.Receive(Handle(e)) ==
      Submission.NotOk(Some(if IsAuthentication(e) then AuthFailureMessage else Message(e)))
  {
  }
}
