/**
 * The failures an HTTP request reports to its `error` callback: a status
 * (0 when the server could not be reached) and the parsed response body,
 * which may be text, a JSON record, or nothing.
 */
module HttpErrors {
  import opened JsValues

  datatype HttpError = HttpError(status: int, error: JsValue)

  /** `value || fallback` shown as text: a falsy value gives way to the
      fallback, and the text shown is never empty when the fallback is not. */
  function TextOr(v: JsValue, fallback: string): (r: string)
    ensures Truthy(v) ==> r == JsString(v)
    ensures !Truthy(v) ==> r == fallback
    ensures fallback != "" ==> r != ""
  {
    if Truthy(v) then
      TruthyTextNonEmpty(v);
      JsString(v)
    else fallback
  }

  /** `body?.message || fallback`. */
  function MessageOr(body: JsValue, fallback: string): (r: string)
    ensures fallback != "" ==> r != ""
  {
    TextOr(Get(body, "message"), fallback)
  }

  /** A body that carries a non-empty text `message` supplies the message;
      a body that is plain text, or a record without a usable `message`,
      leaves the fallback. */
  lemma MessageOrCases(body: JsValue, fallback: string)
    ensures body.Obj? && "message" in body.fields && body.fields["message"].Str?
              && body.fields["message"].s != ""
            ==> MessageOr(body, fallback) == body.fields["message"].s
    ensures !body.Obj? ==> MessageOr(body, fallback) == fallback
    ensures body.Obj? && ("message" !in body.fields || !Truthy(body.fields["message"]))
            ==> MessageOr(body, fallback) == fallback
  {
  }
}
