/** Values shared by the backend handlers and the frontend: optional values
    and the JavaScript notion of a "truthy" string. */
module Common {

  /** A value that may be absent (JavaScript `undefined`/`null`). */
  datatype Option<+T> = None | Some(value: T)

  /** A string-valued source counts as set when it is present and non-empty,
      as JavaScript's `if (s)` and `a || b` treat strings. */
  predicate Truthy(s: Option<string>) {
    s.Some? && s.value != ""
  }

  /** `message || fallback` on an optional server message: the server's text
      when it is a non-empty string, otherwise the fallback. */
  function MessageOr(message: Option<string>, fallback: string): string
  {
    if Truthy(message) then message.value else fallback
  }
}
