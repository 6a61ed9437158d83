/** The few JavaScript value rules the route handlers rely on. */
module JsValues {
  import opened Wrappers

  /** `!!v` for an optional string: missing and empty are both falsy,
      every other string is truthy. */
  function Truthy(v: Option<string>): (b: bool)
    ensures b ==> v.Some?
    ensures v.Some? ==> (b <==> v.value != "")
  {
    v.Some? && v.value != ""
  }

  /** `${v}` in a template literal: a missing value prints as `undefined`. */
  function Interpolate(v: Option<string>): (r: string)
    ensures v.Some? ==> r == v.value
    ensures v.None? ==> r == "undefined"
  {
    match v
    case Some(s) => s
    case None => "undefined"
  }

  /** `error.message || fallback`. */
  function MessageOr(message: string, fallback: string): (r: string)
    ensures message != "" ==> r == message
    ensures message == "" ==> r == fallback
  {
    if message != "" then message else fallback
  }
}
