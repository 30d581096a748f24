/** Values shared by every screen of the booking client: the abstract outcome
    of an HTTP call, the dismissible alert, instants, and JavaScript's `||`
    on optional strings. */
module Common {

  /** Option, for values the backend may omit (`undefined`/`null`). */
  datatype Option<+T> = None | Some(value: T)

  /** The outcome of one awaited HTTP call: the response body on a 2xx
      status, otherwise the rejection, carrying `response.data.error`
      when the backend sent one. */
  datatype Response<+T> = Ok(data: T) | Failed(errorBody: Option<string>)

  /** `severity` of an alert; `Blank` is the `''` of a cleared alert. */
  datatype Severity = Blank | Success | Info | Warning | Error

  /** The `{ message, severity }` record every screen keeps in state. */
  datatype Alert = Alert(message: string, severity: Severity)

  /** `{ message: '', severity: '' }`: no alert is shown. */
  const NoAlert := Alert("", Blank)

  /** An instant in milliseconds of local time, or the result of parsing a
      string that is not a date (an Invalid Date, which compares false
      against every instant). */
  datatype Stamp = At(ms: int) | Unparsable

  /** `new Date(s) > now` and `isAfter(parseISO(s), now)`: an unparsable
      instant is never after `now`. */
  predicate IsAfter(s: Stamp, now: int)
  {
    s.At? && s.ms > now
  }

  /** JavaScript truthiness of an optional string: present and not empty. */
  predicate Truthy(v: Option<string>)
  {
    v.Some? && v.value != ""
  }

  /** `v || fallback` for an optional string. */
  function OrElse(v: Option<string>, fallback: string): (r: string)
    ensures Truthy(v) ==> r == v.value
    ensures !Truthy(v) ==> r == fallback
    ensures r == "" ==> fallback == ""
  {
    if Truthy(v) then v.value else fallback
  }

  /** Where a handler sends the router, if anywhere. */
  datatype Navigation = Stay | NavigateTo(path: string)
}
