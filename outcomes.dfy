/** Values that come back from collaborators the client cannot see: the backend
    (through the API gateway) and the session store (AuthContext). */
module Outcomes {

  datatype Option<+T> = None | Some(value: T) {
    function GetOr(default: T): T {
      match this
      case Some(v) => v
      case None => default
    }
  }

  /** One awaited backend call: it resolves with a response body or it rejects. */
  datatype Reply<+T> = Ok(body: T) | Failed

  /** What `register(...)` / `updateProfile(...)` of the session store hand back:
      `{ success: true }`, `{ success: false, message }` (the message may be
      missing), or an exception thrown out of the await. */
  datatype AuthResult = Succeeded | Refused(message: Option<string>) | Threw

  /** JavaScript's `v || d` for a string that may be undefined: an absent value and
      the empty string are both falsy and fall back to `d`. */
  function OrString(v: Option<string>, d: string): (r: string)
    ensures v.Some? && v.value != "" ==> r == v.value
    ensures v.None? || v.value == "" ==> r == d
  {
    if v.Some? && v.value != "" then v.value else d
  }
}
