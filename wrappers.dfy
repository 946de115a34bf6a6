/** The usual optional value, used for "no socket", "no pending job", "nothing drawn yet". */
module Wrappers {
  datatype Option<T> = None | Some(value: T)

  /** The one or zero identities an optional field holds. */
  function Held(o: Option<nat>): (r: set<nat>)
    ensures o.None? ==> r == {}
    ensures o.Some? ==> r == {o.value}
  {
    if o.Some? then {o.value} else {}
  }
}
