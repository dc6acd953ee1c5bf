/** The default methods of the `Activeable` trait. An implementor supplies
    `is_active`, `set_activity` and `is_legal`; the model takes the implementor's
    state as a value `s: S` and those three as functions, `set_activity` being the
    state it leaves behind. */
module Activeable {

  /** `is_inactive`: the negation of `is_active`. */
  function IsInactive<S>(s: S, isActive: S -> bool): (r: bool)
    ensures r <==> !isActive(s)
  {
    !isActive(s)
  }

  /** `is_illegal`: the negation of `is_legal`. */
  function IsIllegal<S>(s: S, isLegal: S -> bool): (r: bool)
    ensures r <==> !isLegal(s)
  {
    !isLegal(s)
  }

  /** `switch_activity`: `set_activity` applied to the negation of the activity read
      before the call. */
  function SwitchActivity<S>(s: S, isActive: S -> bool, setActivity: (S, bool) -> S): (r: S)
    ensures r == setActivity(s, !isActive(s))
  {
    setActivity(s, IsInactive(s, isActive))
  }

  /** An implementor whose `set_activity(b)` makes `is_active()` return `b`. */
  ghost predicate HonoursSetActivity<S(!new)>(isActive: S -> bool, setActivity: (S, bool) -> S)
  {
    forall s, b :: isActive(setActivity(s, b)) == b
  }

  /** For such an implementor a switch flips the activity, and a second switch
      brings it back. */
  lemma SwitchFlips<S(!new)>(s: S, isActive: S -> bool, setActivity: (S, bool) -> S)
    requires HonoursSetActivity(isActive, setActivity)
    ensures isActive(SwitchActivity(s, isActive, setActivity)) == !isActive(s)
    ensures isActive(SwitchActivity(SwitchActivity(s, isActive, setActivity), isActive, setActivity)) == isActive(s)
  {
  }

  /** For an implementor whose `set_activity` leaves the state as it was, a switch
      changes nothing (the case of the blanket `Node` implementation, see `Nodes`). */
  lemma SwitchWithoutEffect<S>(s: S, isActive: S -> bool, setActivity: (S, bool) -> S)
    requires forall b :: setActivity(s, b) == s
    ensures SwitchActivity(s, isActive, setActivity) == s
  {
  }
}
