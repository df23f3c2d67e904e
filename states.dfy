/** The discrete state of a cover, as the entity holds it in `_state`.
    The entity stores a Home Assistant state string; the four constants it
    assigns itself are "closed", "opening", "open" and "closing".  A state
    restored from the host may be any other string, kept as `Other`. */
module CoverStates {

  datatype CoverState = Closed | Opening | Open | Closing | Other(name: string)

  /** The Home Assistant string of each of the four states the entity assigns. */
  const ClosedName: string := "closed"
  const OpeningName: string := "opening"
  const OpenName: string := "open"
  const ClosingName: string := "closing"

  /** An `Other` never carries one of the four reserved names, so that every
      string denotes exactly one state. */
  predicate WellFormed(st: CoverState) {
    st.Other? ==> st.name !in {ClosedName, OpeningName, OpenName, ClosingName}
  }

  /** The string the entity holds in `_state` for a given state. */
  function Name(st: CoverState): (n: string)
    ensures st.Other? ==> n == st.name
  {
    match st
    case Closed => ClosedName
    case Opening => OpeningName
    case Open => OpenName
    case Closing => ClosingName
    case Other(n) => n
  }

  /** The state denoted by a string held in `_state` (for instance one restored
      from the host's last known state). */
  function StateOf(n: string): (st: CoverState)
    ensures WellFormed(st)
    ensures st.Other? <==> n !in {ClosedName, OpeningName, OpenName, ClosingName}
  {
    if n == ClosedName then Closed
    else if n == OpeningName then Opening
    else if n == OpenName then Open
    else if n == ClosingName then Closing
    else Other(n)
  }

  /** `is_closed`: the entity reports closed exactly when `_state` is "closed". */
  predicate IsClosed(st: CoverState)
    ensures WellFormed(st) ==> (IsClosed(st) <==> Name(st) == ClosedName)
  {
    st == Closed
  }

  /** Reading a string back from the state it denotes gives the same string. */
  lemma NameOfStateOf(n: string)
    ensures Name(StateOf(n)) == n
  {
  }

  /** A well-formed state survives a round trip through its string. */
  lemma StateOfName(st: CoverState)
    requires WellFormed(st)
    ensures StateOf(Name(st)) == st
  {
  }

  /** `is_closed` on a state held as a string: true exactly for "closed". */
  lemma IsClosedName(n: string)
    ensures IsClosed(StateOf(n)) <==> n == ClosedName
  {
  }
}
