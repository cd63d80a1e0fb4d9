/**
 * The "one at a time" choice shared by the FAQ (which answer is open, which
 * answer is being read aloud) and the voice gallery (which preview is
 * playing): `current === i ? null : i`.  Holding a single optional index,
 * at most one entry is ever on.
 */
module OneAtATime {
  import opened Wrappers

  /** Clicking entry `i`: switch it off if it is the one that is on, otherwise switch it on alone. */
  function Toggle(current: Option<nat>, i: nat): (r: Option<nat>)
    ensures r.None? <==> current == Some(i)
    ensures r.Some? ==> r == Some(i)
  {
    if current == Some(i) then None else Some(i)
  }

  /** Clicking the same entry twice restores the state when that entry was on or nothing was. */
  lemma ToggleTwiceRestores(current: Option<nat>, i: nat)
    requires current == Some(i) || current.None?
    ensures Toggle(Toggle(current, i), i) == current
  {
  }

  /** When another entry was on, two clicks on `i` leave nothing on. */
  lemma ToggleTwiceFromOther(j: nat, i: nat)
    requires j != i
    ensures Toggle(Some(j), i) == Some(i)
    ensures Toggle(Toggle(Some(j), i), i) == None
  {
  }
}
