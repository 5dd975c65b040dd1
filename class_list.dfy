/**
 * The class set of an element (its `classList`) as a value, and the two
 * updates the library performs on it: adding a class, and forcing a class
 * on or off according to a condition.
 */
module ClassList {

  /**
   * The class set after `classList.add(c)` when `on` holds and
   * `classList.remove(c)` otherwise.
   */
  function Toggle(classes: set<string>, c: string, on: bool): (r: set<string>)
    ensures c in r <==> on
    ensures forall x :: x != c ==> (x in r <==> x in classes)
  {
    if on then classes + {c} else classes - {c}
  }

  /** A set already in the state a toggle asks for is left as it is. */
  lemma ToggleInPlace(classes: set<string>, c: string, on: bool)
    requires c in classes <==> on
    ensures Toggle(classes, c, on) == classes
  {
  }

  /** A later toggle of the same class overrides an earlier one. */
  lemma ToggleOverrides(classes: set<string>, c: string, first: bool, second: bool)
    ensures Toggle(Toggle(classes, c, first), c, second) == Toggle(classes, c, second)
  {
  }

  /** The class set after toggling `c` once for each decision in `ons`, in order. */
  function ToggleSeries(classes: set<string>, c: string, ons: seq<bool>): (r: set<string>)
    ensures forall x :: x != c ==> (x in r <==> x in classes)
    ensures ons == [] ==> r == classes
    decreases |ons|
  {
    if ons == [] then classes else ToggleSeries(Toggle(classes, c, ons[0]), c, ons[1..])
  }

  /**
   * Only the last of a series of toggles matters: the class is present
   * exactly when the last decision says so, and every other class is as it
   * was before the series.
   */
  lemma {:induction false} LastToggleWins(classes: set<string>, c: string, ons: seq<bool>)
    requires ons != []
    ensures ToggleSeries(classes, c, ons) == Toggle(classes, c, ons[|ons| - 1])
    decreases |ons|
  {
    if |ons| > 1 {
      LastToggleWins(Toggle(classes, c, ons[0]), c, ons[1..]);
      ToggleOverrides(classes, c, ons[0], ons[|ons| - 1]);
    }
  }
}
