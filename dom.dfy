/**
 * The part of a DOM element the library reads and writes: its class set,
 * four inline style properties, and the font size its computed style
 * reports.
 */
module Dom {
  import opened Wrappers

  class Element {
    /** `classList`, as a set of class names. */
    var classes: set<string>
    /**
     * The computed `font-size` in whole pixels, as `parseInt` reads it from
     * `getComputedStyle(element).fontSize`; the library never writes it.
     */
    const computedFontSizePx: int
    /** Inline `margin-bottom` in pixels; `None` while it is unset. */
    var marginBottom: Option<real>
    /** Inline `transition`, `transform` and `background-color`, as opaque text ("" is unset). */
    var transition: string
    var transform: string
    var backgroundColor: string
  }

  /** `elements.forEach(e => e.classList.add(c))`. */
  method AddToEach(elements: seq<Element>, c: string)
    modifies elements`classes
    ensures forall e :: e in elements ==> e.classes == old(e.classes) + {c}
  {
    var i := 0;
    while i < |elements|
      invariant 0 <= i <= |elements|
      invariant forall e :: e in elements[..i] ==> e.classes == old(e.classes) + {c}
      invariant forall e :: e in elements[i..] && e !in elements[..i] ==> e.classes == old(e.classes)
    {
      var e := elements[i];
      e.classes := e.classes + {c};
      assert elements[..i + 1] == elements[..i] + [e];
      i := i + 1;
    }
    assert elements[..i] == elements;
  }
}
