/**
 * ResponsiveDesignAPI: breakpoint labels chosen from the length of the
 * content, and the body's mobile layout class chosen from its width.
 */
module ResponsiveDesign {
  import opened Dom
  import ClassList

  const Md := "md"
  const Lg := "lg"
  const MobileLayout := "mobile-layout"

  /** Widths below this many pixels count as mobile. */
  const MobileWidthLimit := 600
  /** Content longer than this gets the "md" breakpoint. */
  const MdLengthLimit := 1000
  /** Content longer than this gets the "lg" breakpoint as well. */
  const LgLengthLimit := 5000

  /** The breakpoint labels for content of the given length, smallest first. */
  function Breakpoints(length: nat): (bps: seq<string>)
    ensures Md in bps <==> length > MdLengthLimit
    ensures Lg in bps <==> length > LgLengthLimit
    ensures Lg in bps ==> bps == [Md, Lg]
    ensures Lg !in bps ==> bps == if Md in bps then [Md] else []
  {
    if length <= MdLengthLimit then []
    else if length <= LgLengthLimit then [Md]
    else [Md, Lg]
  }

  /** Longer content never loses a breakpoint: the labels only grow, at the end. */
  lemma BreakpointsGrowWithLength(shorter: nat, longer: nat)
    requires shorter <= longer
    ensures Breakpoints(shorter) <= Breakpoints(longer)
  {
  }

  /** `autoBreakpoints`: pushes "md", then "lg", onto an initially empty list. */
  method AutoBreakpoints(content: string) returns (bps: seq<string>)
    ensures bps == Breakpoints(|content|)
  {
    bps := [];
    if |content| > MdLengthLimit {
      bps := bps + [Md];
    }
    if |content| > LgLengthLimit {
      bps := bps + [Lg];
    }
  }

  /** `adjustLayoutBasedOnContent`, with the body's `offsetWidth` passed as `width`. */
  method AdjustLayoutBasedOnContent(body: Element, width: int)
    modifies body`classes
    ensures body.classes == ClassList.Toggle(old(body.classes), MobileLayout, width < MobileWidthLimit)
    ensures MobileLayout in body.classes <==> width < MobileWidthLimit
    ensures forall x :: x != MobileLayout ==> (x in body.classes <==> x in old(body.classes))
    ensures (MobileLayout in old(body.classes) <==> width < MobileWidthLimit) ==> body.classes == old(body.classes)
  {
    if width < MobileWidthLimit {
      body.classes := body.classes + {MobileLayout};
    } else {
      body.classes := body.classes - {MobileLayout};
    }
  }
}
