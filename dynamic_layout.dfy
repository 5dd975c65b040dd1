/**
 * DynamicLayoutAPI: a layout class chosen from the network's effective
 * type, and a layout mode chosen from the body width and the content length.
 */
module DynamicLayout {
  import opened Wrappers
  import opened Dom
  import ResponsiveDesign

  const HighSpeedLayout := "high-speed-layout"
  const LowSpeedLayout := "low-speed-layout"
  const FastConnection := "4g"

  /** Bodies narrower than this many pixels get the flex layout. */
  const FlexWidthLimit := 600
  /** On a wider body, content longer than this gets the grid layout. */
  const GridLengthLimit := 1000

  /**
   * The class `switchLayoutBasedOnConditions` adds for an effective type
   * (`None` when the browser offers no connection information).
   */
  function LayoutClassFor(connection: Option<string>): (c: string)
    ensures c == HighSpeedLayout <==> connection == Some(FastConnection)
    ensures c == LowSpeedLayout <==> connection != Some(FastConnection)
  {
    if connection == Some(FastConnection) then HighSpeedLayout else LowSpeedLayout
  }

  /** `switchLayoutBasedOnConditions`, with `navigator.connection?.effectiveType` passed as `connection`. */
  method SwitchLayoutBasedOnConditions(body: Element, connection: Option<string>)
    modifies body`classes
    ensures body.classes == old(body.classes) + {LayoutClassFor(connection)}
    ensures old(body.classes) <= body.classes
    ensures LayoutClassFor(connection) in old(body.classes) ==> body.classes == old(body.classes)
  {
    if connection == Some(FastConnection) {
      body.classes := body.classes + {HighSpeedLayout};
    } else {
      body.classes := body.classes + {LowSpeedLayout};
    }
  }

  /** The body's class set after one call per observed connection, in order. */
  function SwitchSeries(classes: set<string>, connections: seq<Option<string>>): (r: set<string>)
    ensures classes <= r
    ensures forall x :: x in r && x != HighSpeedLayout && x != LowSpeedLayout ==> x in classes
    decreases |connections|
  {
    if connections == [] then classes
    else SwitchSeries(classes + {LayoutClassFor(connections[0])}, connections[1..])
  }

  /**
   * Repeated calls only accumulate: the high-speed class is present once any
   * call saw "4g", the low-speed class once any call saw something else, and
   * no other class changes.
   */
  lemma {:induction false} SwitchSeriesAccumulates(classes: set<string>, connections: seq<Option<string>>)
    ensures classes <= SwitchSeries(classes, connections)
    ensures HighSpeedLayout in SwitchSeries(classes, connections) <==>
      HighSpeedLayout in classes || Some(FastConnection) in connections
    ensures LowSpeedLayout in SwitchSeries(classes, connections) <==>
      LowSpeedLayout in classes || exists conn :: conn in connections && conn != Some(FastConnection)
    ensures forall x :: x != HighSpeedLayout && x != LowSpeedLayout ==>
      (x in SwitchSeries(classes, connections) <==> x in classes)
    decreases |connections|
  {
    if connections != [] {
      var rest := connections[1..];
      SwitchSeriesAccumulates(classes + {LayoutClassFor(connections[0])}, rest);
      assert forall conn :: conn in connections <==> conn == connections[0] || conn in rest;
      if connections[0] != Some(FastConnection) {
        assert connections[0] in connections;
      }
    }
  }

  /** A "4g" call and a call without connection information leave both layout classes on the body. */
  lemma MixedConditionsLeaveBoth(classes: set<string>, connections: seq<Option<string>>)
    requires Some(FastConnection) in connections && None in connections
    ensures HighSpeedLayout in SwitchSeries(classes, connections)
    ensures LowSpeedLayout in SwitchSeries(classes, connections)
  {
    SwitchSeriesAccumulates(classes, connections);
  }

  /** `detectBestLayout`, with the body's `offsetWidth` passed as `width`. */
  function DetectBestLayout(width: int, content: string): (layout: string)
    ensures layout in {"flex", "grid", "block"}
    ensures layout == "flex" <==> width < FlexWidthLimit
    ensures layout == "grid" <==> width >= FlexWidthLimit && |content| > GridLengthLimit
  {
    if width < FlexWidthLimit then "flex"
    else if |content| > GridLengthLimit then "grid" else "block"
  }

  /**
   * On a wide body the grid layout is chosen for exactly the content that
   * also gets the "md" breakpoint.
   */
  lemma GridExactlyWithMdBreakpoint(width: int, content: string)
    requires width >= FlexWidthLimit
    ensures DetectBestLayout(width, content) == "grid" <==> ResponsiveDesign.Md in ResponsiveDesign.Breakpoints(|content|)
  {
  }
}
