# SmartCSS decision rules and class-set updates, in Dafny

SmartCSS (`smartCSS.ts`) is a browser styling helper: eight groups of static
functions that read the page's layout and the browser's environment, then set
CSS classes or inline styles. This project models the part of it that makes
decisions:

- the breakpoint labels for a piece of content;
- the layout mode and the theme name;
- the bottom margin derived from a font size;
- the class updates on the body and on lists of matched elements.

Every value the library reads from the browser becomes a parameter:

- the body's `offsetWidth` and `window.innerWidth` become `width: int`;
- `navigator.connection?.effectiveType` becomes `Option<string>`, `None` when the browser has no connection information;
- the result of each `querySelectorAll` becomes a `seq<Element>`;
- the `parseInt` of an element's computed font size becomes the constant field `Element.computedFontSizePx`.

An element (`Dom.Element`) is an object whose fields change in place:

- `classes`, its `classList` as a set of strings;
- `marginBottom`, an exact `real` number of pixels, `None` while unset;
- `transition`, `transform` and `backgroundColor`, opaque strings.

Each method's `modifies` clause names only the field that the source writes.
So the frame proves that nothing else changes, and that elements outside the
given lists are untouched.

Modules follow the source's API classes:

- `ResponsiveDesign`
- `SpacingAdjustment`
- `DynamicLayout`
- `SemanticStyling`
- `ThemeCustomization`
- `ContextualAnimation`

They share `Dom` (the element and its `forEach` add), `ClassList` (the pure
class-set rules) and `Wrappers` (`Option`). `Scenarios` holds callers that
run operations twice. From the contracts alone, these callers prove:

- the toggles are idempotent;
- the semantic tags are idempotent;
- the connection-dependent layout classes accumulate.

## Model

| member | source | states |
|---|---|---|
| `ClassList.Toggle` | smartCSS.ts:14-18 | after forcing a class on or off, the class is present iff the condition holds, and every other class is as before |
| `ClassList.ToggleInPlace` | smartCSS.ts:14-18 | a class set already in the requested state is unchanged by the toggle (a repeated call changes nothing) |
| `ClassList.ToggleOverrides` | smartCSS.ts:36-40 | a second toggle of the same class undoes the effect of the first; only the second decision remains |
| `ClassList.ToggleSeries` | smartCSS.ts:12-19 | a series of toggles of one class leaves every other class as it was, and an empty series changes nothing |
| `ClassList.LastToggleWins` | smartCSS.ts:12-19 | after any non-empty series of toggles of one class, the set equals a single toggle with the last decision |
| `Dom.AddToEach` | smartCSS.ts:70-72 | `forEach(e => e.classList.add(c))`: every listed element gains `c`, keeps its other classes, and duplicates in the list do no harm; unlisted elements and other fields are untouched (frame) |
| `ResponsiveDesign.Breakpoints` | smartCSS.ts:5-9 | "md" is present iff length > 1000 and "lg" iff length > 5000; "lg" only ever appears as `["md","lg"]`, after "md" |
| `ResponsiveDesign.BreakpointsGrowWithLength` | smartCSS.ts:7-8 | longer content yields the labels of shorter content as a prefix |
| `ResponsiveDesign.AutoBreakpoints` | smartCSS.ts:5-10 | the pushed list is exactly the breakpoint table for the content's length |
| `ResponsiveDesign.AdjustLayoutBasedOnContent` | smartCSS.ts:12-19 | `mobile-layout` is on the body iff width < 600; other classes unchanged; a body already in that state is unchanged |
| `SpacingAdjustment.HalfPx` | smartCSS.ts:27-28 | the margin is exactly half the font size: twice it equals the size; it is whole for an even size and ends in .5 for an odd one |
| `SpacingAdjustment.AutoSpacing` | smartCSS.ts:24-30 | every given element's bottom margin becomes half of its own computed font size; nothing else is written |
| `SpacingAdjustment.OptimizeSpacingForResponsive` | smartCSS.ts:32-42 | every given element holds `mobile-spacing` iff width < 600, keeps its other classes, and is unchanged if already in that state; other elements untouched |
| `DynamicLayout.LayoutClassFor` | smartCSS.ts:48-53 | `high-speed-layout` exactly for effective type "4g", `low-speed-layout` otherwise, including when connection information is absent |
| `DynamicLayout.SwitchLayoutBasedOnConditions` | smartCSS.ts:47-54 | adds the class for the connection and never removes one; unchanged if that class is already present |
| `DynamicLayout.SwitchSeries` | smartCSS.ts:47-54 | a series of layout switches never removes a class and adds none but the two layout classes |
| `DynamicLayout.SwitchSeriesAccumulates` | smartCSS.ts:47-54 | over any series of calls, the high-speed class is present iff some call saw "4g" (or it was there before), the low-speed class iff some call saw anything else, and no other class changes |
| `DynamicLayout.MixedConditionsLeaveBoth` | smartCSS.ts:47-54 | a "4g" call and a call without connection information together leave both layout classes on the body |
| `DynamicLayout.DetectBestLayout` | smartCSS.ts:56-63 | "flex" iff width < 600 regardless of content; "grid" iff width ≥ 600 and length > 1000; otherwise "block" |
| `DynamicLayout.GridExactlyWithMdBreakpoint` | smartCSS.ts:7 | on a body at least 600 wide, "grid" is chosen exactly for content that gets the "md" breakpoint |
| `SemanticStyling.ApplySemanticStyles` | smartCSS.ts:68-78 | every header gains `semantic-header` and every footer `semantic-footer`; nothing else is added or removed |
| `ThemeCustomization.GenerateTheme` | smartCSS.ts:91-97 | total over the four flag combinations, one of the four names; starts with "dark" iff dark mode, with "light" otherwise; ends with "-high-contrast" iff high contrast |
| `ThemeCustomization.ParseTheme` | smartCSS.ts:91-97 | inverse of theme naming: a parsed name regenerates from its preferences, and a name it rejects is generated by no preferences |
| `ThemeCustomization.ParseGeneratedTheme` | smartCSS.ts:91-97 | every generated name parses back to the preferences it came from |
| `ThemeCustomization.GenerateThemeInjective` | smartCSS.ts:91-97 | distinct preferences never produce the same name |
| `ContextualAnimation.AnimateOnAction` | smartCSS.ts:125-133 | "click" sets the transform transition and scale, "hover" the background transition and tint, any other action writes nothing; untouched style fields keep their values |
| `ContextualAnimation.OptimizeAnimationForContext` | smartCSS.ts:135-140 | every given element gains `optimized-animation` and keeps its other classes; already tagged elements are unchanged |
| `Scenarios.AdjustLayoutTwice` | smartCSS.ts:12-19 | two calls with the same width leave the body as one call does |
| `Scenarios.OptimizeSpacingTwice` | smartCSS.ts:32-42 | two calls with the same width leave every element as one call does |
| `Scenarios.SwitchFastThenUnknown` | smartCSS.ts:47-54 | a "4g" call followed by a call without connection information leaves both layout classes, and removes nothing |
| `Scenarios.ApplySemanticStylesTwice` | smartCSS.ts:68-78 | applying the semantic styles twice adds no more than applying them once |
| `Scenarios.AdjustLayoutForEachWidth` | smartCSS.ts:12-19 | calling `adjustLayoutBasedOnContent` once per width, in order, leaves the body's classes equal to the toggle series for those widths |
| `Scenarios.SwitchLayoutForEachConnection` | smartCSS.ts:47-54 | calling `switchLayoutBasedOnConditions` once per connection, in order, leaves the body's classes equal to the switch series for those connections |

## Left out

- `analyzeCSSPerformance`, `suggestCSSOptimization` and `optimizeLayoutAnimation` (smartCSS.ts:106-120, 164-166) only write to the console, so they have no behaviour to model.
- `animateLayoutTransition` (smartCSS.ts:145-162) is left out. Its behaviour is two nested `setTimeout` callbacks, and event-loop timers and their interleaving are not modelled.
- `optimizeForAccessibility` and `applyUserTheme` (smartCSS.ts:80-86, 99-101) are left out. They are a fixed set of style writes and a single `classList.add`, with nothing to state beyond the code itself.
- The model does not cover how environment values are obtained. `querySelectorAll`, `offsetWidth`, `innerWidth`, `getComputedStyle`, `parseInt` of a CSS string and `navigator.connection` are browser APIs, so their results are parameters. Nothing checks that a passed element list really matches its selector.
- `ResponsiveDesign.AdjustLayoutBasedOnContent`, `DynamicLayout.SwitchLayoutBasedOnConditions` and `DynamicLayout.DetectBestLayout` assume that the document has a body. The source dereferences `document.body` (smartCSS.ts:13, 50, 52, 57), which is null when the script runs before `<body>` is parsed; the source then throws a `TypeError`. The model has a non-null `body` and a `width` that always has a value, so that failure is not modelled.
- `SpacingAdjustment.AutoSpacing` keeps the margin as an exact number of pixels, not as the text `` `${n}px` ``. It assumes the computed font size parses to an integer, so the `NaN` that `parseInt` yields for unparsable text is not modelled.
- `SpacingAdjustment.OptimizeSpacingForResponsive` reads the width once. The source re-reads `window.innerWidth` for every element, but the value cannot change during the synchronous loop.
- `ResponsiveDesign.AutoBreakpoints` and `DynamicLayout.DetectBestLayout` measure content in Unicode characters. JavaScript's `length` counts UTF-16 code units, so the two differ for text outside the Basic Multilingual Plane.
- The class list is modelled as a set. The insertion order that `DOMTokenList` keeps, and how it serialises to the `class` attribute, are not modelled.
- The CSS meaning of the transition, transform and colour strings is not modelled: they are opaque values assigned to fields.
