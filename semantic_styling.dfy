/** SemanticStylingAPI: marker classes on header and footer elements. */
module SemanticStyling {
  import opened Dom

  const SemanticHeader := "semantic-header"
  const SemanticFooter := "semantic-footer"

  /**
   * `applySemanticStyles`, with the `header` and `footer` elements of the
   * document passed as `headers` and `footers`.
   */
  method ApplySemanticStyles(headers: seq<Element>, footers: seq<Element>)
    modifies headers`classes, footers`classes
    ensures forall e :: e in headers ==> SemanticHeader in e.classes
    ensures forall e :: e in footers ==> SemanticFooter in e.classes
    ensures forall e :: e in headers && e !in footers ==> e.classes == old(e.classes) + {SemanticHeader}
    ensures forall e :: e in footers && e !in headers ==> e.classes == old(e.classes) + {SemanticFooter}
    ensures forall e :: e in headers && e in footers ==> e.classes == old(e.classes) + {SemanticHeader, SemanticFooter}
  {
    AddToEach(headers, SemanticHeader);
    AddToEach(footers, SemanticFooter);
  }
}
