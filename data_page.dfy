/**
 * The data page's company list and the routing of a click on a company
 * card: an if/else-if chain on the card's name that makes at most one call
 * to the optional `onCompanyNavigate` callback.
 */
module DataPage {
  import opened Wrappers
  import opened Pages
  import CompanyCard

  /** The `companies` list, by name, in display order; a card's index is its position. */
  const Companies: seq<string> := ["Wayfair", "Grand Circle Travel", "The Daily Beast", "DuPont"]

  /** The page a card with this name asks to open, if any. */
  function CompanyRoute(name: string): (r: Option<Page>)
    ensures r == Some(Wayfair) <==> name == "Wayfair"
    ensures r == Some(Gcc) <==> name == "Grand Circle Travel" || name == "GCC"
    ensures r == Some(DailyBeast) <==> name == "The Daily Beast"
    ensures r.Some? ==> r.value == Wayfair || r.value == Gcc || r.value == DailyBeast
  {
    if name == "Wayfair" then Some(Wayfair)
    else if name == "Grand Circle Travel" then Some(Gcc)
    else if name == "GCC" then Some(Gcc)
    else if name == "The Daily Beast" then Some(DailyBeast)
    else None
  }

  /**
   * The calls a click on the card makes; `hasHandler` says whether the
   * optional callback was supplied (`?.` skips the call otherwise).
   */
  function CompanyClick(name: string, hasHandler: bool): (calls: seq<Page>)
    ensures |calls| <= 1
    ensures !hasHandler ==> calls == []
    ensures hasHandler ==> (calls != [] <==> CompanyRoute(name).Some?)
    ensures calls != [] ==> Some(calls[0]) == CompanyRoute(name)
  {
    match CompanyRoute(name)
    case Some(p) => if hasHandler then [p] else []
    case None => []
  }

  /** Clicking each listed card, with the callback supplied: three navigate, DuPont does not. */
  lemma ListedCardsRoute()
    ensures CompanyClick(Companies[0], true) == [Wayfair]
    ensures CompanyClick(Companies[1], true) == [Gcc]
    ensures CompanyClick(Companies[2], true) == [DailyBeast]
    ensures CompanyClick(Companies[3], true) == []
  {
  }

  /** No company name ever leads to the DuPont page: the chain has no branch for it. */
  lemma DuPontUnreachable(name: string, hasHandler: bool)
    ensures DuPont !in CompanyClick(name, hasHandler)
  {
  }

  /** Routed cards in the list open pairwise different pages. */
  lemma RoutesDistinct(i: nat, j: nat)
    requires i < |Companies| && j < |Companies|
    requires CompanyRoute(Companies[i]).Some? && CompanyRoute(Companies[i]) == CompanyRoute(Companies[j])
    ensures i == j
  {
  }

  /** The cards are labelled "01" to "04" in list order. */
  lemma CardLabels()
    ensures forall i :: 0 <= i < |Companies| ==> CompanyCard.IndexLabel(i) == ['0', CompanyCard.DigitChar(i + 1)]
  {
    forall i | 0 <= i < |Companies|
      ensures CompanyCard.IndexLabel(i) == ['0', CompanyCard.DigitChar(i + 1)]
    {
      CompanyCard.IndexLabelSingleDigit(i);
    }
  }
}
