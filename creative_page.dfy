/**
 * The creative page's project list, the routing of a click on a project
 * card (an if/else-if chain on the exact title, at most one call to the
 * optional `onProjectNavigate`), and the layout rule for the third card.
 */
module CreativePage {
  import opened Wrappers
  import opened Pages

  /** The `projects` list, by title, in display order. */
  const Projects: seq<string> := ["Aaroha", "Shaktivikasa", "Movement"]

  /** The page a card with this title asks to open; titles are compared exactly, case included. */
  function ProjectRoute(title: string): (r: Option<Page>)
    ensures r == Some(Aaroha) <==> title == "Aaroha"
    ensures r == Some(ShaktiVikasa) <==> title == "Shaktivikasa"
    ensures r == Some(Movement) <==> title == "Movement"
    ensures r.None? <==> title !in Projects
  {
    if title == "Aaroha" then Some(Aaroha)
    else if title == "Shaktivikasa" then Some(ShaktiVikasa)
    else if title == "Movement" then Some(Movement)
    else None
  }

  /** The calls a click on the card makes, given whether the callback was supplied. */
  function ProjectClick(title: string, hasHandler: bool): (calls: seq<Page>)
    ensures |calls| <= 1
    ensures !hasHandler ==> calls == []
    ensures hasHandler ==> (calls != [] <==> title in Projects)
    ensures calls != [] ==> Some(calls[0]) == ProjectRoute(title)
  {
    match ProjectRoute(title)
    case Some(p) => if hasHandler then [p] else []
    case None => []
  }

  /** Every listed card routes to its own page, and the comparison is case-sensitive. */
  lemma ListedProjectsRoute()
    ensures ProjectClick(Projects[0], true) == [Aaroha]
    ensures ProjectClick(Projects[1], true) == [ShaktiVikasa]
    ensures ProjectClick(Projects[2], true) == [Movement]
    ensures ProjectClick("aaroha", true) == [] && ProjectClick("ShaktiVikasa", true) == []
  {
  }

  /** The grid position that gets the full-width (two-column, centred) wrapper. */
  predicate FullWidth(index: int)
  {
    index == 2
  }

  /** Among the listed projects exactly the last, Movement, is shown full width. */
  lemma OnlyMovementFullWidth()
    ensures forall i :: 0 <= i < |Projects| ==> (FullWidth(i) <==> Projects[i] == "Movement")
    ensures forall i :: 0 <= i < |Projects| ==> (FullWidth(i) <==> i == |Projects| - 1)
  {
  }
}
