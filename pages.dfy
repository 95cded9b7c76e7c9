/**
 * The page identifiers of the site's router: the string-literal union
 * 'home' | 'data' | ... | 'movement' that App keeps in `currentPage`.
 */
module Pages {

  datatype Page =
    | Home | Data | Creative
    | Wayfair | Gcc | DailyBeast | DuPont
    | Aaroha | ShaktiVikasa | Movement

  /** The literal the source uses for each page. */
  function Id(p: Page): (id: string)
    ensures |id| > 0
  {
    match p
    case Home => "home"
    case Data => "data"
    case Creative => "creative"
    case Wayfair => "wayfair"
    case Gcc => "gcc"
    case DailyBeast => "dailybeast"
    case DuPont => "dupont"
    case Aaroha => "aaroha"
    case ShaktiVikasa => "shaktivikasa"
    case Movement => "movement"
  }

  /** Distinct pages have distinct literals, so the union and the datatype agree. */
  lemma IdInjective(p: Page, q: Page)
    requires Id(p) == Id(q)
    ensures p == q
  {
  }
}
