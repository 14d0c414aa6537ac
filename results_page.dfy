/**
 * The results view: which title, text and palette each section shows, the
 * fixed navigation list, and the view's own state (the active section and the
 * transient "Copied!" flag).
 */
module ResultsPage {
  import opened Wrappers
  import opened Validation
  import MarkdownRenderer

  /** The sections the view knows; `Advice` has no navigation entry. */
  datatype Section = Idea | Market | Competition | Risk | Swot | Recommendations | Advice

  /** The icons of the navigation entries. */
  datatype NavIcon = LightbulbIcon | BarChartIcon | UsersIcon | AlertTriangleIcon | GridIcon | FileTextIcon

  datatype NavItem = NavItem(id: Section, caption: string, icon: NavIcon, color: string)

  /** `navItems`. */
  const NavItems: seq<NavItem> := [
    NavItem(Idea, "Idea Analysis", LightbulbIcon, "from-blue-500 to-blue-600"),
    NavItem(Market, "Market Analysis", BarChartIcon, "from-emerald-500 to-emerald-600"),
    NavItem(Competition, "Competition", UsersIcon, "from-purple-500 to-purple-600"),
    NavItem(Risk, "Risk Assessment", AlertTriangleIcon, "from-orange-500 to-orange-600"),
    NavItem(Swot, "SWOT Analysis", GridIcon, "from-pink-500 to-pink-600"),
    NavItem(Recommendations, "Recommendations", FileTextIcon, "from-cyan-500 to-cyan-600")]

  /**
   * Six entries with distinct ids, in the order idea, market, competition,
   * risk, swot, recommendations.
   */
  lemma NavItemsShape()
    ensures |NavItems| == 6
    ensures forall i, j :: 0 <= i < j < |NavItems| ==> NavItems[i].id != NavItems[j].id
    ensures [NavItems[0].id, NavItems[1].id, NavItems[2].id, NavItems[3].id, NavItems[4].id, NavItems[5].id]
            == [Idea, Market, Competition, Risk, Swot, Recommendations]
  {
  }

  /** `navItems.find(item => item.id === id)`: the first entry with that id. */
  function FindNav(items: seq<NavItem>, id: Section): (r: Option<NavItem>)
    ensures r.Some? ==> r.value in items && r.value.id == id
    ensures r.None? <==> forall i :: 0 <= i < |items| ==> items[i].id != id
    ensures r.Some? ==> exists i :: 0 <= i < |items| && items[i] == r.value
                                    && forall j :: 0 <= j < i ==> items[j].id != id
  {
    if items == [] then None
    else if items[0].id == id then Some(items[0])
    else FindNav(items[1..], id)
  }

  /** `activeNav` is the entry of the active section, and undefined for `Advice`. */
  lemma ActiveNavOfSection(s: Section)
    ensures s == Advice <==> FindNav(NavItems, s).None?
    ensures s != Advice ==> FindNav(NavItems, s).value.id == s
  {
    if s != Advice {
      var i := match s
        case Idea => 0 case Market => 1 case Competition => 2
        case Risk => 3 case Swot => 4 case Recommendations => 5;
      assert NavItems[i].id == s;
    }
  }

  /** What `getContent` returns: a title, the markdown text and the renderer's palette. */
  datatype Content = Content(title: string, body: string, section: MarkdownRenderer.SectionType)

  /** The bold label that opens the recommendations text. */
  const RecommendationLabel := "**Recommendation:** "

  /** The recommendations text: the label, the recommendation, a blank line, the advice. */
  function RecommendationsBody(data: ValidationResult): string
  {
    RecommendationLabel + data.advisorRecommendations + "\n\n" + data.advice
  }

  /** `getContent` for the given active section. */
  function GetContent(active: Section, data: ValidationResult): Content
  {
    match active
    case Idea => Content("Idea Analysis", data.ideaAnalysis, MarkdownRenderer.Default)
    case Market => Content("Market Analysis", data.marketAnalysis, MarkdownRenderer.Market)
    case Competition => Content("Competition Analysis", data.competitionAnalysis, MarkdownRenderer.Competition)
    case Risk => Content("Risk Assessment", data.riskAssessment, MarkdownRenderer.Risk)
    case Swot => Content("SWOT Analysis", data.swotAnalysis, MarkdownRenderer.Default)
    case Recommendations =>
      Content("Advisor Recommendations", RecommendationsBody(data), MarkdownRenderer.Default)
    case _ => Content("Idea Analysis", data.ideaAnalysis, MarkdownRenderer.Default)
  }

  /**
   * Each navigable section shows its own report field (recommendations: the
   * recommendation and the advice), market, competition and risk use their
   * own palettes and the rest the default one; `Advice` falls through to the
   * idea analysis.
   */
  lemma ContentOfSection(data: ValidationResult)
    ensures GetContent(Idea, data).body == data.ideaAnalysis
    ensures GetContent(Market, data).body == data.marketAnalysis
    ensures GetContent(Competition, data).body == data.competitionAnalysis
    ensures GetContent(Risk, data).body == data.riskAssessment
    ensures GetContent(Swot, data).body == data.swotAnalysis
    ensures GetContent(Advice, data) == GetContent(Idea, data)
    ensures forall s :: GetContent(s, data).section == MarkdownRenderer.Market <==> s == Market
    ensures forall s :: GetContent(s, data).section == MarkdownRenderer.Competition <==> s == Competition
    ensures forall s :: GetContent(s, data).section == MarkdownRenderer.Risk <==> s == Risk
  {
  }

  /**
   * The recommendations text can be taken apart again: after the label come
   * the recommendation, a blank line and then exactly the advice.
   */
  lemma RecommendationsBodyParts(data: ValidationResult)
    ensures var b := GetContent(Recommendations, data).body;
            var n := |RecommendationLabel|;
            var m := n + |data.advisorRecommendations|;
            |b| == m + 2 + |data.advice|
            && b[..n] == RecommendationLabel
            && b[n..m] == data.advisorRecommendations
            && b[m..m + 2] == "\n\n"
            && b[m + 2..] == data.advice
  {
  }

  /** `{error && …}`: the warning banner appears only for a non-empty error text. */
  function ShowsErrorBanner(error: Option<string>): (b: bool)
    ensures b <==> error.Some? && |error.value| > 0
  {
    match error
    case None => false
    case Some(e) => e != ""
  }

  /** The state of one results page. */
  class ResultsView {
    const data: ValidationResult
    const error: Option<string>
    var activeSection: Section
    var copied: bool

    /** Only the navigation buttons change the section, so `Advice` is never active. */
    predicate Valid()
      reads this
    {
      activeSection != Advice
    }

    /** The page opens on the idea analysis, with nothing copied. */
    constructor (data: ValidationResult, error: Option<string>)
      ensures Valid()
      ensures this.data == data && this.error == error
      ensures activeSection == Idea && !copied
    {
      this.data := data;
      this.error := error;
      activeSection := Idea;
      copied := false;
    }

    /** A click on navigation entry `i` (sidebar or bottom grid): only the section changes. */
    method SelectNav(i: nat)
      requires Valid()
      requires i < |NavItems|
      modifies this
      ensures Valid()
      ensures activeSection == NavItems[i].id
      ensures copied == old(copied)
    {
      activeSection := NavItems[i].id;
    }

    /** "Copy Idea": the clipboard gets the idea and the button shows "Copied!". */
    method CopyIdea() returns (clipboard: string)
      requires Valid()
      modifies this
      ensures Valid()
      ensures clipboard == data.startupIdea
      ensures copied && activeSection == old(activeSection)
    {
      clipboard := data.startupIdea;
      copied := true;
    }

    /** The timer set by a copy fires: the button reverts. */
    method CopyTimerFired()
      requires Valid()
      modifies this
      ensures Valid()
      ensures !copied && activeSection == old(activeSection)
    {
      copied := false;
    }

    /** What the main pane shows. */
    function CurrentContent(): (c: Content)
      reads this
      requires Valid()
      ensures c == GetContent(activeSection, data)
      ensures FindNav(NavItems, activeSection).Some?
    {
      ActiveNavOfSection(activeSection);
      GetContent(activeSection, data)
    }
  }
}
