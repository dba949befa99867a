/**
 * The story slides (`Slides`): which slides are rendered, in which order, and
 * what each one shows, together with the small lookups the slides use. The
 * HTML and SVG markup itself is not modelled: a slide is the list of figures
 * and texts it displays, an icon is the table entry it draws.
 */
module Slides {
  import opened Wrappers
  import opened Text
  import opened Records
  import opened Metrics
  import opened Insights

  /** The month names `getMostActiveMonth` indexes. */
  const MonthNames: seq<string> := ["January", "February", "March", "April", "May", "June",
                                    "July", "August", "September", "October", "November", "December"]

  /** `getMostActiveMonth`: the name of the first month with the largest count. */
  function MostActiveMonth(byMonth: seq<nat>): (r: string)
    requires |byMonth| == 12
    ensures exists m :: 0 <= m < 12 && r == MonthNames[m]
                     && (forall k :: 0 <= k < 12 ==> byMonth[k] <= byMonth[m])
                     && (forall k :: 0 <= k < m ==> byMonth[k] < byMonth[m])
  {
    MonthNames[FirstMaxIndex(byMonth)]
  }

  /** A year without commits shows January as its most active month. */
  lemma QuietYearIsJanuary(byMonth: seq<nat>)
    requires |byMonth| == 12 && forall k :: 0 <= k < 12 ==> byMonth[k] == 0
    ensures MostActiveMonth(byMonth) == "January"
  {
    FirstMaxUnique(byMonth, 0);
    assert MostActiveMonth(byMonth) == MonthNames[0];
  }

  /** The emoji shown when `getTimeEmoji` does not know the period. */
  const Clock := "\U{23F0}"

  /** `getTimeEmoji`: the emoji of a part of the day, looked up by its name. */
  function TimeEmoji(timeOfDay: string): (e: string)
    ensures e == Clock <==> timeOfDay !in {"Morning", "Afternoon", "Evening", "Night"}
  {
    if timeOfDay == "Morning" then "\U{1F305}"
    else if timeOfDay == "Afternoon" then "\U{2600}\U{FE0F}"
    else if timeOfDay == "Evening" then "\U{1F306}"
    else if timeOfDay == "Night" then "\U{1F319}"
    else Clock
  }

  /** Every part of the day the metrics can produce has an emoji of its own:
      none falls back to the clock and no two share one. */
  lemma EachPeriodHasItsOwnEmoji(a: TimeOfDay, b: TimeOfDay)
    ensures TimeEmoji(a.Name()) != Clock
    ensures a != b ==> TimeEmoji(a.Name()) != TimeEmoji(b.Name())
  {
  }

  /** An entry of the icon table: plain path data drawn in the default
      16 by 16 box, or content with a view box of its own. */
  datatype IconDef = PathOnly | Framed(viewBox: string)

  /** The view box of a plain icon. */
  const DefaultViewBox := "0 0 16 16"

  /** The icon table of `getIcon`, by name (the markup is not modelled). */
  const Icons: map<string, IconDef> := map[
    "graph" := PathOnly, "calendar" := PathOnly, "flame" := PathOnly, "code" := PathOnly,
    "clock" := PathOnly, "rocket" := PathOnly, "star" := PathOnly, "fork" := PathOnly,
    "trophy" := PathOnly, "search" := PathOnly, "gift" := PathOnly, "checklist" := PathOnly,
    "globe" := PathOnly, "book" := PathOnly,
    "share" := Framed("0 0 24 24"), "folder" := Framed("0 0 400 400"),
    "yearInReview" := Framed("0 0 16 16"), "insights" := Framed("0 0 24 24"),
    "achievement" := Framed("0 0 512 512"), "pattern" := Framed("0 0 24 24"),
    "funFact" := Framed("0 0 24 24")]

  /** What `getIcon` draws: an SVG with a view box and a size, holding the
      content of one table entry. */
  datatype Svg = Svg(viewBox: string, size: nat, icon: string)

  /** `getIcon(name, size)`: an unknown name draws the 'graph' icon, and an
      entry without a view box of its own is drawn in the default box. */
  function GetIcon(name: string, size: nat): (r: Svg)
    ensures r.icon in Icons && r.size == size
    ensures name in Icons ==> r.icon == name
    ensures name !in Icons ==> r.icon == "graph" && r.viewBox == DefaultViewBox
    ensures Icons[r.icon].PathOnly? ==> r.viewBox == DefaultViewBox
    ensures Icons[r.icon].Framed? ==> r.viewBox == Icons[r.icon].viewBox
  {
    var key := if name in Icons then name else "graph";
    match Icons[key]
    case PathOnly => Svg(DefaultViewBox, size, key)
    case Framed(v) => Svg(v, size, key)
  }

  /** `(total / 365).toFixed(1)` as a number of tenths: the tenth nearest to
      the exact daily average. The two neighbouring tenths are never equally
      near, since 365 is odd, so the rounding direction of a tie never arises. */
  function DailyAverageTenths(total: nat): (r: nat)
    ensures 365 * r - 182 <= 10 * total <= 365 * r + 182
  {
    (10 * total + 182) / 365
  }

  /** Only one count of tenths lies that near the exact average, so the
      bound above determines the figure. */
  lemma DailyAverageTenthsUnique(total: nat, r: nat)
    requires 365 * r - 182 <= 10 * total <= 365 * r + 182
    ensures r == DailyAverageTenths(total)
  {
    var q := DailyAverageTenths(total);
    assert 365 * r - 365 * q <= 364 && 365 * q - 365 * r <= 364;
    assert 365 * (r - q) < 365 && 365 * (q - r) < 365;
  }

  /** The eight slides and what each one displays. */
  datatype Slide =
    | Welcome(avatar: string, name: string, year: int, commits: nat, repos: nat, stars: nat)
    | Contributions(year: int, avgTenths: nat, mostActiveMonth: string)
    | LanguageMix(languageCount: nat, topLanguage: string)
    | PeakTime(day: string, hour: nat, timeOfDay: string)
    | YourProjects(repoCount: nat)
    | BiggestProjectCard(name: string, description: Option<string>, stars: nat, forks: nat,
                         language: Option<string>, url: string)
    | InsightCards(achievement: Prose, pattern: Prose, growth: Prose, funFact: Prose)
    | InReview(year: int, summary: Prose, commits: nat, languageCount: nat, repos: nat,
               stars: nat, motivation: Prose)
    | Share(avatar: string, name: string, year: int, commits: nat, topLanguage: string, stars: nat)
  {
    /** The slide's `data-slide` attribute. */
    function Index(): nat {
      match this
      case Welcome(_, _, _, _, _, _) => 0
      case Contributions(_, _, _) => 1
      case LanguageMix(_, _) => 2
      case PeakTime(_, _, _) => 3
      case YourProjects(_) => 4
      case BiggestProjectCard(_, _, _, _, _, _) => 4
      case InsightCards(_, _, _, _) => 5
      case InReview(_, _, _, _, _, _, _) => 6
      case Share(_, _, _, _, _, _) => 7
    }

    /** The icons the slide draws. */
    function IconNames(): seq<string> {
      match this
      case Welcome(_, _, _, _, _, _) => []
      case Contributions(_, _, _) => ["graph", "calendar", "flame"]
      case LanguageMix(_, _) => ["code"]
      case PeakTime(_, _, _) => ["clock"]
      case YourProjects(_) => ["folder"]
      case BiggestProjectCard(_, _, _, _, language, _) =>
        ["folder", "star", "fork"] + (if language.Some? && language.value != "" then ["code"] else [])
      case InsightCards(_, _, _, _) => ["insights", "achievement", "pattern", "graph", "funFact"]
      case InReview(_, _, _, _, _, _, _) => ["yearInReview"]
      case Share(_, _, _, _, _, _) => ["share"]
    }
  }

  /** `createBiggestProjectSlide`: the project card, or the repository count
      when there is no project. */
  function ProjectSlide(data: YearSummary): Slide {
    match data.biggestProject
    case None => YourProjects(data.repoCount)
    case Some(p) => BiggestProjectCard(p.name, p.description, p.stars, p.forks, p.language, p.url)
  }

  /** `generateAllSlides`: welcome, contributions, languages, peak time,
      project, insights, year in review and share, in that order. */
  function AllSlides(data: YearSummary, insights: Insights, summary: Prose): (slides: seq<Slide>)
    requires |data.commits.byMonth| == 12
    ensures |slides| == 8
    ensures forall i :: 0 <= i < 8 ==> slides[i].Index() == i
  {
    [ Welcome(data.profile.avatar, data.profile.name, data.year, data.commits.total, data.repoCount, data.totalStars),
      Contributions(data.year, DailyAverageTenths(data.commits.total), MostActiveMonth(data.commits.byMonth)),
      LanguageMix(|data.languages|, TopLanguage(data.languages, "Code")),
      PeakTime(data.productiveTime.day, data.productiveTime.hour, data.productiveTime.timeOfDay.Name()),
      ProjectSlide(data),
      InsightCards(insights.achievement, insights.pattern, insights.growth, insights.funFact),
      InReview(data.year, summary, data.commits.total, |data.languages|, data.repoCount, data.totalStars,
               insights.motivation),
      Share(data.profile.avatar, data.profile.name, data.year, data.commits.total,
            TopLanguage(data.languages, "Code"), data.totalStars) ]
  }

  /** The fifth slide is the repository-count variant exactly when there is no
      biggest project; otherwise it is the card of that project. */
  lemma ProjectSlideVariant(data: YearSummary, insights: Insights, summary: Prose)
    requires |data.commits.byMonth| == 12
    ensures AllSlides(data, insights, summary)[4].YourProjects? <==> data.biggestProject.None?
    ensures data.biggestProject.Some? ==>
              AllSlides(data, insights, summary)[4].name == data.biggestProject.value.name
  {
  }

  /** Every insight reaches the screen: four on the insights slide, the
      motivation on the year-in-review slide, next to the summary text. */
  lemma InsightsAreShown(data: YearSummary, insights: Insights, summary: Prose)
    requires |data.commits.byMonth| == 12
    ensures var s := AllSlides(data, insights, summary);
      && s[5] == InsightCards(insights.achievement, insights.pattern, insights.growth, insights.funFact)
      && s[6].motivation == insights.motivation && s[6].summary == summary
  {
  }

  /** No slide draws an icon missing from the table, so none relies on the
      'graph' fallback. */
  lemma SlideIconsAreKnown(data: YearSummary, insights: Insights, summary: Prose)
    requires |data.commits.byMonth| == 12
    ensures forall i, j :: 0 <= i < 8 && 0 <= j < |AllSlides(data, insights, summary)[i].IconNames()| ==>
              AllSlides(data, insights, summary)[i].IconNames()[j] in Icons
  {
  }
}
