/**
 * The narrative side (`AIInsights`): the line parser that reads the five
 * labelled insights out of a model completion, the fixed texts used whenever
 * the completion cannot be had, and the key check. The remote model is an
 * input: what the completion request ended with.
 */
module Insights {
  import opened Wrappers
  import opened Text
  import opened Records

  /** The fixed template literals of the client: the five fallback insights
      and the fallback year summary. */
  datatype FixedText =
    | AchievementFallback | PatternFallback | GrowthFallback | FunFactFallback
    | MotivationFallback | SummaryFallbackText
  {
    /** How many values the literal splices in. */
    function Holes(): nat {
      match this
      case AchievementFallback => 3
      case PatternFallback => 3
      case GrowthFallback => 2
      case FunFactFallback => 1
      case MotivationFallback => 3
      case SummaryFallbackText => 5
    }

    /** The literal's fixed parts; the values go between them. */
    function Parts(): seq<string> {
      match this
      case AchievementFallback => AchievementParts
      case PatternFallback => PatternParts
      case GrowthFallback => GrowthParts
      case FunFactFallback => FunFactParts
      case MotivationFallback => MotivationParts
      case SummaryFallbackText => SummaryParts
    }
  }

  /** The fixed parts of each literal of `getFallbackInsights` and
      `generateYearSummary`, in order. */
  const AchievementParts: seq<string> :=
    ["You made ", " commits in ", "! That's ",
     " commits per day on average. Your dedication is impressive! \U{1F680}"]
  const PatternParts: seq<string> :=
    ["You're a ", " coder! Most of your commits happen on ", "s around ", ":00. \U{23F0}"]
  const GrowthParts: seq<string> :=
    ["You worked on ", " repositories this year, with ",
     " being your language of choice. You're building an impressive portfolio! \U{1F4C8}"]
  const FunFactParts: seq<string> :=
    ["Your code traveled through ",
     " different programming languages this year. You're a true polyglot developer! \U{1F30D}"]
  const MotivationParts: seq<string> :=
    ["With ", " stars earned and ",
     " commits made, you're making waves in the developer community. Keep pushing boundaries in ",
     "! \U{2B50}"]
  const SummaryParts: seq<string> :=
    ["What a year! You made ", " commits across ", " repositories, primarily using ",
     ". Your dedication earned you ",
     " stars from the community. Here's to an even more amazing ", "! \U{1F389}"]

  /** A text the client hands to the slides: a string read from a completion,
      or one of its fixed template literals with the values spliced in. */
  datatype Prose = Plain(text: string) | Filled(fixed: FixedText, values: seq<string>)
  {
    /** The string the text stands for. */
    function Render(): string {
      match this
      case Plain(s) => s
      case Filled(f, vs) => Template(f.Parts(), vs)
    }
  }

  /** The five insights shown on the insights slide. */
  datatype Insights = Insights(achievement: Prose, pattern: Prose, growth: Prose,
                               funFact: Prose, motivation: Prose)

  /** The object `parseInsights` starts from: every insight empty. */
  const NoInsights := Insights(Plain(""), Plain(""), Plain(""), Plain(""), Plain(""))

  /** The labels, in the order the parser tests them. */
  datatype Label = Achievement | Pattern | Growth | FunFact | Motivation {
    /** The text that marks the label in a line. */
    function Marker(): string {
      match this
      case Achievement => "ACHIEVEMENT:"
      case Pattern => "PATTERN:"
      case Growth => "GROWTH:"
      case FunFact => "FUN_FACT:"
      case Motivation => "MOTIVATION:"
    }

    /** The label's position in the testing order. */
    function Rank(): nat {
      match this
      case Achievement => 0
      case Pattern => 1
      case Growth => 2
      case FunFact => 3
      case Motivation => 4
    }
  }

  /** The insight a label fills. */
  function Get(ins: Insights, l: Label): Prose {
    match l
    case Achievement => ins.achievement
    case Pattern => ins.pattern
    case Growth => ins.growth
    case FunFact => ins.funFact
    case Motivation => ins.motivation
  }

  /** Fills the insight of label `l` with `v`, leaving the others alone. */
  function Set(ins: Insights, l: Label, v: Prose): (r: Insights)
    ensures Get(r, l) == v
    ensures forall m: Label :: m != l ==> Get(r, m) == Get(ins, m)
  {
    match l
    case Achievement => ins.(achievement := v)
    case Pattern => ins.(pattern := v)
    case Growth => ins.(growth := v)
    case FunFact => ins.(funFact := v)
    case Motivation => ins.(motivation := v)
  }

  /** The first label, in testing order, whose marker the line contains: the
      one branch of the `if ... else if` chain that runs. */
  function FirstLabel(line: string): (r: Option<Label>)
    ensures r.Some? ==> Contains(line, r.value.Marker())
    ensures r.Some? ==> forall m: Label :: m.Rank() < r.value.Rank() ==> !Contains(line, m.Marker())
    ensures r.None? ==> forall m: Label :: !Contains(line, m.Marker())
  {
    if Contains(line, Achievement.Marker()) then Some(Achievement)
    else if Contains(line, Pattern.Marker()) then Some(Pattern)
    else if Contains(line, Growth.Marker()) then Some(Growth)
    else if Contains(line, FunFact.Marker()) then Some(FunFact)
    else if Contains(line, Motivation.Marker()) then Some(Motivation)
    else None
  }

  /** An occurrence inside a prefix is an occurrence in the whole string. */
  lemma OccursInPrefix(s: string, p: string, j: nat, k: nat)
    requires j <= |s| && OccursAt(s[..j], p, k)
    ensures OccursAt(s, p, k)
  {
    assert s[..j][k..k + |p|] == s[k..k + |p|];
  }

  /** `s.split(p)[1]` for a string that contains `p`: the text after the first
      occurrence of `p`, up to the next occurrence if there is one, or to the
      end. It never contains `p` itself. */
  function SegmentAfter(s: string, p: string): (r: string)
    requires p != [] && Contains(s, p)
    ensures var rest := s[IndexOf(s, p).value + |p|..];
      && |r| <= |rest| && r == rest[..|r|]
      && (|r| == |rest| || OccursAt(rest, p, |r|))
      && forall k :: 0 <= k < |r| ==> !OccursAt(rest, p, k)
    ensures forall k :: 0 <= k ==> !OccursAt(r, p, k)
  {
    var rest := s[IndexOf(s, p).value + |p|..];
    match IndexOf(rest, p)
    case Some(j) =>
      assert forall k :: 0 <= k ==> !OccursAt(rest[..j], p, k) by {
        forall k | 0 <= k
          ensures !OccursAt(rest[..j], p, k)
        {
          if OccursAt(rest[..j], p, k) {
            OccursInPrefix(rest, p, j, k);
          }
        }
      }
      rest[..j]
    case None => rest
  }

  /** The value a line gives its label: the segment after the marker, trimmed. */
  function Field(line: string, l: Label): string
    requires Contains(line, l.Marker())
  {
    Trim(SegmentAfter(line, l.Marker()))
  }

  /** One pass of the loop: the line sets the insight of its first label. */
  function ApplyLine(ins: Insights, line: string): Insights {
    match FirstLabel(line)
    case None => ins
    case Some(l) => Set(ins, l, Plain(Field(line, l)))
  }

  /** The insights after the loop has read `lines` in order. */
  function ParseLines(lines: seq<string>): Insights {
    if lines == [] then NoInsights else ApplyLine(ParseLines(lines[..|lines| - 1]), lines[|lines| - 1])
  }

  /** Reading one more line applies it to the insights read so far. */
  lemma ParseLinesStep(lines: seq<string>, i: nat)
    requires i < |lines|
    ensures ParseLines(lines[..i + 1]) == ApplyLine(ParseLines(lines[..i]), lines[i])
  {
    assert lines[..i + 1][..i] == lines[..i];
  }

  /** `text.split('\n').filter(line => line.trim())`: the lines that are not
      blank, every one of them and nothing else. */
  function NonBlankLines(lines: seq<string>): (r: seq<string>)
    ensures forall k :: 0 <= k < |r| ==> Trim(r[k]) != "" && r[k] in lines
  {
    if lines == [] then []
    else (if Trim(lines[0]) != "" then [lines[0]] else []) + NonBlankLines(lines[1..])
  }

  /** The filter keeps the order and the number of the lines it keeps: it
      works line by line. */
  lemma {:induction false} NonBlankLinesAppend(a: seq<string>, b: seq<string>)
    ensures NonBlankLines(a + b) == NonBlankLines(a) + NonBlankLines(b)
    decreases |a|
  {
    if a == [] {
      assert a + b == b;
    } else {
      var head := if Trim(a[0]) != "" then [a[0]] else [];
      var x, y := NonBlankLines(a[1..]), NonBlankLines(b);
      NonBlankLinesAppend(a[1..], b);
      assert (a + b)[1..] == a[1..] + b;
      assert (a + b)[0] == a[0];
      assert NonBlankLines(a + b) == head + (x + y);
      assert head + (x + y) == (head + x) + y;
    }
  }

  /** A single line is kept exactly when it is not blank. */
  lemma NonBlankLine(line: string)
    ensures NonBlankLines([line]) == if Trim(line) != "" then [line] else []
  {
    assert [line][1..] == [];
  }

  /** Conversely, every non-blank line is kept. */
  lemma {:induction false} NonBlankLinesKeeps(lines: seq<string>, k: nat)
    requires k < |lines| && Trim(lines[k]) != ""
    ensures lines[k] in NonBlankLines(lines)
    decreases k
  {
    var head := if Trim(lines[0]) != "" then [lines[0]] else [];
    assert NonBlankLines(lines) == head + NonBlankLines(lines[1..]);
    if k == 0 {
      assert NonBlankLines(lines)[0] == lines[0];
    } else {
      NonBlankLinesKeeps(lines[1..], k - 1);
      assert lines[1..][k - 1] == lines[k];
    }
  }

  /** No marker fits in a blank line: every marker starts with a letter. */
  lemma BlankHoldsNoMarker(line: string, l: Label)
    requires Trim(line) == ""
    ensures !Contains(line, l.Marker())
  {
    TrimEmptyIffBlank(line);
    assert !IsSpace(l.Marker()[0]);
    BlankContainsNoWord(line, l.Marker());
  }

  /** Reading one more line at the end applies it last. */
  lemma ParseLinesSnoc(lines: seq<string>, line: string)
    ensures ParseLines(lines + [line]) == ApplyLine(ParseLines(lines), line)
  {
    assert (lines + [line])[..|lines|] == lines;
  }

  /** A blank line leaves the insights alone. */
  lemma BlankLineIgnored(ins: Insights, line: string)
    requires Trim(line) == ""
    ensures ApplyLine(ins, line) == ins
  {
    BlankHoldsNoMarker(line, Achievement);
    BlankHoldsNoMarker(line, Pattern);
    BlankHoldsNoMarker(line, Growth);
    BlankHoldsNoMarker(line, FunFact);
    BlankHoldsNoMarker(line, Motivation);
  }

  /** Dropping the blank lines changes nothing: a blank line holds no marker,
      so the loop would leave the insights alone on it. */
  lemma {:induction false} ParseLinesSkipsBlank(lines: seq<string>)
    ensures ParseLines(NonBlankLines(lines)) == ParseLines(lines)
    decreases |lines|
  {
    if lines != [] {
      var init, x := lines[..|lines| - 1], lines[|lines| - 1];
      assert lines == init + [x];
      NonBlankLinesAppend(init, [x]);
      NonBlankLine(x);
      ParseLinesSkipsBlank(init);
      ParseLinesSnoc(init, x);
      if Trim(x) == "" {
        BlankLineIgnored(ParseLines(init), x);
        assert NonBlankLines(init + [x]) == NonBlankLines(init);
      } else {
        ParseLinesSnoc(NonBlankLines(init), x);
      }
    }
  }

  /** What `parseInsights(text)` returns for a string. */
  function ParseText(text: string): Insights {
    ParseLines(NonBlankLines(Split(text, '\n')))
  }

  /** `parseInsights` for a string: every insight starts empty and each
      non-blank line, in order, fills the insight of the first label it
      contains. */
  method ParseInsights(text: string) returns (ins: Insights)
    ensures ins == ParseText(text)
  {
    ins := NoInsights;
    var lines := NonBlankLines(Split(text, '\n'));
    for i := 0 to |lines|
      invariant ins == ParseLines(lines[..i])
    {
      var line := lines[i];
      ghost var before := ins;
      if Contains(line, Achievement.Marker()) {
        ins := ins.(achievement := Plain(Field(line, Achievement)));
      } else if Contains(line, Pattern.Marker()) {
        ins := ins.(pattern := Plain(Field(line, Pattern)));
      } else if Contains(line, Growth.Marker()) {
        ins := ins.(growth := Plain(Field(line, Growth)));
      } else if Contains(line, FunFact.Marker()) {
        ins := ins.(funFact := Plain(Field(line, FunFact)));
      } else if Contains(line, Motivation.Marker()) {
        ins := ins.(motivation := Plain(Field(line, Motivation)));
      }
      assert ins == ApplyLine(before, line);
      ParseLinesStep(lines, i);
    }
    assert lines[..|lines|] == lines;
  }

  /** An insight stays empty unless some line has its label as first label;
      in particular unless some line contains its marker. */
  lemma {:induction false} UnlabelledStaysEmpty(lines: seq<string>, l: Label)
    requires forall k :: 0 <= k < |lines| ==> FirstLabel(lines[k]) != Some(l)
    ensures Get(ParseLines(lines), l) == Plain("")
  {
    if lines != [] {
      UnlabelledStaysEmpty(lines[..|lines| - 1], l);
    }
  }

  /** Each insight is empty unless some non-blank line of the text contains
      its label. */
  lemma LabelAbsentStaysEmpty(text: string, l: Label)
    requires forall line :: line in NonBlankLines(Split(text, '\n')) ==> !Contains(line, l.Marker())
    ensures Get(ParseText(text), l) == Plain("")
  {
    var lines := NonBlankLines(Split(text, '\n'));
    forall k | 0 <= k < |lines| ensures FirstLabel(lines[k]) != Some(l) {
      assert lines[k] in lines;
    }
    UnlabelledStaysEmpty(lines, l);
  }

  /** The last line whose first label is `l` decides the insight of `l`:
      later lines with other labels do not touch it. */
  lemma {:induction false} LastLineWins(lines: seq<string>, i: nat, l: Label)
    requires i < |lines| && FirstLabel(lines[i]) == Some(l)
    requires forall k :: i < k < |lines| ==> FirstLabel(lines[k]) != Some(l)
    ensures Get(ParseLines(lines), l) == Plain(Field(lines[i], l))
    decreases |lines|
  {
    if i < |lines| - 1 {
      var init := lines[..|lines| - 1];
      LastLineWins(init, i, l);
    }
  }

  /** For a whole text: the last line whose first label is `l` decides the
      insight of `l`, its trimmed text after the marker. */
  lemma LastLabelledLineDecides(text: string, i: nat, l: Label)
    requires i < |Split(text, '\n')| && FirstLabel(Split(text, '\n')[i]) == Some(l)
    requires forall k :: i < k < |Split(text, '\n')| ==> FirstLabel(Split(text, '\n')[k]) != Some(l)
    ensures Get(ParseText(text), l) == Plain(Field(Split(text, '\n')[i], l))
  {
    ParseLinesSkipsBlank(Split(text, '\n'));
    LastLineWins(Split(text, '\n'), i, l);
  }

  /** A line holding several markers fills only the insight of the first one
      in testing order. */
  lemma FirstMarkerOnly(ins: Insights, line: string, l: Label, m: Label)
    requires Contains(line, l.Marker()) && Contains(line, m.Marker()) && l.Rank() < m.Rank()
    ensures Get(ApplyLine(ins, line), m) == Get(ins, m)
  {
    var f := FirstLabel(line);
    assert f.Some?;
    assert f.value.Rank() <= l.Rank();
  }

  /** `Math.round(total / 365)` for a natural number: as 365 is odd the
      quotient never ends in exactly .5, so this is the nearest integer. */
  function RoundedDailyAverage(total: nat): (r: nat)
    ensures 365 * r - 182 <= total <= 365 * r + 182
  {
    (total + 182) / 365
  }

  /** `data.languages[0]?.name || dflt`: the name of the top language, or the
      default when there is none or its name is empty. */
  function TopLanguage(languages: seq<LanguageStat>, dflt: string): string {
    if |languages| == 0 || languages[0].name == "" then dflt else languages[0].name
  }

  /** Each literal has one part more than it has holes. */
  lemma PartsAroundHoles(f: FixedText)
    ensures |f.Parts()| == f.Holes() + 1
  {
  }

  /** A literal filled with as many values as it has holes contains each value. */
  lemma FilledEmbeds(p: Prose, k: nat)
    requires p.Filled? && |p.values| == p.fixed.Holes() && k < |p.values|
    ensures Contains(p.Render(), p.values[k])
  {
    PartsAroundHoles(p.fixed);
    TemplateEmbeds(p.fixed.Parts(), p.values, k);
  }

  /** `getFallbackInsights`: the fixed template literals, filled from the summary. */
  function Fallback(data: YearSummary): Insights {
    var total := data.commits.total;
    Insights(
      Filled(AchievementFallback,
             [NatToString(total), IntToString(data.year), NatToString(RoundedDailyAverage(total))]),
      Filled(PatternFallback,
             [ToLower(data.productiveTime.timeOfDay.Name()), data.productiveTime.day,
              NatToString(data.productiveTime.hour)]),
      Filled(GrowthFallback, [NatToString(data.repoCount), TopLanguage(data.languages, "code")]),
      Filled(FunFactFallback, [NatToString(|data.languages|)]),
      Filled(MotivationFallback,
             [NatToString(data.totalStars), NatToString(total), IntToString(data.year + 1)]))
  }

  /** The fallback insights carry the figures they are built from: the commit
      total and its daily average, the busiest day, hour and part of the day,
      the repository count and top language ('code' when there is none), the
      number of languages, the stars and the coming year. */
  lemma FallbackEmbedsFigures(data: YearSummary)
    ensures var f := Fallback(data);
      && Contains(f.achievement.Render(), NatToString(data.commits.total))
      && Contains(f.achievement.Render(), NatToString(RoundedDailyAverage(data.commits.total)))
      && Contains(f.pattern.Render(), ToLower(data.productiveTime.timeOfDay.Name()))
      && Contains(f.pattern.Render(), data.productiveTime.day)
      && Contains(f.pattern.Render(), NatToString(data.productiveTime.hour))
      && Contains(f.growth.Render(), NatToString(data.repoCount))
      && Contains(f.growth.Render(), TopLanguage(data.languages, "code"))
      && Contains(f.funFact.Render(), NatToString(|data.languages|))
      && Contains(f.motivation.Render(), NatToString(data.totalStars))
      && Contains(f.motivation.Render(), IntToString(data.year + 1))
  {
    AchievementEmbeds(data);
    PatternEmbeds(data);
    GrowthEmbeds(data);
    FunFactEmbeds(data);
    MotivationEmbeds(data);
  }

  /** The figures of each fallback insight, one insight at a time. */
  lemma AchievementEmbeds(data: YearSummary)
    ensures var p := Fallback(data).achievement;
      && Contains(p.Render(), NatToString(data.commits.total))
      && Contains(p.Render(), NatToString(RoundedDailyAverage(data.commits.total)))
  {
    FilledEmbeds(Fallback(data).achievement, 0);
    FilledEmbeds(Fallback(data).achievement, 2);
  }

  lemma PatternEmbeds(data: YearSummary)
    ensures var p := Fallback(data).pattern;
      && Contains(p.Render(), ToLower(data.productiveTime.timeOfDay.Name()))
      && Contains(p.Render(), data.productiveTime.day)
      && Contains(p.Render(), NatToString(data.productiveTime.hour))
  {
    FilledEmbeds(Fallback(data).pattern, 0);
    FilledEmbeds(Fallback(data).pattern, 1);
    FilledEmbeds(Fallback(data).pattern, 2);
  }

  lemma GrowthEmbeds(data: YearSummary)
    ensures var p := Fallback(data).growth;
      && Contains(p.Render(), NatToString(data.repoCount))
      && Contains(p.Render(), TopLanguage(data.languages, "code"))
  {
    FilledEmbeds(Fallback(data).growth, 0);
    FilledEmbeds(Fallback(data).growth, 1);
  }

  lemma FunFactEmbeds(data: YearSummary)
    ensures Contains(Fallback(data).funFact.Render(), NatToString(|data.languages|))
  {
    FilledEmbeds(Fallback(data).funFact, 0);
  }

  lemma MotivationEmbeds(data: YearSummary)
    ensures var p := Fallback(data).motivation;
      && Contains(p.Render(), NatToString(data.totalStars))
      && Contains(p.Render(), IntToString(data.year + 1))
  {
    FilledEmbeds(Fallback(data).motivation, 0);
    FilledEmbeds(Fallback(data).motivation, 2);
  }

  /** How the completion request ended. */
  datatype Completion =
    | RequestFailed                 // the request threw (network, CORS)
    | NotOk(status: int)            // a response that is not 2xx
    | NoCandidate                   // the body is not JSON or has no candidate part
    | NoText                        // the first part has no text string
    | Generated(text: string)       // the generated text

  /** The insights `generateInsights` resolves to: a failed request, a non-ok
      status or a body without a candidate yields the fallback; a candidate
      without text makes the parser fail inside its own `try`, which yields
      empty insights; text is parsed. */
  function InsightsFor(data: YearSummary, completion: Completion): Insights {
    match completion
    case Generated(text) => ParseText(text)
    case NoText => NoInsights
    case _ => Fallback(data)
  }

  /** `generateInsights`, running the parser loop on the generated text. */
  method GenerateInsights(data: YearSummary, completion: Completion) returns (ins: Insights)
    ensures ins == InsightsFor(data, completion)
  {
    match completion
    case Generated(text) =>
      ins := ParseInsights(text);
    case NoText =>
      ins := NoInsights;
    case _ =>
      ins := Fallback(data);
  }

  /** The fixed year summary used when the summary request fails. */
  function SummaryFallback(data: YearSummary): Prose {
    Filled(SummaryFallbackText,
           [NatToString(data.commits.total), NatToString(data.repoCount),
            TopLanguage(data.languages, "various languages"), NatToString(data.totalStars),
            IntToString(data.year + 1)])
  }

  /** `generateYearSummary`: the generated text, trimmed; any failure,
      including a candidate without text (whose `trim` throws inside the same
      `try`), gives the fixed summary. */
  function YearSummaryText(data: YearSummary, completion: Completion): (s: Prose)
    ensures completion.Generated? ==> s == Plain(Trim(completion.text))
    ensures !completion.Generated? ==> s == SummaryFallback(data)
  {
    match completion
    case Generated(text) => Plain(Trim(text))
    case _ => SummaryFallback(data)
  }

  /** The fixed summary carries the commit total, the repository count, the
      top language ('various languages' when there is none), the stars and
      the coming year. */
  lemma SummaryFallbackEmbedsFigures(data: YearSummary)
    ensures var s := SummaryFallback(data).Render();
      && Contains(s, NatToString(data.commits.total))
      && Contains(s, NatToString(data.repoCount))
      && Contains(s, TopLanguage(data.languages, "various languages"))
      && Contains(s, NatToString(data.totalStars))
      && Contains(s, IntToString(data.year + 1))
  {
    var p := SummaryFallback(data);
    FilledEmbeds(p, 0);
    FilledEmbeds(p, 1);
    FilledEmbeds(p, 2);
    FilledEmbeds(p, 3);
    FilledEmbeds(p, 4);
  }

  /** How the test request of the key check ended. */
  datatype KeyProbe =
    | KeyAccepted                           // a 2xx response
    | KeyRejected(status: int, quota: bool) // another status; for a 400, whether the message mentions a quota
    | KeyProbeFailed                        // the request or the body parsing threw

  /** `validateKey`: false for a key shorter than 20 characters (the empty key
      included), without any request; otherwise true whatever the probe
      answers, since every answer is let through. */
  function ValidateKey(key: string, probe: KeyProbe): (ok: bool)
    ensures ok <==> |key| >= 20
  {
    if key == "" || |key| < 20 then false
    else match probe
      case KeyAccepted => true
      case KeyRejected(status, quota) => if status == 400 && quota then true else true
      case KeyProbeFailed => true
  }
}
