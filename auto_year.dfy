/**
 * The year selector set up when the page loads: the year whose review is
 * offered by default and the options of the year drop-down, counted down from
 * the latest selectable year to 2020. The clock is an input.
 */
module AutoYear {
  import opened Records

  /** The earliest year the selector offers. */
  const EndYear: int := 2020

  /** One `<option>` of the year drop-down. */
  datatype YearOption = YearOption(value: int, selected: bool)

  /** `wrappedYear`: the previous year, whatever the month (both branches of
      the test agree). */
  function WrappedYear(currentYear: int, currentMonth: int): (w: int)
    ensures w == currentYear - 1
  {
    if currentMonth <= 3 then currentYear - 1 else currentYear - 1
  }

  /** `startYear`: the current year from July on (December included),
      otherwise the previous one. */
  function StartYear(currentYear: int, currentMonth: int): (s: int)
    ensures s == currentYear <==> currentMonth > 6
    ensures s != currentYear ==> s == currentYear - 1
  {
    if currentMonth == 12 then currentYear else if currentMonth > 6 then currentYear else currentYear - 1
  }

  /** The options the loop appends from `year` down to 2020, each selected
      when it is the wrapped year. */
  function OptionsFrom(year: int, wrapped: int): seq<YearOption>
    decreases if year < EndYear then 0 else year - EndYear + 1
  {
    if year < EndYear then [] else [YearOption(year, year == wrapped)] + OptionsFrom(year - 1, wrapped)
  }

  /** The options are the years from `start` down to 2020, one each, falling by
      one from each option to the next; there are none when `start` is before
      2020. */
  lemma {:induction false} OptionsCountDown(start: int, wrapped: int)
    ensures |OptionsFrom(start, wrapped)| == if start < EndYear then 0 else start - EndYear + 1
    ensures forall k :: 0 <= k < |OptionsFrom(start, wrapped)| ==> OptionsFrom(start, wrapped)[k].value == start - k
    ensures forall k :: 0 <= k < |OptionsFrom(start, wrapped)| ==>
              (OptionsFrom(start, wrapped)[k].selected <==> start - k == wrapped)
    decreases if start < EndYear then 0 else start - EndYear + 1
  {
    if start >= EndYear {
      OptionsCountDown(start - 1, wrapped);
    }
  }

  /** Some option is selected exactly when the wrapped year lies between 2020
      and the first option, and then exactly one is. */
  lemma SelectedOption(start: int, wrapped: int)
    ensures (exists k :: 0 <= k < |OptionsFrom(start, wrapped)| && OptionsFrom(start, wrapped)[k].selected)
        <==> EndYear <= wrapped <= start
    ensures forall i, j ::
              (0 <= i < |OptionsFrom(start, wrapped)| && 0 <= j < |OptionsFrom(start, wrapped)|
               && OptionsFrom(start, wrapped)[i].selected && OptionsFrom(start, wrapped)[j].selected) ==> i == j
  {
    OptionsCountDown(start, wrapped);
    if EndYear <= wrapped <= start {
      assert OptionsFrom(start, wrapped)[start - wrapped].selected;
    }
  }

  /** What the page shows once the years are set up. */
  datatype YearSelector = YearSelector(wrappedYear: int, startYear: int, options: seq<YearOption>)

  /** The `DOMContentLoaded` handler: the wrapped year, then the options
      appended one by one while the year counts down to 2020. */
  method SetUpYears(now: Date) returns (s: YearSelector)
    ensures s.wrappedYear == WrappedYear(now.year, now.month + 1)
    ensures s.startYear == StartYear(now.year, now.month + 1)
    ensures s.options == OptionsFrom(s.startYear, s.wrappedYear)
  {
    var currentYear := now.year;
    var currentMonth := now.month + 1;
    var wrappedYear;
    if currentMonth <= 3 {
      wrappedYear := currentYear - 1;
    } else {
      wrappedYear := currentYear - 1;
    }
    var startYear := if currentMonth == 12 then currentYear else if currentMonth > 6 then currentYear else currentYear - 1;
    var options := [];
    var year := startYear;
    while year >= EndYear
      invariant year <= startYear
      invariant options + OptionsFrom(year, wrappedYear) == OptionsFrom(startYear, wrappedYear)
      decreases year - EndYear + 1
    {
      options := options + [YearOption(year, year == wrappedYear)];
      year := year - 1;
    }
    s := YearSelector(wrappedYear, startYear, options);
  }

  /** On any date the default year is offered: the wrapped year is selected
      exactly when it is 2020 or later, and at most one option is selected. */
  lemma WrappedYearIsOffered(now: Date)
    ensures var w := WrappedYear(now.year, now.month + 1);
            var opts := OptionsFrom(StartYear(now.year, now.month + 1), w);
            (exists k :: 0 <= k < |opts| && opts[k].selected) <==> w >= EndYear
    ensures var w := WrappedYear(now.year, now.month + 1);
            var opts := OptionsFrom(StartYear(now.year, now.month + 1), w);
            forall i, j :: 0 <= i < |opts| && 0 <= j < |opts| && opts[i].selected && opts[j].selected ==> i == j
  {
    SelectedOption(StartYear(now.year, now.month + 1), WrappedYear(now.year, now.month + 1));
  }
}
