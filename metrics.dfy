/**
 * The pure parts of the yearly summary: the busiest weekday and hour, the part
 * of the day an hour belongs to, the biggest project of the year and the
 * year-qualified repository totals.
 */
module Metrics {
  import opened Wrappers
  import opened Records
  import opened Sorting

  /** `s.indexOf(Math.max(...s))`: the lowest index holding the largest value. */
  function FirstMaxIndex(s: seq<nat>): (r: nat)
    requires |s| > 0
    ensures r < |s|
    ensures forall j :: 0 <= j < |s| ==> s[j] <= s[r]
    ensures forall j :: 0 <= j < r ==> s[j] < s[r]
  {
    if |s| == 1 then 0
    else
      var k := FirstMaxIndex(s[1..]);
      if s[0] >= s[1..][k] then 0 else k + 1
  }

  /** The two properties of the result pin it down: no other index has them. */
  lemma FirstMaxUnique(s: seq<nat>, i: nat)
    requires i < |s|
    requires forall j :: 0 <= j < |s| ==> s[j] <= s[i]
    requires forall j :: 0 <= j < i ==> s[j] < s[i]
    ensures i == FirstMaxIndex(s)
  {
  }

  /** `getTimeOfDay`: the part of the day an hour falls in. */
  function TimeOfDayOf(hour: int): (t: TimeOfDay)
    ensures t == Morning <==> 5 <= hour < 12
    ensures t == Afternoon <==> 12 <= hour < 17
    ensures t == Evening <==> 17 <= hour < 21
    ensures t == Night <==> hour < 5 || 21 <= hour
  {
    if 5 <= hour < 12 then Morning
    else if 12 <= hour < 17 then Afternoon
    else if 17 <= hour < 21 then Evening
    else Night
  }

  /** Weekday names, Sunday first, as `getDay` numbers them. */
  const DayNames: seq<string> :=
    ["Sunday", "Monday", "Tuesday", "Wednesday", "Thursday", "Friday", "Saturday"]

  /** `getMostProductiveTime`: the first busiest weekday, the first busiest hour
      and that hour's part of the day. */
  function MostProductiveTime(b: CommitBuckets): (p: ProductiveTime)
    requires |b.byDay| == 7 && |b.byHour| == 24
    ensures p.hour < 24
    ensures forall h :: 0 <= h < 24 ==> b.byHour[h] <= b.byHour[p.hour]
    ensures forall h :: 0 <= h < p.hour ==> b.byHour[h] < b.byHour[p.hour]
    ensures exists d :: 0 <= d < 7 && p.day == DayNames[d]
                     && (forall e :: 0 <= e < 7 ==> b.byDay[e] <= b.byDay[d])
                     && (forall e :: 0 <= e < d ==> b.byDay[e] < b.byDay[d])
    ensures p.timeOfDay == TimeOfDayOf(p.hour)
  {
    var d := FirstMaxIndex(b.byDay);
    var h := FirstMaxIndex(b.byHour);
    ProductiveTime(DayNames[d], h, TimeOfDayOf(h))
  }

  /** With no commits at all every count ties at zero, so the answer is the
      first day and hour: Sunday at midnight, at night. */
  lemma NoCommitsProductiveTime(b: CommitBuckets)
    requires |b.byDay| == 7 && |b.byHour| == 24
    requires forall d :: 0 <= d < 7 ==> b.byDay[d] == 0
    requires forall h :: 0 <= h < 24 ==> b.byHour[h] == 0
    ensures MostProductiveTime(b) == ProductiveTime("Sunday", 0, Night)
  {
    FirstMaxUnique(b.byDay, 0);
    FirstMaxUnique(b.byHour, 0);
  }

  /** A repository counts for `year` if it was created or last updated in it. */
  predicate Qualifies(r: Repo, year: int) {
    r.createdAt.year == year || r.updatedAt.year == year
  }

  /** The repositories that count for `year`, in list order. */
  function YearRepos(repos: seq<Repo>, year: int): seq<Repo> {
    if repos == [] then []
    else (if Qualifies(repos[0], year) then [repos[0]] else []) + YearRepos(repos[1..], year)
  }

  /** The filter keeps exactly the repositories that count for the year. */
  lemma {:induction false} YearReposMembers(repos: seq<Repo>, year: int)
    ensures forall r :: r in YearRepos(repos, year) <==> r in repos && Qualifies(r, year)
  {
    if repos != [] {
      YearReposMembers(repos[1..], year);
      assert repos == [repos[0]] + repos[1..];
    }
  }

  /** The filter keeps at most every repository. */
  lemma {:induction false} YearReposLength(repos: seq<Repo>, year: int)
    ensures |YearRepos(repos, year)| <= |repos|
  {
    if repos != [] {
      YearReposLength(repos[1..], year);
    }
  }

  /** Filtering a concatenation filters each part. */
  lemma {:induction false} YearReposAppend(a: seq<Repo>, b: seq<Repo>, year: int)
    ensures YearRepos(a + b, year) == YearRepos(a, year) + YearRepos(b, year)
  {
    if a == [] {
      assert a + b == b;
    } else {
      YearReposAppend(a[1..], b, year);
      var ab := a + b;
      assert ab[0] == a[0] && ab[1..] == a[1..] + b;
      var hd := if Qualifies(a[0], year) then [a[0]] else [];
      var ta, yb := YearRepos(a[1..], year), YearRepos(b, year);
      assert YearRepos(ab, year) == hd + (ta + yb);
      assert hd + (ta + yb) == (hd + ta) + yb;
    }
  }

  /** The ranking score scaled by 1000 so that it stays an integer:
      `stars * 10 + forks * 5 + size / 1000` orders repositories the same way. */
  function Score(r: Repo): nat {
    r.stars * 10000 + r.forks * 5000 + r.size
  }

  /** `getBiggestProject`: nothing when no repository counts for the year,
      otherwise the head of the qualifying repositories sorted by score. */
  function BiggestProject(repos: seq<Repo>, year: int): (p: Option<Repo>)
    ensures p.None? <==> forall r :: r in repos ==> !Qualifies(r, year)
    ensures p.Some? ==> p.value in repos && Qualifies(p.value, year)
    ensures p.Some? ==> forall r :: r in repos && Qualifies(r, year) ==> Score(r) <= Score(p.value)
  {
    var ys := YearRepos(repos, year);
    YearReposMembers(repos, year);
    if |ys| == 0 then None
    else
      var sorted := SortDesc(ys, Score);
      assert sorted[0] in sorted;
      assert forall r :: r in sorted ==> Score(r) <= Score(sorted[0]);
      Some(sorted[0])
  }

  /** `p` sits in `repos` at an index before which every qualifying
      repository scores strictly less. */
  ghost predicate FirstBest(repos: seq<Repo>, year: int, p: Repo) {
    exists i :: 0 <= i < |repos| && repos[i] == p
            && forall j :: 0 <= j < i && Qualifies(repos[j], year) ==> Score(repos[j]) < Score(repos[i])
  }

  /** Among repositories of equal best score the first in list order wins,
      because the sort is stable: every qualifying repository before the
      chosen one scores strictly less. */
  lemma {:induction false} BiggestProjectIsFirst(repos: seq<Repo>, year: int)
    requires BiggestProject(repos, year).Some?
    ensures FirstBest(repos, year, BiggestProject(repos, year).value)
  {
    var p := BiggestProject(repos, year).value;
    var h, rest := repos[0], repos[1..];
    var ys' := YearRepos(rest, year);
    if !Qualifies(h, year) {
      assert YearRepos(repos, year) == ys';
      BiggestProjectIsFirst(rest, year);
      FirstBestAfterHead(repos, year, p);
    } else {
      var ys := YearRepos(repos, year);
      assert ys == [h] + ys';
      assert ys[0] == h && ys[1..] == ys';
      assert SortDesc(ys, Score) == Insert(h, SortDesc(ys', Score), Score);
      if ys' == [] || Score(h) >= Score(SortDesc(ys', Score)[0]) {
        assert p == h;
        assert repos[0] == p;
      } else {
        assert BiggestProject(rest, year) == Some(p);
        BiggestProjectIsFirst(rest, year);
        FirstBestAfterHead(repos, year, p);
      }
    }
  }

  /** The first best of the tail stays the first best of the whole list when
      the head does not beat it. */
  lemma FirstBestAfterHead(repos: seq<Repo>, year: int, p: Repo)
    requires repos != [] && FirstBest(repos[1..], year, p)
    requires Qualifies(repos[0], year) ==> Score(repos[0]) < Score(p)
    ensures FirstBest(repos, year, p)
  {
    var rest := repos[1..];
    var i :| 0 <= i < |rest| && rest[i] == p
           && forall j :: 0 <= j < i && Qualifies(rest[j], year) ==> Score(rest[j]) < Score(rest[i]);
    assert repos[i + 1] == p;
    forall j | 0 <= j < i + 1 && Qualifies(repos[j], year)
      ensures Score(repos[j]) < Score(repos[i + 1])
    {
      if j > 0 {
        assert repos[j] == rest[j - 1];
      }
    }
  }

  /** The stars of a list of repositories, summed in order. */
  function SumStars(rs: seq<Repo>): nat {
    if rs == [] then 0 else rs[0].stars + SumStars(rs[1..])
  }

  /** The forks of a list of repositories, summed in order. */
  function SumForks(rs: seq<Repo>): nat {
    if rs == [] then 0 else rs[0].forks + SumForks(rs[1..])
  }

  lemma {:induction false} SumsAppend(a: seq<Repo>, b: seq<Repo>)
    ensures SumStars(a + b) == SumStars(a) + SumStars(b)
    ensures SumForks(a + b) == SumForks(a) + SumForks(b)
  {
    if a == [] {
      assert a + b == b;
    } else {
      SumsAppend(a[1..], b);
      assert (a + b)[0] == a[0] && (a + b)[1..] == a[1..] + b;
    }
  }

  /** `repoCount`, `totalStars` and `totalForks`: count and sums over the
      repositories that count for the year. */
  function RepoCount(repos: seq<Repo>, year: int): nat {
    |YearRepos(repos, year)|
  }

  function TotalStars(repos: seq<Repo>, year: int): nat {
    SumStars(YearRepos(repos, year))
  }

  function TotalForks(repos: seq<Repo>, year: int): nat {
    SumForks(YearRepos(repos, year))
  }

  /** The totals of a concatenation are the sums of the totals of its parts. */
  lemma TotalsAppend(a: seq<Repo>, b: seq<Repo>, year: int)
    ensures RepoCount(a + b, year) == RepoCount(a, year) + RepoCount(b, year)
    ensures TotalStars(a + b, year) == TotalStars(a, year) + TotalStars(b, year)
    ensures TotalForks(a + b, year) == TotalForks(a, year) + TotalForks(b, year)
  {
    YearReposAppend(a, b, year);
    SumsAppend(YearRepos(a, year), YearRepos(b, year));
  }

  /** A repository neither created nor updated in the year changes no total,
      wherever it sits in the list. */
  lemma NonQualifyingIgnored(a: seq<Repo>, r: Repo, b: seq<Repo>, year: int)
    requires !Qualifies(r, year)
    ensures RepoCount(a + [r] + b, year) == RepoCount(a + b, year)
    ensures TotalStars(a + [r] + b, year) == TotalStars(a + b, year)
    ensures TotalForks(a + [r] + b, year) == TotalForks(a + b, year)
  {
    TotalsAppend(a + [r], b, year);
    TotalsAppend(a, [r], year);
    TotalsAppend(a, b, year);
    assert [r][1..] == [];
    assert YearRepos([r], year) == [] + YearRepos([], year) == [];
  }

  /** A qualifying repository adds one to the count and its stars and forks
      to the sums, wherever it sits in the list. */
  lemma QualifyingCounted(a: seq<Repo>, r: Repo, b: seq<Repo>, year: int)
    requires Qualifies(r, year)
    ensures RepoCount(a + [r] + b, year) == RepoCount(a + b, year) + 1
    ensures TotalStars(a + [r] + b, year) == TotalStars(a + b, year) + r.stars
    ensures TotalForks(a + [r] + b, year) == TotalForks(a + b, year) + r.forks
  {
    TotalsAppend(a + [r], b, year);
    TotalsAppend(a, [r], year);
    TotalsAppend(a, b, year);
    assert [r][1..] == [];
    assert YearRepos([r], year) == [r] + YearRepos([], year) == [r];
    assert SumStars([r]) == r.stars + SumStars([]);
    assert SumForks([r]) == r.forks + SumForks([]);
  }
}
