/**
 * The hosting-API client (`GitHubAPI`). The network is a `Remote`: for each
 * request the client can make, the outcome of each attempt. The client keeps
 * the profile and the repository list once fetched, and this model adds a log
 * of the requests it issues so that caching and page order can be stated.
 */
module GitHub {
  import opened Wrappers
  import opened FetchRetry
  import opened Records
  import opened Buckets
  import opened Languages
  import opened Metrics
  import opened Sorting

  /** Repositories asked for per listing page. */
  const PerPage: nat := 100

  /** What the remote answers, attempt by attempt, for every request:
      the authenticated-user check, the user's profile, the pages of the
      repository listing (1-based; every page after the last holds no
      repositories), the commits of a repository in a year and a repository's
      language map (as its entries, in key order). */
  datatype Remote = Remote(
    user: nat -> Attempt<()>,
    profile: nat -> Attempt<RawProfile>,
    pages: seq<nat -> Attempt<seq<RawRepo>>>,
    commits: string -> int -> nat -> Attempt<seq<RawCommit>>,
    languages: string -> nat -> Attempt<seq<Entry>>)

  /** A request the client issued (one call of `fetchWithRetry`, whatever the
      number of attempts). */
  datatype Request =
    | UserCheck
    | UserProfile
    | RepoPage(page: nat)
    | RepoCommits(fullName: string, year: int)
    | RepoLanguages(fullName: string)

  /** The answers to a request for listing page `page`. */
  function PageOutcome(remote: Remote, page: nat): nat -> Attempt<seq<RawRepo>> {
    if 1 <= page <= |remote.pages| then remote.pages[page - 1]
    else i => Response(200, "OK", "", Success([]))
  }

  /** What `fetchWithRetry` returns or throws for listing page `page`. */
  function PageReply(remote: Remote, page: nat): Result<seq<RawRepo>, FetchError> {
    Retry(PageOutcome(remote, page), DefaultRetries).result
  }

  /** A page after the last holds no repositories. */
  lemma PageReplyPastEnd(remote: Remote, page: nat)
    ensures page > |remote.pages| ==> PageReply(remote, page) == Success([])
  {
    if page > |remote.pages| {
      assert RetryFrom(PageOutcome(remote, page), DefaultRetries, 0).result == Success([]);
    }
  }

  /** The value of a successful reply; nothing for a failed one. */
  function Body<T>(r: Result<seq<T>, FetchError>): seq<T> {
    match r
    case Success(v) => v
    case Failure(_) => []
  }

  /** The repositories on pages `from .. to-1`, in page order. */
  function Pages(remote: Remote, from: nat, to: nat): seq<RawRepo>
    decreases to - from
  {
    if from >= to then [] else Body(PageReply(remote, from)) + Pages(remote, from + 1, to)
  }

  /** How the listing loop ends: with all the repositories or with the error of
      a page, and the last page it requested. */
  datatype Listing = Listing(result: Result<seq<RawRepo>, FetchError>, lastPage: nat)

  /** The listing loop from page `page` on, having collected `acc`: it stops
      after an empty page or one shorter than `PerPage` and rethrows the error
      of a page that fails. */
  function ListFrom(remote: Remote, page: nat, acc: seq<RawRepo>): Listing
    requires 1 <= page <= |remote.pages| + 1
    decreases |remote.pages| + 1 - page
  {
    match PageReply(remote, page)
    case Failure(e) => Listing(Failure(e), page)
    case Success(repos) =>
      if |repos| == 0 then Listing(Success(acc), page)
      else if |repos| < PerPage then Listing(Success(acc + repos), page)
      else
        PageReplyPastEnd(remote, page);
        ListFrom(remote, page + 1, acc + repos)
  }

  /** The loop ends at a page it was allowed to request: at most one past the
      pages the remote holds. */
  lemma {:induction false} ListFromBounds(remote: Remote, page: nat, acc: seq<RawRepo>)
    requires 1 <= page <= |remote.pages| + 1
    ensures page <= ListFrom(remote, page, acc).lastPage <= |remote.pages| + 1
    decreases |remote.pages| + 1 - page
  {
    if PageReply(remote, page).Success? && |PageReply(remote, page).value| >= PerPage {
      PageReplyPastEnd(remote, page);
      ListFromBounds(remote, page + 1, acc + PageReply(remote, page).value);
    }
  }

  /** Every page before the one the loop ends at was answered with a full
      page: at least `PerPage` repositories. */
  lemma {:induction false} ListFromFullPages(remote: Remote, page: nat, acc: seq<RawRepo>)
    requires 1 <= page <= |remote.pages| + 1
    ensures forall p :: page <= p < ListFrom(remote, page, acc).lastPage ==>
              PageReply(remote, p).Success? && |PageReply(remote, p).value| >= PerPage
    decreases |remote.pages| + 1 - page
  {
    if PageReply(remote, page).Success? && |PageReply(remote, page).value| >= PerPage {
      PageReplyPastEnd(remote, page);
      ListFromFullPages(remote, page + 1, acc + PageReply(remote, page).value);
    }
  }

  /** The loop fails exactly with the error of the page it ends at; when it
      succeeds, that page was short and the result is `acc` followed by the
      repositories of the pages in order. */
  lemma {:induction false} ListFromResult(remote: Remote, page: nat, acc: seq<RawRepo>)
    requires 1 <= page <= |remote.pages| + 1
    ensures var l := ListFrom(remote, page, acc);
      && (l.result.Failure? ==> l.result == PageReply(remote, l.lastPage))
      && (l.result.Success? ==>
            && PageReply(remote, l.lastPage).Success?
            && |PageReply(remote, l.lastPage).value| < PerPage
            && l.result.value == acc + Pages(remote, page, l.lastPage + 1))
    decreases |remote.pages| + 1 - page
  {
    var reply := PageReply(remote, page);
    if reply.Success? {
      var repos := reply.value;
      assert Pages(remote, page, page + 1) == repos;
      if |repos| >= PerPage {
        PageReplyPastEnd(remote, page);
        ListFromResult(remote, page + 1, acc + repos);
        ListFromBounds(remote, page + 1, acc + repos);
        var l := ListFrom(remote, page + 1, acc + repos);
        assert l.result.Success? ==>
          Pages(remote, page, l.lastPage + 1) == repos + Pages(remote, page + 1, l.lastPage + 1);
      }
    }
  }

  /** The whole listing, from page 1. */
  function ListRepos(remote: Remote): Listing {
    ListFrom(remote, 1, [])
  }

  /** The field renaming applied to every listed repository. */
  function NormalizeAll(raws: seq<RawRepo>): (rs: seq<Repo>)
    ensures |rs| == |raws|
    ensures forall i :: 0 <= i < |raws| ==> rs[i] == Normalize(raws[i])
  {
    seq(|raws|, i requires 0 <= i < |raws| => Normalize(raws[i]))
  }

  /** What `getRepositories` returns given the cache it finds. */
  function ReposOf(cache: Option<seq<Repo>>, remote: Remote): Result<seq<Repo>, FetchError> {
    match cache
    case Some(rs) => Success(rs)
    case None =>
      match ListRepos(remote).result
      case Success(raws) => Success(NormalizeAll(raws))
      case Failure(e) => Failure(e)
  }

  /** The cache after `getRepositories`: filled on success, kept if it was. */
  function ReposCacheAfter(cache: Option<seq<Repo>>, remote: Remote): Option<seq<Repo>> {
    match ReposOf(cache, remote)
    case Success(rs) => Some(rs)
    case Failure(_) => None
  }

  /** A cached listing is returned as it is, stays cached and costs no request. */
  lemma CachedListing(rs: seq<Repo>, remote: Remote)
    ensures ReposOf(Some(rs), remote) == Success(rs)
    ensures ReposCacheAfter(Some(rs), remote) == Some(rs)
    ensures ListRequests(Some(rs), remote) == []
  {
  }

  /** The requests `getRepositories` issues: none when cached, otherwise pages
      1, 2, ... up to the last one the loop asked for. */
  function ListRequests(cache: Option<seq<Repo>>, remote: Remote): seq<Request> {
    if cache.Some? then [] else seq(ListRepos(remote).lastPage, (k: nat) => RepoPage(k + 1))
  }

  /** The cached profile built from the user record: `data.name || username`
      for the name, the other fields renamed. */
  function ToProfile(d: RawProfile, username: string): Profile {
    Profile(
      if d.name.Some? && d.name.value != "" then d.name.value else username,
      d.avatar_url, d.bio, d.location, d.company, d.public_repos, d.followers,
      d.following, d.created_at)
  }

  /** What `getUserProfile` returns given the cache it finds. */
  function ProfileOf(cache: Option<Profile>, remote: Remote, username: string): Result<Profile, FetchError> {
    match cache
    case Some(p) => Success(p)
    case None =>
      match Retry(remote.profile, DefaultRetries).result
      case Success(d) => Success(ToProfile(d, username))
      case Failure(e) => Failure(e)
  }

  /** The requests `getUserProfile` issues: none when cached. */
  function ProfileRequests(cache: Option<Profile>): seq<Request> {
    if cache.Some? then [] else [UserProfile]
  }

  /** What `fetchWithRetry` returns or throws for the commits of `r` in `year`. */
  function CommitsReply(remote: Remote, r: Repo, year: int): Result<seq<RawCommit>, FetchError> {
    Retry(remote.commits(r.fullName)(year), DefaultRetries).result
  }

  /** What the repositories `rs` give, one after the other, when each gives `part(r)`. */
  function Gather<T>(part: Repo -> seq<T>, rs: seq<Repo>): seq<T> {
    if rs == [] then [] else Gather(part, rs[..|rs| - 1]) + part(rs[|rs| - 1])
  }

  /** The loop step: one more repository adds what it gives. */
  lemma GatherSnoc<T>(part: Repo -> seq<T>, rs: seq<Repo>, i: nat)
    requires i < |rs|
    ensures Gather(part, rs[..i + 1]) == Gather(part, rs[..i]) + part(rs[i])
  {
    assert rs[..i + 1][..i] == rs[..i];
  }

  /** Gathering over a concatenation gathers over each part. */
  lemma {:induction false} GatherAppend<T>(part: Repo -> seq<T>, a: seq<Repo>, b: seq<Repo>)
    ensures Gather(part, a + b) == Gather(part, a) + Gather(part, b)
    decreases |b|
  {
    if b == [] {
      assert a + b == a;
    } else {
      var b' := b[..|b| - 1];
      GatherAppend(part, a, b');
      assert (a + b)[..|a + b| - 1] == a + b';
      assert (a + b)[|a + b| - 1] == b[|b| - 1];
    }
  }

  /** The commits one repository gives: those of its reply, none if it fails. */
  function CommitsOf(remote: Remote, year: int): Repo -> seq<RawCommit> {
    r => Body(CommitsReply(remote, r, year))
  }

  /** The commits `getYearCommits` gets to count: those of every repository
      whose request succeeds, in list order; a failing repository adds none. */
  function RetrievedCommits(remote: Remote, repos: seq<Repo>, year: int): seq<RawCommit> {
    Gather(CommitsOf(remote, year), repos)
  }

  /** The loop step: one more repository adds its commits, if its request succeeds. */
  lemma RetrievedCommitsSnoc(remote: Remote, repos: seq<Repo>, i: nat, year: int)
    requires i < |repos|
    ensures RetrievedCommits(remote, repos[..i + 1], year)
         == RetrievedCommits(remote, repos[..i], year) + Body(CommitsReply(remote, repos[i], year))
  {
    GatherSnoc(CommitsOf(remote, year), repos, i);
  }

  /** One commit request per repository, in list order. */
  function CommitRequests(repos: seq<Repo>, year: int): (rs: seq<Request>)
    ensures |rs| == |repos|
  {
    seq(|repos|, i requires 0 <= i < |repos| => RepoCommits(repos[i].fullName, year))
  }

  lemma CommitRequestsSnoc(repos: seq<Repo>, i: nat, year: int)
    requires i < |repos|
    ensures CommitRequests(repos[..i + 1], year)
         == CommitRequests(repos[..i], year) + [RepoCommits(repos[i].fullName, year)]
  {
  }

  /** The repositories `getLanguageStats` looks at: last updated in `year`. */
  function UpdatedIn(repos: seq<Repo>, year: int): seq<Repo> {
    if repos == [] then []
    else (if repos[0].updatedAt.year == year then [repos[0]] else []) + UpdatedIn(repos[1..], year)
  }

  /** The filter keeps exactly the repositories last updated in `year`. */
  lemma {:induction false} UpdatedInMembers(repos: seq<Repo>, year: int)
    ensures forall r :: r in UpdatedIn(repos, year) <==> r in repos && r.updatedAt.year == year
  {
    if repos != [] {
      UpdatedInMembers(repos[1..], year);
      assert repos == [repos[0]] + repos[1..];
    }
  }

  /** What `fetchWithRetry` returns or throws for the language map of `r`. */
  function LanguagesReply(remote: Remote, r: Repo): Result<seq<Entry>, FetchError> {
    Retry(remote.languages(r.fullName), DefaultRetries).result
  }

  /** The language entries `getLanguageStats` accumulates: those of every
      repository whose request succeeds, in list order. */
  function RetrievedEntries(remote: Remote, repos: seq<Repo>): seq<Entry> {
    Gather(EntriesOf(remote), repos)
  }

  /** The language entries one repository gives: those of its reply, none if it fails. */
  function EntriesOf(remote: Remote): Repo -> seq<Entry> {
    r => Body(LanguagesReply(remote, r))
  }

  /** The loop step: one more repository adds its language entries, if its
      request succeeds. */
  lemma RetrievedEntriesSnoc(remote: Remote, repos: seq<Repo>, i: nat)
    requires i < |repos|
    ensures RetrievedEntries(remote, repos[..i + 1])
         == RetrievedEntries(remote, repos[..i]) + Body(LanguagesReply(remote, repos[i]))
  {
    GatherSnoc(EntriesOf(remote), repos, i);
  }

  /** One language request per repository, in list order. */
  function LanguageRequests(repos: seq<Repo>): (rs: seq<Request>)
    ensures |rs| == |repos|
  {
    seq(|repos|, i requires 0 <= i < |repos| => RepoLanguages(repos[i].fullName))
  }

  lemma LanguageRequestsSnoc(repos: seq<Repo>, i: nat)
    requires i < |repos|
    ensures LanguageRequests(repos[..i + 1]) == LanguageRequests(repos[..i]) + [RepoLanguages(repos[i].fullName)]
  {
  }

  /** The profile cache after `getUserProfile`: filled on success, kept if it was. */
  function ProfileCacheAfter(cache: Option<Profile>, remote: Remote, username: string): Option<Profile> {
    match ProfileOf(cache, remote, username)
    case Success(p) => Some(p)
    case Failure(_) => None
  }

  /** The summary `getContributionSummary` assembles from the repositories and
      the profile. */
  function Assemble(remote: Remote, repos: seq<Repo>, profile: Profile, year: int): YearSummary {
    var commits := Bucketize(RetrievedCommits(remote, repos, year));
    BucketizeWellFormed(RetrievedCommits(remote, repos, year));
    YearSummary(
      profile, year, commits,
      LanguageStats(RetrievedEntries(remote, UpdatedIn(repos, year))),
      MostProductiveTime(commits),
      BiggestProject(repos, year),
      RepoCount(repos, year), TotalStars(repos, year), TotalForks(repos, year))
  }

  /** The summary as the method puts it together, field by field. */
  lemma AssembleFrom(remote: Remote, repos: seq<Repo>, profile: Profile, year: int,
                     commits: CommitBuckets, languages: seq<LanguageStat>, biggest: Option<Repo>)
    requires commits == Bucketize(RetrievedCommits(remote, repos, year))
    requires languages == LanguageStats(RetrievedEntries(remote, UpdatedIn(repos, year)))
    requires biggest == BiggestProject(repos, year)
    ensures |commits.byDay| == 7 && |commits.byHour| == 24
    ensures Assemble(remote, repos, profile, year)
         == YearSummary(profile, year, commits, languages, MostProductiveTime(commits), biggest,
                        |YearRepos(repos, year)|, SumStars(YearRepos(repos, year)), SumForks(YearRepos(repos, year)))
  {
  }

  /** What `getContributionSummary` returns or throws given the caches it finds:
      the listing's error, else the profile's error, else the summary. */
  function SummaryOf(remote: Remote, username: string, reposCache: Option<seq<Repo>>,
                     profileCache: Option<Profile>, year: int): Result<YearSummary, FetchError> {
    match ReposOf(reposCache, remote)
    case Failure(e) => Failure(e)
    case Success(repos) =>
      match ProfileOf(profileCache, remote, username)
      case Failure(e) => Failure(e)
      case Success(p) => Success(Assemble(remote, repos, p, year))
  }

  /** The `forEach` over one repository's commits: each commit adds one to
      its month, weekday and hour slot. */
  method Tally(commits: seq<RawCommit>, byMonth: array<nat>, byDay: array<nat>, byHour: array<nat>,
               ghost seen: seq<RawCommit>)
    requires byMonth[..] == Histogram(Months(seen), 12)
    requires byDay[..] == Histogram(Weekdays(seen), 7)
    requires byHour[..] == Histogram(Hours(seen), 24)
    modifies byMonth, byDay, byHour
    ensures byMonth[..] == Histogram(Months(seen + commits), 12)
    ensures byDay[..] == Histogram(Weekdays(seen + commits), 7)
    ensures byHour[..] == Histogram(Hours(seen + commits), 24)
  {
    assert seen + commits[..0] == seen;
    for j := 0 to |commits|
      invariant byMonth[..] == Histogram(Months(seen + commits[..j]), 12)
      invariant byDay[..] == Histogram(Weekdays(seen + commits[..j]), 7)
      invariant byHour[..] == Histogram(Hours(seen + commits[..j]), 24)
    {
      var date := commits[j].authorDate;
      ghost var done := seen + commits[..j];
      assert seen + commits[..j + 1] == done + [commits[j]];
      BucketizeAppend(done, commits[j]);
      HistogramSnoc(Months(done), date.month, 12);
      HistogramSnoc(Weekdays(done), date.weekday, 7);
      HistogramSnoc(Hours(done), date.hour, 24);
      byMonth[date.month] := byMonth[date.month] + 1;
      byDay[date.weekday] := byDay[date.weekday] + 1;
      byHour[date.hour] := byHour[date.hour] + 1;
    }
    assert commits[..|commits|] == commits;
  }

  /** On success the listing is the repositories of pages 1 .. `lastPage` in
      order, where every page but the last was full and the last was short;
      and those are exactly the pages requested, in order. */
  lemma ListingIsPagesInOrder(remote: Remote)
    ensures ListRepos(remote).lastPage >= 1
    ensures ListRequests(None, remote) == seq(ListRepos(remote).lastPage, (k: nat) => RepoPage(k + 1))
    ensures forall p :: 1 <= p < ListRepos(remote).lastPage ==>
              PageReply(remote, p).Success? && |PageReply(remote, p).value| >= PerPage
    ensures ListRepos(remote).result.Failure? ==>
              ListRepos(remote).result == PageReply(remote, ListRepos(remote).lastPage)
    ensures ListRepos(remote).result.Success? ==>
              && PageReply(remote, ListRepos(remote).lastPage).Success?
              && |PageReply(remote, ListRepos(remote).lastPage).value| < PerPage
              && ListRepos(remote).result.value == Pages(remote, 1, ListRepos(remote).lastPage + 1)
  {
    ListFromBounds(remote, 1, []);
    ListFromFullPages(remote, 1, []);
    ListFromResult(remote, 1, []);
  }

  /** The commits retrieved from a concatenation of repository lists are those
      of the first list followed by those of the second. */
  lemma RetrievedCommitsAppend(remote: Remote, a: seq<Repo>, b: seq<Repo>, year: int)
    ensures RetrievedCommits(remote, a + b, year) == RetrievedCommits(remote, a, year) + RetrievedCommits(remote, b, year)
  {
    GatherAppend(CommitsOf(remote, year), a, b);
  }

  /** A repository whose commit request fails contributes nothing: the counted
      commits are those of the list without it. */
  lemma FailingRepoContributesNothing(remote: Remote, repos: seq<Repo>, i: nat, year: int)
    requires i < |repos| && CommitsReply(remote, repos[i], year).Failure?
    ensures RetrievedCommits(remote, repos, year) == RetrievedCommits(remote, repos[..i] + repos[i + 1..], year)
  {
    var pre, x, post := repos[..i], repos[i], repos[i + 1..];
    assert repos == (pre + [x]) + post;
    RetrievedCommitsSnoc(remote, [x], 0, year);
    assert [x][..1] == [x] && [x][..0] == [];
    assert RetrievedCommits(remote, [x], year) == [];
    RetrievedCommitsAppend(remote, pre, [x], year);
    assert RetrievedCommits(remote, pre + [x], year) == RetrievedCommits(remote, pre, year);
    RetrievedCommitsAppend(remote, pre + [x], post, year);
    RetrievedCommitsAppend(remote, pre, post, year);
  }

  /** What a successful summary satisfies: well-formed buckets, a busiest hour
      in range, languages sorted by bytes with one entry per language of the
      repositories updated that year, and no biggest project exactly when no
      repository counts for the year. */
  lemma SummaryProperties(remote: Remote, username: string, reposCache: Option<seq<Repo>>,
                          profileCache: Option<Profile>, year: int)
    requires SummaryOf(remote, username, reposCache, profileCache, year).Success?
    ensures var s := SummaryOf(remote, username, reposCache, profileCache, year).value;
            var repos := ReposOf(reposCache, remote).value;
            && s.year == year
            && WellFormed(s.commits)
            && s.commits.total == |RetrievedCommits(remote, repos, year)|
            && s.productiveTime.hour < 24
            && SortedDesc(s.languages, Bytes)
            && DistinctNames(s.languages)
            && Names(s.languages) == EntryNames(RetrievedEntries(remote, UpdatedIn(repos, year)))
            && (s.biggestProject.None? <==> s.repoCount == 0)
            && s.repoCount <= |repos|
  {
    var repos := ReposOf(reposCache, remote).value;
    BucketizeWellFormed(RetrievedCommits(remote, repos, year));
    LanguageStatsCorrect(RetrievedEntries(remote, UpdatedIn(repos, year)));
    YearReposMembers(repos, year);
    YearReposLength(repos, year);
    if RepoCount(repos, year) != 0 {
      assert YearRepos(repos, year)[0] in YearRepos(repos, year);
    }
  }

  /** The summary fails exactly when the listing or the profile fails, with
      the listing's error first. */
  lemma SummaryFailure(remote: Remote, username: string, reposCache: Option<seq<Repo>>,
                       profileCache: Option<Profile>, year: int)
    ensures SummaryOf(remote, username, reposCache, profileCache, year).Failure?
        <==> ReposOf(reposCache, remote).Failure? || ProfileOf(profileCache, remote, username).Failure?
    ensures ReposOf(reposCache, remote).Failure? ==>
              SummaryOf(remote, username, reposCache, profileCache, year) == Failure(ReposOf(reposCache, remote).error)
  {
  }

  /** The inner loop of `getLanguageStats` over one language map: each entry
      adds its bytes to the dictionary. */
  method AddAll(dict: seq<LanguageStat>, entries: seq<Entry>, ghost seen: seq<Entry>)
    returns (d: seq<LanguageStat>)
    requires dict == Accumulate(seen)
    ensures d == Accumulate(seen + entries)
  {
    d := dict;
    assert seen + entries[..0] == seen;
    for j := 0 to |entries|
      invariant d == Accumulate(seen + entries[..j])
    {
      ghost var done := seen + entries[..j];
      assert seen + entries[..j + 1] == done + [entries[j]];
      assert (done + [entries[j]])[..|done|] == done;
      d := AddBytes(d, entries[j]);
    }
    assert entries[..|entries|] == entries;
  }

  /** The client for one user. */
  class GitHubApi {
    const username: string
    const token: string
    var profileCache: Option<Profile>
    var reposCache: Option<seq<Repo>>
    /** Every request issued so far, oldest first. */
    var requests: seq<Request>

    constructor(username: string, token: string)
      ensures this.username == username && this.token == token
      ensures profileCache == None && reposCache == None && requests == []
    {
      this.username := username;
      this.token := token;
      profileCache := None;
      reposCache := None;
      requests := [];
    }

    /** `fetchWithRetry(url, retries)`: up to `retries` attempts; a 403, a
        non-ok status, a transport failure or a body that is not JSON fails
        the attempt; a failed attempt other than the last sleeps
        `Backoff(i)` and tries again. Returns the outcome, the attempts made and
        the delays slept, exactly as `Retry` describes them. */
    method FetchWithRetry<T>(outcome: nat -> Attempt<T>, retries: nat)
      returns (r: Result<T, FetchError>, attempts: nat, delays: seq<nat>)
      requires retries > 0
      ensures Trace(r, attempts, delays) == Retry(outcome, retries)
    {
      RetryFromSpec(outcome, retries, 0);
      var i: nat := 0;
      delays := [];
      while true
        invariant i < retries
        invariant RetryFrom(outcome, retries, i).result == Retry(outcome, retries).result
        invariant RetryFrom(outcome, retries, i).attempts == Retry(outcome, retries).attempts
        invariant delays == Backoffs(0, i)
        decreases retries - i
      {
        var attempt := Classify(outcome(i));
        RetryUnfold(outcome, retries, i);
        if attempt.Success? {
          return attempt, i + 1, delays;
        }
        if i == retries - 1 {
          return attempt, retries, delays;
        }
        delays := delays + [Backoff(i)];
        i := i + 1;
      }
    }

    /** `getUserProfile`: the cached profile if there is one, otherwise the
        fetched one, which is then cached. A failure is rethrown and leaves
        the cache empty. */
    method GetUserProfile(remote: Remote) returns (r: Result<Profile, FetchError>)
      modifies this
      ensures r == ProfileOf(old(profileCache), remote, username)
      ensures profileCache == (if r.Success? then Some(r.value) else None)
      ensures reposCache == old(reposCache)
      ensures requests == old(requests) + ProfileRequests(old(profileCache))
    {
      if profileCache.Some? {
        return Success(profileCache.value);
      }
      requests := requests + [UserProfile];
      var data, _, _ := FetchWithRetry(remote.profile, DefaultRetries);
      if data.Failure? {
        return Failure(data.error);
      }
      profileCache := Some(ToProfile(data.value, username));
      r := Success(profileCache.value);
    }

    /** `getRepositories`: the cached list if there is one; otherwise pages
        1, 2, ... are requested in order until an empty page or one shorter
        than `PerPage`, their repositories concatenated, renamed and cached.
        A failing page is rethrown and leaves the cache empty. */
    method GetRepositories(remote: Remote) returns (r: Result<seq<Repo>, FetchError>)
      modifies this
      ensures r == ReposOf(old(reposCache), remote)
      ensures reposCache == ReposCacheAfter(old(reposCache), remote)
      ensures profileCache == old(profileCache)
      ensures requests == old(requests) + ListRequests(old(reposCache), remote)
    {
      if reposCache.Some? {
        return Success(reposCache.value);
      }
      var allRepos: seq<RawRepo> := [];
      var page: nat := 1;
      while true
        invariant 1 <= page <= |remote.pages| + 1
        invariant ListRepos(remote) == ListFrom(remote, page, allRepos)
        invariant requests == old(requests) + seq(page - 1, (k: nat) => RepoPage(k + 1))
        invariant reposCache == None && profileCache == old(profileCache)
        decreases |remote.pages| + 1 - page
      {
        requests := requests + [RepoPage(page)];
        assert requests == old(requests) + seq(page, (k: nat) => RepoPage(k + 1));
        var repos, _, _ := FetchWithRetry(PageOutcome(remote, page), DefaultRetries);
        if repos.Failure? {
          return Failure(repos.error);
        }
        if |repos.value| == 0 {
          break;
        }
        allRepos := allRepos + repos.value;
        if |repos.value| < PerPage {
          break;
        }
        PageReplyPastEnd(remote, page);
        page := page + 1;
      }
      reposCache := Some(NormalizeAll(allRepos));
      r := Success(reposCache.value);
    }

    /** `getYearCommits`: for each repository in list order, the commits of
        the year are requested and each one adds one to the total and to its
        month, weekday and hour slot; a repository whose request fails adds
        nothing. Only a failing repository listing is rethrown. */
    method GetYearCommits(remote: Remote, year: int) returns (r: Result<CommitBuckets, FetchError>)
      modifies this
      ensures ReposOf(old(reposCache), remote).Failure? ==>
                r == Failure(ReposOf(old(reposCache), remote).error)
                && requests == old(requests) + ListRequests(old(reposCache), remote)
      ensures ReposOf(old(reposCache), remote).Success? ==>
                var repos := ReposOf(old(reposCache), remote).value;
                && r == Success(Bucketize(RetrievedCommits(remote, repos, year)))
                && requests == old(requests) + ListRequests(old(reposCache), remote)
                                             + CommitRequests(repos, year)
      ensures r.Success? ==> WellFormed(r.value)
      ensures reposCache == ReposCacheAfter(old(reposCache), remote)
      ensures profileCache == old(profileCache)
    {
      var listed := GetRepositories(remote);
      if listed.Failure? {
        return Failure(listed.error);
      }
      var buckets := CountCommits(remote, listed.value, year);
      BucketizeWellFormed(RetrievedCommits(remote, listed.value, year));
      r := Success(buckets);
    }

    /** The request for the commits of one repository in `year`. */
    method FetchCommits(remote: Remote, repo: Repo, year: int) returns (reply: Result<seq<RawCommit>, FetchError>)
      modifies this
      ensures reply == CommitsReply(remote, repo, year)
      ensures requests == old(requests) + [RepoCommits(repo.fullName, year)]
      ensures reposCache == old(reposCache) && profileCache == old(profileCache)
    {
      requests := requests + [RepoCommits(repo.fullName, year)];
      var attempts, delays;
      reply, attempts, delays := FetchWithRetry(remote.commits(repo.fullName)(year), DefaultRetries);
    }

    /** The loop of `getYearCommits` over the listed repositories. */
    method CountCommits(remote: Remote, repos: seq<Repo>, year: int) returns (b: CommitBuckets)
      modifies this
      ensures b == Bucketize(RetrievedCommits(remote, repos, year))
      ensures requests == old(requests) + CommitRequests(repos, year)
      ensures reposCache == old(reposCache) && profileCache == old(profileCache)
    {
      var total: nat := 0;
      var byMonth := new nat[12](m => 0);
      var byDay := new nat[7](d => 0);
      var byHour := new nat[24](h => 0);
      ghost var seen: seq<RawCommit> := [];
      for i := 0 to |repos|
        invariant seen == RetrievedCommits(remote, repos[..i], year)
        invariant total == |seen|
        invariant byMonth[..] == Histogram(Months(seen), 12)
        invariant byDay[..] == Histogram(Weekdays(seen), 7)
        invariant byHour[..] == Histogram(Hours(seen), 24)
        invariant requests == old(requests) + CommitRequests(repos[..i], year)
        invariant reposCache == old(reposCache) && profileCache == old(profileCache)
      {
        CommitRequestsSnoc(repos, i, year);
        RetrievedCommitsSnoc(remote, repos, i, year);
        var reply := FetchCommits(remote, repos[i], year);
        if reply.Success? {
          var commits := reply.value;
          total := total + |commits|;
          Tally(commits, byMonth, byDay, byHour, seen);
          seen := seen + commits;
        }
      }
      assert repos[..|repos|] == repos;
      b := CommitBuckets(total, byMonth[..], byDay[..], byHour[..]);
    }

    /** `getLanguageStats`: the language maps of the repositories last updated
        in `year` are requested in list order and their entries accumulated in
        the dictionary (a failing repository adds nothing), which is then
        sorted by bytes, largest first. Only a failing repository listing is
        rethrown. */
    method GetLanguageStats(remote: Remote, year: int) returns (r: Result<seq<LanguageStat>, FetchError>)
      modifies this
      ensures ReposOf(old(reposCache), remote).Failure? ==>
                r == Failure(ReposOf(old(reposCache), remote).error)
                && requests == old(requests) + ListRequests(old(reposCache), remote)
      ensures ReposOf(old(reposCache), remote).Success? ==>
                var repos := ReposOf(old(reposCache), remote).value;
                && r == Success(LanguageStats(RetrievedEntries(remote, UpdatedIn(repos, year))))
                && requests == old(requests) + ListRequests(old(reposCache), remote)
                                             + LanguageRequests(UpdatedIn(repos, year))
      ensures reposCache == ReposCacheAfter(old(reposCache), remote)
      ensures profileCache == old(profileCache)
    {
      var listed := GetRepositories(remote);
      if listed.Failure? {
        return Failure(listed.error);
      }
      var dict := AccumulateLanguages(remote, UpdatedIn(listed.value, year));
      r := Success(SortDesc(dict, Bytes));
    }

    /** The request for the language map of one repository. */
    method FetchLanguages(remote: Remote, repo: Repo) returns (reply: Result<seq<Entry>, FetchError>)
      modifies this
      ensures reply == LanguagesReply(remote, repo)
      ensures requests == old(requests) + [RepoLanguages(repo.fullName)]
      ensures reposCache == old(reposCache) && profileCache == old(profileCache)
    {
      requests := requests + [RepoLanguages(repo.fullName)];
      var attempts, delays;
      reply, attempts, delays := FetchWithRetry(remote.languages(repo.fullName), DefaultRetries);
    }

    /** The loop of `getLanguageStats` over the repositories of the year. */
    method AccumulateLanguages(remote: Remote, yearRepos: seq<Repo>) returns (dict: seq<LanguageStat>)
      modifies this
      ensures dict == Accumulate(RetrievedEntries(remote, yearRepos))
      ensures requests == old(requests) + LanguageRequests(yearRepos)
      ensures reposCache == old(reposCache) && profileCache == old(profileCache)
    {
      dict := [];
      ghost var seen: seq<Entry> := [];
      for i := 0 to |yearRepos|
        invariant seen == RetrievedEntries(remote, yearRepos[..i])
        invariant dict == Accumulate(seen)
        invariant requests == old(requests) + LanguageRequests(yearRepos[..i])
        invariant reposCache == old(reposCache) && profileCache == old(profileCache)
      {
        LanguageRequestsSnoc(yearRepos, i);
        RetrievedEntriesSnoc(remote, yearRepos, i);
        var reply := FetchLanguages(remote, yearRepos[i]);
        if reply.Success? {
          dict := AddAll(dict, reply.value, seen);
          seen := seen + reply.value;
        }
      }
      assert yearRepos[..|yearRepos|] == yearRepos;
    }

    /** `getBiggestProject`: the qualifying repository of highest score, first
        in list order among equals, or nothing if none qualifies. */
    method GetBiggestProject(remote: Remote, year: int) returns (r: Result<Option<Repo>, FetchError>)
      modifies this
      ensures ReposOf(old(reposCache), remote).Failure? ==>
                r == Failure(ReposOf(old(reposCache), remote).error)
      ensures ReposOf(old(reposCache), remote).Success? ==>
                r == Success(BiggestProject(ReposOf(old(reposCache), remote).value, year))
      ensures requests == old(requests) + ListRequests(old(reposCache), remote)
      ensures reposCache == ReposCacheAfter(old(reposCache), remote)
      ensures profileCache == old(profileCache)
    {
      var listed := GetRepositories(remote);
      if listed.Failure? {
        return Failure(listed.error);
      }
      r := Success(BiggestProject(listed.value, year));
    }

    /** `getContributionSummary`: commits, languages, repositories, profile,
        productive time and biggest project, in that order. The listing is
        fetched at most once (the first call caches it), so the summary fails
        exactly when the listing or the profile fails. */
    method GetContributionSummary(remote: Remote, year: int) returns (r: Result<YearSummary, FetchError>)
      modifies this
      ensures r == SummaryOf(remote, username, old(reposCache), old(profileCache), year)
      ensures reposCache == ReposCacheAfter(old(reposCache), remote)
      ensures ReposOf(old(reposCache), remote).Failure? ==>
                profileCache == old(profileCache)
                && requests == old(requests) + ListRequests(old(reposCache), remote)
      ensures ReposOf(old(reposCache), remote).Success? ==>
                var repos := ReposOf(old(reposCache), remote).value;
                && profileCache == ProfileCacheAfter(old(profileCache), remote, username)
                && requests == old(requests) + ListRequests(old(reposCache), remote)
                               + CommitRequests(repos, year) + LanguageRequests(UpdatedIn(repos, year))
                               + ProfileRequests(old(profileCache))
    {
      var commits := GetYearCommits(remote, year);
      if commits.Failure? {
        return Failure(commits.error);
      }
      ghost var listed := ReposOf(old(reposCache), remote).value;
      ghost var afterCommits := requests;
      r := FinishSummary(remote, year, commits.value);
      assert requests == afterCommits + (LanguageRequests(UpdatedIn(listed, year)) + ProfileRequests(old(profileCache)));
    }

    /** The rest of `getContributionSummary` once the commits of the cached
        listing are counted: the languages, the listing again (from the
        cache), the profile, the productive time and the biggest project.
        Only a failing profile is rethrown. */
    method FinishSummary(remote: Remote, year: int, commits: CommitBuckets)
      returns (r: Result<YearSummary, FetchError>)
      requires reposCache.Some?
      requires commits == Bucketize(RetrievedCommits(remote, reposCache.value, year))
      modifies this
      ensures r == SummaryOf(remote, username, old(reposCache), old(profileCache), year)
      ensures reposCache == old(reposCache)
      ensures profileCache == ProfileCacheAfter(old(profileCache), remote, username)
      ensures requests == old(requests) + LanguageRequests(UpdatedIn(old(reposCache).value, year))
                                        + ProfileRequests(old(profileCache))
    {
      CachedListing(reposCache.value, remote);
      var languages := GetLanguageStats(remote, year);
      ghost var afterLanguages := requests;
      assert afterLanguages == old(requests) + LanguageRequests(UpdatedIn(old(reposCache).value, year));
      var repos := GetRepositories(remote);
      assert requests == afterLanguages;
      var profile := GetUserProfile(remote);
      ghost var afterProfile := requests;
      if profile.Failure? {
        return Failure(profile.error);
      }
      BucketizeWellFormed(RetrievedCommits(remote, repos.value, year));
      var productiveTime := MostProductiveTime(commits);
      var biggest := GetBiggestProject(remote, year);
      assert requests == afterProfile;
      var yearRepos := YearRepos(repos.value, year);
      r := Success(YearSummary(
        profile.value, year, commits, languages.value, productiveTime, biggest.value,
        |yearRepos|, SumStars(yearRepos), SumForks(yearRepos)));
      assert repos == Success(old(reposCache).value);
      assert languages == Success(LanguageStats(RetrievedEntries(remote, UpdatedIn(repos.value, year))));
      assert biggest == Success(BiggestProject(repos.value, year));
      AssembleFrom(remote, repos.value, profile.value, year, commits, languages.value, biggest.value);
    }

    /** `validateToken`: true exactly when the authenticated-user request
        succeeds within the default number of attempts. */
    method ValidateToken(remote: Remote) returns (ok: bool)
      modifies this
      ensures ok <==> Retry(remote.user, DefaultRetries).result.Success?
      ensures requests == old(requests) + [UserCheck]
      ensures reposCache == old(reposCache) && profileCache == old(profileCache)
    {
      requests := requests + [UserCheck];
      var reply, _, _ := FetchWithRetry(remote.user, DefaultRetries);
      ok := reply.Success?;
    }
  }

  /** A fresh client asked twice for the listing: once the first call has
      succeeded, the second is answered from the cache with no further request;
      a failure is not cached, so the second call fetches again. */
  method ListTwice(remote: Remote, username: string, token: string)
    returns (first: Result<seq<Repo>, FetchError>, second: Result<seq<Repo>, FetchError>, log: seq<Request>)
    ensures first == ReposOf(None, remote) && second == first
    ensures first.Success? ==> log == ListRequests(None, remote)
    ensures first.Failure? ==> log == ListRequests(None, remote) + ListRequests(None, remote)
  {
    var api := new GitHubApi(username, token);
    first := api.GetRepositories(remote);
    second := api.GetRepositories(remote);
    log := api.requests;
  }

  /** The same for the profile: one request when the first call succeeds,
      two when it fails. */
  method ProfileTwice(remote: Remote, username: string, token: string)
    returns (first: Result<Profile, FetchError>, second: Result<Profile, FetchError>, log: seq<Request>)
    ensures first == ProfileOf(None, remote, username) && second == first
    ensures first.Success? ==> log == [UserProfile]
    ensures first.Failure? ==> log == [UserProfile, UserProfile]
  {
    var api := new GitHubApi(username, token);
    first := api.GetUserProfile(remote);
    second := api.GetUserProfile(remote);
    log := api.requests;
  }
}
