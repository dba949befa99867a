/**
 * The entities the hosting-API client produces and the yearly summary it
 * assembles. Timestamps arrive already broken into the local calendar fields
 * the code reads from them (`getFullYear`, `getMonth`, `getDay`, `getHours`).
 */
module Records {
  import opened Wrappers

  type Month = m: nat | m < 12
  type Weekday = d: nat | d < 7
  type Hour = h: nat | h < 24

  /** A parsed timestamp: its calendar year, month (0 = January), weekday
      (0 = Sunday) and hour, in local time. */
  datatype Date = Date(year: int, month: Month, weekday: Weekday, hour: Hour)

  /** A repository as the listing endpoint sends it (field names as on the wire). */
  datatype RawRepo = RawRepo(
    name: string,
    full_name: string,
    description: Option<string>,
    language: Option<string>,
    stargazers_count: nat,
    forks_count: nat,
    size: nat,
    created_at: Date,
    updated_at: Date,
    html_url: string,
    private: bool,
    fork: bool)

  /** A repository as the rest of the application sees it. */
  datatype Repo = Repo(
    name: string,
    fullName: string,
    description: Option<string>,
    language: Option<string>,
    stars: nat,
    forks: nat,
    size: nat,
    createdAt: Date,
    updatedAt: Date,
    url: string,
    isPrivate: bool,
    isFork: bool)

  /** The renaming that turns a listing record into a `Repo`. It loses
      nothing: renaming back gives the listing record again. */
  function Normalize(r: RawRepo): (n: Repo)
    ensures Denormalize(n) == r
  {
    Repo(r.name, r.full_name, r.description, r.language, r.stargazers_count, r.forks_count,
         r.size, r.created_at, r.updated_at, r.html_url, r.private, r.fork)
  }

  /** The renaming back to the field names of the wire. */
  function Denormalize(n: Repo): RawRepo {
    RawRepo(n.name, n.fullName, n.description, n.language, n.stars, n.forks, n.size,
            n.createdAt, n.updatedAt, n.url, n.isPrivate, n.isFork)
  }

  /** Two listing records with the same renaming are the same record, and
      every `Repo` is the renaming of some listing record. */
  lemma NormalizeIsBijective(a: RawRepo, b: RawRepo, n: Repo)
    ensures Normalize(a) == Normalize(b) ==> a == b
    ensures Normalize(Denormalize(n)) == n
  {
  }

  /** One element of the commit listing: only its author date is read. */
  datatype RawCommit = RawCommit(authorDate: Date)

  /** The user record as the profile endpoint sends it. */
  datatype RawProfile = RawProfile(
    name: Option<string>,
    avatar_url: string,
    bio: Option<string>,
    location: Option<string>,
    company: Option<string>,
    public_repos: nat,
    followers: nat,
    following: nat,
    created_at: Date)

  /** The cached profile. */
  datatype Profile = Profile(
    name: string,
    avatar: string,
    bio: Option<string>,
    location: Option<string>,
    company: Option<string>,
    publicRepos: nat,
    followers: nat,
    following: nat,
    createdAt: Date)

  /** Commit counts for the year: in total and per month, weekday and hour. */
  datatype CommitBuckets = CommitBuckets(total: nat, byMonth: seq<nat>, byDay: seq<nat>, byHour: seq<nat>)

  /** Bytes written in one language (the rounded percentage is not modelled). */
  datatype LanguageStat = LanguageStat(name: string, bytes: nat)

  datatype TimeOfDay = Morning | Afternoon | Evening | Night {
    /** The label the application displays. */
    function Name(): string {
      match this
      case Morning => "Morning"
      case Afternoon => "Afternoon"
      case Evening => "Evening"
      case Night => "Night"
    }
  }

  /** The busiest weekday (by name) and hour, and the part of the day that hour falls in. */
  datatype ProductiveTime = ProductiveTime(day: string, hour: nat, timeOfDay: TimeOfDay)

  /** Everything the slides and the narrative are built from. */
  datatype YearSummary = YearSummary(
    profile: Profile,
    year: int,
    commits: CommitBuckets,
    languages: seq<LanguageStat>,
    productiveTime: ProductiveTime,
    biggestProject: Option<Repo>,
    repoCount: nat,
    totalStars: nat,
    totalForks: nat)
}
