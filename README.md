# GitHub Wrapped, modelled in Dafny

GitHub Wrapped is a browser application. It turns a year of a developer's
GitHub activity into a story of eight slides, in the style of Spotify Wrapped:
- It signs in with a username and a personal access token.
- It lists every repository and counts the year's commits by month, weekday and hour.
- It adds up the bytes of each language across the repositories updated that year.
- It picks the biggest project and totals the stars and forks.
- It asks a Gemini model for five short insights and a one-paragraph summary, with fixed fallback texts when that fails.

This project models the core of that application:
- the hosting-API client `GitHubAPI` (`github-api.js`);
- the insights client `AIInsights` (`ai-insights.js`);
- the slide generator `Slides` (`slides.js`);
- the controller `GitHubWrappedApp` (`app.js`);
- the year selector set up on page load (`auto-year.js`).

It proves properties of each of them. The modules are:

| file | module | what it holds |
|---|---|---|
| `wrappers.dfy` | `Wrappers` | `Option` and `Result` |
| `records.dfy` | `Records` | the repository, commit, profile and summary records |
| `text.dfy` | `Text` | `trim`, `includes`, `indexOf`, `split`, `toLowerCase`, number printing, template literals |
| `retry.dfy` | `FetchRetry` | `fetchWithRetry`: attempt classification, backoff, the retry loop |
| `buckets.dfy` | `Buckets` | the commit total and the month, weekday and hour histograms |
| `sorting.dfy` | `Sorting` | the stable descending sort used for languages and projects |
| `languages.dfy` | `Languages` | the language-bytes dictionary and its sorted statistics |
| `metrics.dfy` | `Metrics` | busiest day and hour, time of day, biggest project, year totals |
| `github.dfy` | `GitHub` | the `GitHubApi` class: caches, paging, per-repository loops, the summary |
| `ai_insights.dfy` | `Insights` | the insight parser, the fallback texts, the completion outcomes, the key check |
| `slides.dfy` | `Slides` | the eight slides, icons, most active month, time emoji |
| `auto_year.dfy` | `AutoYear` | the wrapped year, the first selectable year and the year options |
| `app.dfy` | `App` | the `WrappedApp` class: the form, the loading sequence, navigation and errors |

How the outside world appears in the model:

- **The network is an input.** A `Remote` gives, for every request the client can
  make, the outcome of each attempt. The outcomes are: a transport failure, or a
  response with a status, a status text, the rate-limit reset time and a body that
  parses or not. The retry loop is a function of these outcomes. It returns a
  `Trace`: the result, the number of attempts and the delays slept.
- **A request log.** The `GitHubApi` class keeps its two caches as fields, as the
  source does. It also keeps a log of the requests it issues, so that "a cached
  listing costs no request" and "pages are requested 1, 2, … in order" can be
  stated.
- **Dates arrive parsed.** A timestamp is its local year, month, weekday and hour,
  which is what the code reads from it.
- **The remote model's answers are inputs.** A completion is a `Completion`: a
  failed request, a non-ok status, no candidate, a candidate without text, or
  generated text. The key probe is a `KeyProbe`.
- **Fixed texts are kept symbolic.** A text handed to the slides is a `Prose`.
  It is either a string read from a completion, or one of the client's template
  literals together with the values spliced into it. `Render()` gives the
  string. The lemmas prove, through `Render()`, that each fallback text contains
  the figures it is built from.
- **The score is scaled.** `getBiggestProject` scores a repository as
  `stars*10 + forks*5 + size/1000`. The model uses 1000 times that,
  `stars*10000 + forks*5000 + size`. This keeps the score a natural number and
  orders repositories as the exact, unrounded score would. Where two scores
  are equal in exact arithmetic, floating-point rounding can order them
  differently (see "## Left out").
- **Sorting.** JavaScript's `sort` with a `(a, b) => key(b) - key(a)` comparator
  is modelled as a stable insertion sort. The model proves the result is ordered,
  is a permutation of the input and keeps ties in their input order.
- **The page is fields.** The controller's page is a set of fields: the rendered
  slides, the slide on show, the disabled state of the two buttons, the page
  shown and the error modal.

Where the code does something other than what its names and comments suggest, the model follows the code:

- A 403 response is retried like any other failure. The rate-limit error is
  thrown inside the same `try` whose `catch` retries (`github-api.js:48-60`), so
  it is not surfaced at once. `FetchRetry.RateLimitIsRetried` states this.
- `validateKey` returns true for every key of 20 characters or more, whatever
  the test request answers (`ai-insights.js:221-248`). Only the length test
  decides, and the controller ignores the result anyway.
- `wrappedYear` is the previous year in both branches of its test
  (`auto-year.js:39-44`).
- A candidate without a text field makes `parseInsights(undefined)` throw inside
  its own `try`. This yields empty insights rather than the fallback
  (`ai-insights.js:66-68`, `115-133`). In `generateYearSummary`, the same case
  throws in the outer `try` and gives the fixed summary.

## Model

| member | source | states |
|---|---|---|
| Records.Normalize | github-api.js:108-121 | the renaming loses nothing: renaming the result back gives the listing record |
| Records.NormalizeIsBijective | github-api.js:108-121 | distinct listing records stay distinct, and every repository is the renaming of a listing record |
| Text.TrimSpec | ai-insights.js:120 | `trim` leaves the infix between a white-space prefix and a white-space suffix, neither starting nor ending with white space (used for the form fields and the parsed insights) |
| Text.TrimEmptyIffBlank | app.js:116-124 | a trimmed field is empty exactly when the field is blank, the test of the form check |
| Text.IndexOf | ai-insights.js:119-128 | `indexOf` gives an occurrence with none before it, and none means no occurrence at any position |
| Text.JoinSplit | ai-insights.js:116 | splitting the completion into lines loses no character: joining the pieces gives the text back |
| Text.ParseNatToString | ai-insights.js:145-149 | a number printed into a template literal reads back as the same number |
| Text.TemplateEmbeds | ai-insights.js:145-149 | a template literal filled with one value per hole contains every value |
| FetchRetry.Classify | github-api.js:46-57 | a failed transport is a transport error with its reason; a 403 is the rate-limit error carrying the reset time; any other non-2xx status is an API error with its status and text; a 2xx whose body does not parse is a malformed-JSON error; an attempt succeeds exactly when it got a 2xx response whose body parsed, and then yields the parsed body |
| FetchRetry.RetryFromSpec | github-api.js:43-62 | from attempt i: between 1 and the remaining attempts are made; every attempt but the last failed; the result is the last attempt's; failure only after the last allowed attempt; the delays are the backoffs of the failed attempts but the last, in order |
| FetchRetry.RetrySucceedsIffSomeAttemptSucceeds | github-api.js:43-62 | the call succeeds iff one of the first `retries` attempts succeeds, and then with the value of the first such attempt |
| FetchRetry.RetryExhausted | github-api.js:58-61 | when every attempt fails: the last attempt's error, exactly `retries` attempts, delays 1000, 2000, … ms with none after the last |
| FetchRetry.RateLimitIsRetried | github-api.js:48-60 | a 403 followed by a good response returns that response after two attempts and one 1000 ms delay |
| Buckets.HistogramSnoc | github-api.js:152-154 | one more commit adds one to its own slot and leaves every other slot alone |
| Buckets.HistogramSum | github-api.js:132-155 | a histogram of keys that are all in range sums to the number of keys |
| Buckets.BucketizeWellFormed | github-api.js:131-166 | the buckets have 12, 7 and 24 slots, and each histogram sums to the commit total |
| Sorting.SortDesc | github-api.js:202 | the sorted list is in non-increasing key order, has the same length and has the same elements |
| Sorting.SortPermutes | github-api.js:202 | the sorted list is a permutation (same multiset) of the input |
| Sorting.SortIsStable | github-api.js:246 | elements with equal keys keep their relative order |
| Languages.Find | github-api.js:187 | a dictionary lookup finds an entry of that name, or there is none |
| Languages.AddBytesEffect | github-api.js:186-188 | one entry adds its bytes to an existing language in place or appends a new one; nothing else changes and names stay distinct |
| Languages.AccumulateCorrect | github-api.js:180-192 | the dictionary holds each language named by some entry exactly once and no other, each with the sum of its entries' bytes |
| Languages.LanguageStatsCorrect | github-api.js:194-202 | the statistics are sorted by bytes, a permutation of the dictionary, one per language of the entries, each with its total bytes |
| Metrics.FirstMaxIndex | github-api.js:210-211 | `indexOf(Math.max(...))`: a maximal slot with every earlier slot strictly smaller |
| Metrics.FirstMaxUnique | slides.js:372 | any slot that is maximal with all earlier slots smaller is the one `indexOf(Math.max(...))` finds |
| Metrics.TimeOfDayOf | github-api.js:220-225 | Morning iff 5 <= h < 12, Afternoon iff 12 <= h < 17, Evening iff 17 <= h < 21, Night otherwise |
| Metrics.MostProductiveTime | github-api.js:208-218 | the busiest hour (the first of the largest), a day name from the week's names, and the time of day of that hour |
| Metrics.NoCommitsProductiveTime | github-api.js:208-218 | with no commits at all, the peak time is Sunday at hour 0, at Night |
| Metrics.YearReposMembers | github-api.js:261-265 | the year's repositories are exactly those created or updated in the year |
| Metrics.YearReposAppend | github-api.js:232-236 | the year filter distributes over concatenation |
| Metrics.BiggestProject | github-api.js:228-249 | nothing iff no repository was created or updated in the year; otherwise a qualifying repository whose score no qualifying repository exceeds |
| Metrics.BiggestProjectIsFirst | github-api.js:241-248 | the chosen project is the first in list order among the qualifying repositories of highest score |
| Metrics.TotalsAppend | github-api.js:274-276 | the repository count, stars and forks add up over concatenated lists |
| Metrics.NonQualifyingIgnored | github-api.js:261-276 | a repository not of the year changes none of the three totals |
| Metrics.QualifyingCounted | github-api.js:261-276 | a repository of the year adds one to the count, its stars and its forks |
| GitHub.PageReplyPastEnd | github-api.js:97-102 | a page after the last one holds no repositories |
| GitHub.ListFromBounds | github-api.js:97-106 | the listing loop ends at a page no further than one past the remote's pages |
| GitHub.ListFromFullPages | github-api.js:102-105 | every page before the one the loop ends at was full (100 repositories or more) |
| GitHub.ListFromResult | github-api.js:97-106 | the loop fails with the error of the page it ends at; on success that page was short and the result is the pages' repositories in order |
| GitHub.ListingIsPagesInOrder | github-api.js:90-124 | pages 1 … last are requested in order; all but the last were full; the listing is their concatenation or the last page's error |
| GitHub.NormalizeAll | github-api.js:108-121 | every listed repository is renamed, in order |
| GitHub.CachedListing | github-api.js:91 | a cached listing is returned as it is, stays cached and costs no request |
| GitHub.GatherAppend | github-api.js:138-159 | what a list of repositories contributes is what each part contributes, in order |
| GitHub.RetrievedCommitsAppend | github-api.js:138-159 | the commits retrieved from concatenated repository lists are those of each list in order |
| GitHub.FailingRepoContributesNothing | github-api.js:156-158 | a repository whose commit request fails contributes nothing: the counted commits are those of the list without it |
| GitHub.UpdatedInMembers | github-api.js:175-178 | the language filter keeps exactly the repositories last updated in the year |
| GitHub.SummaryProperties | github-api.js:252-278 | a successful summary has the requested year; well-formed buckets whose total is the retrieved commits; hour < 24; languages sorted, distinct and exactly those of the year's repositories; no project iff no repository of the year; count <= repositories |
| GitHub.SummaryFailure | github-api.js:252-258 | the summary fails iff the listing or the profile fails, with the listing's error first |
| GitHub.Tally | github-api.js:146-155 | after the `forEach`, the three arrays are the histograms of the commits seen so far plus this repository's |
| GitHub.AddAll | github-api.js:186-188 | after the inner loop the dictionary is the one built from all entries seen so far plus these |
| GitHub.GitHubApi.constructor | github-api.js:31-40 | a client for the user and token with both caches empty and no request issued |
| GitHub.GitHubApi.FetchWithRetry | github-api.js:43-63 | the loop returns exactly the result, attempt count and delays `Retry` describes |
| GitHub.GitHubApi.GetUserProfile | github-api.js:70-87 | the cached profile or the fetched one (name falls back to the username); the cache is filled on success; one request unless cached |
| GitHub.GitHubApi.GetRepositories | github-api.js:90-124 | the cached list or the paged listing renamed; the cache is filled on success; the requests are the pages in order, none if cached |
| GitHub.GitHubApi.GetYearCommits | github-api.js:127-167 | a listing failure is rethrown; otherwise the buckets of the retrieved commits (well-formed), after one commit request per repository in order |
| GitHub.GitHubApi.FetchCommits | github-api.js:140-142 | the reply is what the retry loop gives for that repository's commits in the year; one request is logged |
| GitHub.GitHubApi.CountCommits | github-api.js:138-159 | the loop's buckets are those of the commits of every repository whose request succeeds, with one request per repository |
| GitHub.GitHubApi.GetLanguageStats | github-api.js:170-205 | a listing failure is rethrown; otherwise the sorted statistics of the entries of the repositories updated in the year, after one request for each such repository |
| GitHub.GitHubApi.FetchLanguages | github-api.js:182-184 | the reply is what the retry loop gives for that repository's language map; one request is logged |
| GitHub.GitHubApi.AccumulateLanguages | github-api.js:180-192 | the loop's dictionary is the accumulation of the entries of every repository whose request succeeds, with one request per repository |
| GitHub.GitHubApi.GetBiggestProject | github-api.js:228-249 | a listing failure is rethrown; otherwise the biggest project of the listing; no request beyond the listing |
| GitHub.GitHubApi.GetContributionSummary | github-api.js:252-278 | the result is the summary of the listing and profile, or the first of their errors; the caches are filled |
| GitHub.GitHubApi.FinishSummary | github-api.js:254-278 | with the listing cached, the summary is completed with one language request per repository of the year |
| GitHub.GitHubApi.ValidateToken | github-api.js:281-288 | true exactly when the authenticated-user request succeeds within three attempts; one request; the caches unchanged |
| GitHub.ListTwice | github-api.js:91 | a second listing call returns the first's result; it issues no request if the first succeeded, or repeats the listing if it failed |
| GitHub.ProfileTwice | github-api.js:71 | a second profile call returns the first's result; it costs one request in total if the first succeeded, two if it failed |
| Insights.Set | ai-insights.js:119-128 | filling one insight leaves the other four unchanged |
| Insights.FirstLabel | ai-insights.js:119-129 | the label of a line is the first in testing order whose marker it contains; none if it contains no marker |
| Insights.SegmentAfter | ai-insights.js:120 | `split(marker)[1]` is the text after the first marker up to the next one (or the end), and contains no marker |
| Insights.NonBlankLines | ai-insights.js:116 | the kept lines are non-blank lines of the text |
| Insights.NonBlankLinesAppend | ai-insights.js:116 | the filter works line by line: filtering a concatenation concatenates the filtered parts, so order and multiplicity are kept |
| Insights.NonBlankLine | ai-insights.js:116 | a single line is kept exactly when it is not blank |
| Insights.NonBlankLinesKeeps | ai-insights.js:116 | every non-blank line is kept |
| Insights.BlankHoldsNoMarker | ai-insights.js:119-129 | a blank line contains none of the five markers |
| Insights.ParseLinesSkipsBlank | ai-insights.js:116-130 | dropping the blank lines does not change the parsed insights |
| Insights.ParseInsights | ai-insights.js:106-136 | the loop's result is the insights the non-blank lines give, read in order |
| Insights.UnlabelledStaysEmpty | ai-insights.js:107-113 | an insight that no line labels stays the empty string |
| Insights.LabelAbsentStaysEmpty | ai-insights.js:106-136 | an insight whose marker no non-blank line contains stays empty |
| Insights.LastLineWins | ai-insights.js:118-130 | the last line labelled with a label decides its insight: the trimmed text after the marker |
| Insights.LastLabelledLineDecides | ai-insights.js:116-130 | for a whole text: the last line (after splitting at newlines) whose first label is `l` decides the insight of `l`, its trimmed text after the marker |
| Insights.FirstMarkerOnly | ai-insights.js:119-129 | a line with several markers fills only the insight of the first in testing order |
| Insights.RoundedDailyAverage | ai-insights.js:145 | `Math.round(total / 365)` is within half a day's worth of the exact average |
| Insights.FilledEmbeds | ai-insights.js:145-149 | a fallback literal filled with its values contains each of them |
| Insights.FallbackEmbedsFigures | ai-insights.js:139-151 | the fallback insights contain the commit total and daily average, the peak period, day and hour, the repository count and top language ('code' if none), the language count, the stars and the next year |
| Insights.GenerateInsights | ai-insights.js:37-73 | generated text is parsed; a candidate without text gives empty insights; any other failure gives the fallback |
| Insights.YearSummaryText | ai-insights.js:154-193 | generated text is trimmed; every failure gives the fixed summary |
| Insights.SummaryFallbackEmbedsFigures | ai-insights.js:191 | the fixed summary contains the commits, repository count, top language ('various languages' if none), stars and next year |
| Insights.ValidateKey | ai-insights.js:196-249 | the key passes exactly when it has at least 20 characters, whatever the test request answers |
| Slides.MostActiveMonth | slides.js:369-374 | the name of a month with the largest count, every earlier month having fewer |
| Slides.QuietYearIsJanuary | slides.js:369-374 | a year without commits shows January |
| Slides.DailyAverageTenths | slides.js:133 | the contributions slide's per-day average, in tenths, is within half a tenth of the exact `total / 365` |
| Slides.DailyAverageTenthsUnique | slides.js:133 | no other count of tenths is that near, so the rounding is determined |
| Slides.TimeEmoji | slides.js:377-386 | the clock emoji exactly when the name is not one of the four periods |
| Slides.EachPeriodHasItsOwnEmoji | slides.js:377-386 | every period the metrics produce has its own emoji, distinct from the others and from the clock |
| Slides.GetIcon | slides.js:32-84 | a known name draws its own entry, an unknown one draws 'graph'; the view box is the entry's own, else "0 0 16 16"; the size is kept |
| Slides.AllSlides | slides.js:86-99 | eight slides, the i-th carrying `data-slide` i |
| Slides.ProjectSlideVariant | slides.js:204-251 | the fifth slide is the repository-count variant iff there is no biggest project, otherwise that project's card |
| Slides.InsightsAreShown | slides.js:254-321 | four insights on the insights slide; the motivation and the summary on the year-in-review slide |
| Slides.SlideIconsAreKnown | slides.js:32-84 | every icon a slide draws is in the icon table |
| AutoYear.WrappedYear | auto-year.js:39-44 | the wrapped year is the previous year, whatever the month |
| AutoYear.StartYear | auto-year.js:65 | the current year from July on, otherwise the previous one |
| AutoYear.OptionsCountDown | auto-year.js:68-79 | one option per year from the start year down to 2020, each selected iff it is the wrapped year |
| AutoYear.SelectedOption | auto-year.js:68-79 | an option is selected iff the wrapped year lies between 2020 and the start year, and then exactly one is |
| AutoYear.SetUpYears | auto-year.js:30-79 | the page shows the wrapped year, the start year and the options counted down to 2020 |
| AutoYear.WrappedYearIsOffered | auto-year.js:39-79 | on any date the wrapped year is selected iff it is 2020 or later, and at most one option is selected |
| App.ClassifySwipe | app.js:95-108 | forward iff the move is more than 50 to the left, back iff more than 50 to the right, nothing otherwise |
| App.NavigationStaysInRange | app.js:244-262 | stepping forward or back keeps the current slide among the rendered ones |
| App.StepsMoveByOne | app.js:244-262 | forward moves iff a story is loaded and the last slide is not on show, and back undoes it; back moves iff the first slide is not on show |
| App.ClassifyError | app.js:181-189 | a GitHub message gets the GitHub advice, else a Gemini one the AI advice, else a rate-limit one the fixed text; others shown as they are, an empty one replaced; never empty |
| App.InvalidTokenIsGitHubError | app.js:137-139 | a rejected token is reported as a GitHub error |
| App.ApiErrorIsGitHubError | app.js:181-182 | every non-ok hosting-API status other than 403 (which is the rate-limit error) is reported as a GitHub error |
| App.WrappedApp.constructor | app.js:31-39 | no slide, no client, no data, the landing page and no error |
| App.WrappedApp.UpdateNavigation | app.js:322-333 | back disabled exactly on the first slide, forward exactly on the last |
| App.WrappedApp.GoToSlide | app.js:264-307 | nothing without a story; otherwise the slide becomes current and the buttons follow it |
| App.WrappedApp.NextSlide | app.js:244-252 | one slide forward unless the last is on show or no story is loaded |
| App.WrappedApp.PreviousSlide | app.js:254-262 | one slide back unless the first is on show or no story is loaded |
| App.WrappedApp.HandleSwipe | app.js:95-108 | a left swipe goes forward, a right swipe back, a short move changes nothing |
| App.WrappedApp.GenerateStory | app.js:196-208 | the eight slides of the summary, insights and text are rendered, the first is the one on show and back is disabled; the page is unchanged (the caller shows the story, app.js:173) |
| App.WrappedApp.Restart | app.js:433-453 | the controller is cleared and the landing page shown; the error modal and the button states are left as they were |
| App.WrappedApp.CloseError | app.js:492-497 | the error modal closes; the slide, story, slide count, page, clients and button states are unchanged |
| App.WrappedApp.ReportError | app.js:177-192 | the classified message is shown and the landing page is back; the slide, story, slide count, clients and button states are unchanged |
| App.WrappedApp.ShowSummary | app.js:153-174 | a summary failure is reported, leaving the slide, button states and story as they were; otherwise the insights and text are generated and the story page shown from its first slide |
| App.WrappedApp.LoadStory | app.js:136-192 | a rejected token reports the token error; a failing summary reports its message; both leave the slide, button states and story as they were; otherwise the story of the summary, insights and text is shown |
| App.WrappedApp.StartSession | app.js:130-192 | both clients are created from the fields and the story is loaded as `LoadStory` states, a failure leaving the slide, button states and story as they were |
| App.WrappedApp.HandleAuthSubmit | app.js:113-194 | a blank field shows 'Please fill in all fields' and leaves the clients, story, slide, slide count, page and button states as they were; otherwise the trimmed fields create the clients and the story is loaded; a failure keeps the slide on show, the button states and the story |

## Left out

- `charts.js` is not part of this model. It holds the chart drawing and the number animation.
- HTTP, JSON parsing, request headers and URLs are not modelled: each request is its sequence of attempt outcomes. The sleeps are recorded as delays, not timed.
- Date parsing and time zones are not modelled: a timestamp arrives as its local year, month, weekday and hour.
- The language percentages (`toFixed(1)` of a float division) and the floating-point score are left out. The score is kept as an exact natural number scaled by 1000.
- The `score` field that `getBiggestProject` spreads into its result is not kept: the model returns the repository itself.
- The HTML and SVG markup of the slides, the icons' path data, the indicator dots and the `active`/`prev` classes are not modelled. A slide is the figures and texts it shows.
- The prompt text of `createPrompt` is left out: only what the completion ends with matters to the code.
- The share, download and clipboard features (`html2canvas`, the Web Share API, social links) and the demo data are left out. They are browser I/O.
- The loading-status text, the progress bar and the `sleep(500)` pauses of `handleAuthSubmit` are left out, as they change no state the model keeps.
- Asynchrony is not modelled: every `await` is taken in program order, with no interleaving between handlers.
- GitHub.GitHubApi.FetchWithRetry: requires at least one attempt. With `retries = 0` the source returns `undefined` without a request, and no caller asks for that.
- Metrics.BiggestProjectIsFirst: among repositories whose scores are equal in exact arithmetic, the model picks the first listed. The source adds the score in floating point, where one rounding step can break such a tie. For example, with no stars, size 5137 and no forks against size 137 and one fork, the source picks the second repository.
- Text.ToLower lowers only ASCII letters. It is applied only to the four period names, which are ASCII.
- String lengths count Unicode scalar values, not UTF-16 code units. This matters only for the 20-character key test on keys outside the BMP.
- The remote answers the same request the same way each time it is issued. A page after the last one answers with an empty page.
- Commits are requested by a repository's full name and the year. The date-range strings are not modelled.
- The year arrives as an integer. The `parseInt` of the selector's string value is not modelled.
- Touch coordinates are integers rather than floats.
- `getIcon` and `getTimeEmoji` look names up in a map, not a JavaScript object, so inherited property names such as `toString` or `constructor` are not modelled. In the source these are truthy and would be returned in place of the fallback icon or the '⏰' emoji.
- Slides.DailyAverageTenths: the contributions slide keeps its `toFixed(1)` average as a whole number of tenths, rounded to nearest in exact arithmetic. The decimal text and the rounding of the floating-point quotient are not modelled. The quotient's rounding error could change the tenth only for commit totals far beyond any real account.
- Slides.SlideIconsAreKnown covers the icons named by the slides. Icon sizes are kept by `GetIcon` but not listed per slide.
