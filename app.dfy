/**
 * The application controller (`GitHubWrappedApp`): the form check and the
 * sequence of calls that turns the credentials into a story, the slide
 * navigator and its buttons, and the messages shown when something fails.
 * The page's elements are fields of the controller: the rendered slides, the
 * state of the two navigation buttons, the page on show and the error modal.
 */
module App {
  import opened Wrappers
  import opened Text
  import opened FetchRetry
  import opened Records
  import opened Buckets
  import opened GitHub
  import opened Insights
  import opened Slides

  /** How far a touch must travel to count as a swipe. */
  const SwipeThreshold: int := 50

  datatype Swipe = NoSwipe | SwipeNext | SwipePrevious

  /** `handleSwipe`'s test: a move of more than 50 to the left goes forward,
      more than 50 to the right goes back, anything shorter is ignored. */
  function ClassifySwipe(startX: int, endX: int): (s: Swipe)
    ensures s == NoSwipe <==> -SwipeThreshold <= startX - endX <= SwipeThreshold
    ensures s == SwipeNext <==> startX - endX > SwipeThreshold
    ensures s == SwipePrevious <==> startX - endX < -SwipeThreshold
  {
    var diff := startX - endX;
    if (if diff < 0 then -diff else diff) > SwipeThreshold then
      if diff > 0 then SwipeNext else SwipePrevious
    else NoSwipe
  }

  /** The slide `nextSlide` leaves on show. */
  function NextIndex(current: int, total: nat, loaded: bool): int {
    if !loaded || total == 0 then current
    else if current < total - 1 then current + 1
    else current
  }

  /** The slide `previousSlide` leaves on show. */
  function PreviousIndex(current: int, total: nat, loaded: bool): int {
    if !loaded || total == 0 then current
    else if current > 0 then current - 1
    else current
  }

  /** The current slide is one of the rendered ones (or none are rendered). */
  predicate InRange(current: int, total: nat) {
    total == 0 || 0 <= current < total
  }

  /** Stepping forward or back never leaves the rendered slides. */
  lemma NavigationStaysInRange(current: int, total: nat, loaded: bool)
    requires InRange(current, total)
    ensures InRange(NextIndex(current, total, loaded), total)
    ensures InRange(PreviousIndex(current, total, loaded), total)
  {
  }

  /** Forward moves exactly when a story is loaded and the last slide is not
      on show, and back then undoes it; back moves exactly when a story is
      loaded and the first slide is not on show. */
  lemma StepsMoveByOne(current: int, total: nat, loaded: bool)
    requires InRange(current, total)
    ensures NextIndex(current, total, loaded) != current <==> loaded && total > 0 && current < total - 1
    ensures PreviousIndex(current, total, loaded) != current <==> loaded && total > 0 && current > 0
    ensures NextIndex(current, total, loaded) != current ==>
              PreviousIndex(NextIndex(current, total, loaded), total, loaded) == current
  {
  }

  /** The message shown when a field is blank. */
  const FillInAllFields := "Please fill in all fields"

  /** The error raised when the token check fails. */
  const InvalidToken := "Invalid " + "GitHub" + " token. Please check your credentials."

  const UnexpectedError := "An unexpected error occurred. Please try again."
  const GitHubAdvice := "\n\nPlease check your GitHub username and Personal Access Token."
  const GeminiAdvice := "\n\nPlease check your Gemini API Key or try the Demo mode."
  const RateLimitAdvice := "Rate limit exceeded. Please wait a few minutes and try again."

  /** The message the error modal shows for a thrown error: a message naming
      GitHub is reported as a GitHub error, otherwise one naming Gemini as an
      AI error, otherwise one naming the rate limit as that; any other message
      is shown as it is, and an empty one is replaced. The modal is never
      empty. */
  function ClassifyError(msg: string): (r: string)
    ensures r != ""
    ensures Contains(msg, "GitHub") ==> r == "GitHub API error: " + msg + GitHubAdvice
    ensures !Contains(msg, "GitHub") && Contains(msg, "Gemini") ==> r == "AI API error: " + msg + GeminiAdvice
    ensures !Contains(msg, "GitHub") && !Contains(msg, "Gemini") && Contains(msg, "Rate limit") ==>
              r == RateLimitAdvice
    ensures !Contains(msg, "GitHub") && !Contains(msg, "Gemini") && !Contains(msg, "Rate limit") ==>
              r == (if msg == "" then UnexpectedError else msg)
  {
    var fallback := if msg == "" then UnexpectedError else msg;
    if msg != "" && Contains(msg, "GitHub") then "GitHub API error: " + msg + GitHubAdvice
    else if msg != "" && Contains(msg, "Gemini") then "AI API error: " + msg + GeminiAdvice
    else if msg != "" && Contains(msg, "Rate limit") then RateLimitAdvice
    else fallback
  }

  /** A rejected token is reported as a GitHub error. */
  lemma InvalidTokenIsGitHubError()
    ensures ClassifyError(InvalidToken) == "GitHub API error: " + InvalidToken + GitHubAdvice
  {
    ContainsInfix("Invalid ", "GitHub", " token. Please check your credentials.");
  }

  /** So is every non-ok status of the hosting API other than 403. */
  lemma ApiErrorIsGitHubError(status: int, statusText: string)
    ensures var m := Message(ApiError(status, statusText));
            ClassifyError(m) == "GitHub API error: " + m + GitHubAdvice
  {
    var m := Message(ApiError(status, statusText));
    var prefix := "GitHub API error: ";
    assert m == prefix + (IntToString(status) + " " + statusText);
    assert m[..6] == prefix[..6] == "GitHub";
    assert OccursAt(m, "GitHub", 0);
  }

  /** How loading a story ends: with the message of the error thrown, or
      with the summary together with the insights and the summary text
      generated for it. */
  datatype Outcome =
    | Failed(message: string)
    | Loaded(summary: YearSummary, insights: Insights, text: Prose)

  /** The pages of the application. */
  datatype Page = LandingPage | LoadingPage | StoryPage

  class WrappedApp {
    var currentSlide: int
    var totalSlides: nat
    /** The hosting-API client, once created. */
    var githubApi: GitHubApi?
    /** The key of the insights client, once created (the client holds nothing else). */
    var aiKey: Option<string>
    var data: Option<YearSummary>
    /** The slides in the slide wrapper. */
    var slides: seq<Slide>
    var prevDisabled: bool
    var nextDisabled: bool
    var page: Page
    /** The message of the error modal while it is open. */
    var errorShown: Option<string>

    /** The slide count matches the rendered slides, and while a story is
        loaded the buttons agree with the slide on show: back is disabled on
        the first slide, forward on the last. */
    predicate Valid()
      reads this
    {
      && totalSlides == |slides|
      && (data.Some? && totalSlides > 0 ==>
            prevDisabled == (currentSlide == 0) && nextDisabled == (currentSlide == totalSlides - 1))
    }

    /** Everything navigation leaves alone. */
    function Story(): (Option<YearSummary>, seq<Slide>, nat, Page, Option<string>, GitHubApi?, Option<string>)
      reads this
    {
      (data, slides, totalSlides, page, errorShown, githubApi, aiKey)
    }

    /** The page after loading ended with `o`, given the story `data0`,
        `slides0` and error modal `error0` from before: an error is shown on
        the landing page with the story left as it was, or the new story is
        rendered and shown from its first slide. `current0`, `prev0` and
        `next0` are the slide on show and the button states before. */
    predicate Reached(o: Outcome, current0: int, prev0: bool, next0: bool, data0: Option<YearSummary>,
                      slides0: seq<Slide>, error0: Option<string>)
      reads this
    {
      && (o.Failed? ==>
            && errorShown == Some(ClassifyError(o.message)) && page == LandingPage
            && currentSlide == current0 && prevDisabled == prev0 && nextDisabled == next0
            && data == data0 && slides == slides0)
      && (o.Loaded? ==>
            && data == Some(o.summary) && |o.summary.commits.byMonth| == 12
            && slides == AllSlides(o.summary, o.insights, o.text) && totalSlides == |slides|
            && currentSlide == 0 && page == StoryPage && errorShown == error0)
    }

    constructor()
      ensures currentSlide == 0 && totalSlides == 0 && githubApi == null && aiKey == None && data == None
      ensures slides == [] && page == LandingPage && errorShown == None
      ensures Valid()
    {
      currentSlide := 0;
      totalSlides := 0;
      githubApi := null;
      aiKey := None;
      data := None;
      slides := [];
      prevDisabled := false;
      nextDisabled := false;
      page := LandingPage;
      errorShown := None;
    }

    /** `updateNavigation`: back is disabled exactly on the first slide,
        forward exactly on the last. */
    method UpdateNavigation()
      modifies this
      ensures prevDisabled == (currentSlide == 0) && nextDisabled == (currentSlide == totalSlides - 1)
      ensures currentSlide == old(currentSlide) && Story() == old(Story())
    {
      prevDisabled := currentSlide == 0;
      nextDisabled := currentSlide == totalSlides - 1;
    }

    /** `goToSlide`: with no story loaded nothing happens; otherwise the slide
        becomes current and the buttons follow it. */
    method GoToSlide(index: int)
      requires Valid()
      modifies this
      ensures Valid() && Story() == old(Story())
      ensures data.None? || totalSlides == 0 ==> unchanged(this)
      ensures data.Some? && totalSlides > 0 ==> currentSlide == index
    {
      if data.None? || totalSlides == 0 {
        return;
      }
      if |slides| == 0 {
        return;
      }
      currentSlide := index;
      UpdateNavigation();
    }

    /** `nextSlide`: one slide forward unless the last is on show. */
    method NextSlide()
      requires Valid()
      modifies this
      ensures Valid() && Story() == old(Story())
      ensures currentSlide == NextIndex(old(currentSlide), totalSlides, data.Some?)
      ensures data.None? || totalSlides == 0 ==> unchanged(this)
    {
      if data.None? || totalSlides == 0 {
        return;
      }
      if currentSlide < totalSlides - 1 {
        GoToSlide(currentSlide + 1);
      }
    }

    /** `previousSlide`: one slide back unless the first is on show. */
    method PreviousSlide()
      requires Valid()
      modifies this
      ensures Valid() && Story() == old(Story())
      ensures currentSlide == PreviousIndex(old(currentSlide), totalSlides, data.Some?)
      ensures data.None? || totalSlides == 0 ==> unchanged(this)
    {
      if data.None? || totalSlides == 0 {
        return;
      }
      if currentSlide > 0 {
        GoToSlide(currentSlide - 1);
      }
    }

    /** `handleSwipe`: a swipe to the left goes forward, to the right goes back,
        and a short move does nothing. */
    method HandleSwipe(startX: int, endX: int)
      requires Valid()
      modifies this
      ensures Valid() && Story() == old(Story())
      ensures ClassifySwipe(startX, endX) == NoSwipe ==> unchanged(this)
      ensures ClassifySwipe(startX, endX) == SwipeNext ==>
                currentSlide == NextIndex(old(currentSlide), totalSlides, data.Some?)
      ensures ClassifySwipe(startX, endX) == SwipePrevious ==>
                currentSlide == PreviousIndex(old(currentSlide), totalSlides, data.Some?)
    {
      var diff := startX - endX;
      if (if diff < 0 then -diff else diff) > SwipeThreshold {
        if diff > 0 {
          NextSlide();
        } else {
          PreviousSlide();
        }
      }
    }

    /** `generateStory(insights, summary)`: the eight slides are rendered from
        the loaded summary, the insights and the summary text, and the first
        is the one on show; the page is left to the caller. */
    method GenerateStory(d: YearSummary, insights: Insights, text: Prose)
      requires data == Some(d) && |d.commits.byMonth| == 12
      modifies this
      ensures data == old(data) && page == old(page) && errorShown == old(errorShown)
      ensures slides == AllSlides(d, insights, text)
      ensures totalSlides == 8 && currentSlide == 0 && prevDisabled && !nextDisabled
      ensures githubApi == old(githubApi) && aiKey == old(aiKey)
      ensures Valid()
    {
      slides := AllSlides(d, insights, text);
      totalSlides := |slides|;
      currentSlide := 0;
      UpdateNavigation();
    }

    /** `restart`: the story and both clients are dropped and the landing page
        is shown; the error modal is left as it was. */
    method Restart()
      modifies this
      ensures currentSlide == 0 && totalSlides == 0 && githubApi == null && aiKey == None && data == None
      ensures slides == [] && page == LandingPage && errorShown == old(errorShown)
      ensures prevDisabled == old(prevDisabled) && nextDisabled == old(nextDisabled)
      ensures Valid()
    {
      currentSlide := 0;
      totalSlides := 0;
      githubApi := null;
      aiKey := None;
      data := None;
      slides := [];
      page := LandingPage;
    }

    /** `closeError`. */
    method CloseError()
      modifies this
      ensures errorShown == None
      ensures currentSlide == old(currentSlide) && data == old(data) && slides == old(slides)
      ensures totalSlides == old(totalSlides) && page == old(page)
      ensures githubApi == old(githubApi) && aiKey == old(aiKey)
      ensures prevDisabled == old(prevDisabled) && nextDisabled == old(nextDisabled)
    {
      errorShown := None;
    }

    /** The `catch` of `handleAuthSubmit`: the classified message in the
        error modal, and back to the landing page. */
    method ReportError(msg: string)
      requires Valid()
      modifies this
      ensures errorShown == Some(ClassifyError(msg)) && page == LandingPage
      ensures currentSlide == old(currentSlide) && data == old(data) && slides == old(slides)
      ensures githubApi == old(githubApi) && aiKey == old(aiKey) && totalSlides == old(totalSlides)
      ensures prevDisabled == old(prevDisabled) && nextDisabled == old(nextDisabled)
      ensures Valid()
    {
      errorShown := Some(ClassifyError(msg));
      page := LandingPage;
    }

    /** The `try` of `handleAuthSubmit` once both clients exist. A rejected
        token ends it with an error; the insights key check only warns, so
        its outcome changes nothing; a failing summary is reported; otherwise
        the story is rendered and shown from its first slide. */
    method LoadStory(api: GitHubApi, key: string, year: int, remote: Remote, keyProbe: KeyProbe,
                     insightsReply: Completion, summaryReply: Completion)
      requires Valid() && api.reposCache == None && api.profileCache == None
      modifies this, api
      ensures Valid() && githubApi == old(githubApi) && aiKey == old(aiKey)
      ensures !Retry(remote.user, DefaultRetries).result.Success? ==>
                Reached(Failed(InvalidToken), old(currentSlide), old(prevDisabled), old(nextDisabled), old(data), old(slides), old(errorShown))
      ensures var s := SummaryOf(remote, api.username, None, None, year);
              Retry(remote.user, DefaultRetries).result.Success? && s.Failure? ==>
                Reached(Failed(Message(s.error)), old(currentSlide), old(prevDisabled), old(nextDisabled), old(data), old(slides), old(errorShown))
      ensures var s := SummaryOf(remote, api.username, None, None, year);
              Retry(remote.user, DefaultRetries).result.Success? && s.Success? ==>
                Reached(Loaded(s.value, InsightsFor(s.value, insightsReply), YearSummaryText(s.value, summaryReply)),
                        old(currentSlide), old(prevDisabled), old(nextDisabled), old(data), old(slides), old(errorShown))
    {
      var tokenOk := api.ValidateToken(remote);
      if !tokenOk {
        ReportError(InvalidToken);
        return;
      }
      var keyOk := ValidateKey(key, keyProbe);
      var summary := api.GetContributionSummary(remote, year);
      if summary.Success? {
        SummaryProperties(remote, api.username, None, None, year);
      }
      ShowSummary(summary, insightsReply, summaryReply);
    }

    /** The rest of the `try` once the summary request has ended: its error
        is reported, or the insights and the summary text are generated and
        the story is shown from its first slide. */
    method ShowSummary(summary: Result<YearSummary, FetchError>,
                       insightsReply: Completion, summaryReply: Completion)
      requires Valid()
      requires summary.Success? ==> |summary.value.commits.byMonth| == 12
      modifies this
      ensures Valid() && githubApi == old(githubApi) && aiKey == old(aiKey)
      ensures summary.Failure? ==>
                Reached(Failed(Message(summary.error)), old(currentSlide), old(prevDisabled), old(nextDisabled), old(data), old(slides), old(errorShown))
      ensures summary.Success? ==>
                var d := summary.value;
                Reached(Loaded(d, InsightsFor(d, insightsReply), YearSummaryText(d, summaryReply)),
                        old(currentSlide), old(prevDisabled), old(nextDisabled), old(data), old(slides), old(errorShown))
    {
      if summary.Failure? {
        ReportError(Message(summary.error));
        return;
      }
      data := Some(summary.value);
      var insights := GenerateInsights(summary.value, insightsReply);
      var text := YearSummaryText(summary.value, summaryReply);
      GenerateStory(summary.value, insights, text);
      page := StoryPage;
    }

    /** The `try` of `handleAuthSubmit` with filled-in fields: both clients
        are created from them and the story is loaded. */
    method StartSession(username: string, token: string, key: string, year: int,
                        remote: Remote, keyProbe: KeyProbe, insightsReply: Completion,
                        summaryReply: Completion)
      requires Valid()
      modifies this
      ensures Valid()
      ensures githubApi != null && fresh(githubApi)
      ensures githubApi.username == username && githubApi.token == token && aiKey == Some(key)
      ensures !Retry(remote.user, DefaultRetries).result.Success? ==>
                Reached(Failed(InvalidToken), old(currentSlide), old(prevDisabled), old(nextDisabled), old(data), old(slides), old(errorShown))
      ensures var s := SummaryOf(remote, username, None, None, year);
              Retry(remote.user, DefaultRetries).result.Success? && s.Failure? ==>
                Reached(Failed(Message(s.error)), old(currentSlide), old(prevDisabled), old(nextDisabled), old(data), old(slides), old(errorShown))
      ensures var s := SummaryOf(remote, username, None, None, year);
              Retry(remote.user, DefaultRetries).result.Success? && s.Success? ==>
                Reached(Loaded(s.value, InsightsFor(s.value, insightsReply), YearSummaryText(s.value, summaryReply)),
                        old(currentSlide), old(prevDisabled), old(nextDisabled), old(data), old(slides), old(errorShown))
    {
      page := LoadingPage;
      var api := new GitHubApi(username, token);
      githubApi := api;
      aiKey := Some(key);
      LoadStory(api, key, year, remote, keyProbe, insightsReply, summaryReply);
    }

    /** `handleAuthSubmit` with the form's fields, the selected year and what
        the remote services answer. A blank field (after trimming) is reported
        before any client is created; otherwise both clients are created from
        the trimmed fields and the story is loaded. */
    method HandleAuthSubmit(usernameField: string, tokenField: string, keyField: string, year: int,
                            remote: Remote, keyProbe: KeyProbe, insightsReply: Completion,
                            summaryReply: Completion)
      requires Valid()
      modifies this
      ensures Valid()
      ensures var u, t, k := Trim(usernameField), Trim(tokenField), Trim(keyField);
        && (u == "" || t == "" || k == "" ==>
              && errorShown == Some(FillInAllFields)
              && githubApi == old(githubApi) && aiKey == old(aiKey) && data == old(data)
              && slides == old(slides) && page == old(page) && currentSlide == old(currentSlide)
              && totalSlides == old(totalSlides)
              && prevDisabled == old(prevDisabled) && nextDisabled == old(nextDisabled))
        && (u != "" && t != "" && k != "" ==>
              && githubApi != null && fresh(githubApi)
              && githubApi.username == u && githubApi.token == t && aiKey == Some(k))
      ensures var u, t, k := Trim(usernameField), Trim(tokenField), Trim(keyField);
              u != "" && t != "" && k != "" && !Retry(remote.user, DefaultRetries).result.Success? ==>
                Reached(Failed(InvalidToken), old(currentSlide), old(prevDisabled), old(nextDisabled), old(data), old(slides), old(errorShown))
      ensures var u, t, k := Trim(usernameField), Trim(tokenField), Trim(keyField);
              var s := SummaryOf(remote, u, None, None, year);
              u != "" && t != "" && k != "" && Retry(remote.user, DefaultRetries).result.Success? && s.Failure? ==>
                Reached(Failed(Message(s.error)), old(currentSlide), old(prevDisabled), old(nextDisabled), old(data), old(slides), old(errorShown))
      ensures var u, t, k := Trim(usernameField), Trim(tokenField), Trim(keyField);
              var s := SummaryOf(remote, u, None, None, year);
              u != "" && t != "" && k != "" && Retry(remote.user, DefaultRetries).result.Success? && s.Success? ==>
                Reached(Loaded(s.value, InsightsFor(s.value, insightsReply), YearSummaryText(s.value, summaryReply)),
                        old(currentSlide), old(prevDisabled), old(nextDisabled), old(data), old(slides), old(errorShown))
    {
      var username := Trim(usernameField);
      var token := Trim(tokenField);
      var key := Trim(keyField);
      if username == "" || token == "" || key == "" {
        errorShown := Some(FillInAllFields);
        return;
      }
      StartSession(username, token, key, year, remote, keyProbe, insightsReply, summaryReply);
    }
  }
}
