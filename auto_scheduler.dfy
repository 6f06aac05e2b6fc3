/**
 * The autopilot orchestrator (backend/app/services/auto_scheduler.py).
 *
 * `RunAutopilotForUser` walks every genre of a user (or one pass without a
 * genre) and, for each, every platform: it generates a post, saves it as
 * "pending", publishes it when the user has a linked account with a token,
 * and settles the post as "posted" or "draft". `CheckAndRunScheduled` runs
 * the autopilot for every schedule whose "HH:MM" time and frequency match
 * the current Japan Standard Time.
 *
 * The collaborators (trend collection, generation, saving, publishing, the
 * per-user run) are oracle functions: each is told which pass or pair it
 * serves, and returns a value or the text of the exception it raised.
 */
module AutoScheduler {
  import opened Text
  import opened SnsPoster
  import BuzzCollector

  /** The platforms in the order every genre visits them. */
  const Platforms: seq<string> := ["x", "threads"]
  const PreviewCap := 80

  const StatusPending := "pending"
  const StatusDraft := "draft"
  const StatusError := "error"

  datatype Result<T> = Success(value: T) | Failure(error: string)

  datatype UserRow = UserRow(id: string, email: string, autoPostEnabled: bool)

  /** A genre: its name and its `keywords_list`. */
  datatype GenreRow = GenreRow(name: Option<string>, keywords: seq<string>)

  /** The stand-in pass used when the user has no genre. */
  const NoGenre := GenreRow(None, [])

  datatype SnsAccount = SnsAccount(accessToken: Option<string>, accessTokenSecret: Option<string>)

  /** A publisher call: `post_to_x(content, token, secret)` or `post_to_threads(content, token)`. */
  datatype PublishCall =
    | PublishX(content: string, accessToken: string, accessTokenSecret: string)
    | PublishThreads(content: string, accessToken: string)

  /**
   * The collaborators. `collect(g, keywords)` is the trend collection of the g-th pass (`None` when it
   * raised); `generate`, `persist` and `publish` receive the index k of the (genre, platform) pair.
   * `persist` saves the generated text and the pending post (the flush) and yields the post id.
   * `commit` is the end-of-run commit of the stored rows: the text of the exception it raised, if any.
   */
  datatype Collaborators = Collaborators(
    collect: (nat, Option<seq<string>>) -> Option<BuzzCollector.TrendBundle>,
    generate: (nat, Option<string>, string, Option<BuzzCollector.TrendBundle>) -> Result<string>,
    persist: (nat, string, string) -> Result<string>,
    publish: (nat, PublishCall) -> PostOutcome,
    commit: seq<PostRow> -> Option<string>)

  /** One entry of the returned list: a saved post, or the error that stopped the pair. */
  datatype PairResult =
    | Saved(postId: string, platform: string, genre: Option<string>, preview: string, status: string)
    | Errored(platform: string, genre: Option<string>, error: string)
  {
    function Status(): string
    {
      if Saved? then status else StatusError
    }
  }

  /** A post row as stored. */
  datatype PostRow = PostRow(id: string, platform: string, content: string, status: string, postedAt: Option<int>)

  /** The post the orchestrator creates and then settles in place. */
  class Post {
    const id: string
    const platform: string
    const content: string
    var status: string
    var postedAt: Option<int>

    constructor(id: string, platform: string, content: string)
      ensures Row() == PostRow(id, platform, content, StatusPending, None)
    {
      this.id := id;
      this.platform := platform;
      this.content := content;
      status := StatusPending;
      postedAt := None;
    }

    function Row(): PostRow
      reads this
    {
      PostRow(id, platform, content, status, postedAt)
    }

    /** Marks the post "posted" at `now`, or "draft" leaving its posting time as it was. */
    method Settle(posted: bool, now: int)
      modifies this
      ensures Row() == PostRow(id, platform, content, SettledStatus(posted), if posted then Some(now) else old(postedAt))
    {
      if posted {
        status := "posted";
        postedAt := Some(now);
      } else {
        status := StatusDraft;
      }
    }
  }

  function SettledStatus(posted: bool): string
  {
    if posted then "posted" else StatusDraft
  }

  // ---------------------------------------------------------------- one pair

  /** The genres walked: the user's, or the single stand-in pass when there are none. */
  function Passes(genres: seq<GenreRow>): (passes: seq<GenreRow>)
    ensures |passes| == if genres == [] then 1 else |genres|
  {
    if genres == [] then [NoGenre] else genres
  }

  /** The keywords handed to trend collection: `keywords or None`. */
  function KeywordsArg(genre: GenreRow): (r: Option<seq<string>>)
    ensures r.None? <==> genre.keywords == []
    ensures r.Some? ==> r.value == genre.keywords
  {
    if genre.keywords == [] then None else Some(genre.keywords)
  }

  /** The publisher call for a platform, made only with a linked account whose token is non-empty. */
  function PublishFor(platform: string, content: string, account: Option<SnsAccount>): (call: Option<PublishCall>)
    ensures call.Some? <==> account.Some? && Truthy(account.value.accessToken)
    ensures call.Some? && platform == "x" ==>
      call.value == PublishX(content, account.value.accessToken.value,
                             if account.value.accessTokenSecret.Some? then account.value.accessTokenSecret.value else "")
    ensures call.Some? && platform != "x" ==> call.value == PublishThreads(content, account.value.accessToken.value)
  {
    if account.Some? && Truthy(account.value.accessToken) then
      var token := account.value.accessToken.value;
      if platform == "x" then
        var secret := account.value.accessTokenSecret;
        Some(PublishX(content, token, if secret.Some? then secret.value else ""))
      else Some(PublishThreads(content, token))
    else None
  }

  /** `posted = not result.get("mock", False)` after a publisher that did not raise. */
  predicate PostedBy(outcome: PostOutcome)
  {
    outcome.Returned? && !outcome.result.mock
  }

  /** What one pair contributes: its result entry, the post row it saved and the publisher call it made. */
  datatype Step = Step(result: PairResult, post: Option<PostRow>, call: Option<PublishCall>)

  /** The k-th (genre, platform) pair. */
  function PairStep(c: Collaborators, k: nat, genre: GenreRow, platform: string,
                    trend: Option<BuzzCollector.TrendBundle>, accounts: map<string, SnsAccount>, now: int): Step
  {
    match c.generate(k, genre.name, platform, trend)
    case Failure(e) => Step(Errored(platform, genre.name, e), None, None)
    case Success(content) =>
      match c.persist(k, platform, content)
      case Failure(e) => Step(Errored(platform, genre.name, e), None, None)
      case Success(id) =>
        var call := PublishFor(platform, content, Lookup(accounts, platform));
        var posted := call.Some? && PostedBy(c.publish(k, call.value));
        var status := SettledStatus(posted);
        Step(Saved(id, platform, genre.name, Take(content, PreviewCap), status),
             Some(PostRow(id, platform, content, status, if posted then Some(now) else None)),
             call)
  }

  /**
   * The status decision: an error entry carrying the exception text exactly when generation or
   * saving raised; otherwise "posted" (with a time) exactly when a linked account has a non-empty
   * token and the publisher returned a non-mock result, else "draft"; the entry previews the first
   * 80 characters, and the stored row agrees with the entry.
   */
  lemma PairStepDecision(c: Collaborators, k: nat, genre: GenreRow, platform: string,
                         trend: Option<BuzzCollector.TrendBundle>, accounts: map<string, SnsAccount>, now: int)
    ensures var s := PairStep(c, k, genre, platform, trend, accounts, now);
      var generated := c.generate(k, genre.name, platform, trend);
      && s.result.platform == platform && s.result.genre == genre.name
      && (s.result.Errored? <==> generated.Failure? || c.persist(k, platform, generated.value).Failure?)
      && (generated.Failure? ==> s.result.error == generated.error)
      && (generated.Success? && c.persist(k, platform, generated.value).Failure? ==>
            s.result.error == c.persist(k, platform, generated.value).error)
      && (s.result.Errored? ==> s.post.None? && s.call.None?)
      && (s.result.Saved? ==>
            var content := generated.value;
            var account := Lookup(accounts, platform);
            && s.result.postId == c.persist(k, platform, content).value
            && s.result.preview == Take(content, PreviewCap)
            && (s.result.status == "posted" <==>
                  platform in accounts && Truthy(accounts[platform].accessToken)
                  && PostedBy(c.publish(k, PublishFor(platform, content, account).value)))
            && (s.result.status == "posted" || s.result.status == StatusDraft)
            && (s.call.Some? <==> platform in accounts && Truthy(accounts[platform].accessToken))
            && s.post == Some(PostRow(s.result.postId, platform, content, s.result.status,
                                      if s.result.status == "posted" then Some(now) else None)))
  {
  }

  /** One pair, as the loop body runs it: generate, save, publish, settle. */
  method RunPair(c: Collaborators, k: nat, genre: GenreRow, platform: string,
                 trend: Option<BuzzCollector.TrendBundle>, accounts: map<string, SnsAccount>, now: int)
    returns (step: Step)
    ensures step == PairStep(c, k, genre, platform, trend, accounts, now)
  {
    var generated := c.generate(k, genre.name, platform, trend);
    if generated.Failure? {
      return Step(Errored(platform, genre.name, generated.error), None, None);
    }
    var content := generated.value;
    var saved := c.persist(k, platform, content);
    if saved.Failure? {
      return Step(Errored(platform, genre.name, saved.error), None, None);
    }
    var p := new Post(saved.value, platform, content);
    var account := Lookup(accounts, platform);
    var posted := false;
    var call := None;
    if account.Some? && Truthy(account.value.accessToken) {
      call := PublishFor(platform, content, account);
      var outcome := c.publish(k, call.value);
      posted := PostedBy(outcome);
    }
    p.Settle(posted, now);
    step := Step(Saved(p.id, platform, genre.name, Take(content, PreviewCap), p.status), Some(p.Row()), call);
  }

  // ---------------------------------------------------------------- the whole run

  /** The steps of the first `p` platforms of the g-th pass, whose trend collection gave `trend`. */
  function PassSteps(c: Collaborators, g: nat, genre: GenreRow, trend: Option<BuzzCollector.TrendBundle>,
                     accounts: map<string, SnsAccount>, now: int, p: nat): (steps: seq<Step>)
    requires p <= |Platforms|
    ensures |steps| == p
  {
    if p == 0 then [] else PassSteps(c, g, genre, trend, accounts, now, p - 1) + [PairStep(c, 2 * g + p - 1, genre, Platforms[p - 1], trend, accounts, now)]
  }

  /** A pass grows by the pair of its next platform. */
  lemma PassStepsNext(c: Collaborators, g: nat, genre: GenreRow, trend: Option<BuzzCollector.TrendBundle>,
                      accounts: map<string, SnsAccount>, now: int, p: nat, step: Step)
    requires p < |Platforms|
    requires step == PairStep(c, 2 * g + p, genre, Platforms[p], trend, accounts, now)
    ensures PassSteps(c, g, genre, trend, accounts, now, p + 1) == PassSteps(c, g, genre, trend, accounts, now, p) + [step]
  {
  }

  /** The j-th step of a pass is the pair of platform j. */
  lemma {:induction false} PassStepsLayout(c: Collaborators, g: nat, genre: GenreRow, trend: Option<BuzzCollector.TrendBundle>,
                                           accounts: map<string, SnsAccount>, now: int, p: nat)
    requires p <= |Platforms|
    ensures forall j :: 0 <= j < p ==>
      PassSteps(c, g, genre, trend, accounts, now, p)[j] == PairStep(c, 2 * g + j, genre, Platforms[j], trend, accounts, now)
  {
    if p > 0 {
      PassStepsLayout(c, g, genre, trend, accounts, now, p - 1);
    }
  }

  /** The steps of the first `n` passes, genre-major, each pass collecting trends once and visiting the platforms in order. */
  function Steps(c: Collaborators, passes: seq<GenreRow>, accounts: map<string, SnsAccount>, now: int, n: nat): (steps: seq<Step>)
    requires n <= |passes|
    ensures |steps| == 2 * n
  {
    if n == 0 then []
    else
      var g := n - 1;
      Steps(c, passes, accounts, now, g) + PassSteps(c, g, passes[g], c.collect(g, KeywordsArg(passes[g])), accounts, now, |Platforms|)
  }

  /** The run grows by one pass at a time. */
  lemma StepsNext(c: Collaborators, passes: seq<GenreRow>, accounts: map<string, SnsAccount>, now: int, g: nat, added: seq<Step>)
    requires g < |passes|
    requires added == PassSteps(c, g, passes[g], c.collect(g, KeywordsArg(passes[g])), accounts, now, |Platforms|)
    ensures Steps(c, passes, accounts, now, g + 1) == Steps(c, passes, accounts, now, g) + added
  {
  }

  /** The step at index k belongs to pass k / 2 and platform k % 2, and uses that pass's one trend collection. */
  lemma {:induction false} StepAt(c: Collaborators, passes: seq<GenreRow>, accounts: map<string, SnsAccount>, now: int, n: nat, k: nat)
    requires n <= |passes| && k < 2 * n
    ensures Steps(c, passes, accounts, now, n)[k]
      == PairStep(c, k, passes[k / 2], Platforms[k % 2], c.collect(k / 2, KeywordsArg(passes[k / 2])), accounts, now)
  {
    var g := n - 1;
    var before := Steps(c, passes, accounts, now, g);
    var last := PassSteps(c, g, passes[g], c.collect(g, KeywordsArg(passes[g])), accounts, now, |Platforms|);
    if k < 2 * g {
      StepAt(c, passes, accounts, now, g, k);
      assert (before + last)[k] == before[k];
    } else {
      PassStepsLayout(c, g, passes[g], c.collect(g, KeywordsArg(passes[g])), accounts, now, |Platforms|);
      assert k / 2 == g && k == 2 * g + k % 2;
      assert (before + last)[k] == last[k % 2];
    }
  }

  /** Every step of the first `n` passes, as `StepAt` places it. */
  lemma StepsLayout(c: Collaborators, passes: seq<GenreRow>, accounts: map<string, SnsAccount>, now: int, n: nat)
    requires n <= |passes|
    ensures |Steps(c, passes, accounts, now, n)| == 2 * n
    ensures forall k :: 0 <= k < 2 * n ==>
      Steps(c, passes, accounts, now, n)[k]
        == PairStep(c, k, passes[k / 2], Platforms[k % 2], c.collect(k / 2, KeywordsArg(passes[k / 2])), accounts, now)
  {
    forall k | 0 <= k < 2 * n
      ensures Steps(c, passes, accounts, now, n)[k]
        == PairStep(c, k, passes[k / 2], Platforms[k % 2], c.collect(k / 2, KeywordsArg(passes[k / 2])), accounts, now)
    {
      StepAt(c, passes, accounts, now, n, k);
    }
  }

  function ResultsOf(steps: seq<Step>): (results: seq<PairResult>)
    ensures |results| == |steps|
  {
    seq(|steps|, k requires 0 <= k < |steps| => steps[k].result)
  }

  /** The stored rows of the pairs, in pair order. */
  function PostsOf(steps: seq<Step>): (posts: seq<PostRow>)
    ensures |posts| <= |steps|
    ensures forall p :: p in posts <==> exists k :: 0 <= k < |steps| && steps[k].post == Some(p)
  {
    if steps == [] then []
    else
      var last := steps[|steps| - 1];
      PostsOf(steps[..|steps| - 1]) + (if last.post.Some? then [last.post.value] else [])
  }

  /** The publisher calls of the pairs, in pair order. */
  function CallsOf(steps: seq<Step>): (calls: seq<PublishCall>)
    ensures |calls| <= |steps|
    ensures forall q :: q in calls <==> exists k :: 0 <= k < |steps| && steps[k].call == Some(q)
  {
    if steps == [] then []
    else
      var last := steps[|steps| - 1];
      CallsOf(steps[..|steps| - 1]) + (if last.call.Some? then [last.call.value] else [])
  }

  /** The keyword arguments of the trend collections of the first `n` passes. */
  function TrendRequests(passes: seq<GenreRow>, n: nat): (r: seq<Option<seq<string>>>)
    requires n <= |passes|
    ensures |r| == n
    ensures forall g :: 0 <= g < n ==> r[g] == KeywordsArg(passes[g])
  {
    if n == 0 then [] else TrendRequests(passes, n - 1) + [KeywordsArg(passes[n - 1])]
  }

  /**
   * What a run produces: the returned result list, the committed posts, the trend collections asked for,
   * the publisher calls made, and the exception the final commit raised (then nothing is returned or stored).
   */
  datatype Run = Run(results: seq<PairResult>, posts: seq<PostRow>, trendRequests: seq<Option<seq<string>>>,
                     calls: seq<PublishCall>, raised: Option<string>)

  /** Every pair of an enabled user's run, genre-major. */
  function RunSteps(c: Collaborators, genres: seq<GenreRow>, accounts: map<string, SnsAccount>, now: int): seq<Step>
  {
    Steps(c, Passes(genres), accounts, now, |Passes(genres)|)
  }

  function AutopilotRun(c: Collaborators, user: Option<UserRow>, genres: seq<GenreRow>,
                        accounts: map<string, SnsAccount>, now: int): Run
  {
    if user.None? || !user.value.autoPostEnabled then Run([], [], [], [], None)
    else
      var steps := RunSteps(c, genres, accounts, now);
      var requests := TrendRequests(Passes(genres), |Passes(genres)|);
      match c.commit(PostsOf(steps))
      case Some(e) => Run([], [], requests, CallsOf(steps), Some(e))
      case None => Run(ResultsOf(steps), PostsOf(steps), requests, CallsOf(steps), None)
  }

  /** Each entry of the first `n` passes names its pass's genre and its platform, "x" before "threads". */
  lemma StepsLabels(c: Collaborators, passes: seq<GenreRow>, accounts: map<string, SnsAccount>, now: int, n: nat)
    requires n <= |passes|
    ensures var results := ResultsOf(Steps(c, passes, accounts, now, n));
      && |results| == 2 * n
      && forall k :: 0 <= k < 2 * n ==>
           results[k].platform == (if k % 2 == 0 then "x" else "threads") && results[k].genre == passes[k / 2].name
  {
    StepsLayout(c, passes, accounts, now, n);
    var steps := Steps(c, passes, accounts, now, n);
    forall k | 0 <= k < 2 * n
      ensures steps[k].result.platform == (if k % 2 == 0 then "x" else "threads")
      ensures steps[k].result.genre == passes[k / 2].name
    {
      PairStepDecision(c, k, passes[k / 2], Platforms[k % 2], c.collect(k / 2, KeywordsArg(passes[k / 2])), accounts, now);
    }
  }

  /**
   * A missing or disabled user gets nothing done. Otherwise each pass collects trends once, with its
   * keywords or None (no genre means a single pass with no genre name and no keywords), and every
   * pair's publisher call is made. When the final commit raises, the run raises: no entry is returned
   * and no post is stored. Otherwise there is one entry per (genre, platform) pair, max(1, |genres|) * 2
   * in all, genre-major with "x" before "threads".
   */
  lemma AutopilotShape(c: Collaborators, user: Option<UserRow>, genres: seq<GenreRow>,
                       accounts: map<string, SnsAccount>, now: int)
    ensures var run := AutopilotRun(c, user, genres, accounts, now);
      && (user.None? || !user.value.autoPostEnabled ==> run == Run([], [], [], [], None))
      && (user.Some? && user.value.autoPostEnabled ==>
            var steps := RunSteps(c, genres, accounts, now);
            && run.calls == CallsOf(steps)
            && run.raised == c.commit(PostsOf(steps))
            && (run.raised.Some? ==> run.results == [] && run.posts == [])
            && (run.raised.None? ==> |run.results| == 2 * (if genres == [] then 1 else |genres|))
            && |run.trendRequests| == (if genres == [] then 1 else |genres|)
            && (genres == [] ==>
                  && run.trendRequests == [None]
                  && forall k :: 0 <= k < |run.results| ==> run.results[k].genre.None?)
            && (forall g :: 0 <= g < |genres| ==> run.trendRequests[g] == KeywordsArg(genres[g]))
            && forall k :: 0 <= k < |run.results| ==>
                 && run.results[k].platform == (if k % 2 == 0 then "x" else "threads")
                 && run.results[k].genre == Passes(genres)[k / 2].name)
  {
    if user.Some? && user.value.autoPostEnabled {
      var passes := Passes(genres);
      var steps := RunSteps(c, genres, accounts, now);
      var requests := TrendRequests(passes, |passes|);
      var run := AutopilotRun(c, user, genres, accounts, now);
      StepsLabels(c, passes, accounts, now, |passes|);
      assert genres == [] ==> requests == [KeywordsArg(NoGenre)];
      match c.commit(PostsOf(steps))
      case Some(e) =>
        assert run == Run([], [], requests, CallsOf(steps), Some(e));
      case None =>
        assert run == Run(ResultsOf(steps), PostsOf(steps), requests, CallsOf(steps), None);
    }
  }

  /**
   * Every entry of an enabled user's completed run is decided by its own pair, with its pass's trend
   * collection, from what the collaborators answered for that pair.
   */
  lemma AutopilotEntries(c: Collaborators, user: UserRow, genres: seq<GenreRow>,
                         accounts: map<string, SnsAccount>, now: int)
    requires user.autoPostEnabled
    ensures var run := AutopilotRun(c, Some(user), genres, accounts, now);
      var passes := Passes(genres);
      forall k :: 0 <= k < |run.results| ==>
        k / 2 < |passes|
        && run.results[k]
             == PairStep(c, k, passes[k / 2], Platforms[k % 2], c.collect(k / 2, KeywordsArg(passes[k / 2])), accounts, now).result
  {
    var passes := Passes(genres);
    StepsLayout(c, passes, accounts, now, |passes|);
  }

  /** The platform loop of one pass: each platform's pair in turn, "x" before "threads". */
  method RunPass(c: Collaborators, g: nat, genre: GenreRow, trend: Option<BuzzCollector.TrendBundle>,
                 accounts: map<string, SnsAccount>, now: int)
    returns (steps: seq<Step>)
    ensures steps == PassSteps(c, g, genre, trend, accounts, now, |Platforms|)
  {
    steps := [];
    var p := 0;
    while p < |Platforms|
      invariant 0 <= p <= |Platforms|
      invariant steps == PassSteps(c, g, genre, trend, accounts, now, p)
    {
      var step := RunPair(c, 2 * g + p, genre, Platforms[p], trend, accounts, now);
      PassStepsNext(c, g, genre, trend, accounts, now, p, step);
      steps := steps + [step];
      p := p + 1;
    }
  }

  /**
   * `run_autopilot_for_user`: the pass loop, one trend collection per pass, then the platform loop.
   * `steps` records, pair by pair, the appended result entry, the stored post and the publisher call.
   */
  method RunAutopilotForUser(c: Collaborators, user: Option<UserRow>, genres: seq<GenreRow>,
                             accounts: map<string, SnsAccount>, now: int)
    returns (run: Run)
    ensures run == AutopilotRun(c, user, genres, accounts, now)
  {
    if user.None? || !user.value.autoPostEnabled {
      return Run([], [], [], [], None);
    }
    var passes := Passes(genres);
    var steps: seq<Step> := [];
    var trendRequests := [];
    var g := 0;
    while g < |passes|
      invariant 0 <= g <= |passes|
      invariant steps == Steps(c, passes, accounts, now, g)
      invariant trendRequests == TrendRequests(passes, g)
    {
      var genre := passes[g];
      var keywords := KeywordsArg(genre);
      trendRequests := trendRequests + [keywords];
      var trend := c.collect(g, keywords);
      var added := RunPass(c, g, genre, trend, accounts, now);
      StepsNext(c, passes, accounts, now, g, added);
      steps := steps + added;
      g := g + 1;
    }
    var posts := PostsOf(steps);
    var raised := c.commit(posts);
    if raised.Some? {
      run := Run([], [], trendRequests, CallsOf(steps), raised);
    } else {
      run := Run(ResultsOf(steps), posts, trendRequests, CallsOf(steps), None);
    }
  }

  // ---------------------------------------------------------------- schedules

  datatype ScheduleRow = ScheduleRow(time: string, frequency: string)

  /** A schedule fires on an exact "HH:MM" match, except "weekdays" on Saturday or Sunday and "weekends" on Monday to Friday. */
  predicate Fires(schedule: ScheduleRow, currentTime: string, weekday: nat)
  {
    && schedule.time == currentTime
    && !(schedule.frequency == "weekdays" && weekday >= 5)
    && !(schedule.frequency == "weekends" && weekday < 5)
  }

  const SecondsPerDay := 86400
  /** Japan Standard Time is nine hours ahead of UTC. */
  const JstOffset := 9 * 3600

  function JstSecondOfDay(unixSeconds: int): (s: nat)
    ensures s < SecondsPerDay
  {
    (unixSeconds + JstOffset) % SecondsPerDay
  }

  /** `weekday()` of the JST date, Monday 0 to Sunday 6; 1 January 1970 was a Thursday. */
  function JstWeekday(unixSeconds: int): (w: nat)
    ensures w < 7
  {
    ((unixSeconds + JstOffset) / SecondsPerDay + 3) % 7
  }

  function TwoDigits(n: nat): (s: string)
    requires n < 100
    ensures |s| == 2 && '0' <= s[0] <= '9' && '0' <= s[1] <= '9'
  {
    [Digit(n / 10), Digit(n % 10)]
  }

  /** `strftime("%H:%M")` of the JST clock. */
  function JstClock(unixSeconds: int): string
  {
    var s := JstSecondOfDay(unixSeconds);
    TwoDigits(s / 3600) + ":" + TwoDigits(s % 3600 / 60)
  }

  /** The minute of the day an "HH:MM" text names. */
  function MinuteOf(clock: string): nat
    requires |clock| == 5
  {
    (10 * DigitValue(clock[0]) + DigitValue(clock[1])) * 60 + 10 * DigitValue(clock[3]) + DigitValue(clock[4])
  }

  lemma TwoDigitsValue(n: nat)
    requires n < 100
    ensures 10 * DigitValue(TwoDigits(n)[0]) + DigitValue(TwoDigits(n)[1]) == n
  {
    assert forall d :: 0 <= d < 10 ==> DigitValue(Digit(d)) == d;
  }

  /** Division by 3600 in two steps of 60: hours, and minutes within the hour. */
  lemma HoursAndMinutes(s: nat)
    ensures s / 3600 == s / 60 / 60
    ensures s % 3600 / 60 == s / 60 % 60
  {
    var m := s / 60;
    var h := m / 60;
    assert s == 3600 * h + 60 * (m % 60) + s % 60;
    assert 0 <= 60 * (m % 60) + s % 60 < 3600;
  }

  /** The clock text is five characters with a colon in the middle and names the current JST minute of the day. */
  lemma JstClockReadsBack(unixSeconds: int)
    ensures var clock := JstClock(unixSeconds);
      && |clock| == 5 && clock[2] == ':'
      && MinuteOf(clock) == JstSecondOfDay(unixSeconds) / 60
  {
    var s := JstSecondOfDay(unixSeconds);
    HoursAndMinutes(s);
    TwoDigitsValue(s / 3600);
    TwoDigitsValue(s % 3600 / 60);
    var clock := JstClock(unixSeconds);
    assert clock[0..2] == TwoDigits(s / 3600) && clock[3..5] == TwoDigits(s % 3600 / 60);
  }

  /** Two instants show the same clock text exactly when they fall in the same JST minute of the day. */
  lemma JstClockSameMinute(t1: int, t2: int)
    ensures JstClock(t1) == JstClock(t2) <==> JstSecondOfDay(t1) / 60 == JstSecondOfDay(t2) / 60
  {
    JstClockReadsBack(t1);
    JstClockReadsBack(t2);
    var s1, s2 := JstSecondOfDay(t1), JstSecondOfDay(t2);
    HoursAndMinutes(s1);
    HoursAndMinutes(s2);
  }

  /** A day later the weekday advances by one, Sunday wrapping to Monday. */
  lemma JstWeekdayNextDay(unixSeconds: int)
    ensures JstWeekday(unixSeconds + SecondsPerDay) == (JstWeekday(unixSeconds) + 1) % 7
  {
    var d := (unixSeconds + JstOffset) / SecondsPerDay;
    assert (unixSeconds + SecondsPerDay + JstOffset) / SecondsPerDay == d + 1;
  }

  /** The users whose schedules fire, in row order. */
  function Firing(rows: seq<(ScheduleRow, UserRow)>, currentTime: string, weekday: nat): seq<UserRow>
  {
    if rows == [] then []
    else
      var last := rows[|rows| - 1];
      Firing(rows[..|rows| - 1], currentTime, weekday) + (if Fires(last.0, currentTime, weekday) then [last.1] else [])
  }

  /** Exactly the users of rows whose schedule fires, each as often as its firing rows. */
  lemma {:induction false} FiringMembers(rows: seq<(ScheduleRow, UserRow)>, currentTime: string, weekday: nat)
    ensures |Firing(rows, currentTime, weekday)| <= |rows|
    ensures forall u :: u in Firing(rows, currentTime, weekday) <==>
      exists i :: 0 <= i < |rows| && rows[i].1 == u && Fires(rows[i].0, currentTime, weekday)
  {
    if rows != [] {
      var init := rows[..|rows| - 1];
      FiringMembers(init, currentTime, weekday);
      forall u | exists i :: 0 <= i < |rows| && rows[i].1 == u && Fires(rows[i].0, currentTime, weekday)
        ensures u in Firing(rows, currentTime, weekday)
      {
        var i :| 0 <= i < |rows| && rows[i].1 == u && Fires(rows[i].0, currentTime, weekday);
        if i < |init| {
          assert init[i] == rows[i];
        }
      }
      forall u | u in Firing(rows, currentTime, weekday)
        ensures exists i :: 0 <= i < |rows| && rows[i].1 == u && Fires(rows[i].0, currentTime, weekday)
      {
        if u in Firing(init, currentTime, weekday) {
          var i :| 0 <= i < |init| && init[i].1 == u && Fires(init[i].0, currentTime, weekday);
          assert rows[i] == init[i];
        }
      }
    }
  }

  /** The outcome of one scheduled run: how many entries it produced, or the error it raised. */
  datatype RunRecord = Ran(userId: string, entries: nat) | RunFailed(userId: string, error: string)

  function Record(userId: string, outcome: Result<nat>): (r: RunRecord)
    ensures r.userId == userId
    ensures r.Ran? <==> outcome.Success?
  {
    if outcome.Success? then Ran(userId, outcome.value) else RunFailed(userId, outcome.error)
  }

  /** The records of a check: one per firing schedule, in row order; the n-th run is answered by `runUser(n, user)`, so a user whose two rows fire in the same minute runs twice, each run with its own outcome. */
  function ScheduledRuns(rows: seq<(ScheduleRow, UserRow)>, unixSeconds: int, runUser: (nat, string) -> Result<nat>): (log: seq<RunRecord>)
  {
    var users := Firing(rows, JstClock(unixSeconds), JstWeekday(unixSeconds));
    seq(|users|, i requires 0 <= i < |users| => Record(users[i].id, runUser(i, users[i].id)))
  }

  /**
   * Which users run depends only on the rows and the clock: a failing run never stops the
   * schedules after it, and every firing schedule is attempted once, in row order.
   */
  lemma FailureIsolation(rows: seq<(ScheduleRow, UserRow)>, unixSeconds: int, run1: (nat, string) -> Result<nat>, run2: (nat, string) -> Result<nat>)
    ensures var log1 := ScheduledRuns(rows, unixSeconds, run1);
      var log2 := ScheduledRuns(rows, unixSeconds, run2);
      && |log1| == |log2| <= |rows|
      && forall i :: 0 <= i < |log1| ==> log1[i].userId == log2[i].userId
  {
    var users := Firing(rows, JstClock(unixSeconds), JstWeekday(unixSeconds));
    FiringMembers(rows, JstClock(unixSeconds), JstWeekday(unixSeconds));
    var log1 := ScheduledRuns(rows, unixSeconds, run1);
    var log2 := ScheduledRuns(rows, unixSeconds, run2);
    assert |log1| == |users| == |log2|;
    forall i | 0 <= i < |log1| ensures log1[i].userId == log2[i].userId {
      assert log1[i] == Record(users[i].id, run1(i, users[i].id));
      assert log2[i] == Record(users[i].id, run2(i, users[i].id));
    }
  }

  /** A schedule fires only at its own minute: its time must be the five-character current clock text. */
  lemma FiresOnlyAtClock(schedule: ScheduleRow, unixSeconds: int)
    requires Fires(schedule, JstClock(unixSeconds), JstWeekday(unixSeconds))
    ensures |schedule.time| == 5 && schedule.time[2] == ':'
    ensures MinuteOf(schedule.time) == JstSecondOfDay(unixSeconds) / 60
    ensures schedule.frequency == "weekdays" ==> JstWeekday(unixSeconds) < 5
    ensures schedule.frequency == "weekends" ==> JstWeekday(unixSeconds) >= 5
  {
    JstClockReadsBack(unixSeconds);
  }

  /** `check_and_run_scheduled`: the row loop with its `continue` filters, each run isolated from the others' failures. */
  method CheckAndRunScheduled(rows: seq<(ScheduleRow, UserRow)>, unixSeconds: int, runUser: (nat, string) -> Result<nat>)
    returns (log: seq<RunRecord>)
    ensures log == ScheduledRuns(rows, unixSeconds, runUser)
  {
    var currentTime := JstClock(unixSeconds);
    var currentWeekday := JstWeekday(unixSeconds);
    log := [];
    var i := 0;
    while i < |rows|
      invariant 0 <= i <= |rows|
      invariant var users := Firing(rows[..i], currentTime, currentWeekday);
        log == seq(|users|, j requires 0 <= j < |users| => Record(users[j].id, runUser(j, users[j].id)))
    {
      assert rows[..i + 1][..i] == rows[..i];
      var (schedule, user) := rows[i];
      i := i + 1;
      if schedule.time != currentTime {
        continue;
      }
      if schedule.frequency == "weekdays" && currentWeekday >= 5 {
        continue;
      }
      if schedule.frequency == "weekends" && currentWeekday < 5 {
        continue;
      }
      var outcome := runUser(|log|, user.id);
      log := log + [Record(user.id, outcome)];
    }
    assert rows[..i] == rows;
  }
}
