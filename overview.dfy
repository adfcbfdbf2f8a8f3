/**
 * The home dashboard's own logic: the "time ago" text of a repository's last
 * update, the GitHub summary built from two API responses, the mock Spotify
 * tracks, the gating of each query on its credential, the combined loading
 * flag, and the five selectable days ending today.
 *
 * Instants are integers (milliseconds since the epoch) and days are integers
 * (calendar days, counted up to today); the API clients are parameters.
 */
module Overview {
  import opened Opt
  import opened JsText

  // ---------------------------------------------------------------------------
  // formatTimeAgo
  // ---------------------------------------------------------------------------

  const MsPerHour := 1000 * 60 * 60
  const HoursPerDay := 24
  const HoursSuffix := "h ago"
  const DaysSuffix := "d ago"

  /** `Math.floor((now - then) / 3600000)`: whole hours elapsed, rounded down (negative for a future instant). */
  function HoursBetween(now: int, date: int): (h: int)
    ensures h * MsPerHour <= now - date < h * MsPerHour + MsPerHour
  {
    (now - date) / MsPerHour
  }

  /** What `formatTimeAgo` says: a number of hours under a day, else a number of days. */
  datatype TimeAgo = HoursAgo(hours: int) | DaysAgo(days: int)

  /**
   * Hours when less than a day has passed (including any negative count for a
   * date in the future), otherwise whole days, at least one; the day count is
   * the elapsed time divided by a day, rounded down.
   */
  function TimeAgoOf(now: int, date: int): (t: TimeAgo)
    ensures t.HoursAgo? <==> now - date < HoursPerDay * MsPerHour
    ensures t.HoursAgo? ==> t.hours * MsPerHour <= now - date < (t.hours + 1) * MsPerHour
    ensures t.DaysAgo? ==> 1 <= t.days
    ensures t.DaysAgo? ==> t.days * (HoursPerDay * MsPerHour) <= now - date < (t.days + 1) * (HoursPerDay * MsPerHour)
  {
    var h := HoursBetween(now, date);
    if h < HoursPerDay then HoursAgo(h)
    else
      DayBounds(now - date, h);
      DaysAgo(h / HoursPerDay)
  }

  /** Rounding down to hours and then to days is rounding down to days. */
  lemma DayBounds(elapsed: int, h: int)
    requires h * MsPerHour <= elapsed < h * MsPerHour + MsPerHour
    ensures (h / HoursPerDay) * (HoursPerDay * MsPerHour) <= elapsed
    ensures elapsed < (h / HoursPerDay + 1) * (HoursPerDay * MsPerHour)
  {
    var d := h / HoursPerDay;
    assert d * HoursPerDay <= h < d * HoursPerDay + HoursPerDay;
    assert d * (HoursPerDay * MsPerHour) == (d * HoursPerDay) * MsPerHour;
    assert (d + 1) * (HoursPerDay * MsPerHour) == (d * HoursPerDay + HoursPerDay) * MsPerHour;
  }

  /** The text of a `TimeAgo`, as the template literals write it. */
  function Render(t: TimeAgo): string {
    match t
    case HoursAgo(h) => NumberToString(h) + HoursSuffix
    case DaysAgo(d) => NumberToString(d) + DaysSuffix
  }

  /** Reads a "time ago" text back; `None` for text `Render` cannot produce. */
  function ParseTimeAgo(text: string): Option<TimeAgo> {
    if |text| < |HoursSuffix| then None
    else
      var n := ParseInteger(text[..|text| - |HoursSuffix|]);
      var suffix := text[|text| - |HoursSuffix|..];
      if n.None? then None
      else if suffix == HoursSuffix then Some(HoursAgo(n.value))
      else if suffix == DaysSuffix then Some(DaysAgo(n.value))
      else None
  }

  /**
   * A text reads back as `t` exactly when it is `t`'s rendering: different
   * counts render differently, and no other text (such as "07h ago" or
   * "-0h ago") reads back at all.
   */
  lemma RenderRoundTrip(text: string, t: TimeAgo)
    ensures ParseTimeAgo(text) == Some(t) <==> text == Render(t)
  {
    if text == Render(t) {
      RenderParses(t);
    }
    if ParseTimeAgo(text) == Some(t) {
      ParsedIsRenderedTimeAgo(text, t);
    }
  }

  lemma RenderParses(t: TimeAgo)
    ensures ParseTimeAgo(Render(t)) == Some(t)
  {
    var n := if t.HoursAgo? then t.hours else t.days;
    var suffix := if t.HoursAgo? then HoursSuffix else DaysSuffix;
    var text := Render(t);
    assert text == NumberToString(n) + suffix;
    assert text[..|text| - |HoursSuffix|] == NumberToString(n);
    assert text[|text| - |HoursSuffix|..] == suffix;
    NumberToStringRoundTrip(n);
  }

  lemma ParsedIsRenderedTimeAgo(text: string, t: TimeAgo)
    requires ParseTimeAgo(text) == Some(t)
    ensures text == Render(t)
  {
    var k := |text| - |HoursSuffix|;
    var n := ParseInteger(text[..k]).value;
    ParsedIsRendered(text[..k], n);
    assert text == text[..k] + text[k..];
  }

  /**
   * `formatTimeAgo(dateString)` for the instant `date`, read at the instant
   * `now`: the one text that reads back as the count `TimeAgoOf` gives.
   */
  function FormatTimeAgo(now: int, date: int): (text: string)
    ensures ParseTimeAgo(text) == Some(TimeAgoOf(now, date))
    ensures forall other :: ParseTimeAgo(other) == Some(TimeAgoOf(now, date)) ==> other == text
  {
    var t := TimeAgoOf(now, date);
    assert forall other :: ParseTimeAgo(other) == Some(t) ==> other == Render(t) by {
      forall other | ParseTimeAgo(other) == Some(t) {
        ParsedIsRenderedTimeAgo(other, t);
      }
    }
    RenderParses(t);
    Render(t)
  }

  // ---------------------------------------------------------------------------
  // The GitHub summary
  // ---------------------------------------------------------------------------

  /** The fields of a repository the dashboard reads. */
  datatype Repo = Repo(name: string, updatedAt: string, language: Option<string>, stargazersCount: int)

  /** The fields of the signed-in user the dashboard reads. */
  datatype User = User(publicRepos: int)

  /** A repository as the summary keeps it: name, last update and language only. */
  datatype RecentRepo = RecentRepo(name: string, updatedAt: string, language: Option<string>)

  datatype GitHubActivity = GitHubActivity(recentRepos: seq<RecentRepo>, totalRepos: int, totalStars: int)

  /** The query parameters of the repository listing. */
  datatype RepoRequest = RepoRequest(sort: string, perPage: nat)

  /** The three most recently updated repositories. */
  const RecentRepoRequest := RepoRequest("updated", 3)

  function Recent(repo: Repo): RecentRepo {
    RecentRepo(repo.name, repo.updatedAt, repo.language)
  }

  /** `repos.map(...)`: one summary entry per repository, in the same order. */
  function RecentRepos(repos: seq<Repo>): (r: seq<RecentRepo>)
    ensures |r| == |repos|
    ensures forall i :: 0 <= i < |repos| ==> r[i].name == repos[i].name && r[i].updatedAt == repos[i].updatedAt && r[i].language == repos[i].language
  {
    if repos == [] then [] else [Recent(repos[0])] + RecentRepos(repos[1..])
  }

  /** `repos.reduce((sum, repo) => sum + repo.stargazers_count, 0)`. */
  function TotalStars(repos: seq<Repo>): int {
    if repos == [] then 0 else TotalStars(repos[..|repos| - 1]) + repos[|repos| - 1].stargazersCount
  }

  /** The star total of a concatenation is the sum of the totals. */
  lemma {:induction false} TotalStarsSplit(a: seq<Repo>, b: seq<Repo>)
    ensures TotalStars(a + b) == TotalStars(a) + TotalStars(b)
    decreases |b|
  {
    if b == [] {
      assert a + b == a;
    } else {
      var b' := b[..|b| - 1];
      assert (a + b)[..|a + b| - 1] == a + b';
      assert (a + b)[|a + b| - 1] == b[|b| - 1];
      TotalStarsSplit(a, b');
    }
  }

  /** With no negative counts, the total is at least every single repository's count. */
  lemma {:induction false} TotalStarsBounds(repos: seq<Repo>)
    requires forall i :: 0 <= i < |repos| ==> repos[i].stargazersCount >= 0
    ensures TotalStars(repos) >= 0
    ensures forall i :: 0 <= i < |repos| ==> repos[i].stargazersCount <= TotalStars(repos)
  {
    if repos != [] {
      var init := repos[..|repos| - 1];
      TotalStarsBounds(init);
      forall i | 0 <= i < |repos|
        ensures repos[i].stargazersCount <= TotalStars(repos)
      {
        if i < |init| {
          assert repos[i] == init[i];
        }
      }
    }
  }

  /**
   * The GitHub `queryFn`. `listRepos` and `currentUser` stand for the two
   * API calls, made with the key; `None` is a response without `data`.
   * The summary is `null` without a key or when either response lacks data;
   * an empty repository list is data, and gives an empty summary.
   */
  function GitHubQueryFn(key: Option<string>, listRepos: (string, RepoRequest) -> Option<seq<Repo>>, currentUser: string -> Option<User>): (r: Option<GitHubActivity>)
    ensures r.Some? <==> IsTruthy(key) && listRepos(key.value, RecentRepoRequest).Some? && currentUser(key.value).Some?
    ensures r.Some? ==>
      var repos := listRepos(key.value, RecentRepoRequest).value;
      && r.value.recentRepos == RecentRepos(repos)
      && r.value.totalRepos == currentUser(key.value).value.publicRepos
      && r.value.totalStars == TotalStars(repos)
  {
    if !IsTruthy(key) then None
    else
      var repos := listRepos(key.value, RecentRepoRequest);
      var user := currentUser(key.value);
      if repos.Some? && user.Some? then
        Some(GitHubActivity(RecentRepos(repos.value), user.value.publicRepos, TotalStars(repos.value)))
      else None
  }

  // ---------------------------------------------------------------------------
  // The Spotify tracks
  // ---------------------------------------------------------------------------

  datatype Track = Track(name: string, artist: string, album: string)

  /** The placeholder tracks the Spotify query returns for any token. */
  const MockTracks := [
    Track("Song Title 1", "Artist 1", "Album 1"),
    Track("Song Title 2", "Artist 2", "Album 2"),
    Track("Song Title 3", "Artist 3", "Album 3")]

  /** The Spotify `queryFn`: three fixed tracks when there is a token, `null` otherwise. */
  function SpotifyQueryFn(token: Option<string>): (r: Option<seq<Track>>)
    ensures r.Some? <==> IsTruthy(token)
    ensures r.Some? ==> |r.value| == 3 && r.value[0].name == "Song Title 1"
  {
    if IsTruthy(token) then Some(MockTracks) else None
  }

  // ---------------------------------------------------------------------------
  // Gating and loading
  // ---------------------------------------------------------------------------

  /** `enabled: !!key`: a query runs only with a non-empty credential. */
  function QueryEnabled(key: Option<string>): (b: bool)
    ensures b <==> key.Some? && key.value != ""
  {
    IsTruthy(key)
  }

  /**
   * The data a query can show: none while the query is disabled, the result
   * of its function otherwise.
   */
  function GatedData<T>(key: Option<string>, result: Option<T>): Option<T> {
    if QueryEnabled(key) then result else None
  }

  /**
   * The gate and the functions' own `null` guard agree: a disabled query
   * shows nothing, an enabled one never takes its guard's early `null`, so
   * the GitHub summary is missing only for lack of data, and the Spotify
   * tracks are always there.
   */
  lemma GatingAgreesWithGuard(githubKey: Option<string>, spotifyToken: Option<string>, listRepos: (string, RepoRequest) -> Option<seq<Repo>>, currentUser: string -> Option<User>)
    ensures GatedData(githubKey, GitHubQueryFn(githubKey, listRepos, currentUser)) == GitHubQueryFn(githubKey, listRepos, currentUser)
    ensures GatedData(spotifyToken, SpotifyQueryFn(spotifyToken)) == SpotifyQueryFn(spotifyToken)
    ensures QueryEnabled(githubKey) ==>
      (GitHubQueryFn(githubKey, listRepos, currentUser).None? <==>
        listRepos(githubKey.value, RecentRepoRequest).None? || currentUser(githubKey.value).None?)
    ensures QueryEnabled(spotifyToken) ==> SpotifyQueryFn(spotifyToken) == Some(MockTracks)
  {
  }

  /** `githubLoading || spotifyLoading`: the dashboard shows the refresh spinner while either query loads. */
  function IsLoading(githubLoading: bool, spotifyLoading: bool): bool {
    githubLoading || spotifyLoading
  }

  // ---------------------------------------------------------------------------
  // getLastFiveDays
  // ---------------------------------------------------------------------------

  const DayCount := 5

  /** How a day is shown: "Today", "Yesterday", or a short month-and-day date. */
  datatype DayLabel = Today | Yesterday | ShortDate(day: int)

  datatype DayOption = DayOption(value: int, caption: DayLabel)

  /** The label of the day `i` days before today. */
  function LabelFor(i: nat, day: int): DayLabel {
    if i == 0 then Today else if i == 1 then Yesterday else ShortDate(day)
  }

  /**
   * `getLastFiveDays()` on the day `today`: five entries, today first and
   * then one day earlier each time, labelled "Today", "Yesterday" and then by
   * date.
   */
  method GetLastFiveDays(today: int) returns (days: seq<DayOption>)
    ensures |days| == DayCount
    ensures forall i :: 0 <= i < |days| ==> days[i].value == today - i
    ensures days[0].caption == Today && days[1].caption == Yesterday
    ensures forall i :: 2 <= i < |days| ==> days[i].caption == ShortDate(days[i].value)
  {
    days := [];
    for i := 0 to DayCount
      invariant |days| == i
      invariant forall k :: 0 <= k < i ==> days[k] == DayOption(today - k, LabelFor(k, today - k))
    {
      var date := today - i;
      days := days + [DayOption(date, LabelFor(i, date))];
    }
  }
}
