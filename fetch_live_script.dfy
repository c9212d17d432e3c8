/** The script that writes the bundled snapshot from the live GitHub API: it first
    loads `KEY=value` lines from `.env.local` into the environment, then ranks the
    user's repositories, takes the detailed record of the first six and the commit
    statistics of the first three, and writes them as one fixed page; when anything
    fails it keeps an existing snapshot or exits with status 1. */
module FetchLiveScript {
  import opened Base
  import opened Types
  import opened Strings
  import opened Commits
  import opened Ranking
  import opened RateLimit
  import GitHubDataRoute

  // ---------------------------------------------------------------- loadEnvFile

  /** What one line of the environment file sets: nothing for a blank line, a comment or
      a line without a key and a `=`; otherwise the text before the first `=` of the
      trimmed line as the key and everything after it as the value. */
  function ParseEnvLine(line: string): (r: Option<(string, string)>)
    ensures r.Some? ==> r.value.0 != [] && forall j :: 0 <= j < |r.value.0| ==> r.value.0[j] != '='
  {
    var trimmedLine := Trim(line);
    if trimmedLine == [] || StartsWith(trimmedLine, "#") then None
    else
      var parts := Split(trimmedLine, '=');
      if parts[0] != [] && |parts| > 1 then Some((parts[0], Join(parts[1..], '='))) else None
  }

  /** The environment after the lines, in order: a later line for the same key wins. */
  function EnvAfter(env: map<string, string>, lines: seq<string>): (r: map<string, string>)
    ensures env.Keys <= r.Keys
  {
    if lines == [] then env
    else
      var before := EnvAfter(env, lines[..|lines| - 1]);
      match ParseEnvLine(lines[|lines| - 1])
      case Some((key, value)) => before[key := value]
      case None => before
  }

  /** `loadEnvFile`, with the file's contents as input (None when it does not exist). */
  method LoadEnvFile(envFile: Option<string>, envIn: map<string, string>) returns (env: map<string, string>)
    ensures envFile.None? ==> env == envIn
    ensures envFile.Some? ==> env == EnvAfter(envIn, Split(envFile.value, '\n'))
  {
    env := envIn;
    if envFile.Some? {
      var envLines := Split(envFile.value, '\n');
      var i := 0;
      while i < |envLines|
        invariant 0 <= i <= |envLines|
        invariant env == EnvAfter(envIn, envLines[..i])
      {
        env := ApplyEnvLine(envLines[i], env);
        EnvAfterStep(envIn, envLines, i);
        i := i + 1;
      }
      assert envLines[..i] == envLines;
    }
  }

  /** The body of the line loop: a trimmed, non-comment line with a key and a `=` sets
      the key to the rest of the line after the first `=`. */
  method ApplyEnvLine(line: string, envIn: map<string, string>) returns (env: map<string, string>)
    ensures ParseEnvLine(line).None? ==> env == envIn
    ensures ParseEnvLine(line).Some? ==> env == envIn[ParseEnvLine(line).value.0 := ParseEnvLine(line).value.1]
  {
    env := envIn;
    var trimmedLine := Trim(line);
    if trimmedLine != [] && !StartsWith(trimmedLine, "#") {
      var parts := Split(trimmedLine, '=');
      var key := parts[0];
      var valueParts := parts[1..];
      if key != [] && |valueParts| > 0 {
        var value := Join(valueParts, '=');
        env := env[key := value];
      }
    }
  }

  lemma EnvAfterStep(env: map<string, string>, lines: seq<string>, i: nat)
    requires i < |lines|
    ensures EnvAfter(env, lines[..i + 1]) ==
      match ParseEnvLine(lines[i])
      case Some((key, value)) => EnvAfter(env, lines[..i])[key := value]
      case None => EnvAfter(env, lines[..i])
  {
    assert lines[..i + 1][..i] == lines[..i];
  }

  /** The first position of `c` in `s`, or |s| when there is none. */
  function FirstIndexOf(s: string, c: char): (r: nat)
    ensures r <= |s| && (r < |s| ==> s[r] == c)
    ensures forall j :: 0 <= j < r ==> s[j] != c
    decreases |s|
  {
    if s == [] then 0 else if s[0] == c then 0 else 1 + FirstIndexOf(s[1..], c)
  }

  /** A line sets something exactly when its trimmed text is not a comment and has a `=`
      after at least one character; the key is then the text before the first `=` and
      the value all of the text after it, later `=` included. */
  lemma ParseEnvLineSpec(line: string)
    ensures var t := Trim(line); var i := FirstIndexOf(t, '=');
      ParseEnvLine(line).Some? <==> (t != [] && t[0] != '#' && 0 < i < |t|)
    ensures var t := Trim(line); var i := FirstIndexOf(t, '=');
      ParseEnvLine(line).Some? ==> ParseEnvLine(line).value == (t[..i], t[i + 1..])
  {
    var t := Trim(line);
    var i := FirstIndexOf(t, '=');
    if t != [] {
      assert StartsWith(t, "#") <==> t[0] == '#';
      if i < |t| {
        SplitAtFirst(t, '=', i);
      } else {
        SplitNoSeparator(t, '=');
      }
    }
  }

  /** A text without whitespace at either end trims to itself. */
  lemma TrimUntouched(s: string)
    requires s != [] && !IsWhitespace(s[0]) && !IsWhitespace(s[|s| - 1])
    ensures Trim(s) == s
  {
  }

  /** Only the first `=` separates the key from the value. */
  lemma ParseEnvLineLaterEquals()
    ensures ParseEnvLine("A=b=c") == Some(("A", "b=c"))
  {
    var t := "A=b=c";
    TrimUntouched(t);
    assert FirstIndexOf(t, '=') == 1 by {
      assert t[0] == 'A' && t[1] == '=' && t[1..][0] == '=';
    }
    ParseEnvLineSpec(t);
    assert t[..1] == "A" && t[2..] == "b=c";
  }

  /** A line starting with `=` has an empty key and sets nothing. */
  lemma ParseEnvLineEmptyKey()
    ensures ParseEnvLine("=b") == None
  {
    var t := "=b";
    TrimUntouched(t);
    assert FirstIndexOf(t, '=') == 0;
    ParseEnvLineSpec(t);
  }

  /** A key no line sets keeps its value from before the file (or stays absent). */
  lemma {:induction false} EnvAfterKeeps(env: map<string, string>, lines: seq<string>, key: string)
    requires forall j :: 0 <= j < |lines| ==> ParseEnvLine(lines[j]).None? || ParseEnvLine(lines[j]).value.0 != key
    ensures key in EnvAfter(env, lines) <==> key in env
    ensures key in env ==> EnvAfter(env, lines)[key] == env[key]
    decreases |lines|
  {
    if lines != [] {
      EnvAfterKeeps(env, lines[..|lines| - 1], key);
    }
  }

  /** A key takes the value of the last line that sets it. */
  lemma {:induction false} EnvAfterLastWins(env: map<string, string>, lines: seq<string>, j: nat, key: string, value: string)
    requires j < |lines| && ParseEnvLine(lines[j]) == Some((key, value))
    requires forall k :: j < k < |lines| ==> ParseEnvLine(lines[k]).None? || ParseEnvLine(lines[k]).value.0 != key
    ensures key in EnvAfter(env, lines) && EnvAfter(env, lines)[key] == value
    decreases |lines|
  {
    var init := lines[..|lines| - 1];
    if j < |lines| - 1 {
      EnvAfterLastWins(env, init, j, key, value);
    }
  }

  // ---------------------------------------------------------------- fetchRepositoryInfo

  /** The repository record the detail request returns, as far as the script reads it;
      `topics` may be missing. */
  datatype InfoJson = InfoJson(
    name: string, full_name: string, description: Option<string>, html_url: string,
    stargazers_count: int, watchers_count: int, forks_count: int, language: Option<string>,
    created_at: int, updated_at: int, pushed_at: int, size: int, topics: Option<seq<string>>)

  /** The detail request: failed (a non-OK status or a thrown error) or answered. */
  datatype InfoFetch = InfoFailed | InfoFetched(body: InfoJson)

  /** The thirteen fields the script keeps of the detailed record. */
  datatype RepoInfo = RepoInfo(
    name: string, full_name: string, description: Option<string>, html_url: string,
    stargazers_count: int, watchers_count: int, forks_count: int, language: Option<string>,
    created_at: int, updated_at: int, pushed_at: int, size: int, topics: seq<string>)

  function InfoAt(infos: seq<InfoFetch>, i: nat): InfoFetch
  {
    if i < |infos| then infos[i] else InfoFailed
  }

  /** `fetchRepositoryInfo`: null when the request fails, otherwise the kept fields with
      missing topics as the empty list. */
  function RepositoryInfo(fetch: InfoFetch): (r: Option<RepoInfo>)
    ensures r.None? <==> fetch.InfoFailed?
    ensures r.Some? ==>
      var d := fetch.body;
      r.value.name == d.name && r.value.full_name == d.full_name
      && r.value.description == d.description && r.value.html_url == d.html_url
      && r.value.stargazers_count == d.stargazers_count && r.value.watchers_count == d.watchers_count
      && r.value.forks_count == d.forks_count && r.value.language == d.language
      && r.value.created_at == d.created_at && r.value.updated_at == d.updated_at
      && r.value.pushed_at == d.pushed_at && r.value.size == d.size
      && (d.topics.Some? ==> r.value.topics == d.topics.value)
      && (d.topics.None? ==> r.value.topics == [])
  {
    match fetch
    case InfoFailed => None
    case InfoFetched(d) =>
      Some(RepoInfo(d.name, d.full_name, d.description, d.html_url, d.stargazers_count,
        d.watchers_count, d.forks_count, d.language, d.created_at, d.updated_at,
        d.pushed_at, d.size, d.topics.GetOr([])))
  }

  // ---------------------------------------------------------------- updateGitHubDataWithLiveAPI

  const ListLimit: nat := 20
  const ProcessedRepos: nat := 6
  const ActivityRepos: nat := 3

  /** One written repository: the detailed record when it was fetched, otherwise the list
      record, with `commitActivity` added when the statistics are not null. */
  datatype LiveRepo =
    | DetailedRepo(info: RepoInfo, commitActivity: Option<seq<CommitWeek>>)
    | ListedRepo(repo: RawRepo)

  datatype LiveData = LiveData(
    repos: seq<LiveRepo>, pagination: GitHubDataRoute.LivePagination, lastUpdated: int, source: string)

  /** What a run ends with: the snapshot written, the existing snapshot kept after a
      failure, or exit status 1 when there is none. */
  datatype LiveOutcome = WroteLive(data: LiveData) | KeptExisting | ExitedLive(code: int)

  /** The statistics the script uses for the i-th repository: only the first three are asked. */
  function LiveActivity(i: nat, fetches: seq<ActivityFetch>): (r: Option<seq<CommitWeek>>)
    ensures i >= ActivityRepos ==> r.None?
    ensures i < ActivityRepos ==> r == ActivityOrNull(FetchAt(fetches, i))
  {
    if i < ActivityRepos then ActivityOrNull(FetchAt(fetches, i)) else None
  }

  /** The processed i-th repository: `{...(repoInfo || repo), ...(commitActivity && { commitActivity })}`. */
  function ProcessedLive(repo: RawRepo, i: nat, infos: seq<InfoFetch>, fetches: seq<ActivityFetch>): (r: LiveRepo)
    ensures r.DetailedRepo? <==> InfoAt(infos, i).InfoFetched?
    ensures r.DetailedRepo? ==> Some(r.info) == RepositoryInfo(InfoAt(infos, i))
                                && r.commitActivity == LiveActivity(i, fetches)
    ensures r.ListedRepo? ==> r.repo.(commitActivity := repo.commitActivity) == repo
    ensures r.ListedRepo? && i < ActivityRepos && ActivityOrNull(FetchAt(fetches, i)).Some? ==>
      r.repo.commitActivity == ActivityOrNull(FetchAt(fetches, i))
    ensures r.ListedRepo? && (i >= ActivityRepos || ActivityOrNull(FetchAt(fetches, i)).None?) ==> r.repo == repo
  {
    var activity := LiveActivity(i, fetches);
    match RepositoryInfo(InfoAt(infos, i))
    case Some(info) => DetailedRepo(info, activity)
    case None => ListedRepo(if activity.Some? then repo.(commitActivity := activity) else repo)
  }

  /** `updateGitHubDataWithLiveAPI`, with the upstream replies as inputs, `now` the current
      time and `hasExisting` whether a snapshot file exists. The rate check only warns,
      so nothing depends on it. */
  method UpdateGitHubDataWithLiveAPI(rate: RateCheck, list: GitHubDataRoute.ListFetch, infos: seq<InfoFetch>,
      fetches: seq<ActivityFetch>, now: int, hasExisting: bool) returns (outcome: LiveOutcome)
    ensures list.ListFailed? ==> outcome == (if hasExisting then KeptExisting else ExitedLive(1))
    ensures list.ListFetched? ==>
      var allRepos := Ranked(list.repos, 0, ListLimit);
      var n := MinInt(|allRepos|, ProcessedRepos);
      outcome.WroteLive? && |outcome.data.repos| == n
      && (forall i :: 0 <= i < n ==> outcome.data.repos[i] == ProcessedLive(allRepos[i], i, infos, fetches))
      && outcome.data.pagination == GitHubDataRoute.LivePagination(1, 1, false, n)
      && outcome.data.lastUpdated == now && outcome.data.source == "github-api-live"
  {
    if list.ListFailed? {
      if hasExisting {
        return KeptExisting;
      }
      return ExitedLive(1);
    }
    var allRepos := Ranked(list.repos, 0, 20);
    var reposWithActivity: seq<LiveRepo> := [];
    var i := 0;
    while i < MinInt(|allRepos|, 6)
      invariant 0 <= i <= MinInt(|allRepos|, 6)
      invariant |reposWithActivity| == i
      invariant forall k :: 0 <= k < i ==> reposWithActivity[k] == ProcessedLive(allRepos[k], k, infos, fetches)
    {
      var repo := allRepos[i];
      var repoInfo := RepositoryInfo(InfoAt(infos, i));
      var commitActivity: Option<seq<CommitWeek>> := None;
      if i < 3 {
        commitActivity := ActivityOrNull(FetchAt(fetches, i));
      }
      var processedRepo := if repoInfo.Some? then DetailedRepo(repoInfo.value, commitActivity)
        else ListedRepo(if commitActivity.Some? then repo.(commitActivity := commitActivity) else repo);
      assert processedRepo == ProcessedLive(repo, i, infos, fetches);
      assert (reposWithActivity + [processedRepo])[..i] == reposWithActivity;
      reposWithActivity := reposWithActivity + [processedRepo];
      i := i + 1;
    }
    outcome := WroteLive(LiveData(reposWithActivity,
      GitHubDataRoute.LivePagination(1, 1, false, |reposWithActivity|), now, "github-api-live"));
  }

  /** The six processed repositories are the six the live-data route ranks first: cutting
      the twenty-element ranking to six is ranking with limit six. */
  lemma ProcessedAreRouteRanking(repos: seq<RawRepo>)
    ensures var allRepos := Ranked(repos, 0, ListLimit);
      allRepos[..MinInt(|allRepos|, ProcessedRepos)] == Ranked(repos, 0, GitHubDataRoute.RepoLimit)
  {
  }

  /** Only the first three repositories carry statistics, and each of those carries them
      exactly when they are not null; a repository keeps its detailed record when it was
      fetched, and its list record otherwise. */
  lemma ProcessedLiveFields(repo: RawRepo, i: nat, infos: seq<InfoFetch>, fetches: seq<ActivityFetch>)
    ensures var p := ProcessedLive(repo, i, infos, fetches);
      (p.DetailedRepo? <==> InfoAt(infos, i).InfoFetched?)
      && (p.DetailedRepo? ==> p.info == RepositoryInfo(InfoAt(infos, i)).value && p.commitActivity == LiveActivity(i, fetches))
      && (p.ListedRepo? ==>
            p.repo.(commitActivity := repo.commitActivity) == repo
            && (LiveActivity(i, fetches).Some? ==> p.repo.commitActivity == LiveActivity(i, fetches)))
    ensures i >= ActivityRepos && InfoAt(infos, i).InfoFailed? ==> ProcessedLive(repo, i, infos, fetches) == ListedRepo(repo)
  {
  }
}
