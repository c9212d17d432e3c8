/** The records the site passes around (GitHub repositories and commit weeks, Twitch
    streams). Timestamps, which the site carries as ISO strings or `Date`s, are
    milliseconds since 1970-01-01T00:00:00Z. A field JavaScript may leave `null` or
    `undefined` is an Option. */
module Types {
  import opened Base

  /** One week of GitHub commit statistics: the Sunday it starts on (Unix seconds),
      the commits per day from Sunday, and the week's total. */
  datatype CommitWeek = CommitWeek(week: int, days: seq<int>, total: int)

  /** A repository record as the GitHub REST API returns it, optionally with the
      commit weeks the site's scripts attach to it. */
  datatype RawRepo = RawRepo(
    id: int, name: string, full_name: string, description: Option<string>,
    html_url: string, language: Option<string>,
    stargazers_count: int, forks_count: int, open_issues_count: int,
    created_at: int, updated_at: int, pushed_at: int,
    topics: Option<seq<string>>, homepage: Option<string>, isPrivate: bool, fork: bool,
    commitActivity: Option<seq<CommitWeek>>)

  /** The repository record the page renders. `languages` lists byte counts per
      language in the order GitHub sent them. */
  datatype GitHubRepoData = GitHubRepoData(
    id: int, name: string, fullName: string, description: string, url: string,
    language: string, languageColor: string, stars: int, forks: int, issues: int,
    topics: seq<string>, homepage: Option<string>, isPrivate: bool,
    lastUpdated: int, createdAt: int, languages: seq<(string, int)>,
    commitActivity: Option<seq<CommitWeek>>)

  datatype GitHubUser = GitHubUser(
    login: string, name: string, avatarUrl: string, bio: string,
    publicRepos: int, followers: int, following: int)

  datatype Pagination = Pagination(page: int, perPage: int, totalPages: int, hasMore: bool)

  datatype GitHubDataResponse = GitHubDataResponse(
    repos: seq<GitHubRepoData>, user: Option<GitHubUser>, pagination: Pagination,
    lastUpdated: int, fromCache: Option<bool>, cacheExpired: Option<bool>, cacheKey: Option<string>)

  datatype StreamType = Vod | Live

  /** One past broadcast (or the running one): its start, duration in hours and views. */
  datatype TwitchStream = TwitchStream(
    id: string, title: string, date: int, duration: real, viewCount: int,
    url: string, thumbnail: string, streamType: StreamType)

  datatype TwitchChannel = TwitchChannel(
    id: string, login: string, displayName: string, profileImageUrl: string, description: string)

  datatype TwitchCurrentStream = TwitchCurrentStream(
    id: string, title: string, viewerCount: int, startedAt: int, gameName: string, thumbnailUrl: string)

  datatype TwitchDataResponse = TwitchDataResponse(
    isLive: bool, currentStream: Option<TwitchCurrentStream>, channel: Option<TwitchChannel>,
    streamingActivity: Option<seq<TwitchStream>>, totalStreams: int, lastUpdated: int,
    fromCache: Option<bool>, cacheExpired: Option<bool>)
}
