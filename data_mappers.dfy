/** The mappers that turn the bundled repository snapshot (loosely typed JSON written by
    the data scripts) into the records the page renders. */
module DataMappers {
  import opened Base
  import opened Types

  /** A repository of the snapshot: every field a mapper defaults may be missing. */
  datatype StaticRepo = StaticRepo(
    id: Option<int>, name: string, full_name: string, description: Option<string>,
    html_url: string, language: Option<string>,
    stargazers_count: Option<int>, forks_count: Option<int>, open_issues_count: Option<int>,
    topics: Option<seq<string>>, homepage: Option<string>, isPrivate: Option<bool>,
    updated_at: int, created_at: int, commitActivity: Option<seq<CommitWeek>>)

  /** The snapshot file: repositories, optional pagination and update time. */
  datatype StaticData = StaticData(repos: seq<StaticRepo>, pagination: Option<Pagination>, lastUpdated: Option<int>)

  /** A JavaScript string in a boolean context: missing and empty are false. */
  predicate Truthy(s: Option<string>)
  {
    s.Some? && s.value != ""
  }

  /** `s || fallback` for a string. */
  function OrString(s: Option<string>, fallback: string): (r: string)
    ensures Truthy(s) ==> r == s.value
    ensures !Truthy(s) ==> r == fallback
  {
    if Truthy(s) then s.value else fallback
  }

  /** The page's colour table (15 entries); `None` for a name outside it. */
  function ColorTable(name: string): Option<string>
  {
    if name == "TypeScript" then Some("#3178c6")
    else if name == "JavaScript" then Some("#f1e05a")
    else if name == "Python" then Some("#3572A5")
    else if name == "Go" then Some("#00ADD8")
    else if name == "Rust" then Some("#dea584")
    else if name == "Java" then Some("#b07219")
    else if name == "Ruby" then Some("#701516")
    else if name == "PHP" then Some("#4F5D95")
    else if name == "C++" then Some("#f34b7d")
    else if name == "C" then Some("#555555")
    else if name == "C#" then Some("#178600")
    else if name == "Swift" then Some("#FA7343")
    else if name == "Kotlin" then Some("#A97BFF")
    else if name == "Dart" then Some("#00B4AB")
    else if name == "Unknown" then Some("#6e7681")
    else None
  }

  const UnknownColor: string := "#6e7681"

  /** `getLanguageColor`: the table entry of the language (missing or empty counts as
      'Unknown'); a language outside the table gets the 'Unknown' colour. */
  function GetLanguageColor(language: Option<string>): (c: string)
    ensures Truthy(language) && ColorTable(language.value).Some? ==> c == ColorTable(language.value).value
    ensures !Truthy(language) || ColorTable(language.value).None? ==> c == UnknownColor
  {
    var found := ColorTable(OrString(language, "Unknown"));
    if found.Some? && found.value != "" then found.value else UnknownColor
  }

  lemma LanguageColorExamples()
    ensures GetLanguageColor(Some("Rust")) == "#dea584"
    ensures GetLanguageColor(Some("TypeScript")) == "#3178c6"
    ensures GetLanguageColor(Some("COBOL")) == UnknownColor
    ensures GetLanguageColor(None) == UnknownColor
  {
  }

  /** `mapRawRepoToGitHubRepoData`. */
  function MapRawRepo(r: StaticRepo): (g: GitHubRepoData)
    ensures g.id == r.id.GetOr(0) && g.name == r.name && g.fullName == r.full_name && g.url == r.html_url
    ensures g.description == OrString(r.description, "")
    ensures g.language == OrString(r.language, "Unknown")
    ensures g.languageColor == GetLanguageColor(r.language)
    ensures g.stars == r.stargazers_count.GetOr(0) && g.forks == r.forks_count.GetOr(0)
    ensures g.issues == r.open_issues_count.GetOr(0)
    ensures g.topics == r.topics.GetOr([])
    ensures g.homepage == (if Truthy(r.homepage) then r.homepage else None)
    ensures g.isPrivate == r.isPrivate.GetOr(false)
    ensures g.lastUpdated == r.updated_at && g.createdAt == r.created_at
    ensures g.languages == []
    ensures g.commitActivity == Some(r.commitActivity.GetOr([]))
  {
    GitHubRepoData(
      r.id.GetOr(0), r.name, r.full_name, OrString(r.description, ""), r.html_url,
      OrString(r.language, "Unknown"), GetLanguageColor(r.language),
      r.stargazers_count.GetOr(0), r.forks_count.GetOr(0), r.open_issues_count.GetOr(0),
      r.topics.GetOr([]), if Truthy(r.homepage) then r.homepage else None, r.isPrivate.GetOr(false),
      r.updated_at, r.created_at, [], Some(r.commitActivity.GetOr([])))
  }

  /** A record with nothing but its names gets every default. */
  lemma MapRawRepoDefaults(name: string, fullName: string, url: string, updated: int, created: int)
    ensures var g := MapRawRepo(StaticRepo(None, name, fullName, None, url, None, None, None, None,
                                            None, None, None, updated, created, None));
      g.id == 0 && g.description == "" && g.language == "Unknown" && g.languageColor == UnknownColor
      && g.stars == 0 && g.forks == 0 && g.issues == 0 && g.topics == [] && g.homepage == None
      && !g.isPrivate && g.languages == [] && g.commitActivity == Some([])
  {
  }

  const DefaultPagination: Pagination := Pagination(1, 30, 1, false)

  /** `mapStaticDataToGitHubResponse`; `now` stands for the current time. */
  function MapStaticData(data: StaticData, now: int): (resp: GitHubDataResponse)
    ensures |resp.repos| == |data.repos|
    ensures forall i :: 0 <= i < |data.repos| ==> resp.repos[i] == MapRawRepo(data.repos[i])
    ensures resp.user == None && resp.fromCache == Some(true)
    ensures resp.pagination == data.pagination.GetOr(DefaultPagination)
    ensures resp.lastUpdated == data.lastUpdated.GetOr(now)
  {
    var repos := seq(|data.repos|, i requires 0 <= i < |data.repos| => MapRawRepo(data.repos[i]));
    GitHubDataResponse(repos, None, data.pagination.GetOr(DefaultPagination),
                       data.lastUpdated.GetOr(now), Some(true), None, None)
  }
}
