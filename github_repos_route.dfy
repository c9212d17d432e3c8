/** The paginated repository route: query defaults, a single-slot ten-minute cache keyed
    by the query, the `Link` header's last page, the fork filter, the primary-language
    choice and the record defaults. */
module GitHubReposRoute {
  import opened Base
  import opened Strings
  import opened Types
  import opened DataMappers

  /** The raw query parameters `page`, `per_page`, `sort` and `details`. */
  datatype Query = Query(page: Option<string>, perPage: Option<string>, sort: Option<string>, details: Option<string>)

  /** The parsed query; a page or page size that is not a number is `None` (`NaN`). */
  datatype Params = Params(page: Option<int>, perPage: Option<int>, sort: string, loadDetails: bool)

  function ParseQuery(q: Query): (p: Params)
    ensures p.page == ParseInt(OrString(q.page, "1")) && p.perPage == ParseInt(OrString(q.perPage, "20"))
    ensures p.sort == OrString(q.sort, "updated")
    ensures p.loadDetails <==> q.details == Some("true")
  {
    Params(ParseInt(OrString(q.page, "1")), ParseInt(OrString(q.perPage, "20")),
           OrString(q.sort, "updated"), q.details == Some("true"))
  }

  lemma ParseOne()
    ensures ParseInt("1") == Some(1)
  {
    ParseIntShowInt(1);
    assert ShowInt(1) == "1";
  }

  lemma ParseTwenty()
    ensures ParseInt("20") == Some(20)
  {
    ParseIntShowInt(20);
    assert ShowNat(20) == ShowNat(2) + [DigitChar(0)];
    assert ShowInt(20) == "20";
  }

  /** Without parameters, or with empty ones, the route asks for page 1 of 20 repositories
      sorted by update, without details. */
  lemma QueryDefaults(q: Query)
    requires q.page.None? || q.page == Some("")
    requires q.perPage.None? || q.perPage == Some("")
    requires q.sort.None? || q.sort == Some("")
    requires q.details != Some("true")
    ensures ParseQuery(q) == Params(Some(1), Some(20), "updated", false)
  {
    ParseOne();
    ParseTwenty();
    assert OrString(q.page, "1") == "1";
    assert OrString(q.perPage, "20") == "20";
  }

  /** A number as a template literal prints it; `NaN` prints as "NaN". */
  function ShowNumber(n: Option<int>): string
  {
    if n.Some? then ShowInt(n.value) else "NaN"
  }

  function ShowBool(b: bool): string
  {
    if b then "true" else "false"
  }

  /** `${sort}-${page}-${perPage}-${loadDetails}`: the sort comes first, then a dash. */
  function CacheKey(p: Params): (r: string)
    ensures StartsWith(r, p.sort + "-")
  {
    p.sort + "-" + ShowNumber(p.page) + "-" + ShowNumber(p.perPage) + "-" + ShowBool(p.loadDetails)
  }

  /** The key of the default query. */
  lemma DefaultCacheKey()
    ensures CacheKey(Params(Some(1), Some(20), "updated", false)) == "updated-1-20-false"
  {
    assert ShowInt(1) == "1";
    assert ShowNat(20) == ShowNat(2) + [DigitChar(0)];
    assert ShowInt(20) == "20";
  }

  /** The key ends in "-true" exactly when details were asked for. */
  lemma CacheKeyDetails(p: Params)
    ensures p.loadDetails ==> CacheKey(p)[|CacheKey(p)| - 5..] == "-true"
    ensures !p.loadDetails ==> CacheKey(p)[|CacheKey(p)| - 6..] == "-false"
  {
    var a := p.sort + "-" + ShowNumber(p.page) + "-" + ShowNumber(p.perPage);
    var b := "-" + ShowBool(p.loadDetails);
    assert CacheKey(p) == a + b;
    assert (a + b)[|a + b| - |b|..] == b;
  }

  /** A page or page size the key can tell apart from others: not a number, or not
      negative (a negative one prints its own dash). */
  predicate Unsigned(n: Option<int>)
  {
    n.None? || n.value >= 0
  }

  predicate NoDash(s: string)
  {
    forall j :: 0 <= j < |s| ==> s[j] != '-'
  }

  lemma ShowNumberNoDash(n: Option<int>)
    requires Unsigned(n)
    ensures NoDash(ShowNumber(n))
  {
  }

  /** Two dash-free parts joined by a dash split back into those parts. */
  lemma SplitTwo(c: string, d: string)
    requires NoDash(c) && NoDash(d)
    ensures Split(c + "-" + d, '-') == [c, d]
  {
    SplitNoSeparator(d, '-');
    SplitAfterWord(c, '-', d);
  }

  /** Four dash-free parts joined by dashes split back into those parts. */
  lemma SplitFour(a: string, b: string, c: string, d: string)
    requires NoDash(a) && NoDash(b) && NoDash(c) && NoDash(d)
    ensures Split(a + "-" + b + "-" + c + "-" + d, '-') == [a, b, c, d]
  {
    var cd := c + "-" + d;
    var bcd := b + "-" + cd;
    SplitTwo(c, d);
    SplitAfterWord(b, '-', cd);
    SplitAfterWord(a, '-', bcd);
    assert a + "-" + b + "-" + c + "-" + d == a + "-" + bcd;
  }

  /** The key splits at its dashes back into its four parts. */
  lemma CacheKeyParts(p: Params)
    requires NoDash(p.sort) && Unsigned(p.page) && Unsigned(p.perPage)
    ensures Split(CacheKey(p), '-') == [p.sort, ShowNumber(p.page), ShowNumber(p.perPage), ShowBool(p.loadDetails)]
  {
    ShowNumberNoDash(p.page);
    ShowNumberNoDash(p.perPage);
    assert NoDash(ShowBool(p.loadDetails));
    SplitFour(p.sort, ShowNumber(p.page), ShowNumber(p.perPage), ShowBool(p.loadDetails));
  }

  lemma ShowNumberInjective(m: Option<int>, n: Option<int>)
    requires Unsigned(m) && Unsigned(n) && ShowNumber(m) == ShowNumber(n)
    ensures m == n
  {
    if m.Some? && n.Some? {
      ParseShowNat(m.value);
      ParseShowNat(n.value);
    }
  }

  /** Two queries share a cache slot exactly when they are the same query, as long as the
      sorts hold no dash and no page or page size is negative. */
  lemma CacheKeyInjective(p: Params, p': Params)
    requires NoDash(p.sort) && Unsigned(p.page) && Unsigned(p.perPage)
    requires NoDash(p'.sort) && Unsigned(p'.page) && Unsigned(p'.perPage)
    ensures CacheKey(p) == CacheKey(p') <==> p == p'
  {
    if CacheKey(p) == CacheKey(p') {
      CacheKeyParts(p);
      CacheKeyParts(p');
      var parts := Split(CacheKey(p), '-');
      assert parts[1] == ShowNumber(p.page) == ShowNumber(p'.page);
      assert parts[2] == ShowNumber(p.perPage) == ShowNumber(p'.perPage);
      assert parts[3] == ShowBool(p.loadDetails) == ShowBool(p'.loadDetails);
      ShowNumberInjective(p.page, p'.page);
      ShowNumberInjective(p.perPage, p'.perPage);
    }
  }

  /** The key does not tell every two queries apart: a sort ending in '-' and a negative
      page can print the same key as another query. */
  lemma CacheKeyCollision()
    ensures Params(Some(-1), Some(20), "x", false) != Params(Some(1), Some(20), "x-", false)
    ensures CacheKey(Params(Some(-1), Some(20), "x", false)) == CacheKey(Params(Some(1), Some(20), "x-", false))
  {
    assert ShowInt(-1) == "-1";
    assert ShowInt(20) == "20";
  }

  // ---------------------------------------------------------------- Link header

  const LastSuffix: string := ">; rel=\"last\""

  /** The pattern `page=(\d+)>; rel="last"` anchored at position `p`: the captured number
      when it matches. The digit run is maximal, since the character after it must be '>'. */
  function MatchAt(s: string, p: nat): Option<nat>
    requires p <= |s|
  {
    var t := s[p..];
    if StartsWith(t, "page=") then
      var ds := DigitPrefix(t[5..]);
      var rest := t[5 + |ds|..];
      if ds != [] && StartsWith(rest, LastSuffix) then Some(ParseDigits(ds)) else None
    else None
  }

  /** The leftmost match at or after position `p`. */
  function FirstMatch(s: string, p: nat): Option<nat>
    requires p <= |s|
    decreases |s| - p
  {
    if MatchAt(s, p).Some? then MatchAt(s, p)
    else if p == |s| then None
    else FirstMatch(s, p + 1)
  }

  /** `totalPages`: the last page the `Link` header names, otherwise 1 (so 1 without a
      header, or with one that names no last page). */
  function TotalPages(link: Option<string>): (r: nat)
    ensures link.None? || FirstMatch(link.value, 0).None? ==> r == 1
    ensures Truthy(link) && FirstMatch(link.value, 0).Some? ==> r == FirstMatch(link.value, 0).value
  {
    if !Truthy(link) then 1
    else
      var m := FirstMatch(link.value, 0);
      if m.Some? then m.value else 1
  }

  /** The match found is the leftmost one. */
  lemma {:induction false} FirstMatchLeftmost(s: string, p: nat, n: nat)
    requires p <= |s|
    ensures FirstMatch(s, p) == Some(n) <==>
      exists q :: p <= q <= |s| && MatchAt(s, q) == Some(n) && forall k :: p <= k < q ==> MatchAt(s, k).None?
    decreases |s| - p
  {
    if MatchAt(s, p).None? && p < |s| {
      FirstMatchLeftmost(s, p + 1, n);
      if FirstMatch(s, p + 1) == Some(n) {
        var q :| p + 1 <= q <= |s| && MatchAt(s, q) == Some(n) && forall k :: p + 1 <= k < q ==> MatchAt(s, k).None?;
        assert forall k :: p <= k < q ==> MatchAt(s, k).None?;
      }
    }
    if MatchAt(s, p).Some? {
      if exists q :: p <= q <= |s| && MatchAt(s, q) == Some(n) && forall k :: p <= k < q ==> MatchAt(s, k).None? {
        var q :| p <= q <= |s| && MatchAt(s, q) == Some(n) && forall k :: p <= k < q ==> MatchAt(s, k).None?;
        assert q == p;
      }
    }
  }

  /** `page=`, a run of digits, then the suffix: the pattern matches with that number. */
  lemma MatchAtDigits(ds: string, after: string)
    requires ds != [] && AllDigits(ds) && StartsWith(after, LastSuffix)
    ensures MatchAt("page=" + (ds + after), 0) == Some(ParseDigits(ds))
  {
    var s := "page=" + (ds + after);
    assert s[0..] == s;
    assert s[..5] == "page=";
    assert s[5..] == ds + after;
    assert after[0] == '>';
    DigitPrefixOfDigitsThen(ds, after);
    assert (ds + after)[|ds|..] == after;
  }

  /** The text `page=N>; rel="last"` reads back as N. */
  lemma MatchAtLast(n: nat, rest: string)
    ensures MatchAt("page=" + ShowNat(n) + LastSuffix + rest, 0) == Some(n)
  {
    var ds := ShowNat(n);
    var after := LastSuffix + rest;
    assert "page=" + ShowNat(n) + LastSuffix + rest == "page=" + (ds + after);
    assert after[..|LastSuffix|] == LastSuffix;
    MatchAtDigits(ds, after);
    ParseShowNat(n);
  }

  /** Whether the pattern matches at `p` depends only on the text from `p` on. */
  lemma MatchAtSuffix(s: string, p: nat)
    requires p <= |s|
    ensures MatchAt(s, p) == MatchAt(s[p..], 0)
  {
    assert s[p..][0..] == s[p..];
  }

  /** A header whose first `page=N>; rel="last"` follows a prefix without one gives N
      pages, as GitHub's `<…page=2>; rel="next", <…page=N>; rel="last"` does. */
  lemma TotalPagesOfLink(link: string, prefix: string, n: nat, rest: string)
    requires link == prefix + ("page=" + ShowNat(n) + LastSuffix + rest)
    requires forall k :: 0 <= k < |prefix| ==> MatchAt(link, k).None?
    ensures TotalPages(Some(link)) == n
  {
    var tail := "page=" + ShowNat(n) + LastSuffix + rest;
    MatchAtLast(n, rest);
    assert link[|prefix|..] == tail;
    MatchAtSuffix(link, |prefix|);
    FirstMatchLeftmost(link, 0, n);
  }

  // ---------------------------------------------------------------- primary language

  /** The byte count a language object gives a key (`languages[key]`); `None` for a key
      it does not hold (`undefined`). */
  function CountOf(languages: seq<(string, int)>, key: string): Option<int>
  {
    if languages == [] then None
    else if languages[0].0 == key then Some(languages[0].1)
    else CountOf(languages[1..], key)
  }

  /** `languages[a] > languages[b]`: false whenever either side is undefined. */
  predicate Greater(a: Option<int>, b: Option<int>)
  {
    a.Some? && b.Some? && a.value > b.value
  }

  /** The language after the reduce has visited the first `k` entries, starting from
      `initial` (the repository's language or 'Unknown'). */
  function ReduceLanguages(languages: seq<(string, int)>, initial: string, k: nat): (r: string)
    requires k <= |languages|
    ensures r == initial || exists i :: 0 <= i < k && r == languages[i].0
  {
    if k == 0 then initial
    else
      var acc := ReduceLanguages(languages, initial, k - 1);
      if Greater(CountOf(languages, acc), CountOf(languages, languages[k - 1].0)) then acc
      else languages[k - 1].0
  }

  /** The primary language is the repository's own (or 'Unknown') or a key of the object. */
  function PrimaryLanguage(languages: seq<(string, int)>, language: Option<string>): (r: string)
    ensures r == OrString(language, "Unknown") || exists i :: 0 <= i < |languages| && r == languages[i].0
  {
    ReduceLanguages(languages, OrString(language, "Unknown"), |languages|)
  }

  predicate DistinctKeys(languages: seq<(string, int)>)
  {
    forall i, j :: 0 <= i < j < |languages| ==> languages[i].0 != languages[j].0
  }

  /** Entry `i` has the largest count among the first `k` entries and no later one among
      them has as many (a count at index `i >= k` must beat all `k` of them). */
  predicate LastMaxUpTo(languages: seq<(string, int)>, i: nat, k: nat)
    requires i < |languages| && k <= |languages|
  {
    forall j :: 0 <= j < k && j != i ==>
      (j < i ==> languages[j].1 <= languages[i].1) && (j > i ==> languages[j].1 < languages[i].1)
  }

  lemma {:induction false} CountOfKey(languages: seq<(string, int)>, i: nat)
    requires DistinctKeys(languages) && i < |languages|
    ensures CountOf(languages, languages[i].0) == Some(languages[i].1)
    decreases i
  {
    if i > 0 {
      assert languages[0].0 != languages[i].0;
      assert languages[1..][i - 1] == languages[i];
      CountOfKey(languages[1..], i - 1);
    }
  }

  lemma {:induction false} CountOfSome(languages: seq<(string, int)>, key: string)
    requires CountOf(languages, key).Some?
    ensures exists i :: 0 <= i < |languages| && languages[i].0 == key && languages[i].1 == CountOf(languages, key).value
    decreases |languages|
  {
    if languages[0].0 != key {
      CountOfSome(languages[1..], key);
      var i :| 0 <= i < |languages[1..]| && languages[1..][i].0 == key && languages[1..][i].1 == CountOf(languages, key).value;
      assert languages[i + 1] == languages[1..][i];
    }
  }

  lemma {:induction false} ReduceLanguagesInvariant(languages: seq<(string, int)>, initial: string, k: nat)
    requires DistinctKeys(languages) && 0 < k <= |languages|
    ensures exists i :: 0 <= i < |languages| && ReduceLanguages(languages, initial, k) == languages[i].0
                        && LastMaxUpTo(languages, i, k)
    decreases k
  {
    var b := languages[k - 1];
    CountOfKey(languages, k - 1);
    var acc := ReduceLanguages(languages, initial, k - 1);
    if k == 1 {
      if Greater(CountOf(languages, acc), CountOf(languages, b.0)) {
        CountOfSome(languages, acc);
        var i :| 0 <= i < |languages| && languages[i].0 == acc && languages[i].1 == CountOf(languages, acc).value;
        assert LastMaxUpTo(languages, i, k);
      } else {
        assert LastMaxUpTo(languages, 0, 1);
      }
    } else {
      ReduceLanguagesInvariant(languages, initial, k - 1);
      var i :| 0 <= i < |languages| && acc == languages[i].0 && LastMaxUpTo(languages, i, k - 1);
      CountOfKey(languages, i);
      if Greater(CountOf(languages, acc), CountOf(languages, b.0)) {
        assert LastMaxUpTo(languages, i, k);
      } else {
        assert languages[i].1 <= b.1;
        assert LastMaxUpTo(languages, k - 1, k);
      }
    }
  }

  /** The primary language: the repository's language (or 'Unknown') when the object is
      empty, otherwise the key with the largest count, the last one on a tie. */
  lemma PrimaryLanguageIsLastMax(languages: seq<(string, int)>, language: Option<string>)
    requires DistinctKeys(languages)
    ensures languages == [] ==> PrimaryLanguage(languages, language) == OrString(language, "Unknown")
    ensures languages != [] ==>
      exists i :: 0 <= i < |languages| && PrimaryLanguage(languages, language) == languages[i].0
        && (forall j :: 0 <= j < i ==> languages[j].1 <= languages[i].1)
        && (forall j :: i < j < |languages| ==> languages[j].1 < languages[i].1)
  {
    if languages != [] {
      ReduceLanguagesInvariant(languages, OrString(language, "Unknown"), |languages|);
      var i :| 0 <= i < |languages| && PrimaryLanguage(languages, language) == languages[i].0
               && LastMaxUpTo(languages, i, |languages|);
      forall j | 0 <= j < i
        ensures languages[j].1 <= languages[i].1
      {
        assert 0 <= j < |languages| && j != i;
        assert LastMaxUpTo(languages, i, |languages|);
      }
      forall j | i < j < |languages|
        ensures languages[j].1 < languages[i].1
      {
        assert 0 <= j < |languages| && j != i;
        assert LastMaxUpTo(languages, i, |languages|);
      }
    }
  }

  lemma PrimaryLanguageExamples()
    ensures PrimaryLanguage([("Rust", 10), ("Shell", 2)], Some("Go")) == "Rust"
    ensures PrimaryLanguage([("CSS", 5), ("HTML", 5)], None) == "HTML"
    ensures PrimaryLanguage([], Some("")) == "Unknown"
  {
  }

  // ---------------------------------------------------------------- records

  /** The route's colour table (11 entries); `None` for a name outside it. */
  function RepoColorTable(name: string): Option<string>
  {
    if name == "TypeScript" then Some("#3178c6")
    else if name == "JavaScript" then Some("#f1e05a")
    else if name == "Python" then Some("#3572A5")
    else if name == "Rust" then Some("#dea584")
    else if name == "Go" then Some("#00ADD8")
    else if name == "Java" then Some("#b07219")
    else if name == "C++" then Some("#f34b7d")
    else if name == "HTML" then Some("#e34c26")
    else if name == "CSS" then Some("#563d7c")
    else if name == "Vue" then Some("#41b883")
    else if name == "React" then Some("#61dafb")
    else None
  }

  const DefaultColor: string := "#858585"

  function RepoColor(language: string): (c: string)
    ensures RepoColorTable(language).Some? ==> c == RepoColorTable(language).value
    ensures RepoColorTable(language).None? ==> c == DefaultColor
  {
    OrString(RepoColorTable(language), DefaultColor)
  }

  /** The record built for one repository from its language object and statistics. */
  function RepoRecord(r: RawRepo, languages: seq<(string, int)>, commitActivity: seq<CommitWeek>): (g: GitHubRepoData)
    ensures g.id == r.id && g.name == r.name && g.fullName == r.full_name && g.url == r.html_url
    ensures g.description == OrString(r.description, "No description provided")
    ensures g.language == PrimaryLanguage(languages, r.language) && g.languageColor == RepoColor(g.language)
    ensures g.stars == r.stargazers_count && g.forks == r.forks_count && g.issues == r.open_issues_count
    ensures g.topics == r.topics.GetOr([]) && g.homepage == r.homepage && g.isPrivate == r.isPrivate
    ensures g.lastUpdated == r.pushed_at && g.createdAt == r.created_at
    ensures g.languages == languages && g.commitActivity == Some(commitActivity)
  {
    var primary := PrimaryLanguage(languages, r.language);
    GitHubRepoData(r.id, r.name, r.full_name, OrString(r.description, "No description provided"),
                   r.html_url, primary, RepoColor(primary), r.stargazers_count, r.forks_count,
                   r.open_issues_count, r.topics.GetOr([]), r.homepage, r.isPrivate,
                   r.pushed_at, r.created_at, languages, Some(commitActivity))
  }

  /** The two detail requests of one repository: one of them threw, or each is the body
      of an OK reply (`None` for a non-OK one). */
  datatype DetailReply = DetailThrew | Details(languages: Option<seq<(string, int)>>, commitActivity: Option<seq<CommitWeek>>)

  function DetailAt(details: seq<DetailReply>, i: nat): DetailReply
  {
    if i < |details| then details[i] else DetailThrew
  }

  /** One repository: a fork, or one whose detail requests threw, is dropped; without
      details the language object and statistics stay empty. */
  function ProcessRepo(r: RawRepo, loadDetails: bool, reply: DetailReply): (g: Option<GitHubRepoData>)
    ensures g.None? <==> r.fork || (loadDetails && reply.DetailThrew?)
    ensures g.Some? && !loadDetails ==> g.value == RepoRecord(r, [], [])
    ensures g.Some? && loadDetails ==>
      g.value == RepoRecord(r, reply.languages.GetOr([]), reply.commitActivity.GetOr([]))
  {
    if r.fork then None
    else if loadDetails && reply.DetailThrew? then None
    else if loadDetails then Some(RepoRecord(r, reply.languages.GetOr([]), reply.commitActivity.GetOr([])))
    else Some(RepoRecord(r, [], []))
  }

  /** The processed list without its nulls, reply `i` belonging to repository `i`. */
  function ValidRepos(repos: seq<RawRepo>, loadDetails: bool, details: seq<DetailReply>): (r: seq<GitHubRepoData>)
    ensures |r| <= |repos|
    ensures !loadDetails && (forall i :: 0 <= i < |repos| ==> !repos[i].fork) ==> |r| == |repos|
  {
    if repos == [] then []
    else
      var n := |repos| - 1;
      var g := ProcessRepo(repos[n], loadDetails, DetailAt(details, n));
      ValidRepos(repos[..n], loadDetails, details) + (if g.Some? then [g.value] else [])
  }

  /** Every record in the list was produced by some repository. */
  lemma {:induction false} ValidReposSound(repos: seq<RawRepo>, loadDetails: bool, details: seq<DetailReply>, g: GitHubRepoData)
    requires g in ValidRepos(repos, loadDetails, details)
    ensures exists i :: 0 <= i < |repos| && ProcessRepo(repos[i], loadDetails, DetailAt(details, i)) == Some(g)
    decreases |repos|
  {
    var n := |repos| - 1;
    var init := repos[..n];
    if g in ValidRepos(init, loadDetails, details) {
      ValidReposSound(init, loadDetails, details, g);
      var i :| 0 <= i < |init| && ProcessRepo(init[i], loadDetails, DetailAt(details, i)) == Some(g);
      assert init[i] == repos[i];
    } else {
      assert ProcessRepo(repos[n], loadDetails, DetailAt(details, n)) == Some(g);
    }
  }

  /** Every record a repository produces is in the list. */
  lemma {:induction false} ValidReposComplete(repos: seq<RawRepo>, loadDetails: bool, details: seq<DetailReply>, i: nat)
    requires i < |repos| && ProcessRepo(repos[i], loadDetails, DetailAt(details, i)).Some?
    ensures ProcessRepo(repos[i], loadDetails, DetailAt(details, i)).value in ValidRepos(repos, loadDetails, details)
    decreases |repos|
  {
    var n := |repos| - 1;
    var x := ProcessRepo(repos[i], loadDetails, DetailAt(details, i)).value;
    var init := ValidRepos(repos[..n], loadDetails, details);
    var last := ProcessRepo(repos[n], loadDetails, DetailAt(details, n));
    assert ValidRepos(repos, loadDetails, details) == init + (if last.Some? then [last.value] else []);
    if i < n {
      assert repos[..n][i] == repos[i];
      ValidReposComplete(repos[..n], loadDetails, details, i);
      assert x in init;
    } else {
      assert last.value == x;
    }
  }

  /** A record is in the list exactly when some repository produced it. */
  lemma ValidReposMembers(repos: seq<RawRepo>, loadDetails: bool, details: seq<DetailReply>, g: GitHubRepoData)
    ensures g in ValidRepos(repos, loadDetails, details) <==>
      exists i :: 0 <= i < |repos| && ProcessRepo(repos[i], loadDetails, DetailAt(details, i)) == Some(g)
  {
    if g in ValidRepos(repos, loadDetails, details) {
      ValidReposSound(repos, loadDetails, details, g);
    }
    if exists i :: 0 <= i < |repos| && ProcessRepo(repos[i], loadDetails, DetailAt(details, i)) == Some(g) {
      var i :| 0 <= i < |repos| && ProcessRepo(repos[i], loadDetails, DetailAt(details, i)) == Some(g);
      ValidReposComplete(repos, loadDetails, details, i);
    }
  }

  /** The repositories that are not forks, in their order. */
  function NonForks(repos: seq<RawRepo>): seq<RawRepo>
  {
    if repos == [] then [] else NonForks(repos[..|repos| - 1]) + (if repos[|repos| - 1].fork then [] else [repos[|repos| - 1]])
  }

  function BareRecords(repos: seq<RawRepo>): seq<GitHubRepoData>
  {
    if repos == [] then [] else BareRecords(repos[..|repos| - 1]) + [RepoRecord(repos[|repos| - 1], [], [])]
  }

  /** Without details the list is exactly the non-forks, in their order, with empty
      languages and statistics. */
  lemma {:induction false} WithoutDetails(repos: seq<RawRepo>, details: seq<DetailReply>)
    ensures ValidRepos(repos, false, details) == BareRecords(NonForks(repos))
    decreases |repos|
  {
    if repos != [] {
      var n := |repos| - 1;
      WithoutDetails(repos[..n], details);
      if repos[n].fork {
        assert NonForks(repos) == NonForks(repos[..n]);
      } else {
        var s := NonForks(repos[..n]) + [repos[n]];
        assert NonForks(repos) == s;
        assert s[..|s| - 1] == NonForks(repos[..n]) && s[|s| - 1] == repos[n];
        assert BareRecords(s) == BareRecords(NonForks(repos[..n])) + [RepoRecord(repos[n], [], [])];
      }
    }
  }

  // ---------------------------------------------------------------- the cached GET

  datatype RoutePagination = RoutePagination(page: Option<int>, perPage: Option<int>, totalPages: nat, hasMore: bool)

  /** A response body; `stale` stands for `fromCache: true, cacheExpired: true`. */
  datatype ReposBody = ReposBody(
    repos: seq<GitHubRepoData>, user: Option<GitHubUser>, pagination: RoutePagination,
    lastUpdated: int, cacheKey: string, stale: bool)

  datatype RouteResponse = Served(body: ReposBody) | ServerError

  function Status(r: RouteResponse): int
  {
    if r.Served? then 200 else 500
  }

  /** The list request: failed (a non-OK status or a thrown error) or the list with its
      `Link` header. */
  datatype ListReply = ListFailed | ListOk(repos: seq<RawRepo>, link: Option<string>)

  /** The user request: thrown, non-OK, or the user. */
  datatype UserReply = UserThrew | UserNotOk | UserOk(user: GitHubUser)

  /** Everything the route asks GitHub on a cache miss. */
  datatype Upstream = Upstream(list: ListReply, details: seq<DetailReply>, user: UserReply)

  /** `hasMore = page < totalPages`: false for a page that is not a number. */
  function Paginate(p: Params, link: Option<string>): (r: RoutePagination)
    ensures r.page == p.page && r.perPage == p.perPage && r.totalPages == TotalPages(link)
    ensures r.hasMore <==> p.page.Some? && p.page.value < TotalPages(link)
  {
    var total := TotalPages(link);
    RoutePagination(p.page, p.perPage, total, p.page.Some? && p.page.value < total)
  }

  /** The fresh body, or `None` when a request the route does not catch per repository
      failed. */
  function FreshBody(p: Params, up: Upstream, now: int): (b: Option<ReposBody>)
    ensures b.None? <==> up.list.ListFailed? || up.user.UserThrew?
    ensures b.Some? ==>
      b.value.repos == ValidRepos(up.list.repos, p.loadDetails, up.details)
      && b.value.user == (if up.user.UserOk? then Some(up.user.user) else None)
      && b.value.pagination == Paginate(p, up.list.link)
      && b.value.lastUpdated == now && b.value.cacheKey == CacheKey(p) && !b.value.stale
  {
    match up.list
    case ListFailed => None
    case ListOk(repos, link) =>
      if up.user.UserThrew? then None
      else
        Some(ReposBody(ValidRepos(repos, p.loadDetails, up.details),
                       if up.user.UserOk? then Some(up.user.user) else None,
                       Paginate(p, link), now, CacheKey(p), false))
  }

  const CacheDuration := 10 * 60 * 1000

  /** The module-level single-slot cache of the route. */
  class RepoCache {
    var cache: Option<ReposBody>
    var cacheExpiry: int

    /** Only fresh bodies are cached. */
    predicate Valid()
      reads this
    {
      cache.Some? ==> !cache.value.stale
    }

    constructor()
      ensures cache == None && cacheExpiry == 0 && Valid()
    {
      cache := None;
      cacheExpiry := 0;
    }

    /** A request is served from the cache iff the slot holds a body for the same key and
        it has not expired. */
    predicate Hit(key: string, now: int)
      reads this
    {
      cache.Some? && cache.value.cacheKey == key && now < cacheExpiry
    }

    /** `GET`: a hit answers the cached body; a miss fetches and overwrites the slot, or on
        failure answers the old body marked stale (expired or not, for any key), or 500. */
    method Get(q: Query, up: Upstream, now: int) returns (resp: RouteResponse)
      requires Valid()
      modifies this
      ensures Valid()
      ensures var p := ParseQuery(q);
        if old(Hit(CacheKey(p), now)) then
          resp == Served(old(cache).value) && cache == old(cache) && cacheExpiry == old(cacheExpiry)
        else if FreshBody(p, up, now).Some? then
          resp == Served(FreshBody(p, up, now).value)
          && cache == FreshBody(p, up, now) && cacheExpiry == now + CacheDuration
          && (forall t :: now <= t < now + CacheDuration ==> Hit(CacheKey(p), t))
        else
          cache == old(cache) && cacheExpiry == old(cacheExpiry)
          && resp == (if old(cache).Some? then Served(old(cache).value.(stale := true)) else ServerError)
    {
      var p := ParseQuery(q);
      var cacheKey := CacheKey(p);
      if cache.Some? && cache.value.cacheKey == cacheKey && now < cacheExpiry {
        return Served(cache.value);
      }
      var body := FreshBody(p, up, now);
      if body.Some? {
        cache := body;
        cacheExpiry := now + CacheDuration;
        resp := Served(body.value);
      } else if cache.Some? {
        resp := Served(cache.value.(stale := true));
      } else {
        resp := ServerError;
      }
    }
  }
}
