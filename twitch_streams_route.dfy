/** The Twitch streams route: the duration parser, the access token kept until a minute
    before it expires, the per-user five-minute cache, and the stream list (past
    broadcasts, with the running stream first). */
module TwitchStreamsRoute {
  import opened Base
  import opened Strings
  import opened Types
  import opened DataMappers

  // ---------------------------------------------------------------- durations

  /** One optional component `(\d+)<unit>` of the duration pattern at the start of `s`:
      its number and the text after it, or nothing and `s` itself. The digit run is
      maximal, since the character after it must be the unit letter. */
  function Component(s: string, unit: char): (Option<nat>, string)
  {
    var ds := DigitPrefix(s);
    if ds != [] && |ds| < |s| && s[|ds|] == unit then (Some(ParseDigits(ds)), s[|ds| + 1..])
    else (None, s)
  }

  /** `parseDuration`: `(?:(\d+)h)?(?:(\d+)m)?(?:(\d+)s)?` matched at the start (the pattern
      matches the empty text, so it always matches there), missing parts counting as 0. */
  function ParseDuration(duration: string): (hours: real)
    ensures hours >= 0.0
  {
    var (h, afterHours) := Component(duration, 'h');
    var (m, afterMinutes) := Component(afterHours, 'm');
    var (s, _) := Component(afterMinutes, 's');
    h.GetOr(0) as real + m.GetOr(0) as real / 60.0 + s.GetOr(0) as real / 3600.0
  }

  /** The Twitch text of a duration whose components may each be absent. */
  function FormatDuration(h: Option<nat>, m: Option<nat>, s: Option<nat>): string
  {
    (if h.Some? then ShowNat(h.value) + "h" else "")
    + (if m.Some? then ShowNat(m.value) + "m" else "")
    + (if s.Some? then ShowNat(s.value) + "s" else "")
  }

  /** A component with its unit letter is read; one with another unit letter is not. */
  lemma ComponentPresent(n: nat, unit: char, other: char, rest: string)
    requires !IsDigit(unit)
    ensures Component(ShowNat(n) + [unit] + rest, other)
            == if unit == other then (Some(n), rest) else (None, ShowNat(n) + [unit] + rest)
  {
    var ds := ShowNat(n);
    var s := ds + ([unit] + rest);
    assert ShowNat(n) + [unit] + rest == s;
    DigitPrefixOfDigitsThen(ds, [unit] + rest);
    assert s[|ds|] == unit && s[|ds| + 1..] == rest;
    ParseShowNat(n);
  }

  lemma ComponentAbsent(s: string, unit: char)
    requires s == [] || !IsDigit(s[0])
    ensures Component(s, unit) == (None, s)
  {
  }

  /** The text of the components from `unit` on, followed by `tail`, read for `letter`. */
  lemma ComponentOfPart(n: Option<nat>, unit: char, following: string, letter: char)
    requires unit == 'h' || unit == 'm' || unit == 's'
    ensures var part := (if n.Some? then ShowNat(n.value) + [unit] else "") + following;
      Component(part, letter) == if n.Some? && unit == letter then (Some(n.value), following)
                                 else if n.Some? then (None, part)
                                 else Component(following, letter)
  {
    if n.Some? {
      ComponentPresent(n.value, unit, letter, following);
    } else {
      assert "" + following == following;
    }
  }

  /** The parser reads back every duration text, also with trailing text that does not
      start with a digit: the result is `h + m/60 + s/3600`. */
  lemma ParseFormatted(h: Option<nat>, m: Option<nat>, s: Option<nat>, tail: string)
    requires tail == [] || !IsDigit(tail[0])
    ensures ParseDuration(FormatDuration(h, m, s) + tail)
            == h.GetOr(0) as real + m.GetOr(0) as real / 60.0 + s.GetOr(0) as real / 3600.0
  {
    var sPart := (if s.Some? then ShowNat(s.value) + "s" else "") + tail;
    var mPart := (if m.Some? then ShowNat(m.value) + "m" else "") + sPart;
    var hPart := (if h.Some? then ShowNat(h.value) + "h" else "") + mPart;
    assert FormatDuration(h, m, s) + tail == hPart;
    ComponentAbsent(tail, 's');
    ComponentAbsent(tail, 'm');
    ComponentAbsent(tail, 'h');
    ComponentOfPart(s, 's', tail, 's');
    ComponentOfPart(s, 's', tail, 'm');
    ComponentOfPart(s, 's', tail, 'h');
    ComponentOfPart(m, 'm', sPart, 'm');
    ComponentOfPart(m, 'm', sPart, 'h');
    ComponentOfPart(h, 'h', mPart, 'h');
  }

  lemma FormatExample()
    ensures FormatDuration(Some(2), Some(30), Some(15)) + "" == "2h30m15s"
  {
    assert ShowNat(30) == ShowNat(3) + [DigitChar(0)];
    assert ShowNat(15) == ShowNat(1) + [DigitChar(5)];
  }

  /** "2h30m15s" is two and a half hours and fifteen seconds. */
  lemma ParseDurationExample()
    ensures ParseDuration("2h30m15s") == 2.0 + 30.0 / 60.0 + 15.0 / 3600.0
  {
    FormatExample();
    ParseFormatted(Some(2), Some(30), Some(15), "");
  }

  /** "45m" is three quarters of an hour. */
  lemma ParseMinutesExample()
    ensures ParseDuration("45m") == 0.75
  {
    ParseFormatted(None, Some(45), None, "");
    assert ShowNat(45) == "45";
    assert FormatDuration(None, Some(45), None) + "" == "45m";
  }

  /** A text that does not start with a component gives 0 (the guarded `return 0` is never
      taken: the empty match is the fallback). */
  lemma NoComponentIsZero(duration: string)
    requires duration == [] || !IsDigit(duration[0])
    ensures ParseDuration(duration) == 0.0
  {
    ComponentAbsent(duration, 'h');
    ComponentAbsent(duration, 'm');
    ComponentAbsent(duration, 's');
  }

  // ---------------------------------------------------------------- the stream list

  /** A past broadcast as the videos endpoint lists it. */
  datatype Video = Video(id: string, title: string, createdAt: int, duration: string, viewCount: int,
                         url: string, thumbnailUrl: string)

  function VodRecord(v: Video): (s: TwitchStream)
    ensures s.id == v.id && s.title == v.title && s.date == v.createdAt && s.viewCount == v.viewCount
    ensures s.url == v.url && s.thumbnail == v.thumbnailUrl && s.streamType == Vod
    ensures s.duration == ParseDuration(v.duration)
  {
    TwitchStream(v.id, v.title, v.createdAt, ParseDuration(v.duration), v.viewCount, v.url, v.thumbnailUrl, Vod)
  }

  const MsPerHour := 60 * 60 * 1000

  /** The thumbnail template with its first `{width}` set to 320 and then its first
      `{height}` set to 180; a template without placeholders is kept as it is. */
  function SizedThumbnail(template: string): (r: string)
    ensures !Contains(template, "{width}") && !Contains(template, "{height}") ==> r == template
  {
    ReplaceFirst(ReplaceFirst(template, "{width}", "320"), "{height}", "180")
  }

  /** Twitch's `…{width}x{height}…` template becomes the same address with `320x180`. */
  lemma SizedThumbnailOf(p: string, q: string)
    requires forall k :: 0 <= k < |p| ==> p[k] != '{'
    ensures SizedThumbnail(p + "{width}x{height}" + q) == p + "320x180" + q
  {
    assert p + "{width}x{height}" + q == p + "{width}" + ("x{height}" + q);
    ReplaceFirstAt(p, "{width}", "320", "x{height}" + q);
    var p2 := p + "320x";
    assert p + "320" + ("x{height}" + q) == p2 + "{height}" + q;
    assert forall k :: 0 <= k < |p2| ==> p2[k] != '{' by {
      forall k | 0 <= k < |p2| ensures p2[k] != '{' {
        if k >= |p| { assert p2[k] == "320x"[k - |p|]; }
      }
    }
    ReplaceFirstAt(p2, "{height}", "180", q);
    assert p2 + "180" + q == p + "320x180" + q;
  }

  /** The running stream as a list entry: whole hours elapsed since it started (rounded
      down), the channel's URL and a 320x180 thumbnail. */
  function LiveRecord(c: TwitchCurrentStream, username: string, now: int): (s: TwitchStream)
    ensures s.id == "live" && s.title == c.title && s.date == c.startedAt && s.viewCount == c.viewerCount
    ensures s.url == "https://twitch.tv/" + username && s.streamType == Live
    ensures s.thumbnail == SizedThumbnail(c.thumbnailUrl)
  {
    var hours := ((now - c.startedAt) as real / MsPerHour as real).Floor;
    TwitchStream("live", c.title, c.startedAt, hours as real, c.viewerCount, "https://twitch.tv/" + username,
                 SizedThumbnail(c.thumbnailUrl), Live)
  }

  /** The running stream's duration is the whole number of hours elapsed since it started. */
  lemma LiveHours(c: TwitchCurrentStream, username: string, now: int)
    ensures var d := LiveRecord(c, username, now).duration;
      d.Floor as real == d
      && d * (MsPerHour as real) <= (now - c.startedAt) as real < (d + 1.0) * (MsPerHour as real)
  {
  }

  /** The VODs in their order, with the running stream put in front when there is one. */
  function StreamingActivity(videos: seq<Video>, live: Option<TwitchCurrentStream>, username: string, now: int): (r: seq<TwitchStream>)
    ensures |r| == |videos| + (if live.Some? then 1 else 0)
    ensures live.Some? ==> r[0] == LiveRecord(live.value, username, now)
    ensures var offset := if live.Some? then 1 else 0;
      forall i :: 0 <= i < |videos| ==> r[i + offset] == VodRecord(videos[i])
  {
    var vods := VodRecords(videos);
    if live.Some? then
      var r := [LiveRecord(live.value, username, now)] + vods;
      assert forall i :: 0 <= i < |videos| ==> r[i + 1] == vods[i];
      r
    else vods
  }

  /** One record per VOD, in order. */
  function VodRecords(videos: seq<Video>): (r: seq<TwitchStream>)
    ensures |r| == |videos| && forall i :: 0 <= i < |videos| ==> r[i] == VodRecord(videos[i])
  {
    seq(|videos|, i requires 0 <= i < |videos| => VodRecord(videos[i]))
  }

  /** At most the first entry is live, and every entry after it is a VOD. */
  lemma OnlyFirstIsLive(videos: seq<Video>, live: Option<TwitchCurrentStream>, username: string, now: int, i: nat)
    requires i < |StreamingActivity(videos, live, username, now)|
    ensures StreamingActivity(videos, live, username, now)[i].streamType == Live <==> i == 0 && live.Some?
  {
    var r := StreamingActivity(videos, live, username, now);
    if live.None? {
      assert r[i + 0] == VodRecord(videos[i]);
    } else if i == 0 {
      assert r[0] == LiveRecord(live.value, username, now);
    } else {
      assert r[(i - 1) + 1] == VodRecord(videos[i - 1]);
    }
  }

  /** What the four Twitch requests after the token return: each may fail (a non-OK status
      or a thrown error). */
  datatype TwitchUpstream = TwitchUpstream(
    userFound: bool,
    videos: Option<seq<Video>>,
    streams: Option<seq<TwitchCurrentStream>>,
    channels: Option<seq<TwitchChannel>>)

  predicate UpstreamOk(up: TwitchUpstream)
  {
    up.userFound && up.videos.Some? && up.streams.Some? && up.channels.Some?
  }

  /** The response of a successful fetch. */
  function Assemble(up: TwitchUpstream, username: string, now: int): (d: TwitchDataResponse)
    requires UpstreamOk(up)
    ensures d.isLive <==> up.streams.value != []
    ensures d.currentStream == (if d.isLive then Some(up.streams.value[0]) else None)
    ensures d.channel == (if up.channels.value != [] then Some(up.channels.value[0]) else None)
    ensures d.streamingActivity == Some(StreamingActivity(up.videos.value, d.currentStream, username, now))
    ensures d.totalStreams == |up.videos.value| && d.lastUpdated == now
    ensures d.fromCache == None && d.cacheExpired == None
  {
    var streams := up.streams.value;
    var isLive := |streams| > 0;
    var current := if isLive then Some(streams[0]) else None;
    var channel := if up.channels.value != [] then Some(up.channels.value[0]) else None;
    TwitchDataResponse(isLive, current, channel, Some(StreamingActivity(up.videos.value, current, username, now)),
                       |up.videos.value|, now, None, None)
  }

  /** `totalStreams` counts the VODs only: when live, the list holds one more entry. */
  lemma TotalCountsVods(up: TwitchUpstream, username: string, now: int)
    requires UpstreamOk(up)
    ensures var d := Assemble(up, username, now);
      |d.streamingActivity.value| == d.totalStreams + (if d.isLive then 1 else 0)
  {
  }

  // ---------------------------------------------------------------- token and cache

  /** The token endpoint's reply: failed, or a token valid for `expiresIn` seconds. */
  datatype TokenReply = TokenFailed | TokenGranted(accessToken: string, expiresIn: int)

  /** The token state after `getTwitchAccessToken`, and whether it produced a token. */
  datatype TokenState = TokenState(accessToken: Option<string>, tokenExpiry: int, obtained: bool)

  /** The kept token is reused while it is set and not expired; otherwise a new one is
      requested and kept until one minute before the expiry Twitch announces; a failed
      request leaves the state as it was. */
  function TokenStep(accessToken: Option<string>, tokenExpiry: int, now: int, reply: TokenReply): (t: TokenState)
    ensures Truthy(accessToken) && now < tokenExpiry ==> t == TokenState(accessToken, tokenExpiry, true)
    ensures !(Truthy(accessToken) && now < tokenExpiry) && reply.TokenFailed? ==> t == TokenState(accessToken, tokenExpiry, false)
    ensures !(Truthy(accessToken) && now < tokenExpiry) && reply.TokenGranted? ==>
      t.obtained && t.accessToken == Some(reply.accessToken) && t.tokenExpiry == now + reply.expiresIn * 1000 - 60000
  {
    if Truthy(accessToken) && now < tokenExpiry then TokenState(accessToken, tokenExpiry, true)
    else if reply.TokenFailed? then TokenState(accessToken, tokenExpiry, false)
    else TokenState(Some(reply.accessToken), now + reply.expiresIn * 1000 - 60000, true)
  }

  /** A token granted for `e` seconds is reused exactly during the first `e` seconds less a
      minute. */
  lemma TokenReusedUntilOneMinuteEarly(token: string, e: int, now: int, later: int, reply: TokenReply)
    requires token != ""
    ensures var t := TokenStep(None, 0, now, TokenGranted(token, e));
      TokenStep(t.accessToken, t.tokenExpiry, later, reply) == t.(obtained := true)
        <== later < now + e * 1000 - 60000
    ensures var t := TokenStep(None, 0, now, TokenGranted(token, e));
      later >= now + e * 1000 - 60000 && reply.TokenFailed? ==> !TokenStep(t.accessToken, t.tokenExpiry, later, reply).obtained
  {
  }

  datatype CacheEntry = CacheEntry(data: TwitchDataResponse, expiry: int)

  datatype TwitchResponse = NotConfigured | Data(data: TwitchDataResponse) | FetchFailed

  function Status(r: TwitchResponse): int
  {
    match r
    case NotConfigured => 503
    case Data(_) => 200
    case FetchFailed => 500
  }

  const CacheDuration := 5 * 60 * 1000
  const DefaultUser: string := "mrrustybutter"

  /** The route's module-level state: the access token and the cache by user name. */
  class TwitchRoute {
    var accessToken: Option<string>
    var tokenExpiry: int
    var cacheByUser: map<string, CacheEntry>

    constructor()
      ensures accessToken == None && tokenExpiry == 0 && cacheByUser == map[]
    {
      accessToken := None;
      tokenExpiry := 0;
      cacheByUser := map[];
    }

    predicate Hit(username: string, now: int)
      reads this
    {
      username in cacheByUser && now < cacheByUser[username].expiry
    }

    /** `getTwitchAccessToken`; `false` stands for the thrown error. */
    method GetAccessToken(now: int, reply: TokenReply) returns (obtained: bool)
      modifies this
      ensures var t := TokenStep(old(accessToken), old(tokenExpiry), now, reply);
        accessToken == t.accessToken && tokenExpiry == t.tokenExpiry && obtained == t.obtained
      ensures cacheByUser == old(cacheByUser)
    {
      if accessToken.Some? && accessToken.value != "" && now < tokenExpiry {
        return true;
      }
      match reply
      case TokenFailed =>
        return false;
      case TokenGranted(token, expiresIn) =>
        accessToken := Some(token);
        tokenExpiry := now + (expiresIn * 1000) - 60000;
        return true;
    }

    /** `GET`: 503 without credentials; the user's cached data while it is fresh; otherwise
        fetch, cache for five minutes under that user only, and answer; on failure the
        user's cached data marked stale, or 500. `configured` stands for the two
        credentials being set and `now` for the current time. */
    method Get(username: Option<string>, configured: bool, now: int, reply: TokenReply, up: TwitchUpstream)
      returns (resp: TwitchResponse)
      modifies this
      ensures var user := OrString(username, DefaultUser);
        if !configured then
          resp == NotConfigured && Status(resp) == 503 && unchanged(this)
        else if old(Hit(user, now)) then
          resp == Data(old(cacheByUser)[user].data) && unchanged(this)
        else
          var t := TokenStep(old(accessToken), old(tokenExpiry), now, reply);
          accessToken == t.accessToken && tokenExpiry == t.tokenExpiry
          && if t.obtained && UpstreamOk(up) then
               var d := Assemble(up, user, now);
               resp == Data(d) && cacheByUser == old(cacheByUser)[user := CacheEntry(d, now + CacheDuration)]
               && (forall later :: now <= later < now + CacheDuration ==> Hit(user, later))
             else
               cacheByUser == old(cacheByUser)
               && resp == (if user in old(cacheByUser)
                           then Data(old(cacheByUser)[user].data.(fromCache := Some(true), cacheExpired := Some(true)))
                           else FetchFailed)
    {
      var user := OrString(username, DefaultUser);
      if !configured {
        return NotConfigured;
      }
      if user in cacheByUser && now < cacheByUser[user].expiry {
        return Data(cacheByUser[user].data);
      }
      var obtained := GetAccessToken(now, reply);
      if obtained && UpstreamOk(up) {
        var responseData := Assemble(up, user, now);
        cacheByUser := cacheByUser[user := CacheEntry(responseData, now + CacheDuration)];
        resp := Data(responseData);
      } else if user in cacheByUser {
        resp := Data(cacheByUser[user].data.(fromCache := Some(true), cacheExpired := Some(true)));
      } else {
        resp := FetchFailed;
      }
    }
  }
}
