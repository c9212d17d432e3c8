/** The streaming heat-map adapter: one event per stream, intensity by duration, the
    payload handed to the click handler and the subtitle. */
module StreamingActivityGraph {
  import opened Base
  import opened Strings
  import opened Types
  import opened ActivityGraph

  /** Heat-map intensity for a stream of `hours`: eight hours or more is full intensity. */
  function StreamIntensity(hours: real): (r: real)
    ensures r <= 1.0
    ensures hours >= 8.0 ==> r == 1.0
    ensures hours <= 8.0 ==> r * 8.0 == hours
  {
    MinReal(hours / 8.0, 1.0)
  }

  /** The events of the graph: none without data or without a stream list, otherwise one
      per stream, on its date, carrying the whole stream. */
  function StreamEvents(twitchData: Option<TwitchDataResponse>): (r: seq<Event<TwitchStream>>)
    ensures twitchData.None? || twitchData.value.streamingActivity.None? ==> r == []
    ensures twitchData.Some? && twitchData.value.streamingActivity.Some? ==>
      var streams := twitchData.value.streamingActivity.value;
      |r| == |streams|
      && forall i :: 0 <= i < |streams| ==>
           r[i].date == streams[i].date && r[i].intensity == StreamIntensity(streams[i].duration)
           && r[i].data == Some(streams[i])
  {
    match twitchData
    case None => []
    case Some(d) =>
      match d.streamingActivity
      case None => []
      case Some(streams) =>
        seq(|streams|, i requires 0 <= i < |streams| =>
          Event(streams[i].date, StreamIntensity(streams[i].duration), Some(streams[i])))
  }

  /** JavaScript `Math.round`: the nearest integer, halves rounded up. */
  function Round(x: real): (r: int)
    ensures r as real - 0.5 <= x < r as real + 0.5
  {
    (x + 0.5).Floor
  }

  /** What the click handler receives: every stream field (the spread), with `duration`
      rounded and `viewers` copied from `viewCount`. The locale date text is not modelled:
      `date` stays the stream's timestamp. */
  datatype StreamClickData = StreamClickData(
    id: string, title: string, date: int, duration: int, viewCount: int, viewers: int,
    url: string, thumbnail: string, streamType: StreamType)

  function HandleDotClick(s: TwitchStream): (c: StreamClickData)
    ensures c.id == s.id && c.title == s.title && c.date == s.date && c.viewCount == s.viewCount
    ensures c.url == s.url && c.thumbnail == s.thumbnail && c.streamType == s.streamType
    ensures c.viewers == s.viewCount
    ensures c.duration as real - 0.5 <= s.duration < c.duration as real + 0.5
  {
    StreamClickData(s.id, s.title, s.date, Round(s.duration), s.viewCount, s.viewCount,
                    s.url, s.thumbnail, s.streamType)
  }

  /** A click on a cell of the streaming graph hands the reshaped stream of that cell to
      the handler; a cell without a stream hands nothing. */
  lemma ClickDeliversStream(c: Cell<TwitchStream>)
    ensures Click(c, true).Some? <==> c.data.Some?
    ensures c.data.Some? ==> HandleDotClick(Click(c, true).value).viewers == c.data.value.viewCount
  {
  }

  /** `${twitchData?.totalStreams || 0} streams` */
  function Subtitle(twitchData: Option<TwitchDataResponse>): (r: string)
    ensures twitchData.None? ==> r == "0 streams"
  {
    var n := if twitchData.Some? then twitchData.value.totalStreams else 0;
    ShowInt(n) + " streams"
  }

  /** The subtitle reads back as the stream count. */
  lemma SubtitleCount(twitchData: Option<TwitchDataResponse>)
    ensures ParseInt(Subtitle(twitchData)) == Some(if twitchData.Some? then twitchData.value.totalStreams else 0)
  {
    var n := if twitchData.Some? then twitchData.value.totalStreams else 0;
    ParseIntShowIntThen(n, " streams");
  }

  /** The tooltip shows the LIVE marker only for the running stream. */
  predicate ShowsLiveMarker(s: TwitchStream)
  {
    s.streamType == Live
  }
}
