# Rusty Butter website: a Dafny model of its data and activity-graph core

The Rusty Butter website is a Next.js personal site. It shows:

- a home page with a joke terminal and a list of GitHub repository cards;
- a calendar heat map ("activity graph") for the commits of one repository and for the
  owner's Twitch streams;
- a few API routes that call GitHub and Twitch and reshape their answers;
- small Node scripts that write or rewrite the bundled repository snapshot.

This project models the rules inside that code, as values and state transitions, and
proves what each rule promises:

- **The heat map** (`ActivityGraph`): the width-to-week-count policy; the grid of
  `weekCount` weeks of seven day cells starting on a Sunday; the by-date event index in
  which the last event wins; the month labels (at most one per month, columns strictly
  increasing); the five shading levels; the click and tooltip gating.
  - Dates are integer day numbers.
  - `Calendar` supplies the civil year, month, day and weekday.
- **The two adapters**:
  - `RepoActivityGraph` turns commit weeks into events of intensity `min(c/10, 1)`.
  - `StreamingActivityGraph` turns stream records into events of intensity `min(h/8, 1)`
    and reshapes the click payload.
- **The home page** (`HomePage`): this is a class whose methods change the page state.
  - command dispatch (the first matching case wins), the echo line and the 50-line history;
  - the toggle set of expanded cards and its lazy-fetch rule;
  - the replace-by-name update of both repository lists;
  - the guarded next-page append;
  - the Twitch video-id scanner;
  - the four-card preview.
- **The API routes**:
  - `AuthCallback`: the OAuth callback decision table.
  - `RepoActivityRoute`: validation, the rate gate and the week transform.
  - `GitHubDataRoute`: the rate gate, the ranking, the first-three activity rule and the
    fixed pagination.
  - `GitHubReposRoute`: the query defaults, the cache key of the single-slot cache (a
    class), the `Link` header's last page, the primary-language argmax and the field
    defaults.
  - `TwitchStreamsRoute`: the duration parser, the per-user cache, the access token
    refreshed one minute early (a class) and the VOD/live list.
- **The shared rules**:
  - `Ranking`: drop forks and repositories below a star threshold, sort by stars and then
    last update, keep the first few.
  - `Commits`: default each week's days and total.
  - `RateLimit`: the rate-limit gate.
  - `DataMappers`: fill defaults into repository records.
  - `GitHubDataLib`: the static loader.
- **The scripts**:
  - `FetchLiveScript`: the `.env` line parser and the live snapshot.
  - `GenerateScript`: the generated snapshot with its fixed two-week stand-in.
  - `ManualScript` and `AccurateScript`: the two fake-activity generators.
    - Their `Math.random` draws are an oracle sequence (`Oracle`).
    - This makes their shape provable: 52 weeks of 7 days, each total the sum of its days,
      bounds per day, and timestamps decreasing along the array.

Upstream replies (GitHub, Twitch), the current time and the environment are inputs to the
operations. Responses are datatypes.

## Model

| member | source | states |
|---|---|---|
| ActivityGraph.TargetWeeks | src/components/ActivityGraph.tsx:44-52 | the target is always one of 12, 26, 39 or 52 weeks |
| ActivityGraph.WeekCount | src/components/ActivityGraph.tsx:31-55 | the count never exceeds the target (so at most 52) and fits the usable width `width − 44` at 12 px per week; it is the largest such count, or the target itself |
| ActivityGraph.WeekCountMonotone | src/components/ActivityGraph.tsx:44-55 | for a fixed `compact`, a wider container never gives fewer weeks |
| ActivityGraph.WeekCountNoLowerClamp | src/components/ActivityGraph.tsx:28-55 | Counterexample (one input): there is no lower clamp: width 0 gives −4 weeks; at 1200 px a full graph shows 52 weeks and a compact one 12 |
| ActivityGraph.IndexEvents | src/components/ActivityGraph.tsx:74-78 | the loop that fills the date map produces exactly the by-date index of the events |
| ActivityGraph.IndexByDateLastWins | src/components/ActivityGraph.tsx:74-78 | a date is in the index iff some event falls on it, and it maps to the last event on that date |
| ActivityGraph.IndexByDateHas | src/components/ActivityGraph.tsx:74-78 | every event's date is a key of the index |
| ActivityGraph.IndexByDateSource | src/components/ActivityGraph.tsx:74-78 | each indexed event is an input event on that date, and no later event has the same date |
| ActivityGraph.WeekCells | src/components/ActivityGraph.tsx:88-114 | a week column has 7 cells, cell d being the cell of day `start + 7w + d` |
| ActivityGraph.VisitDay | src/components/ActivityGraph.tsx:89-113 | one visit of the inner loop yields the cell of its day and extends the month map by at most that day's entry |
| ActivityGraph.BuildWeek | src/components/ActivityGraph.tsx:86-117 | the inner loop yields the 7 cells of the week and the month map after the week's last day |
| ActivityGraph.BuildGrid | src/components/ActivityGraph.tsx:68-127 | the grid has `max(weekCount, 0)` weeks of 7 cells; cell (w, d) is day `startDate + 7w + d`, filled from the last event on that date; the labels are those of the month map in insertion order |
| ActivityGraph.MonthEntriesNext | src/components/ActivityGraph.tsx:95-106 | a month entry is added exactly when its month is new to the map, differs from the month 7 days earlier and the day is not after today |
| ActivityGraph.StartDate | src/components/ActivityGraph.tsx:81-82 | the first cell of the grid is a Sunday, at most six days before the day `weekCount` weeks before today |
| ActivityGraph.CellsBeforeToday | src/components/ActivityGraph.tsx:81-90 | every cell date is at most the Saturday before today's week, so it is strictly before today |
| ActivityGraph.CellFromLastEvent | src/components/ActivityGraph.tsx:92-113 | a cell takes intensity and payload from the last event on its date; with no event on that date they are 0 and null; it is in the future iff its date is after today |
| ActivityGraph.GridCellsNotInFuture | src/components/ActivityGraph.tsx:81-112 | no grid cell is ever marked as in the future |
| ActivityGraph.MonthEntriesFacts | src/components/ActivityGraph.tsx:95-106 | every month entry is in the first week of its month and not after today, its column is that of its day, the map never holds a month twice, and entries come in increasing date order |
| ActivityGraph.MonthEntriesComplete | src/components/ActivityGraph.tsx:95-106 | every visited day in the first seven days of a month, and not after today, has its month in the map |
| ActivityGraph.MonthLabelsOrdered | src/components/ActivityGraph.tsx:95-124 | the labels' week indices are within `0 ≤ weekIndex < weekCount` and strictly increase along the label list |
| ActivityGraph.Labels | src/components/ActivityGraph.tsx:120-124 | one label per month entry, in the same order |
| ActivityGraph.ColorLevel | src/components/ActivityGraph.tsx:196-207 | the colour level is 0 to 4, the step function of intensity with thresholds 0, 0.25, 0.5 and 0.75 (each strict) |
| ActivityGraph.ColorLevelMonotone | src/components/ActivityGraph.tsx:196-207 | a higher intensity never gets a lighter shade |
| ActivityGraph.DotStyleOf | src/components/ActivityGraph.tsx:193-195 | a dot is hidden exactly when it is in the future, and has the pointer cursor exactly when it is visible, has data and a click handler was given |
| ActivityGraph.Click | src/components/ActivityGraph.tsx:209 | a click delivers the cell's payload exactly when the cell has data and a handler was given |
| ActivityGraph.LabelLeft | src/components/ActivityGraph.tsx:156 | a label sits 12 px per week from the left edge |
| ActivityGraph.GridInteraction | src/components/ActivityGraph.tsx:193-213 | on a grid cell the dot is never hidden, it is clickable iff it has data and a handler, and its tooltip shows iff tooltips are on, content is given and it has data |
| Calendar.DaysInMonth | src/components/ActivityGraph.tsx:89-90 | a month has 28 to 31 days (Gregorian leap rule) |
| Calendar.NextPrev | src/components/ActivityGraph.tsx:89-90 | the next-day and previous-day steps keep dates valid and undo each other |
| Calendar.CivilValid | src/components/ActivityGraph.tsx:89-90 | every day number has a valid civil date |
| Calendar.CivilStep | src/components/ActivityGraph.tsx:89-90 | the civil date of day n + 1 is the day after that of day n |
| Calendar.DayOfWeek | src/components/ActivityGraph.tsx:82 | the weekday is 0 (Sunday) to 6 (Saturday) |
| Calendar.BackWithinMonth | src/components/ActivityGraph.tsx:97-99 | going back fewer days than the day of the month stays in the same month |
| Calendar.LastDayOfPreviousMonth | src/components/ActivityGraph.tsx:97-99 | going back by the day of the month lands in the previous month, on its last day (28 or later) |
| Calendar.MonthChangeWithinWeek | src/components/ActivityGraph.tsx:96-101 | a day's month differs from that of the day 7 days earlier iff it is among the first seven days of its month |
| Calendar.OneMonthStartPerWeek | src/components/ActivityGraph.tsx:96-101 | two days less than a week apart that are both in the first seven days of their months are in the same month |
| Calendar.DayOfTimestamp | src/components/ActivityGraph.tsx:76-92 | a millisecond timestamp falls within its day |
| Calendar.SundayExample | src/components/ActivityGraph.tsx:82 | Example (one input): 7 January 2024 (day 19729) is a Sunday |
| RepoActivityGraph.CommitIntensity | src/components/RepoActivityGraph.tsx:32 | a positive count has an intensity in (0, 1]; 10 or more commits give 1; up to 10 the intensity is a tenth of the count |
| RepoActivityGraph.CommitIntensityExamples | src/components/RepoActivityGraph.tsx:32 | Example (one input): 5 commits give 0.5, 10 give 1 and 20 give 1 |
| RepoActivityGraph.BuildCommitEvents | src/components/RepoActivityGraph.tsx:19-40 | the nested loops produce exactly the event list of the weeks |
| RepoActivityGraph.CommitEventsMembers | src/components/RepoActivityGraph.tsx:22-36 | an event is emitted iff it is the event of a day entry with a positive count; zero days are omitted |
| RepoActivityGraph.CommitEventSource | src/components/RepoActivityGraph.tsx:22-36 | every event comes from a week and a day with a positive count |
| RepoActivityGraph.DayEventIncluded | src/components/RepoActivityGraph.tsx:22-36 | every day with a positive count yields its event |
| RepoActivityGraph.DayEventFacts | src/components/RepoActivityGraph.tsx:26-34 | a day's event carries that day's count as payload and an intensity in (0, 1] |
| RepoActivityGraph.CommitEventsPositive | src/components/RepoActivityGraph.tsx:29-35 | every emitted event has a positive count in its payload and an intensity in (0, 1] that is `min(commits/10, 1)` |
| RepoActivityGraph.WeekEventsMembers | src/components/RepoActivityGraph.tsx:24-36 | a week contributes exactly the events of its positive days |
| RepoActivityGraph.WeekEventsOrdered | src/components/RepoActivityGraph.tsx:23-27 | within a week, events come in day order, dated `week·1000` ms plus the day index in days |
| RepoActivityGraph.WeekEventsCount | src/components/RepoActivityGraph.tsx:24-36 | a week contributes as many events as it has positive days |
| RepoActivityGraph.CommitEventsAppend | src/components/RepoActivityGraph.tsx:22-25 | events come out week after week: the events of a concatenation are the concatenated events |
| RepoActivityGraph.TotalFromWeekTotals | src/components/RepoActivityGraph.tsx:42-57 | Counterexample (one input): the subtitle total is the sum of the weekly totals, not of the days (a week with days 3 and 5 and total 2 counts 2) |
| RepoActivityGraph.WorkedExample | src/components/RepoActivityGraph.tsx:22-36 | Example (one input): the week of 7 January 2024 with 3 commits on Monday and 5 on Thursday gives two events on those days, with intensities 0.3 and 0.5 |
| RepoActivityGraph.Subtitle | src/components/RepoActivityGraph.tsx:42-57 | the subtitle's number, read back with `parseInt`, is the sum of the weekly totals |
| RepoActivityGraph.NeverClickable | src/components/RepoActivityGraph.tsx:51-58 | no click handler is passed, so no cell is clickable or shows the pointer |
| StreamingActivityGraph.StreamIntensity | src/components/StreamingActivityGraph.tsx:62 | the intensity is at most 1, is 1 from 8 hours on, and is an eighth of the hours below that |
| StreamingActivityGraph.StreamEvents | src/components/StreamingActivityGraph.tsx:58-65 | no data or no activity gives no events; otherwise there is one event per stream, in order, with the stream's date, the intensity of its hours and the whole record as payload |
| StreamingActivityGraph.Round | src/components/StreamingActivityGraph.tsx:71 | `Math.round` gives the integer within half a unit (halves round up) |
| StreamingActivityGraph.HandleDotClick | src/components/StreamingActivityGraph.tsx:67-74 | the click payload keeps every other stream field, with the duration rounded and `viewers` equal to the view count |
| StreamingActivityGraph.ClickDeliversStream | src/components/StreamingActivityGraph.tsx:67-92 | with the handler given, a cell click reaches the handler iff the cell has a stream, and the viewers are its view count |
| StreamingActivityGraph.Subtitle | src/components/StreamingActivityGraph.tsx:96 | without data the subtitle reads "0 streams" |
| StreamingActivityGraph.SubtitleCount | src/components/StreamingActivityGraph.tsx:96 | the subtitle's number is the stream total, or 0 without data |
| HomePage.Classify | src/app/page.tsx:134-362 | the first matching case wins: every command starting with `sudo` is the sudo case; `echo $PATH` is chosen only for that exact text; the second `stream` case is never chosen, because an earlier case takes "stream"; an unknown command starts with neither `stream embed` nor `stream activity` |
| HomePage.EchoPathUnreachable | src/app/page.tsx:71-313 | a lowercased command never equals `echo $PATH`, so that case can never match |
| HomePage.Normalize | src/app/page.tsx:71 | the dispatched command (lowercased, then trimmed) contains no upper-case letter and neither starts nor ends with whitespace |
| HomePage.BlankInput | src/app/page.tsx:68-71 | a trimmed-empty input is exactly one whose dispatched command is empty |
| HomePage.ThirdWordOf | src/app/page.tsx:330-331 | `stream embed <user>` and `stream activity <user>` name the third space-separated word; with no third word, or an empty one, they name `mrrustybutter` |
| HomePage.UnknownCommand | src/app/page.tsx:374-382 | an unmatched command gets "Nice try" if it contains `rm -rf`, otherwise `bash: <input>: command not found` and the help hint |
| HomePage.UnknownPrintsUnlessEmpty | src/app/page.tsx:374-382 | an unmatched command prints no line exactly when the command is empty |
| HomePage.Output | src/app/page.tsx:70 | a command's output starts with the echo line `$ ` followed by the raw input |
| HomePage.HistoryAfter | src/app/page.tsx:385 | the new history never exceeds 50 lines |
| HomePage.HistoryAfterEnds | src/app/page.tsx:70-385 | the new history keeps `min(old + output, 50)` lines, and when the output fits, it ends with the whole output after the newest old lines |
| HomePage.StepShowsOutput | src/app/page.tsx:154-386 | after any command but `clear` the input line is empty and the history ends with the whole output when that fits; only `stream activity` skips the 50-line cap |
| HomePage.Step | src/app/page.tsx:154-386 | `clear` empties the history and keeps the input line; every other command empties the input line; only `stream embed` changes the embedded channel, to the one named; the asmongold mode flips exactly on `asmongold` |
| HomePage.AsmongoldTwice | src/app/page.tsx:290-298 | `asmongold` flips the mode, and a second one restores it |
| HomePage.ClassifyStreamEmbed | src/app/page.tsx:329 | `stream embed <anything>` selects the embed case |
| HomePage.ClassifyEmbedPrefix | src/app/page.tsx:329 | every command beginning with `stream embed`, the bare `stream embed` included, selects the embed case |
| HomePage.StreamEmbedNames | src/app/page.tsx:71-334 | an input that reads `stream embed` or `stream embed <user>` once lowercased and trimmed is dispatched to the embed case; it embeds `<user>`, or `mrrustybutter` for the bare command or an empty user |
| HomePage.Home.constructor | src/app/page.tsx:42-62 | the initial page: the greeting history, an empty input, no embed, mode off, no expanded card, and the bundled snapshot as data and as the full list |
| HomePage.Home.HandleTerminalSubmit | src/app/page.tsx:66-398 | the terminal moves as the submit function says (blank input changes nothing), and nothing else in the page changes |
| HomePage.Home.RunCommand | src/app/page.tsx:74-386 | a non-blank submit: `clear` empties the history and keeps the input; `stream activity` appends uncapped; any other case keeps the last 50 lines and clears the input |
| HomePage.Home.PrintOutput | src/app/page.tsx:290-386 | a printing case toggles the mode or embeds the channel, keeps the last 50 lines and clears the input |
| HomePage.Home.ToggleRepoExpansion | src/app/page.tsx:461-484 | the name leaves the set if present and joins it otherwise; a fetch starts only on joining, and only if the card found has no statistics; nothing else changes |
| HomePage.EmptyActivityIsKept | src/app/page.tsx:472-475 | an empty list of weeks counts as statistics (an array is truthy), so such a card is not fetched again |
| HomePage.UpdateRepoWithActivity | src/app/page.tsx:500-510 | the list keeps its length and order; exactly the repositories with the matching name get the new statistics |
| HomePage.UpdateRepoFacts | src/app/page.tsx:500-510 | the update is idempotent, never renames a card, and the matching card ends with the given statistics |
| HomePage.FindByName | src/app/page.tsx:472-473 | `find` returns the FIRST list member with that name, or nothing when no member has it |
| HomePage.Home.FoundRepo | src/app/page.tsx:472-473 | the repository found carries the name; the data's match is taken whenever there is one; nothing is found only when neither list has that name |
| HomePage.ActivityOfReply | src/app/page.tsx:494-516 | the page applies the reply only when it is OK (status 200), taking its weeks or null |
| HomePage.Home.ApplyRepoActivity | src/app/page.tsx:494-527 | an OK reply updates both lists under the repository's name; any other reply changes nothing; the terminal and the card set stay as they were |
| HomePage.Home.LoadMoreRepos | src/app/page.tsx:543-564 | a no-op unless there is data announcing more pages and no load is running; otherwise it requests page (or 1) + 1, appends an OK answer's repositories to both lists, and clears the loading flag |
| HomePage.NextPage | src/app/page.tsx:548 | the page requested is after the current one: the next page, or page 2 when the current one is 0 |
| HomePage.VideoIdLeftmost | src/app/page.tsx:455-458 | the scanner returns the leftmost `twitch.tv/videos/<digits>` match, or nothing when there is none |
| HomePage.VideoIdOf | src/app/page.tsx:455-458 | for a URL containing `twitch.tv/videos/<digits>` as its first match, the id is the full digit run |
| HomePage.ExtractVideoId | src/app/page.tsx:455-458 | an id found is a non-empty run of decimal digits |
| HomePage.VisibleRepos | src/app/page.tsx:885 | the full list when every card is shown, otherwise the first four cards of the data, in order |
| TwitchStreamsRoute.ParseDuration | src/app/api/twitch/streams/route.ts:219-228 | a parsed duration is never negative |
| TwitchStreamsRoute.ParseFormatted | src/app/api/twitch/streams/route.ts:219-228 | optional `<h>h`, `<m>m` and `<s>s` parts read from the start give `h + m/60 + s/3600`, with a missing part counting 0 and any non-digit tail ignored |
| TwitchStreamsRoute.ParseDurationExample | src/app/api/twitch/streams/route.ts:218-228 | Example (one input): "2h30m15s" is 2 + 30/60 + 15/3600 hours |
| TwitchStreamsRoute.ParseMinutesExample | src/app/api/twitch/streams/route.ts:219-228 | Example (one input): "45m" is 0.75 hours |
| TwitchStreamsRoute.FormatExample | src/app/api/twitch/streams/route.ts:218 | Example (one input): the formatter of durations writes 2 h 30 min 15 s as "2h30m15s" |
| TwitchStreamsRoute.NoComponentIsZero | src/app/api/twitch/streams/route.ts:220-227 | the all-optional pattern matches anyway: input without a leading `<digits>h/m/s` gives 0 |
| TwitchStreamsRoute.VodRecord | src/app/api/twitch/streams/route.ts:147-157 | a VOD becomes a `'vod'` record with its id, title, creation date, views, URL, thumbnail and parsed duration |
| TwitchStreamsRoute.LiveRecord | src/app/api/twitch/streams/route.ts:166-179 | the live stream becomes a `'live'` record with id `live`, its title, start date, viewer count, the channel URL and the thumbnail template sized to 320x180 |
| TwitchStreamsRoute.SizedThumbnail | src/app/api/twitch/streams/route.ts:176 | a template without `{width}` or `{height}` is kept as it is |
| TwitchStreamsRoute.SizedThumbnailOf | src/app/api/twitch/streams/route.ts:176 | Twitch's `…{width}x{height}…` template becomes the same address with `320x180` in place of the placeholders |
| TwitchStreamsRoute.LiveHours | src/app/api/twitch/streams/route.ts:173 | the live duration is the whole number of hours elapsed since the start |
| TwitchStreamsRoute.VodRecords | src/app/api/twitch/streams/route.ts:147-157 | one record per VOD, in order |
| TwitchStreamsRoute.StreamingActivity | src/app/api/twitch/streams/route.ts:147-179 | the VOD records in order, with the live record put in front at index 0 when live |
| TwitchStreamsRoute.OnlyFirstIsLive | src/app/api/twitch/streams/route.ts:166-179 | a record is of type live iff it is the first one and the channel is live |
| TwitchStreamsRoute.Assemble | src/app/api/twitch/streams/route.ts:127-189 | the response is live iff a current stream exists; it holds that stream, the first channel, the activity list, the VOD count as `totalStreams` and now as `lastUpdated` |
| TwitchStreamsRoute.TotalCountsVods | src/app/api/twitch/streams/route.ts:187 | `totalStreams` counts the VODs only: the activity list has one record more when live |
| TwitchStreamsRoute.TokenStep | src/app/api/twitch/streams/route.ts:20-50 | a set token is reused while now is before its expiry; otherwise a granted token replaces it with expiry `now + expires_in·1000 − 60000`, and a failure keeps the old state without a token |
| TwitchStreamsRoute.TokenReusedUntilOneMinuteEarly | src/app/api/twitch/streams/route.ts:21-44 | a fresh token is reused up to one minute before its stated lifetime ends, and from then on a failed refresh yields no token |
| TwitchStreamsRoute.TwitchRoute.constructor | src/app/api/twitch/streams/route.ts:13-18 | the module starts with no token, expiry 0 and an empty per-user cache |
| TwitchStreamsRoute.TwitchRoute.GetAccessToken | src/app/api/twitch/streams/route.ts:20-50 | the token state moves as the token rule says; the stream cache is untouched |
| TwitchStreamsRoute.TwitchRoute.Get | src/app/api/twitch/streams/route.ts:68-216 | missing credentials give 503 before any cache lookup; a live entry for the user (now before its expiry) is served unchanged; a fresh result is cached for that user only, for 5 minutes; on failure the user's stale entry is served flagged as from cache and expired, otherwise 500 |
| GitHubReposRoute.ParseQuery | src/app/api/github/repos/route.ts:55-58 | page, per-page and sort fall back to "1", "20" and `updated` when absent or empty, and details load only for exactly `true` |
| GitHubReposRoute.QueryDefaults | src/app/api/github/repos/route.ts:55-58 | an empty query means page 1, 20 per page, sort `updated`, no details |
| GitHubReposRoute.ParseOne | src/app/api/github/repos/route.ts:55 | Example (one input): the default page "1" parses to 1 |
| GitHubReposRoute.ParseTwenty | src/app/api/github/repos/route.ts:56 | Example (one input): the default page size "20" parses to 20 |
| GitHubReposRoute.DefaultCacheKey | src/app/api/github/repos/route.ts:61 | Example (one input): the default query's cache key is `updated-1-20-false` |
| GitHubReposRoute.CacheKeyDetails | src/app/api/github/repos/route.ts:61 | the key ends in `-true` or `-false` as details are loaded or not |
| GitHubReposRoute.CacheKey | src/app/api/github/repos/route.ts:61 | the key starts with the sort, followed by a dash |
| GitHubReposRoute.CacheKeyParts | src/app/api/github/repos/route.ts:61 | when the sort has no dash and no page or page size is negative, the key splits at its dashes into exactly sort, page, page size and details |
| GitHubReposRoute.CacheKeyInjective | src/app/api/github/repos/route.ts:61 | under the same conditions two queries share a cache slot if and only if they are the same query |
| GitHubReposRoute.CacheKeyCollision | src/app/api/github/repos/route.ts:61 | Counterexample (one input): the dash-joined key is not injective: sort `x` with page −1 and sort `x-` with page 1 share a key |
| GitHubReposRoute.FirstMatchLeftmost | src/app/api/github/repos/route.ts:90-92 | the scanner finds the number of the leftmost `page=N>; rel="last"` occurrence |
| GitHubReposRoute.MatchAtDigits | src/app/api/github/repos/route.ts:90-92 | at a `page=<digits>>; rel="last"` occurrence the match is the value of the digits |
| GitHubReposRoute.MatchAtLast | src/app/api/github/repos/route.ts:90-92 | a `page=N>; rel="last"` occurrence written from N reads back as N |
| GitHubReposRoute.TotalPagesOfLink | src/app/api/github/repos/route.ts:88-95 | a `Link` header whose first last-page occurrence names N gives N pages |
| GitHubReposRoute.TotalPages | src/app/api/github/repos/route.ts:88-95 | with no header, or no last-page occurrence in it, there is 1 page; otherwise the number of the first occurrence |
| GitHubReposRoute.ReduceLanguagesInvariant | src/app/api/github/repos/route.ts:148-151 | after each step of the reduce, the leader is a key whose count is maximal so far, with later keys winning ties |
| GitHubReposRoute.ReduceLanguages | src/app/api/github/repos/route.ts:148-151 | at every step the leader is the starting language or one of the keys visited so far |
| GitHubReposRoute.PrimaryLanguage | src/app/api/github/repos/route.ts:148-151 | the primary language is the repository's own language (or `Unknown`) or a key of the language object |
| GitHubReposRoute.PrimaryLanguageIsLastMax | src/app/api/github/repos/route.ts:148-151 | with no language data it is the repository's language or `Unknown`; otherwise a key of maximal count, none after it as large and none before it larger |
| GitHubReposRoute.PrimaryLanguageExamples | src/app/api/github/repos/route.ts:148-151 | Example (one input): Rust 10 against Shell 2 gives Rust; a tie between CSS and HTML gives the later HTML; no data and an empty language give Unknown |
| GitHubReposRoute.RepoColor | src/app/api/github/repos/route.ts:38-160 | a known language gets its table colour, any other `#858585` |
| GitHubReposRoute.RepoRecord | src/app/api/github/repos/route.ts:153-171 | the record copies the repository's fields, with description default "No description provided", the primary language and its colour, the push date as last update, and the given languages and weeks |
| GitHubReposRoute.ProcessRepo | src/app/api/github/repos/route.ts:98-176 | a fork, or a repository whose detail requests throw, gives no record; without details the languages and weeks are empty; with details they come from the replies, empty when a reply is not OK |
| GitHubReposRoute.ValidReposSound | src/app/api/github/repos/route.ts:98-178 | every kept record is the record of some listed repository |
| GitHubReposRoute.ValidRepos | src/app/api/github/repos/route.ts:98-178 | the kept list is never longer than the listed one; without details and without forks nothing is dropped |
| GitHubReposRoute.ValidReposComplete | src/app/api/github/repos/route.ts:98-178 | every repository that yields a record is kept |
| GitHubReposRoute.ValidReposMembers | src/app/api/github/repos/route.ts:98-178 | a record is in the result iff some listed repository yields it |
| GitHubReposRoute.WithoutDetails | src/app/api/github/repos/route.ts:101-178 | without details the result is the bare record of every non-fork, in the listed order |
| GitHubReposRoute.Paginate | src/app/api/github/repos/route.ts:210-215 | the pagination echoes page and page size and has `hasMore` iff page is below the total pages |
| GitHubReposRoute.FreshBody | src/app/api/github/repos/route.ts:66-222 | a failed list or a thrown user request gives no body; otherwise the kept records, the user if OK, the pagination, now and the cache key |
| GitHubReposRoute.RepoCache.constructor | src/app/api/github/repos/route.ts:11-13 | the module starts with an empty slot and expiry 0 |
| GitHubReposRoute.RepoCache.Get | src/app/api/github/repos/route.ts:53-241 | a request is served from the slot iff the keys are equal and now is before expiry; a fresh result overwrites the slot for 10 minutes; on failure a held slot is served flagged as from cache and expired, otherwise 500 |
| RepoActivityRoute.Get | src/app/api/github-repo-activity/route.ts:26-93 | no repository name gives 400; low rate gives 429; a failed request gives 500; an empty or non-array reply gives null activity; otherwise the transformed weeks with the sum of their totals |
| RepoActivityRoute.StatusTable | src/app/api/github-repo-activity/route.ts:26-93 | the status is 400, 429, 500 or 200 exactly under the conditions of the decision table |
| RateLimit.FailedCheckIgnored | src/app/api/github-repo-activity/route.ts:41-55 | a rate check that fails never blocks the request |
| Commits.TransformWeeks | src/app/api/github-repo-activity/route.ts:70-74 | one week per input week, in order; each keeps its timestamp, and its days and total default to seven zeros and 0 |
| Commits.TransformWeeksAppend | src/app/api/github-repo-activity/route.ts:70-74 | the transform works week by week: it commutes with concatenation |
| Commits.TransformedTotal | src/app/api/github-repo-activity/route.ts:76 | the total of the transformed weeks is the sum of the reply's totals, a missing one counting 0 |
| Commits.WeeksTotalAppend | src/app/api/github-repo-activity/route.ts:76 | the weekly-total sum is additive over concatenation |
| Commits.WeeksTotalNonNegative | src/app/api/github-repo-activity/route.ts:76 | weeks with non-negative totals have a non-negative sum |
| Commits.ActivityOrNull | src/app/api/github-data/route.ts:26-52 | null exactly for a failed request or a reply that is not an array or is empty; otherwise the transformed weeks, never empty |
| GitHubDataRoute.ProcessRepos | src/app/api/github-data/route.ts:95-111 | the loop output has the filtered list's length and order, each entry processed by the first-three rule |
| GitHubDataRoute.Processed | src/app/api/github-data/route.ts:96-108 | a processed repository differs from the listed one at most in its statistics, which it takes only for the first three and only when non-null |
| GitHubDataRoute.Get | src/app/api/github-data/route.ts:54-143 | low rate gives 429; a failed list gives 500; otherwise the processed ranked repositories with pagination 1/1/false/length, now and the live source tag |
| GitHubDataRoute.ActivityOnlyForFirstThree | src/app/api/github-data/route.ts:98-108 | from the fourth on a repository is unchanged; only its activity can change, to the transformed weeks of a non-empty reply |
| GitHubDataRoute.LiveReposRanked | src/app/api/github-data/route.ts:80-88 | at most 6 repositories, non-forks, in ranking order |
| Ranking.Filter | src/app/api/github-data/route.ts:81 | the kept repositories are exactly the non-forks with enough stars |
| Ranking.FilterAppend | src/app/api/github-data/route.ts:81 | the filter keeps the relative order: it commutes with concatenation |
| Ranking.Insert | src/app/api/github-data/route.ts:82-87 | inserting into a ranked list gives a ranked permutation with one more element |
| Ranking.SortRepos | src/app/api/github-data/route.ts:82-87 | the sort is a permutation ordered by stars, most first, then by last update, newest first |
| Ranking.Ranked | src/app/api/github-data/route.ts:80-88 | the result is the first `min(kept, limit)` of the sorted kept list; it is ranked and every member is a kept input |
| Ranking.RankedIsTop | src/app/api/github-data/route.ts:80-88 | every repository the truncation drops ranks after every one it keeps |
| Ranking.RankedComplete | src/app/api/github-data/route.ts:80-88 | when the kept list fits the limit, every kept repository is in the result |
| GitHubDataLib.FallbackData | src/lib/github-data.ts:86-97 | the fallback: no repositories, no user, page 1, 30 per page, 1 page, no more |
| GitHubDataLib.WithActivity | src/lib/github-data.ts:41-67 | only the activity changes: the reply's weeks when OK, otherwise an empty list |
| GitHubDataLib.FetchGitHubDataStatic | src/lib/github-data.ts:5-84 | a failed list gives the fallback; otherwise the top 20 ranked non-forks with more than 0 stars, each with its activity, no user, the fixed pagination and now |
| GitHubDataLib.LoadedReposKept | src/lib/github-data.ts:29-38 | every loaded repository is a listed non-fork with at least one star, and has activity |
| DataMappers.OrString | src/lib/data-mappers.ts:6-11 | `a or b` on strings: the value when present and non-empty, otherwise the fallback |
| DataMappers.GetLanguageColor | src/lib/data-mappers.ts:40-60 | a known language gets its table colour; null or unknown gives `#6e7681` |
| DataMappers.LanguageColorExamples | src/lib/data-mappers.ts:40-60 | Example (one input): Rust and TypeScript get their colours; COBOL and null get the default |
| DataMappers.MapRawRepo | src/lib/data-mappers.ts:3-23 | each field is copied with its default (id 0, description empty, language `Unknown`, counts 0, topics empty, homepage null, not private, activity empty), languages is always empty and the update date is the last update |
| DataMappers.MapRawRepoDefaults | src/lib/data-mappers.ts:3-23 | a record with every optional field missing maps to all the defaults |
| DataMappers.MapStaticData | src/lib/data-mappers.ts:25-38 | repositories map one to one in order; no user, from cache; pagination and last update from the input or 1/30/1/false and now |
| FetchLiveScript.ParseEnvLine | scripts/fetch-live-github-data.js:11-19 | a parsed key is non-empty and contains no `=` |
| FetchLiveScript.ParseEnvLineSpec | scripts/fetch-live-github-data.js:11-19 | a line counts iff trimmed it is non-empty, does not start with `#` and has an `=` after a non-empty key; then the key is the text before the first `=` and the value all after it |
| FetchLiveScript.ParseEnvLineLaterEquals | scripts/fetch-live-github-data.js:14-16 | Example (one input): `A=b=c` sets `A` to `b=c` |
| FetchLiveScript.ParseEnvLineEmptyKey | scripts/fetch-live-github-data.js:15 | Example (one input): a line with an empty key is ignored |
| FetchLiveScript.ApplyEnvLine | scripts/fetch-live-github-data.js:12-19 | a counted line sets its key to its value; any other line changes nothing |
| FetchLiveScript.LoadEnvFile | scripts/fetch-live-github-data.js:5-22 | with no file the environment is unchanged; otherwise it is the result of applying the lines in order |
| FetchLiveScript.EnvAfterStep | scripts/fetch-live-github-data.js:11-19 | applying one more line updates exactly its key, or nothing |
| FetchLiveScript.EnvAfterKeeps | scripts/fetch-live-github-data.js:11-19 | a key no line sets keeps its prior presence and value |
| FetchLiveScript.EnvAfter | scripts/fetch-live-github-data.js:11-19 | applying lines never removes a variable |
| FetchLiveScript.EnvAfterLastWins | scripts/fetch-live-github-data.js:11-19 | the last line setting a key decides its value |
| FetchLiveScript.FirstIndexOf | scripts/fetch-live-github-data.js:14 | the first position of the separator, or the length when there is none |
| FetchLiveScript.RepositoryInfo | scripts/fetch-live-github-data.js:82-108 | a failed request gives null; otherwise every one of the thirteen kept fields is the record's, with missing topics as the empty list |
| FetchLiveScript.LiveActivity | scripts/fetch-live-github-data.js:169-175 | only the first three get activity, by the null-on-empty rule |
| FetchLiveScript.ProcessedLiveFields | scripts/fetch-live-github-data.js:177-180 | a processed repository is the detailed record when it was fetched, otherwise the listed one, with the activity added only when non-null |
| FetchLiveScript.ProcessedLive | scripts/fetch-live-github-data.js:177-180 | the detailed record exactly when it was fetched, with the statistics of the first three; otherwise the listed record, changed only in its statistics and only when they are non-null |
| FetchLiveScript.UpdateGitHubDataWithLiveAPI | scripts/fetch-live-github-data.js:136-233 | a failed list keeps an existing file or exits 1; otherwise it writes the first `min(len, 6)` of the top 20 ranked non-forks, processed, with pagination 1/1/false/count, now and the live source tag |
| FetchLiveScript.ProcessedAreRouteRanking | scripts/fetch-live-github-data.js:117-162 | the processed repositories are the route's top six: the first six of the top twenty |
| GenerateScript.FallbackWeeks | scripts/generate-github-data.js:79-87 | the stand-in is two weeks, dated one and two weeks before now |
| GenerateScript.FallbackWeeksConsistent | scripts/generate-github-data.js:79-87 | each stand-in week has seven days, and its total (8 and 5) is the sum of its days |
| GenerateScript.GeneratedActivity | scripts/generate-github-data.js:70-87 | an array reply is transformed; any other reply gives the stand-in |
| GenerateScript.GeneratedRepo | scripts/generate-github-data.js:63-94 | from the fourth on a repository is unchanged; the first three get the generated activity |
| GenerateScript.WithActivity | scripts/generate-github-data.js:64-93 | one pass of the loop gives the generated repository |
| GenerateScript.AttachActivity | scripts/generate-github-data.js:63-94 | the loop keeps length and order, each repository generated by the first-three rule |
| GenerateScript.FetchGitHubData | scripts/generate-github-data.js:31-119 | a failed list exits with 1; otherwise it writes the ranked repositories with the first-three rule, pagination 1/1/false/length and now |
| GenerateScript.GeneratedReposRanked | scripts/generate-github-data.js:50-94 | at most 20 listed non-forks, and each of the first three has activity totalling the reply's totals or the stand-in's 13 |
| Oracle.Chance | scripts/manual-github-data.js:26-40 | a miss gives 0; a hit gives `offset + floor(random·k)`, within `[offset, offset + k)` |
| Oracle.ChanceCovers | scripts/manual-github-data.js:26-40 | every value the source can draw is the outcome of some draw |
| Oracle.WeekTimestampStep | scripts/manual-github-data.js:12-13 | the week timestamps step back one week (604800 s) per week index |
| Oracle.WeekTimestamp | scripts/manual-github-data.js:12-13 | the timestamp is the Unix second `week` weeks before now, rounded down |
| Oracle.YearTimestampsDecrease | scripts/manual-github-data.js:11-51 | in a generated year the timestamps strictly decrease along the array |
| ManualScript.RealisticDay | scripts/manual-github-data.js:23-41 | holiday weeks give 0 or 1; weekends 0 to 2; recent weekdays 0 or 1 to 6; older weekdays 0 to 3; a missed draw gives 0 |
| ManualScript.RealisticDays | scripts/manual-github-data.js:23-45 | a week has seven days, each drawn by the day rule |
| ManualScript.GenerateRealisticDays | scripts/manual-github-data.js:23-45 | the day loop yields the week's seven days and their running total |
| ManualScript.RealisticYear | scripts/manual-github-data.js:11-51 | 52 weeks, element i being the week i weeks before now |
| ManualScript.RealisticWeek | scripts/manual-github-data.js:12-51 | a generated week has the timestamp of its index, seven non-negative days and a total that is their sum |
| ManualScript.GenerateRealisticCommitActivity | scripts/manual-github-data.js:5-55 | the countdown loop with its front insertions yields exactly that year |
| ManualScript.RealisticYearShaped | scripts/manual-github-data.js:11-51 | 52 weeks of seven days, each total the sum of its days, timestamps one week apart, every day 0 to 6 |
| ManualScript.BoostDays | scripts/manual-github-data.js:62-67 | each day of the main repository is raised by 0 or 1 and capped at 8 |
| ManualScript.BoostWeek | scripts/manual-github-data.js:62-70 | a boosted week keeps its timestamp and day count; each day is at most 8, at most one more than before, and not lower unless it was above 8 |
| ManualScript.BoostDay | scripts/manual-github-data.js:68-69 | a boosted day is at most 8 and at most one more than before, not lower unless it was above 8, and unchanged but capped when the pick is even |
| ManualScript.Boosted | scripts/manual-github-data.js:62-70 | every week is boosted, in order |
| ManualScript.BoostedTotalMayDiffer | scripts/manual-github-data.js:62-70 | Counterexample (one input): the boosted total uses its own draw, so it can differ from the sum of the boosted days |
| ManualScript.ScaleDays | scripts/manual-github-data.js:71-78 | each day becomes `floor(0.7·d)` |
| ManualScript.Scaled | scripts/manual-github-data.js:71-78 | every week is scaled, in order |
| ManualScript.ScaleDown | scripts/manual-github-data.js:76-77 | `floor(0.7·x)`: ten times the result is at most seven times x and within ten of it; a non-negative count does not grow and stays non-negative |
| ManualScript.ScaleWeek | scripts/manual-github-data.js:74-78 | a scaled week keeps its timestamp and day count, its total is scaled, and no non-negative day grows or turns negative |
| ManualScript.ScaledDaysBelowTotal | scripts/manual-github-data.js:71-78 | the scaled days never sum to more than the scaled total |
| ManualScript.ScaledTotalMayDiffer | scripts/manual-github-data.js:71-78 | Counterexample (one input): scaling each day and the total separately can break the sum (days 1 and 1, total 2, give 0 and 1) |
| ManualScript.MemoryRepoTotals | scripts/manual-github-data.js:71-78 | in the `semantic-memory` data each week's days sum to at most its total |
| ManualScript.RepoActivityData | scripts/manual-github-data.js:58-82 | 52 weeks of seven days with the generator's timestamps; other names get the base year; `rusty-butter` days are at most 8 |
| ManualScript.PlainRepoShaped | scripts/manual-github-data.js:80-81 | for any other name the data is a well-shaped year |
| ManualScript.UpdateGitHubData | scripts/manual-github-data.js:84-114 | no snapshot exits 1; otherwise the first three repositories get generated activity, the rest and the pagination are kept, and `lastUpdated` becomes now |
| ManualScript.UpdatedReposKeepFields | scripts/manual-github-data.js:91-99 | a repository changes only in its activity, which is 52 weeks for the first three |
| AccurateScript.NewRepoDay | scripts/fix-accurate-github-data.js:18-38 | a new repository has nothing from its third-newest week back; before that weekends are 0 or 1 and weekdays 0 or 1 to 3 |
| AccurateScript.OtherRepoDay | scripts/fix-accurate-github-data.js:62-82 | weekends 0 or 1; weekdays 0 to 2 in the six newest weeks and 0 or 1 before |
| AccurateScript.AccurateDays | scripts/fix-accurate-github-data.js:15-83 | a week has seven days, each drawn by the rule of the repository's kind |
| AccurateScript.NewRepoDays | scripts/fix-accurate-github-data.js:20-33 | the new repository's day loop yields seven days by its rule and their total |
| AccurateScript.OtherRepoDays | scripts/fix-accurate-github-data.js:62-82 | the other repositories' day loop yields seven days by their rule and their total |
| AccurateScript.GenerateAccurateDays | scripts/fix-accurate-github-data.js:15-83 | the branch body of the week loop yields the week's days and total in every branch |
| AccurateScript.AccurateYear | scripts/fix-accurate-github-data.js:11-89 | 52 weeks, element i being the week i weeks before now |
| AccurateScript.AccurateDay | scripts/fix-accurate-github-data.js:15-83 | a generated day has at most 3 commits for a new repository, 6 for `rusty-butter` and 2 for any other |
| AccurateScript.AccurateWeek | scripts/fix-accurate-github-data.js:12-88 | a generated week has the timestamp of its index, seven non-negative days and a total that is their sum |
| AccurateScript.GenerateAccurateCommitActivity | scripts/fix-accurate-github-data.js:5-92 | the countdown loop with its front insertions yields exactly that year |
| AccurateScript.AccurateYearShaped | scripts/fix-accurate-github-data.js:11-89 | every branch gives 52 weeks of seven days, each total the sum of its days |
| AccurateScript.NewRepoQuiet | scripts/fix-accurate-github-data.js:34-37 | a new repository's weeks from index 2 on are all zero, with total 0 |
| AccurateScript.UpdateGitHubDataWithAccurateInfo | scripts/fix-accurate-github-data.js:94-140 | no snapshot exits 1; otherwise the first three repositories get generated activity, the rest and the pagination are kept, and `lastUpdated` becomes now |
| AccurateScript.OnlySiteRepoIsNew | scripts/fix-accurate-github-data.js:105-117 | only `rusty-butter-website` is generated as new (quiet before its two newest weeks); the others as established |
| AuthCallback.Get | src/app/api/auth/callback/route.ts:3-44 | an `error` gives 400 with its text whatever else is given; `code` and `state` without error give success echoing both; anything else gives 400 "Missing required parameters" |
| AuthCallback.Post | src/app/api/auth/callback/route.ts:46-49 | POST always answers "not implemented" with status 200 |
| Base.TakeLast | src/app/page.tsx:385 | `slice(-n)`: the last `min(len, n)` elements |
| Base.TakeLastAppend | src/app/page.tsx:385 | the last n of `s + t`, when t fits, end with t after the newest elements of s |
| Base.Take | src/app/api/github-data/route.ts:88 | `slice(0, n)`: the first `min(len, n)` elements |
| Base.SumAppend | src/components/RepoActivityGraph.tsx:42 | a sum is additive over concatenation |
| Base.SumNonNegative | scripts/manual-github-data.js:43-44 | non-negative counts have a non-negative sum |
| Strings.TrimSpec | src/app/page.tsx:68 | trim removes leading and trailing whitespace and keeps the middle |
| Strings.TrimStartSpec | src/app/page.tsx:68 | the start is stripped of exactly its leading whitespace |
| Strings.TrimEndSpec | src/app/page.tsx:68 | the end is stripped of exactly its trailing whitespace |
| Strings.TrimEmpty | src/app/page.tsx:68 | a string trims to empty iff it is all whitespace |
| Strings.ToLowerSpec | src/app/page.tsx:71 | lowercasing maps each character and leaves no upper-case letter |
| Strings.ContainsAt | src/app/page.tsx:375 | an occurrence at some position means the string contains the pattern |
| Strings.Split | scripts/fetch-live-github-data.js:9 | a split gives at least one part, none containing the separator |
| Strings.JoinSplit | scripts/fetch-live-github-data.js:14-16 | re-joining the parts with the separator gives the original string |
| Strings.SplitAtFirst | scripts/fetch-live-github-data.js:14-16 | the first part is the text before the first separator, and the rest re-joined is all after it |
| Strings.SplitAfterWord | src/app/page.tsx:330 | a word then the separator splits off as the first part |
| Strings.SplitNoSeparator | scripts/fetch-live-github-data.js:14 | without the separator the split is the whole string |
| Strings.ReplaceFirst | src/app/api/twitch/streams/route.ts:176 | `replace` with a string pattern: with no occurrence the string is unchanged |
| Strings.ReplaceFirstAt | src/app/api/twitch/streams/route.ts:176 | only the first occurrence is replaced: the text before it and after it is kept |
| Strings.DigitPrefix | src/app/api/twitch/streams/route.ts:220 | the longest leading digit run |
| Strings.ShowNat | src/app/api/github/repos/route.ts:61 | decimal writing without leading zeros |
| Strings.ParseShowNat | src/app/api/github/repos/route.ts:55 | reading back a written number gives that number |
| Strings.ParseInt | src/app/api/github/repos/route.ts:55-56 | `parseInt` without a radix is NaN exactly when, after the leading spaces and sign, no hexadecimal digit follows a `0x`/`0X`, or otherwise no decimal digit follows; a negative result had a minus sign |
| Strings.ParseIntHexThen | src/app/api/github/repos/route.ts:55-56 | `0x` or `0X` followed by hexadecimal digits reads as their base-16 value, and with no such digit as NaN |
| Strings.ParseIntHexExamples | src/app/api/github/repos/route.ts:55-56 | Example (one input): `0x10` is 16 and `0x` is NaN |
| Strings.ParseIntShowNatThen | src/app/api/twitch/streams/route.ts:223-225 | `parseInt` reads a written number followed by a tail that starts with no digit (and, after a lone zero, with no `x`) |
| Strings.ParseIntShowNegativeThen | src/app/api/github/repos/route.ts:55 | `parseInt` reads a written negative number followed by any non-digit tail |
| Strings.ParseIntShowIntThen | src/app/api/github/repos/route.ts:55 | `parseInt` reads any written integer followed by a tail that starts with no digit (and, after a lone zero, with no `x`) |
| Strings.ParseIntShowInt | src/app/api/github/repos/route.ts:55 | `parseInt` reads back any written integer |

## Left out

- `Math.random` is replaced by recorded draws (`Oracle`): a draw is a hit flag and a pick, `floor(random·k)` is `pick % k`, and `random < p` is the flag. Probabilities are not modelled.
- Floating point: intensities, durations and the 0.7 scale are exact reals or rationals (`floor(0.7·d)` is `(7·d)/10`), with no IEEE rounding.
- Time zones, daylight saving and locale formatting (`toLocaleDateString`, `toLocaleTimeString`) are out; a date is one integer day number, and the tooltip text is not modelled.
- Lowercasing is ASCII only; there is no Unicode case folding. Trimming uses JavaScript's full set of whitespace and line terminators.
- Regular expressions are modelled only as hand-written scanners for the three patterns used (duration, `Link` header, video URL).
- I/O is out: `fetch`, HTTP plumbing, `fs` reads and writes, `process.exit` (a result value), console output, the scripts' summary printouts and `setTimeout` delays. Upstream replies are input values.
- The live script's fallback on a failed list only looks at whether an existing snapshot is present (`hasExisting`); reading and re-parsing that file is not modelled.
- The live script's rate check only warns and never stops the run, so it has no effect on the modelled result.
- `ActivityGraph`'s `ResizeObserver` and window width: the container width is a parameter.
- `HomePage`: the React state batching and promise interleavings are out; each handler is one sequential transition.
- `TwitchStreamsRoute.TwitchRoute.Get` and `GitHubReposRoute.RepoCache.Get` take one `now` per call. The source reads the clock several times in one request (the cache check, the live duration, `lastUpdated` and the new expiry), so the time that passes between those reads is not modelled.
- `HomePage`: the follow-up history lines of `stream activity` (after its fetch settles) and `fetchTwitchData` are out, because they are asynchronous continuations.
- `HomePage`: the `loadingActivity` set, scrolling and focus handling are presentation only and are out.
- The theme provider (`src/app/providers.tsx`) and the embedded Twitch player (`src/components/TwitchPlayer.tsx`) are UI glue and are not part of this model.
- `scripts/get-local-git-data.js` is not part of this model: every number it writes comes from running `git`.
- Credentials: the Twitch client id and secret are a `configured` flag; GitHub tokens and request headers are out.
- `GitHubDataLib.FetchGitHubDataStatic`: an OK statistics reply is taken as a list of already-shaped weeks, because the library passes the body through unchecked.
- `TwitchStreamsRoute.ParseDuration`: its own contract states only that the result is non-negative; what it returns is stated by `TwitchStreamsRoute.ParseFormatted` and `TwitchStreamsRoute.NoComponentIsZero`.
- `StreamingActivityGraph.HandleDotClick`: the date is kept as a timestamp; its conversion to a locale date string is not modelled.
- `Strings.ParseInt`: the value of the digit run is exact; JavaScript's rounding of runs beyond 2^53 to the nearest float is not modelled.
- `Ranking.SortRepos`: the sort is proved ordered and a permutation; that it keeps equally ranked repositories in their original order, as JavaScript's stable sort does, holds by construction but is not stated as a lemma.
