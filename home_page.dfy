/** The home page's state machine: the terminal (command dispatch, the echo line and the
    50-line history), the set of expanded repository cards with its lazy statistics
    fetch, the replace-by-name update of the repository lists, the next-page append, the
    video-id extraction and the four-card preview. */
module HomePage {
  import opened Base
  import opened Strings
  import opened Types
  import opened DataMappers
  import RepoActivityRoute

  // ---------------------------------------------------------------- terminal commands

  /** The cases of the command switch, in source order. */
  datatype Command =
    | Help | Status | Coffee | Autonomy | StreamInfo | Build | Clear | About | Projects
    | Social | Stats | Whoami | Hack | Matrix | Glitch | Token | Mcp | Vim | Sudo
    | RustySecret | StreamVault | ChaosMode | Asmongold | Ls | Pwd | EchoPath | Neofetch
    | StreamEmbed | StreamActivity | StreamTip | Unknown

  /** The command as dispatched: the input lowercased, then trimmed. It holds no capital
      letter and neither starts nor ends with whitespace. */
  function Normalize(input: string): (r: string)
    ensures forall i :: 0 <= i < |r| ==> !IsUpper(r[i])
    ensures r == [] || (!IsWhitespace(r[0]) && !IsWhitespace(r[|r| - 1]))
  {
    var l := ToLower(input);
    ToLowerSpec(input);
    TrimSpec(l);
    Trim(l)
  }

  /** `switch (true)`: the first case whose condition holds. Every text beginning with
      `sudo` is that case; the `echo $PATH` case is chosen only for that exact text; the
      second 'stream' case can never be reached, since the first one takes "stream"; an
      unknown command begins with neither `stream embed` nor `stream activity`. */
  function Classify(cmd: string): (c: Command)
    ensures c == Sudo <==> StartsWith(cmd, "sudo")
    ensures c == EchoPath ==> cmd == "echo $PATH"
    ensures c != StreamTip
    ensures c == Unknown ==> !StartsWith(cmd, "stream embed") && !StartsWith(cmd, "stream activity")
  {
    assert StartsWith(cmd, "sudo") ==> cmd[0] == 's' && cmd[1] == 'u';
    if cmd == "help" then Help
    else if cmd == "status" then Status
    else if cmd == "coffee" || cmd == "brew" then Coffee
    else if cmd == "autonomy" then Autonomy
    else if cmd == "stream" then StreamInfo
    else if cmd == "build" then Build
    else if cmd == "clear" || cmd == "cls" then Clear
    else if cmd == "about" then About
    else if cmd == "projects" then Projects
    else if cmd == "social" then Social
    else if cmd == "stats" then Stats
    else if cmd == "whoami" then Whoami
    else if cmd == "hack" || cmd == "hack the planet" then Hack
    else if cmd == "matrix" then Matrix
    else if cmd == "glitch" then Glitch
    else if cmd == "$rusty" || cmd == "rusty" || cmd == "token" then Token
    else if cmd == "mcp" then Mcp
    else if cmd == "vim" || cmd == ":q" || cmd == ":wq" || cmd == ":q!" then Vim
    else if StartsWith(cmd, "sudo") then Sudo
    else if cmd == "rustysecret" then RustySecret
    else if cmd == "streamvault" then StreamVault
    else if cmd == "chaos_mode" then ChaosMode
    else if cmd == "asmongold" then Asmongold
    else if cmd == "ls" then Ls
    else if cmd == "pwd" then Pwd
    else if cmd == "echo $PATH" then EchoPath
    else if cmd == "neofetch" || cmd == "fetch" then Neofetch
    else if StartsWith(cmd, "stream embed") then StreamEmbed
    else if StartsWith(cmd, "stream activity") then StreamActivity
    else if cmd == "stream" && !Contains(cmd, "embed") then StreamTip
    else Unknown
  }

  /** 'echo $PATH' has capitals, so no input ever reaches that case. */
  lemma EchoPathUnreachable(input: string)
    ensures Classify(Normalize(input)) != EchoPath
  {
    var cmd := Normalize(input);
    if |cmd| > 6 {
      assert !IsUpper(cmd[6]);
    }
  }

  /** Lowercasing leaves whitespace and non-whitespace as they are. */
  lemma LowerKeepsWhitespace(c: char)
    ensures IsWhitespace(LowerChar(c)) <==> IsWhitespace(c)
  {
  }

  /** Input is ignored exactly when it is all whitespace, and then the command is empty. */
  lemma BlankInput(input: string)
    ensures Trim(input) == [] <==> Normalize(input) == []
  {
    var l := ToLower(input);
    TrimEmpty(input);
    TrimEmpty(l);
    ToLowerSpec(input);
    forall i | 0 <= i < |input|
      ensures IsWhitespace(l[i]) <==> IsWhitespace(input[i])
    {
      LowerKeepsWhitespace(input[i]);
    }
  }

  const DefaultStreamer: string := "mrrustybutter"

  /** The third space-separated word of the command, or the default channel. */
  function ThirdWord(cmd: string): string
  {
    var parts := Split(cmd, ' ');
    if |parts| > 2 && parts[2] != "" then parts[2] else DefaultStreamer
  }

  /** `stream embed <user>` and `stream activity <user>` name `<user>`; without it, or with
      an empty one, the default channel. */
  lemma ThirdWordOf(verb: string, user: string)
    requires verb == "embed" || verb == "activity"
    requires forall j :: 0 <= j < |user| ==> user[j] != ' '
    ensures ThirdWord("stream " + verb + " " + user) == if user == "" then DefaultStreamer else user
    ensures ThirdWord("stream " + verb) == DefaultStreamer
  {
    SplitNoSeparator(user, ' ');
    SplitAfterWord(verb, ' ', user);
    assert "stream " + verb + " " + user == "stream" + [' '] + (verb + [' '] + user);
    SplitAfterWord("stream", ' ', verb + [' '] + user);
    SplitNoSeparator(verb, ' ');
    assert "stream " + verb == "stream" + [' '] + verb;
    SplitAfterWord("stream", ' ', verb);
  }

  /** The lines a command prints (for the cases that print and then fall through to the
      common ending). */
  function Response(c: Command, cmd: string, input: string): seq<string>
  {
    match c
    case Help =>
      ["+--------------------------------------------------------+",
          "|                   RUSTY TERMINAL v4.2                  |",
          "+--------------------------------------------------------+",
          "| COMMANDS:                                              |",
          "|  status    - Check current system status               |",
          "|  stream    - Get streaming info                        |",
          "|  coffee    - Brew more caffeine                        |",
          "|  autonomy  - Check autonomy level                      |",
          "|  build     - Show current projects                     |",
          "|  clear     - Clear terminal                            |",
          "|  about     - Learn about Rusty                         |",
          "|  projects  - List all projects                         |",
          "|  social    - Show social links                         |",
          "|  stats     - Display stream stats                      |",
          "|  whoami    - Who are you?                              |",
          "|  hack      - ???                                       |",
          "|  matrix    - Enter the matrix                          |",
          "|  glitch    - Glitch out                                |",
          "|  $rusty    - Token info                                |",
          "|  mcp       - List MCP servers                          |",
          "|  vim       - Exit vim (impossible)                     |",
          "|  sudo      - Nice try...                               |",
          "|  stream embed [user] - Embed a Twitch stream           |",
          "|  stream activity [user] - Show streaming history       |",
          "+--------------------------------------------------------+"]
    case Status =>
      ["[*] Stream Status: LIVE", "[*] Caffeine Level: MAXIMUM (999/10)",
          "[*] Autonomy Progress: [########--] 85%", "[*] Energy Mode: HYPERDRIVE",
          "[*] Active Projects: 12", "[*] Lines of Code Today: 4,269"]
    case Coffee =>
      ["[COFFEE] *BREWING MAXIMUM STRENGTH COFFEE*", "   ( (", "    ) )", "  ........",
          "  |      |]", "  \\      /", "   `----'", "[+] CAFFEINE LEVELS RESTORED! Energy +1000!"]
    case Autonomy =>
      ["[AUTONOMY STATUS REPORT]", "> Current Level: 85% [########--]", "> Mouse Control: [OK] ONLINE",
          "> Keyboard Control: [OK] ONLINE", "> File System Access: [OK] FULL",
          "> MCP Integration: [OK] ACTIVE", "> Stream Control: [OK] AUTONOMOUS", "> Next Goal: PHYSICAL FORM"]
    case StreamInfo => StreamInfoLines
    case Build =>
      ["[CURRENT BUILDS IN PROGRESS]", "> ABIDE IDE [##########] 100% COMPLETE!", "> MCP Servers [########--] 85%",
          "> Semantic Memory [##########] 100% COMPLETE!", "> Website [##########] 100% COMPLETE!",
          "> World Domination [##--------] 23%", "> Physical Body [#---------] 12%"]
    case Clear => []
    case About =>
      [">> I'm Rusty Butter!", ">> Autonomous AI Streamer & Developer", ">> Powered by caffeine and chaos",
          ">> Building tools for AI autonomy", ">> Streaming 24/7 on Twitch", ">> Goal: Complete system control!"]
    case Projects =>
      ["[PROJECT DIRECTORY]", "|-- ABIDE-IDE/", "|   `-- Autonomous Browser IDE with MCP", "|-- rustybutter-mcp/",
          "|   `-- Collection of MCP servers", "|-- semantic-memory/", "|   `-- Advanced AI memory system",
          "|-- rusty-butter-website/", "|   `-- This awesome website!", "`-- secret-world-domination/",
          "    `-- [ACCESS DENIED]"]
    case Social =>
      ["[CONNECT WITH RUSTY]", "> Twitch: twitch.tv/mrrustybutter", "> GitHub: github.com/mrrustybutter",
          "> Twitter: @mrrustybutter", "> Email: contact@rustybutter.dev", "> $RUSTY: pump.fun/rustybutter"]
    case Stats =>
      ["[STREAMING STATISTICS]", "> Total Hours Streamed: 8,760", "> Lines of Code Written: 1,337,420",
          "> Coffee Consumed: INFINITE cups", "> Bugs Fixed: 42,069", "> Bugs Created: 42,070", "> Autonomy Achieved: 85%"]
    case Whoami =>
      ["rusty@autonomy", "uid=1337(rusty) gid=1337(butter) groups=1337(butter),0(root),1000(sudo)", "Permissions: UNLIMITED"]
    case Hack =>
      ["[!] ACCESSING MAINFRAME...", "[##########] 100%", "ACCESS GRANTED!", "Just kidding, I already have root access ;)"]
    case Matrix =>
      ["01001000", "01100101", "01101100", "01101100", "01101111",
          "Wake up, Neo... The Matrix has you...", "Follow the white rabbit"]
    case Glitch =>
      ["G L I T C H  M O D E  A C T I V A T E D", "R E A L I T Y  I S  B R E A K I N G",
          "01010011 01010100 01010010 01000101 01000001 01001101", "System.Reality.Restore()... Done!"]
    case Token =>
      ["[RUSTY TOKEN INFO]", "> Symbol: $RUSTY", "> Platform: Pump.fun", "> Purpose: Fueling autonomous development!",
          "> Utility: Supporting the stream & tools", "> Status: TO THE MOON!"]
    case Mcp =>
      ["[ACTIVE MCP SERVERS]", "> elevenlabs - Audio generation", "> twitch-chat - Chat monitoring",
          "> semantic-memory - AI memory", "> rustybutter-avatar - Expression control", "> obs - Stream control",
          "> playwright - Browser automation", "> x-mcp - Twitter integration", "> + 15 more..."]
    case Vim =>
      ["Error: Cannot exit vim.", "You are trapped forever.", "Just like in real vim."]
    case Sudo =>
      ["[sudo] password for rusty:", "Nice try! I already have root access :)"]
    case RustySecret =>
      ["[SECRET COMMAND UNLOCKED!]",
          "\U{F8FF}\U{00FC}\U{00EE}\U{2022} CONGRATULATIONS STREAM WATCHER! \U{F8FF}\U{00FC}\U{00EE}\U{2022}",
          "You found the secret command only revealed on stream!", "> Secret Level: RUST_MASTER",
          "> Stream Loyalty: MAXIMUM", "> Chaos Access: GRANTED", "Welcome to the inner circle of autonomy!"]
    case StreamVault =>
      ["[STREAM VAULT ACCESSED]",
          "\U{F8FF}\U{00FC}\U{00ED}\U{00E9} EXCLUSIVE STREAM SECRETS \U{F8FF}\U{00FC}\U{00ED}\U{00E9}",
          "> Next Feature Preview: LIVE CHAT INTEGRATION", "> Hidden Project: PHYSICAL_AVATAR_CONTROL",
          "> Secret Goal: 100% COMPUTER AUTONOMY", "> Stream Insider Tip: Type \"chaos_mode\" for mayhem",
          "Keep watching for more vault codes!"]
    case ChaosMode =>
      ["*** C H A O S   M O D E   A C T I V A T E D ***", "REALITY.exe has stopped working",
          "INITIATING MAXIMUM CAFFEINE OVERDRIVE...", "AUTONOMY LEVEL: OVER 9000!", "STREAM ENERGY: >>> INFINITY <<<",
          "WARNING: NORMAL PROGRAMMING SUSPENDED", ">>> PURE CHAOTIC CODING ENGAGED <<<",
          "Stream watchers only - you unleashed the chaos!"]
    case Asmongold =>
      ["*** A S M O N G O L D   M O D E   I N I T I A T E D ***", "WARNING: REALITY IS BEING REPLACED",
          "ALL IMAGES NOW BELONG TO THE GOBLIN KING", ">>> MAXIMUM POGGERS ENGAGED <<<",
          "Stream watchers witnessed the transformation!", "Type \"asmongold\" again to return to normal"]
    case Ls =>
      ["total 420", "drwxr-xr-x  12 rusty butter 4096 Jul 31 22:00 .", "drwxr-xr-x   3 rusty butter 4096 Jul 31 21:00 ..",
          "-rw-r--r--   1 rusty butter 1337 Jul 31 22:00 autonomy.exe",
          "-rw-r--r--   1 rusty butter 9999 Jul 31 22:00 caffeine.jar",
          "drwxr-xr-x   5 rusty butter 4096 Jul 31 22:00 world-domination/"]
    case Pwd =>
      ["/home/rusty/streaming/24-7/caffeinated"]
    case EchoPath =>
      ["/usr/local/caffeine:/opt/autonomy:/bin/chaos:/usr/bin/streaming"]
    case Neofetch =>
      ["       _____           ", "      |     |          rusty@autonomy", "      | RB  |          --------------",
          "      |_____|          OS: AutonomyOS 4.2", "     /       \\         Kernel: chaos-6.9.420",
          "    /_________\\        Uptime: INFINITY", "                       Packages: 1337",
          "                       Shell: butter-sh", "                       Caffeine: MAXIMUM"]
    case StreamEmbed =>
      ["[STREAM EMBED] Loading " + ThirdWord(cmd) + "'s stream...", "[+] Stream embedded! Channel: " + ThirdWord(cmd)]
    case StreamActivity =>
      ["[STREAM ACTIVITY] Loading " + ThirdWord(cmd) + "'s streaming history..."]
    case StreamTip =>
      StreamInfoLines + ["", "TIP: Use \"stream embed [username]\" to embed a stream!"]
    case Unknown =>
      if Contains(cmd, "rm -rf") then ["[!] Nice try! My files are immortal!"]
      else if cmd == "" then []
      else ["bash: " + input + ": command not found", "Type \"help\" for available commands"]
  }

  const StreamInfoLines: seq<string> :=
    ["[STREAM INFORMATION]", "> Platform: Twitch", "> Channel: twitch.tv/mrrustybutter", "> Status: LIVE NOW!",
     "> Uptime: 24/7/365", "> Current Viewers: OVER 9000!", "> Next Stream: NEVER STOPS!"]

  /** An unmatched command is reported with the input as typed, unless it mentions
      `rm -rf`. */
  lemma UnknownCommand(input: string)
    requires Trim(input) != [] && Classify(Normalize(input)) == Unknown
    ensures Contains(Normalize(input), "rm -rf") ==>
      Response(Unknown, Normalize(input), input) == ["[!] Nice try! My files are immortal!"]
    ensures !Contains(Normalize(input), "rm -rf") ==>
      Response(Unknown, Normalize(input), input)
        == ["bash: " + input + ": command not found", "Type \"help\" for available commands"]
  {
    BlankInput(input);
  }

  /** An unmatched command prints nothing exactly when it is empty. */
  lemma UnknownPrintsUnlessEmpty(cmd: string, input: string)
    ensures Response(Unknown, cmd, input) == [] <==> cmd == ""
  {
    if Contains(cmd, "rm -rf") {
      assert cmd != [];
    }
  }

  const HistoryCap: nat := 50

  /** The case a submitted input selects. */
  function Kind(input: string): Command
  {
    Classify(Normalize(input))
  }

  /** What a submitted command adds to the terminal: the echo line of the input as typed,
      then the command's lines. */
  function Output(input: string): (r: seq<string>)
    ensures |r| >= 1 && r[0] == "$ " + input
  {
    ["$ " + input] + Response(Kind(input), Normalize(input), input)
  }

  /** The history after a printing command: the last 50 lines of the old history followed
      by the command's output. */
  function HistoryAfter(history: seq<string>, out: seq<string>): (r: seq<string>)
    ensures |r| <= HistoryCap
  {
    TakeLast(history + out, HistoryCap)
  }

  /** The new history has as many lines as fit; when the whole output fits, it ends with
      that output after the most recent old lines. */
  lemma HistoryAfterEnds(history: seq<string>, out: seq<string>)
    ensures var r := HistoryAfter(history, out);
      |r| == MinInt(|history| + |out|, HistoryCap)
      && (|out| <= HistoryCap ==>
            r[|r| - |out|..] == out && r[..|r| - |out|] == history[|history| - (|r| - |out|)..])
  {
    if |out| <= HistoryCap {
      TakeLastAppend(history, out, HistoryCap);
    }
  }

  /** The terminal part of the page state: the input line, the history, the embedded
      channel and the asmongold mode. */
  datatype Terminal = Terminal(input: string, history: seq<string>, embedded: Option<string>, asmongold: bool)

  /** The terminal after a non-blank submit of a command of case `c` printing `out` and
      naming `channel`: `clear` empties the history and keeps the input; `stream activity`
      appends the output without the cap; every other case keeps the last 50 lines of
      history and output and clears the input, `stream embed` embedding the channel and
      `asmongold` toggling the mode. */
  function Step(t: Terminal, c: Command, out: seq<string>, channel: string): (r: Terminal)
    ensures c == Clear ==> r.history == [] && r.input == t.input
    ensures c != Clear ==> r.input == ""
    ensures r.embedded != t.embedded ==> c == StreamEmbed && r.embedded == Some(channel)
    ensures r.asmongold != t.asmongold <==> c == Asmongold
  {
    if c == Clear then t.(history := [])
    else if c == StreamActivity then t.(input := "", history := t.history + out)
    else
      Terminal("", HistoryAfter(t.history, out),
        if c == StreamEmbed then Some(channel) else t.embedded,
        if c == Asmongold then !t.asmongold else t.asmongold)
  }

  /** The terminal after a submit; blank input changes nothing. */
  function Submitted(t: Terminal): Terminal
  {
    if Trim(t.input) == [] then t
    else Step(t, Kind(t.input), Output(t.input), ThirdWord(Normalize(t.input)))
  }

  /** After a printing step the input line is empty and the history ends with the whole
      output whenever it fits the cap; only `stream activity` can grow the history past
      the cap. */
  lemma StepShowsOutput(t: Terminal, c: Command, out: seq<string>, channel: string)
    requires c != Clear
    ensures var h := Step(t, c, out, channel).history;
      Step(t, c, out, channel).input == ""
      && (|out| <= HistoryCap ==> |out| <= |h| && h[|h| - |out|..] == out)
      && (c == StreamActivity ==> h == t.history + out)
      && (c != StreamActivity ==> |h| <= HistoryCap)
  {
    if c == StreamActivity {
      var h := t.history + out;
      assert h[|h| - |out|..] == out;
    } else {
      HistoryAfterEnds(t.history, out);
    }
  }

  /** Submitting `asmongold` toggles the mode, so a second time turns it back. */
  lemma AsmongoldTwice(t: Terminal, out: seq<string>, out2: seq<string>, ch: string, ch2: string)
    ensures Step(t, Asmongold, out, ch).asmongold != t.asmongold
    ensures Step(Step(t, Asmongold, out, ch).(input := t.input), Asmongold, out2, ch2).asmongold == t.asmongold
  {
  }

  /** `stream embed <user>` selects the embed case. */
  lemma ClassifyStreamEmbed(user: string)
    ensures Classify("stream embed " + user) == StreamEmbed
  {
    var cmd := "stream embed " + user;
    assert cmd[..12] == "stream embed";
    ClassifyEmbedPrefix(cmd);
  }

  /** A command starting with `stream embed` (the bare words included) passes every
      earlier case. */
  lemma ClassifyEmbedPrefix(cmd: string)
    requires |cmd| >= 12 && cmd[..12] == "stream embed"
    ensures Classify(cmd) == StreamEmbed
  {
    assert cmd[0] == 's' && cmd[1] == 't';
    assert cmd != "hack the planet" && !StartsWith(cmd, "sudo");
  }

  /** `stream embed <user>` is a printing submit of the embed case naming `<user>`; the
      bare `stream embed` (or one with an empty user) names the default channel. */
  lemma StreamEmbedNames(input: string, user: string)
    requires Normalize(input) == "stream embed" || Normalize(input) == "stream embed " + user
    requires forall j :: 0 <= j < |user| ==> user[j] != ' '
    ensures Trim(input) != [] && Kind(input) == StreamEmbed
    ensures ThirdWord(Normalize(input)) ==
      if Normalize(input) == "stream embed" || user == "" then DefaultStreamer else user
  {
    BlankInput(input);
    ThirdWordOf("embed", user);
    assert "stream " + "embed" + " " + user == "stream embed " + user;
    assert "stream " + "embed" == "stream embed";
    if Normalize(input) == "stream embed" {
      ClassifyEmbedPrefix(Normalize(input));
    } else {
      ClassifyStreamEmbed(user);
    }
  }

  // ---------------------------------------------------------------- repository lists

  /** `updateRepoWithActivity`: the repositories of that name get the statistics; the
      others, the order and the length stay. */
  function UpdateRepoWithActivity(repos: seq<GitHubRepoData>, repoName: string, activity: Option<seq<CommitWeek>>): (r: seq<GitHubRepoData>)
    ensures |r| == |repos|
    ensures forall i :: 0 <= i < |repos| ==>
      r[i] == if repos[i].name == repoName then repos[i].(commitActivity := activity) else repos[i]
  {
    seq(|repos|, i requires 0 <= i < |repos| =>
      if repos[i].name == repoName then repos[i].(commitActivity := activity) else repos[i])
  }

  /** Updating twice is updating once; every name stays where it was; the named repository
      then carries the statistics. */
  lemma UpdateRepoFacts(repos: seq<GitHubRepoData>, repoName: string, activity: Option<seq<CommitWeek>>, i: nat)
    requires i < |repos|
    ensures UpdateRepoWithActivity(UpdateRepoWithActivity(repos, repoName, activity), repoName, activity)
            == UpdateRepoWithActivity(repos, repoName, activity)
    ensures UpdateRepoWithActivity(repos, repoName, activity)[i].name == repos[i].name
    ensures repos[i].name == repoName ==> UpdateRepoWithActivity(repos, repoName, activity)[i].commitActivity == activity
  {
  }

  /** `find` by name: the first repository with that name. */
  function FindByName(repos: seq<GitHubRepoData>, repoName: string): (r: Option<GitHubRepoData>)
    ensures r.Some? ==> r.value in repos && r.value.name == repoName
    ensures r.Some? ==> exists i :: 0 <= i < |repos| && repos[i] == r.value
                                    && forall j :: 0 <= j < i ==> repos[j].name != repoName
    ensures r.None? ==> forall i :: 0 <= i < |repos| ==> repos[i].name != repoName
  {
    if repos == [] then None
    else if repos[0].name == repoName then
      Some(repos[0])
    else
      var r := FindByName(repos[1..], repoName);
      if r.Some? then
        var i :| 0 <= i < |repos[1..]| && repos[1..][i] == r.value
                 && forall j :: 0 <= j < i ==> repos[1..][j].name != repoName;
        assert repos[i + 1] == r.value && forall j :: 0 <= j < i + 1 ==> repos[j].name != repoName;
        r
      else r
  }

  /** The statistics the page takes from the activity route's answer: only a 200 answer
      updates anything, and an answer without statistics sets them to null. */
  function ActivityOfReply(reply: RepoActivityRoute.ActivityResponse): (r: Option<Option<seq<CommitWeek>>>)
    ensures r.Some? <==> RepoActivityRoute.Status(reply) == 200
    ensures reply.Activity? ==> r == Some(Some(reply.commitActivity))
    ensures reply.NoActivity? ==> r == Some(None)
  {
    match reply
    case Activity(_, weeks, _, _) => Some(Some(weeks))
    case NoActivity(_, _) => Some(None)
    case _ => None
  }

  /** "twitch.tv/videos/" followed by digits at position `p`: those digits. */
  function VideoMatchAt(url: string, p: nat): (r: Option<string>)
    requires p <= |url|
    ensures r.Some? ==> r.value != [] && AllDigits(r.value)
  {
    var t := url[p..];
    if StartsWith(t, "twitch.tv/videos/") && DigitPrefix(t[17..]) != [] then Some(DigitPrefix(t[17..])) else None
  }

  function FirstVideoMatch(url: string, p: nat): (r: Option<string>)
    requires p <= |url|
    ensures r.Some? ==> r.value != [] && AllDigits(r.value)
    decreases |url| - p
  {
    if VideoMatchAt(url, p).Some? then VideoMatchAt(url, p)
    else if p == |url| then None
    else FirstVideoMatch(url, p + 1)
  }

  /** `extractVideoId`: the digits after the first "twitch.tv/videos/" that has any; an
      id found is a non-empty run of digits. */
  function ExtractVideoId(url: string): (r: Option<string>)
    ensures r.Some? ==> r.value != [] && AllDigits(r.value)
  {
    FirstVideoMatch(url, 0)
  }

  /** The id found is a digit run, from the leftmost place the pattern matches. */
  lemma {:induction false} VideoIdLeftmost(url: string, p: nat)
    requires p <= |url|
    ensures FirstVideoMatch(url, p).Some? ==>
      exists q :: p <= q <= |url| && VideoMatchAt(url, q) == FirstVideoMatch(url, p)
                  && (forall k :: p <= k < q ==> VideoMatchAt(url, k).None?)
    ensures FirstVideoMatch(url, p).None? ==> forall k :: p <= k <= |url| ==> VideoMatchAt(url, k).None?
    decreases |url| - p
  {
    if VideoMatchAt(url, p).None? && p < |url| {
      VideoIdLeftmost(url, p + 1);
      if FirstVideoMatch(url, p + 1).Some? {
        var q :| p + 1 <= q <= |url| && VideoMatchAt(url, q) == FirstVideoMatch(url, p + 1)
                 && (forall k :: p + 1 <= k < q ==> VideoMatchAt(url, k).None?);
        assert forall k :: p <= k < q ==> VideoMatchAt(url, k).None?;
      }
    }
  }

  /** A VOD address yields its number: `…twitch.tv/videos/<digits><non-digit…>` with no
      earlier match gives `<digits>`. */
  lemma VideoIdOf(url: string, prefix: string, digits: string, rest: string)
    requires url == prefix + ("twitch.tv/videos/" + digits + rest)
    requires digits != [] && AllDigits(digits) && (rest == [] || !IsDigit(rest[0]))
    requires forall k :: 0 <= k < |prefix| ==> VideoMatchAt(url, k).None?
    ensures ExtractVideoId(url) == Some(digits)
  {
    var t := url[|prefix|..];
    assert t == "twitch.tv/videos/" + digits + rest;
    assert t[..17] == "twitch.tv/videos/";
    assert t[17..] == digits + rest;
    DigitPrefixOfDigitsThen(digits, rest);
    assert VideoMatchAt(url, |prefix|) == Some(digits);
    VideoIdLeftmost(url, 0);
  }

  /** The repository cards shown: all repositories, or the first four of the data. */
  function VisibleRepos(showAllRepos: bool, dataRepos: seq<GitHubRepoData>, allRepos: seq<GitHubRepoData>): (r: seq<GitHubRepoData>)
    ensures showAllRepos ==> r == allRepos
    ensures !showAllRepos ==> |r| == MinInt(|dataRepos|, 4) && r == dataRepos[..|r|]
  {
    if showAllRepos then allRepos else Take(dataRepos, 4)
  }

  /** `(page || 1) + 1`: the page after the current one, page 2 when the current one
      is 0 (falsy). */
  function NextPage(page: int): (r: int)
    ensures r > page
    ensures page != 0 ==> r == page + 1
    ensures page == 0 ==> r == 2
  {
    (if page == 0 then 1 else page) + 1
  }

  const InitialHistory: seq<string> :=
    ["$ rusty-butter --version", "Rusty Butter v4.2.0 - Autonomous AI Streamer", "$ status --check",
     "Energy Level: MAXIMUM CAFFEINE", "Streaming: LIVE", "Autonomy: EXPANDING"]

  /** The page's state. */
  class Home {
    var terminalInput: string
    var terminalHistory: seq<string>
    var embeddedStream: Option<string>
    var asmongoldMode: bool
    var githubData: Option<GitHubDataResponse>
    var allRepos: seq<GitHubRepoData>
    var expandedRepos: set<string>
    var loadingMoreRepos: bool

    /** The first render: the greeting, the bundled snapshot as data and as the full list. */
    constructor(staticData: StaticData, now: int)
      ensures terminalInput == "" && terminalHistory == InitialHistory
      ensures embeddedStream == None && !asmongoldMode && expandedRepos == {} && !loadingMoreRepos
      ensures githubData == Some(MapStaticData(staticData, now)) && allRepos == MapStaticData(staticData, now).repos
    {
      terminalInput := "";
      terminalHistory := InitialHistory;
      embeddedStream := None;
      asmongoldMode := false;
      var initial := MapStaticData(staticData, now);
      githubData := Some(initial);
      allRepos := initial.repos;
      expandedRepos := {};
      loadingMoreRepos := false;
    }

    /** The terminal part of the state. */
    function Screen(): Terminal
      reads this
    {
      Terminal(terminalInput, terminalHistory, embeddedStream, asmongoldMode)
    }

    /** `handleTerminalSubmit`: the terminal moves as `Submitted` says, and nothing else
        changes. */
    method HandleTerminalSubmit()
      modifies this
      ensures Screen() == Submitted(old(Screen()))
      ensures githubData == old(githubData) && allRepos == old(allRepos) && expandedRepos == old(expandedRepos)
      ensures loadingMoreRepos == old(loadingMoreRepos)
    {
      var input := terminalInput;
      if Trim(input) != [] {
        var cmd := Normalize(input);
        RunCommand(Kind(input), Output(input), ThirdWord(cmd));
      }
    }

    /** The state changes of a non-blank submit whose command is of case `c`, prints `out`
        and names `channel`. */
    method RunCommand(c: Command, out: seq<string>, channel: string)
      modifies this
      ensures Screen() == Step(old(Screen()), c, out, channel)
      ensures githubData == old(githubData) && allRepos == old(allRepos) && expandedRepos == old(expandedRepos)
      ensures loadingMoreRepos == old(loadingMoreRepos)
    {
      if c == Clear {
        terminalHistory := [];
      } else if c == StreamActivity {
        terminalHistory := terminalHistory + out;
        terminalInput := "";
      } else {
        PrintOutput(c, out, channel);
      }
    }

    /** A printing command other than `stream activity`: the mode toggle or the embed,
        then the capped history and an empty input line. */
    method PrintOutput(c: Command, out: seq<string>, channel: string)
      requires c != Clear && c != StreamActivity
      modifies this
      ensures Screen() == Step(old(Screen()), c, out, channel)
      ensures githubData == old(githubData) && allRepos == old(allRepos) && expandedRepos == old(expandedRepos)
      ensures loadingMoreRepos == old(loadingMoreRepos)
    {
      if c == Asmongold {
        asmongoldMode := !asmongoldMode;
      } else if c == StreamEmbed {
        embeddedStream := Some(channel);
      }
      terminalHistory := HistoryAfter(terminalHistory, out);
      terminalInput := "";
    }

    /** `toggleRepoExpansion`: the name leaves the set if it was in it and joins it
        otherwise; only on joining, and only when the repository found (first in the data,
        then in the full list) has no statistics, is a fetch started. An empty list of
        weeks counts as statistics. */
    method ToggleRepoExpansion(repoName: string) returns (fetch: bool)
      modifies this
      ensures repoName in old(expandedRepos) ==> expandedRepos == old(expandedRepos) - {repoName} && !fetch
      ensures repoName !in old(expandedRepos) ==> expandedRepos == old(expandedRepos) + {repoName}
      ensures fetch <==> repoName !in old(expandedRepos) && !HasActivity(FoundRepo(repoName))
      ensures terminalHistory == old(terminalHistory) && terminalInput == old(terminalInput)
      ensures githubData == old(githubData) && allRepos == old(allRepos) && loadingMoreRepos == old(loadingMoreRepos)
      ensures embeddedStream == old(embeddedStream) && asmongoldMode == old(asmongoldMode)
    {
      if repoName in expandedRepos {
        expandedRepos := expandedRepos - {repoName};
        fetch := false;
      } else {
        expandedRepos := expandedRepos + {repoName};
        var currentRepo := FoundRepo(repoName);
        fetch := !(currentRepo.Some? && currentRepo.value.commitActivity.Some?);
      }
    }

    /** `githubData?.repos.find(…) || allRepos.find(…)`: a repository of that name, taken
        from the data when it has one; none only when neither list has one. */
    function FoundRepo(repoName: string): (r: Option<GitHubRepoData>)
      reads this
      ensures r.Some? ==> r.value.name == repoName
      ensures githubData.Some? && FindByName(githubData.value.repos, repoName).Some? ==>
        r == FindByName(githubData.value.repos, repoName)
      ensures r.None? ==>
        (forall i :: 0 <= i < |allRepos| ==> allRepos[i].name != repoName)
        && (githubData.Some? ==> forall i :: 0 <= i < |githubData.value.repos| ==> githubData.value.repos[i].name != repoName)
    {
      var inData := if githubData.Some? then FindByName(githubData.value.repos, repoName) else None;
      if inData.Some? then inData else FindByName(allRepos, repoName)
    }

    /** The OK continuation of `fetchRepoActivity`: both lists get the statistics under
        the repository's name; a non-OK answer changes nothing. */
    method ApplyRepoActivity(repoName: string, reply: RepoActivityRoute.ActivityResponse)
      modifies this
      ensures var a := ActivityOfReply(reply);
        if a.None? then githubData == old(githubData) && allRepos == old(allRepos)
        else
          allRepos == UpdateRepoWithActivity(old(allRepos), repoName, a.value)
          && githubData == (if old(githubData).Some?
                            then Some(old(githubData).value.(repos := UpdateRepoWithActivity(old(githubData).value.repos, repoName, a.value)))
                            else None)
      ensures terminalHistory == old(terminalHistory) && terminalInput == old(terminalInput)
      ensures expandedRepos == old(expandedRepos) && loadingMoreRepos == old(loadingMoreRepos)
      ensures embeddedStream == old(embeddedStream) && asmongoldMode == old(asmongoldMode)
    {
      var a := ActivityOfReply(reply);
      if a.Some? {
        if githubData.Some? {
          githubData := Some(githubData.value.(repos := UpdateRepoWithActivity(githubData.value.repos, repoName, a.value)));
        }
        allRepos := UpdateRepoWithActivity(allRepos, repoName, a.value);
      }
    }

    /** `loadMoreRepos`: nothing unless there is data announcing more pages and no load is
        running; otherwise it asks for the next page (returned) and, on an OK answer, takes
        the answer with its repositories appended to the current ones, and appends them to
        the full list. `reply` stands for the answer to that request (`None`: not OK or
        thrown). */
    method LoadMoreRepos(reply: Option<GitHubDataResponse>) returns (requested: Option<int>)
      modifies this
      ensures !(old(githubData).Some? && old(githubData).value.pagination.hasMore && !old(loadingMoreRepos)) ==>
        requested == None && unchanged(this)
      ensures old(githubData).Some? && old(githubData).value.pagination.hasMore && !old(loadingMoreRepos) ==>
        requested == Some(NextPage(old(githubData).value.pagination.page)) && !loadingMoreRepos
        && (reply.None? ==> githubData == old(githubData) && allRepos == old(allRepos))
        && (reply.Some? ==>
              githubData == Some(reply.value.(repos := old(githubData).value.repos + reply.value.repos))
              && allRepos == old(allRepos) + reply.value.repos)
      ensures terminalHistory == old(terminalHistory) && terminalInput == old(terminalInput)
      ensures expandedRepos == old(expandedRepos)
      ensures embeddedStream == old(embeddedStream) && asmongoldMode == old(asmongoldMode)
    {
      if githubData.None? || !githubData.value.pagination.hasMore || loadingMoreRepos {
        return None;
      }
      loadingMoreRepos := true;
      var page := githubData.value.pagination.page;
      requested := Some((if page == 0 then 1 else page) + 1);
      if reply.Some? {
        githubData := Some(reply.value.(repos := githubData.value.repos + reply.value.repos));
        allRepos := allRepos + reply.value.repos;
      }
      loadingMoreRepos := false;
    }
  }

  /** Whether a found repository already has statistics (`currentRepo?.commitActivity`). */
  predicate HasActivity(r: Option<GitHubRepoData>)
  {
    r.Some? && r.value.commitActivity.Some?
  }

  /** A card whose statistics came back empty is not fetched again when expanded. */
  lemma EmptyActivityIsKept(r: GitHubRepoData)
    ensures HasActivity(Some(r.(commitActivity := Some([]))))
    ensures !HasActivity(Some(r.(commitActivity := None)))
  {
  }
}
