/**
 * The records of `src/lib/types.ts` and `src/lib/streaming-types.ts`, the
 * post-parse shapes of the two upstream providers (CricAPI and ESPN
 * Cricinfo), and the random draws the source takes from `Math.random()`.
 *
 * Floating-point fields (`runRate`, `requiredRunRate`, `strikeRate`,
 * `economy`) are not carried; timestamps are whole seconds.
 */
module Types {
  import opened Optional

  // ------------------------------------------------------------ randomness

  /** A value of `Math.random()`: a number in [0, 1). */
  type Unit = r: real | 0.0 <= r < 1.0

  /** A stream of `Math.random()` values; the k-th call reads `rng(k)`. */
  type Draws = nat -> Unit

  /** `Math.floor(Math.random() * n)`: a whole number in 0..n-1. */
  function Pick(r: Unit, n: nat): (k: int)
    requires n > 0
    ensures 0 <= k < n
  {
    var nr := n as real;
    var x := r * nr;
    assert x < nr by {
      assert 0.0 < 1.0 - r && 0.0 < nr;
      assert (1.0 - r) * nr > 0.0;
      assert nr - x == (1.0 - r) * nr;
    }
    x.Floor
  }

  /** The draws from index `base` on. */
  function From(rng: Draws, base: nat): Draws
  {
    k => rng(base + k)
  }

  /** JavaScript truthiness of an optional string: present and non-empty. */
  predicate Truthy(s: Option<string>)
  {
    s.Some? && s.value != ""
  }

  /** `s || d` for an optional string. */
  function OrElse(s: Option<string>, d: string): (r: string)
    ensures Truthy(s) ==> r == s.value
    ensures !Truthy(s) ==> r == d
  {
    if Truthy(s) then s.value else d
  }

  /** `n || d` for an optional number: `0` and a missing value are falsy. */
  function NumOr(n: Option<int>, d: int): (r: int)
    ensures n.Some? && n.value != 0 ==> r == n.value
    ensures n.None? || n.value == 0 ==> r == d
  {
    if n.Some? && n.value != 0 then n.value else d
  }

  // ----------------------------------------------------------------- match

  datatype MatchStatus = Live | Upcoming | Completed

  datatype Role = Batsman | Bowler | Allrounder | Wicketkeeper

  datatype BattingStats = BattingStats(runs: int, balls: int, fours: int, sixes: int, isNotOut: bool)

  datatype BowlingStats = BowlingStats(overs: int, maidens: int, runs: int, wickets: int, balls: int)

  datatype Player = Player(
    id: string,
    name: string,
    role: Role,
    batting: Option<BattingStats>,
    bowling: Option<BowlingStats>,
    isOnField: bool)

  datatype Team = Team(id: string, name: string, shortName: string, flag: string, players: seq<Player>)

  /** An innings score; `balls` counts the balls of the over in progress. */
  datatype Score = Score(runs: int, wickets: int, overs: int, balls: int)

  datatype TossDecision = Bat | Bowl

  datatype Weather = Weather(condition: string, temperature: int, humidity: int, windSpeed: int)

  datatype MatchData = MatchData(
    id: string,
    status: MatchStatus,
    team1: Team,
    team2: Team,
    score1: Score,
    score2: Score,
    currentInnings: int,
    tossWinner: Option<string>,
    tossDecision: Option<TossDecision>,
    venue: string,
    matchType: string,
    startTime: string,
    weather: Option<Weather>)

  datatype Commentary = Commentary(
    id: string,
    over: int,
    ball: int,
    runs: int,
    text: string,
    timestamp: int,
    isWicket: bool,
    isBoundary: bool,
    player: Option<string>)

  /** A chat message's origin: `'in' | 'pk' | 'other'`. */
  datatype Country = In | Pk | Other

  datatype ChatMessage = ChatMessage(id: string, user: string, message: string, timestamp: int, country: Country)

  datatype Partnership = Partnership(runs: int, balls: int, player1: string, player2: string, isActive: bool)

  datatype FallOfWicket = FallOfWicket(wicketNumber: int, runs: int, overs: int, player: string, howOut: string)

  datatype PowerplayScore = PowerplayScore(phase: string, overs: string, runs: int, wickets: int)

  datatype MatchStats = MatchStats(
    partnerships: seq<Partnership>,
    fallOfWickets: seq<FallOfWicket>,
    powerplayScores: seq<PowerplayScore>)

  // ------------------------------------------------------------- streaming

  datatype Category = Cricket | Sports | News | Entertainment

  function CategoryName(c: Category): string
  {
    match c
    case Cricket => "cricket"
    case Sports => "sports"
    case News => "news"
    case Entertainment => "entertainment"
  }

  /** A channel's country: `'in' | 'pk' | 'global'`. */
  datatype ChannelCountry = InCountry | PkCountry | Global

  function CountryCode(c: ChannelCountry): string
  {
    match c
    case InCountry => "in"
    case PkCountry => "pk"
    case Global => "global"
  }

  datatype StreamQuality = StreamQuality(resolution: string, bitrate: int, url: string, codec: string)

  datatype CurrentProgram = CurrentProgram(title: string, description: string, isLive: bool, category: string)

  datatype Channel = Channel(
    id: string,
    name: string,
    description: string,
    category: Category,
    country: ChannelCountry,
    streamUrl: string,
    backupStreamUrl: Option<string>,
    isLive: bool,
    quality: seq<StreamQuality>,
    language: seq<string>,
    currentProgram: Option<CurrentProgram>,
    viewerCount: int,
    tags: seq<string>)

  /** An entry of the current-matches list (`LiveMatch` in the source). */
  datatype LiveMatch = LiveMatch(
    id: string,
    title: string,
    team1: string,
    team2: string,
    matchType: Option<string>,
    venue: Option<string>,
    startTime: Option<string>,
    status: MatchStatus,
    streamingChannels: seq<string>,
    officialStream: Option<string>,
    highlights: seq<string>)

  datatype ChannelCategory = ChannelCategory(id: string, name: string, description: string, channels: seq<Channel>)

  // ------------------------------------------------------------- providers

  /** One entry of a CricAPI match's `score` array (`r`, `w`, `o`). */
  datatype CricApiScore = CricApiScore(r: Option<int>, w: Option<int>, o: Option<int>)

  /** A CricAPI `currentMatches` entry; `teams` is `None` when the field is absent. */
  datatype CricApiMatch = CricApiMatch(
    id: string,
    name: string,
    matchType: Option<string>,
    venue: Option<string>,
    date: Option<string>,
    teams: Option<seq<string>>,
    score: seq<CricApiScore>,
    matchStarted: bool,
    matchEnded: bool)

  /** The outcome of one CricAPI request: a failure (network, HTTP status, JSON) or the parsed `data` field. */
  datatype CricApiResponse = CricApiFailed | CricApiOk(data: Option<seq<CricApiMatch>>)

  datatype EspnInnings = EspnInnings(runs: Option<int>, wickets: Option<int>, overs: Option<int>)

  datatype EspnTeamInfo = EspnTeamInfo(id: Option<string>, name: Option<string>, abbreviation: Option<string>)

  /** One entry of an ESPN match's `teams` array; `team` is `None` when the field is absent. */
  datatype EspnTeamEntry = EspnTeamEntry(team: Option<EspnTeamInfo>, innings: seq<EspnInnings>)

  datatype EspnMatch = EspnMatch(
    objectId: string,
    title: string,
    teams: Option<seq<EspnTeamEntry>>,
    statusType: Option<int>,
    venueName: Option<string>,
    startDate: Option<string>)

  /** The outcome of one ESPN request: a failure or the parsed `matches` field. */
  datatype EspnResponse = EspnFailed | EspnOk(matches: Option<seq<EspnMatch>>)
}
