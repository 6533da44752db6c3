/**
 * The live-match resolver of `src/lib/cricket-api.ts`.
 *
 * `getLiveMatch` asks CricAPI, then ESPN Cricinfo, and only when neither
 * yields a match of the tracked fixture (a team whose name mentions India or
 * Pakistan) does it advance and return the locally simulated match. Each
 * provider's payload is normalised into a `MatchData`; the random values
 * the source draws are the `rng` parameter, the provider outcomes are
 * parameters, and the simulated match is passed in and handed back instead
 * of living in a mutable field.
 */
module CricketApi {
  import opened Optional
  import opened Text
  import opened Seqs
  import opened Types

  /** The fixture the resolver looks for: a team name mentioning India or Pakistan, in any case. */
  predicate IsTrackedTeam(name: string)
  {
    Contains(LowerStr(name), "india") || Contains(LowerStr(name), "pakistan")
  }

  // ------------------------------------------------------------ status

  /** CricAPI's `matchStarted`/`matchEnded` flags as a match status. */
  function CricApiStatus(started: bool, ended: bool): (r: MatchStatus)
    ensures r == Upcoming <==> !started
    ensures r == Completed <==> started && ended
    ensures r == Live <==> started && !ended
  {
    if started then (if ended then Completed else Live) else Upcoming
  }

  /** ESPN's numeric `status.type` as a match status: 3 is live, 4 is finished. */
  function EspnStatus(t: Option<int>): (r: MatchStatus)
    ensures r == Live <==> t == Some(3)
    ensures r == Completed <==> t == Some(4)
    ensures r == Upcoming <==> t != Some(3) && t != Some(4)
  {
    if t == Some(3) then Live else if t == Some(4) then Completed else Upcoming
  }

  // -------------------------------------------------------- team naming

  /** The i-th entry of a team-name array, `undefined` past its end. */
  function At(s: seq<string>, i: nat): (r: Option<string>)
    ensures r.Some? <==> i < |s|
    ensures r.Some? ==> r.value == s[i]
  {
    if i < |s| then Some(s[i]) else None
  }

  /** The ten countries with a fixed code; any other name has none. */
  function KnownCode(name: string): (r: Option<string>)
    ensures r.Some? ==> 2 <= |r.value| <= 3
  {
    if name == "India" then Some("IND")
    else if name == "Pakistan" then Some("PAK")
    else if name == "England" then Some("ENG")
    else if name == "Australia" then Some("AUS")
    else if name == "South Africa" then Some("SA")
    else if name == "New Zealand" then Some("NZ")
    else if name == "West Indies" then Some("WI")
    else if name == "Sri Lanka" then Some("SL")
    else if name == "Bangladesh" then Some("BAN")
    else if name == "Afghanistan" then Some("AFG")
    else None
  }

  /**
   * A team's short name: its code when the name is one of the ten known
   * countries, otherwise its first three characters in upper case, and
   * `TBD` when there is no name at all.
   */
  function ShortName(name: Option<string>): (r: string)
    ensures 1 <= |r| <= 3
    ensures name.Some? && KnownCode(name.value).Some? ==> r == KnownCode(name.value).value
    ensures Truthy(name) && KnownCode(name.value).None? ==>
              |r| == (if |name.value| < 3 then |name.value| else 3)
              && forall i :: 0 <= i < |r| ==> r[i] == Upper(name.value[i])
    ensures !Truthy(name) ==> r == "TBD"
  {
    var code := if name.Some? then KnownCode(name.value) else None;
    if code.Some? then code.value
    else if Truthy(name) then UpperStr(Prefix(name.value, 3))
    else "TBD"
  }

  /**
   * A CricAPI team id: the name in lower case with its first space (and only
   * that one) turned into `-`; `fallback` when the name is missing or empty.
   */
  function TeamId(name: Option<string>, fallback: string): (r: string)
    ensures !Truthy(name) ==> r == fallback
    ensures Truthy(name) ==> |r| == |name.value| && !(exists i :: 0 <= i < |r| && IsUpper(r[i]))
    ensures Truthy(name) ==> forall i :: 0 <= i < |r| ==>
              r[i] == Lower(name.value[i]) || (r[i] == '-' && name.value[i] == ' ' && ' ' !in name.value[..i])
    ensures Truthy(name) && ' ' in name.value ==> '-' in r
  {
    if Truthy(name) then
      var n := name.value;
      var low := LowerStr(n);
      var r := ReplaceFirst(low, ' ', '-');
      assert forall i :: 0 <= i < |n| ==> (low[i] == ' ' <==> n[i] == ' ');
      assert forall i :: 0 <= i <= |n| ==> (' ' in low[..i] <==> ' ' in n[..i]) by {
        forall i | 0 <= i <= |n| ensures ' ' in low[..i] <==> ' ' in n[..i] {
          if ' ' in n[..i] {
            var k :| 0 <= k < i && n[..i][k] == ' ';
            assert low[..i][k] == ' ';
          }
          if ' ' in low[..i] {
            var k :| 0 <= k < i && low[..i][k] == ' ';
            assert n[..i][k] == ' ';
          }
        }
      }
      assert ' ' in n ==> ' ' in low by {
        if ' ' in n {
          var k :| 0 <= k < |n| && n[k] == ' ';
          assert low[k] == ' ';
        }
      }
      r
    else
      fallback
  }

  // -------------------------------------------------------------- flags

  /** The four countries with their own flag image. */
  function KnownFlag(name: string): (r: Option<string>)
    ensures r.Some? ==> EndsWith(r.value, ".png")
  {
    if name == "India" then Some("https://storage.googleapis.com/workspace-generated-images/india-flag.png")
    else if name == "Pakistan" then Some("https://storage.googleapis.com/workspace-generated-images/pakistan-flag.png")
    else if name == "England" then Some("https://storage.googleapis.com/workspace-generated-images/england-flag.png")
    else if name == "Australia" then Some("https://storage.googleapis.com/workspace-generated-images/australia-flag.png")
    else None
  }

  /** The fallback flag as evidently meant: an image address ending in `.png`. */
  const DefaultFlag: string :=
    "https://storage.googleapis.com/workspace-0f70711f-8b4e-4d94-86f1-2a93ccde5887/image/a44326b4-96d3-4a2c-973f-d20618deab06.png"

  /** The fallback flag exactly as the source spells it: the same address with a stray `}` after `.png`. */
  const DefaultFlagAsWritten: string := DefaultFlag + "}"

  predicate EndsWith(s: string, suffix: string)
  {
    |suffix| <= |s| && s[|s| - |suffix|..] == suffix
  }

  /** `getTeamFlag` as written: a table hit, else the malformed fallback. */
  function TeamFlagAsWritten(name: Option<string>): (r: string)
    ensures name.Some? && KnownFlag(name.value).Some? ==> r == KnownFlag(name.value).value
    ensures (name.None? || KnownFlag(name.value).None?) ==> r == DefaultFlagAsWritten
  {
    var hit := if name.Some? then KnownFlag(name.value) else None;
    if hit.Some? then hit.value else DefaultFlagAsWritten
  }

  /** A team outside the four-entry table gets a flag address that does not end in `.png`. */
  lemma FlagAsWrittenIsMalformed()
    ensures !EndsWith(TeamFlagAsWritten(Some("Sri Lanka")), ".png")
  {
    var s := DefaultFlagAsWritten;
    assert s[|s| - 4..][3] == '}';
  }

  /** `getTeamFlag` with the fallback corrected: every flag is a `.png` image address. */
  function TeamFlag(name: Option<string>): (r: string)
    ensures EndsWith(r, ".png")
    ensures name.Some? && KnownFlag(name.value).Some? ==> r == KnownFlag(name.value).value
    ensures (name.None? || KnownFlag(name.value).None?) ==> r == DefaultFlag
  {
    var hit := if name.Some? then KnownFlag(name.value) else None;
    if hit.Some? then hit.value else DefaultFlag
  }

  /** The correction changes only the fallback, and there only by dropping the trailing `}`. */
  lemma FlagCorrectionDropsBrace(name: Option<string>)
    ensures name.Some? && KnownFlag(name.value).Some? ==> TeamFlag(name) == TeamFlagAsWritten(name)
    ensures (name.None? || KnownFlag(name.value).None?) ==> TeamFlagAsWritten(name) == TeamFlag(name) + "}"
  {
  }

  // ------------------------------------------------------------- rosters

  datatype RosterKind = IndiaRoster | PakistanRoster | NoRoster

  /** Which generated roster a team gets; a name mentioning both countries counts as India. */
  function RosterFor(name: Option<string>): (k: RosterKind)
    ensures k == IndiaRoster <==> name.Some? && Contains(LowerStr(name.value), "india")
    ensures k == PakistanRoster <==> name.Some? && !Contains(LowerStr(name.value), "india")
                                     && Contains(LowerStr(name.value), "pakistan")
  {
    if name.Some? && Contains(LowerStr(name.value), "india") then IndiaRoster
    else if name.Some? && Contains(LowerStr(name.value), "pakistan") then PakistanRoster
    else NoRoster
  }

  /** Generated figures are whole numbers in 0..49. */
  predicate FiguresInRange(p: Player)
  {
    (p.batting.Some? ==> var b := p.batting.value;
       0 <= b.runs < 50 && 0 <= b.balls < 50 && 0 <= b.fours < 50 && 0 <= b.sixes < 50)
    && (p.bowling.Some? ==> var w := p.bowling.value;
       0 <= w.overs < 50 && w.maidens == 0 && 0 <= w.runs < 50 && 0 <= w.wickets < 50 && 0 <= w.balls < 50)
  }

  function PlayerIds(ps: seq<Player>): seq<string>
  {
    seq(|ps|, i requires 0 <= i < |ps| => ps[i].id)
  }

  /**
   * `generatePlayersForTeam`: three Indian players (two batsmen on the
   * field, one bowler off it), two Pakistani players (Babar Azam off the
   * field with no runs, Shaheen Afridi bowling), or nobody.
   */
  function GeneratePlayers(name: Option<string>, rng: Draws): (ps: seq<Player>)
    ensures RosterFor(name) == IndiaRoster ==>
              PlayerIds(ps) == ["kohli", "rohit", "bumrah"]
              && ps[0].isOnField && ps[1].isOnField && !ps[2].isOnField
              && ps[0].batting.Some? && ps[1].batting.Some? && ps[2].bowling.Some?
    ensures RosterFor(name) == PakistanRoster ==>
              PlayerIds(ps) == ["babar", "shaheen"]
              && !ps[0].isOnField && ps[1].isOnField
              && ps[0].batting == Some(BattingStats(0, 0, 0, 0, true)) && ps[1].bowling.Some?
    ensures RosterFor(name) == NoRoster ==> ps == []
    ensures forall i :: 0 <= i < |ps| ==> FiguresInRange(ps[i])
  {
    match RosterFor(name)
    case IndiaRoster =>
      [ Player("kohli", "Virat Kohli", Batsman,
               Some(BattingStats(Pick(rng(0), 50), Pick(rng(1), 40), Pick(rng(2), 6), Pick(rng(3), 3), true)),
               None, true),
        Player("rohit", "Rohit Sharma", Batsman,
               Some(BattingStats(Pick(rng(4), 40), Pick(rng(5), 30), Pick(rng(6), 5), Pick(rng(7), 2), true)),
               None, true),
        Player("bumrah", "Jasprit Bumrah", Bowler, None,
               Some(BowlingStats(Pick(rng(8), 4), 0, Pick(rng(9), 30), Pick(rng(10), 3), Pick(rng(11), 24))),
               false) ]
    case PakistanRoster =>
      [ Player("babar", "Babar Azam", Batsman, Some(BattingStats(0, 0, 0, 0, true)), None, false),
        Player("shaheen", "Shaheen Afridi", Bowler, None,
               Some(BowlingStats(Pick(rng(0), 4), 0, Pick(rng(1), 35), Pick(rng(2), 2), Pick(rng(3), 24))),
               true) ]
    case NoRoster => []
  }

  // -------------------------------------------------------------- scores

  /** `Math.floor(Math.random() * 100) + 50` and friends: the made-up first-innings score. */
  predicate PlausibleFirstInnings(s: Score)
  {
    0 <= s.balls < 6
  }

  /**
   * The two innings of a CricAPI match. A missing or zero provider count
   * is replaced: team 1's by a random one (runs 50..149, wickets 0..2,
   * overs 5..14), team 2's by zero. Team 1's overs are the provider's
   * plus five, its balls random; team 2 has no balls.
   */
  function CricApiScores(score: seq<CricApiScore>, rng: Draws): (r: (Score, Score))
    ensures 0 <= r.0.balls < 6 && r.1.balls == 0
    ensures var z := CricApiScore(Some(0), Some(0), Some(0));
            var s1 := if |score| > 0 then score[0] else z;
            && (s1.r.Some? && s1.r.value != 0 ==> r.0.runs == s1.r.value)
            && (s1.r.None? || s1.r.value == 0 ==> 50 <= r.0.runs < 150)
            && (s1.w.Some? && s1.w.value != 0 ==> r.0.wickets == s1.w.value)
            && (s1.w.None? || s1.w.value == 0 ==> 0 <= r.0.wickets < 3)
            && (s1.o.Some? && s1.o.value != 0 ==> r.0.overs == s1.o.value + 5)
            && (s1.o.None? || s1.o.value == 0 ==> 5 <= r.0.overs < 15)
    ensures |score| < 2 ==> r.1 == Score(0, 0, 0, 0)
    ensures |score| >= 2 ==> r.1 == Score(NumOr(score[1].r, 0), NumOr(score[1].w, 0), NumOr(score[1].o, 0), 0)
  {
    var z := CricApiScore(Some(0), Some(0), Some(0));
    var s1 := if |score| > 0 then score[0] else z;
    var s2 := if |score| > 1 then score[1] else z;
    ( Score(NumOr(s1.r, Pick(rng(0), 100) + 50),
            NumOr(s1.w, Pick(rng(1), 3)),
            NumOr(s1.o, Pick(rng(2), 10)) + 5,
            Pick(rng(3), 6)),
      Score(NumOr(s2.r, 0), NumOr(s2.w, 0), NumOr(s2.o, 0), 0) )
  }

  /** The first-innings entry of the i-th ESPN team, or an empty record. */
  function EspnInningsAt(teams: Option<seq<EspnTeamEntry>>, i: nat): EspnInnings
  {
    if teams.Some? && i < |teams.value| && |teams.value[i].innings| > 0 then teams.value[i].innings[0]
    else EspnInnings(None, None, None)
  }

  /** The two innings of an ESPN match, with the same defaults as for CricAPI. */
  function EspnScores(teams: Option<seq<EspnTeamEntry>>, rng: Draws): (r: (Score, Score))
    ensures 0 <= r.0.balls < 6 && r.1.balls == 0
    ensures var s1 := EspnInningsAt(teams, 0);
            && (s1.runs.None? || s1.runs.value == 0 ==> 50 <= r.0.runs < 150)
            && (s1.runs.Some? && s1.runs.value != 0 ==> r.0.runs == s1.runs.value)
            && (s1.wickets.Some? && s1.wickets.value != 0 ==> r.0.wickets == s1.wickets.value)
            && (s1.wickets.None? || s1.wickets.value == 0 ==> 0 <= r.0.wickets < 3)
            && (s1.overs.Some? && s1.overs.value != 0 ==> r.0.overs == s1.overs.value + 5)
            && (s1.overs.None? || s1.overs.value == 0 ==> 5 <= r.0.overs < 15)
    ensures var s2 := EspnInningsAt(teams, 1);
            r.1 == Score(NumOr(s2.runs, 0), NumOr(s2.wickets, 0), NumOr(s2.overs, 0), 0)
  {
    var s1 := EspnInningsAt(teams, 0);
    var s2 := EspnInningsAt(teams, 1);
    ( Score(NumOr(s1.runs, Pick(rng(0), 100) + 50),
            NumOr(s1.wickets, Pick(rng(1), 3)),
            NumOr(s1.overs, Pick(rng(2), 10)) + 5,
            Pick(rng(3), 6)),
      Score(NumOr(s2.runs, 0), NumOr(s2.wickets, 0), NumOr(s2.overs, 0), 0) )
  }

  // ---------------------------------------------------------- conversion

  /** Draw windows: team 1's roster, team 2's roster, the score. */
  const Roster1Draws: nat := 0
  const Roster2Draws: nat := 16
  const ScoreDraws: nat := 32

  /** `convertCricAPIToMatchData`, for a match whose `teams` field is present. */
  function ConvertCricApi(m: CricApiMatch, rng: Draws, now: string): (d: MatchData)
    requires m.teams.Some?
    ensures d.status == CricApiStatus(m.matchStarted, m.matchEnded)
    ensures d.team1.name == OrElse(At(m.teams.value, 0), "Team 1")
    ensures d.team2.name == OrElse(At(m.teams.value, 1), "Team 2")
    ensures d.team1.id == TeamId(At(m.teams.value, 0), "team1")
    ensures d.team2.id == TeamId(At(m.teams.value, 1), "team2")
    ensures d.id == m.id
    ensures d.team1.shortName == ShortName(At(m.teams.value, 0))
    ensures d.team2.shortName == ShortName(At(m.teams.value, 1))
    ensures d.team1.flag == TeamFlag(At(m.teams.value, 0)) && d.team2.flag == TeamFlag(At(m.teams.value, 1))
    ensures d.team1.players == GeneratePlayers(At(m.teams.value, 0), From(rng, Roster1Draws))
    ensures d.team2.players == GeneratePlayers(At(m.teams.value, 1), From(rng, Roster2Draws))
    ensures (d.score1, d.score2) == CricApiScores(m.score, From(rng, ScoreDraws))
    ensures d.currentInnings == 1 && 0 <= d.score1.balls < 6
    ensures d.venue == OrElse(m.venue, "TBD") && d.matchType == OrElse(m.matchType, "T20I")
    ensures d.startTime == OrElse(m.date, now)
    ensures d.tossWinner.None? && d.tossDecision.None? && d.weather.None?
  {
    var t0 := At(m.teams.value, 0);
    var t1 := At(m.teams.value, 1);
    var scores := CricApiScores(m.score, From(rng, ScoreDraws));
    MatchData(
      m.id,
      CricApiStatus(m.matchStarted, m.matchEnded),
      Team(TeamId(t0, "team1"), OrElse(t0, "Team 1"), ShortName(t0), TeamFlag(t0),
           GeneratePlayers(t0, From(rng, Roster1Draws))),
      Team(TeamId(t1, "team2"), OrElse(t1, "Team 2"), ShortName(t1), TeamFlag(t1),
           GeneratePlayers(t1, From(rng, Roster2Draws))),
      scores.0, scores.1, 1, None, None,
      OrElse(m.venue, "TBD"), OrElse(m.matchType, "T20I"), OrElse(m.date, now), None)
  }

  /** Reading `teams[i].team` of an ESPN match throws when the entry exists but lacks `team`. */
  predicate EspnEntryBroken(teams: seq<EspnTeamEntry>, i: nat)
  {
    i < |teams| && teams[i].team.None?
  }

  function EspnInfoAt(teams: seq<EspnTeamEntry>, i: nat): EspnTeamInfo
  {
    if i < |teams| && teams[i].team.Some? then teams[i].team.value else EspnTeamInfo(None, None, None)
  }

  function EspnTeam(teams: seq<EspnTeamEntry>, i: nat, fallbackId: string, fallbackName: string,
                    fallbackCode: string, rng: Draws): Team
  {
    var info := EspnInfoAt(teams, i);
    Team(OrElse(info.id, fallbackId), OrElse(info.name, fallbackName), OrElse(info.abbreviation, fallbackCode),
         TeamFlag(info.name), GeneratePlayers(info.name, rng))
  }

  /**
   * `convertESPNToMatchData`, or `None` when it throws: reading the first or
   * second team entry fails when that entry exists but has no `team` record.
   */
  function ConvertEspn(m: EspnMatch, rng: Draws, now: string): (d: Option<MatchData>)
    requires m.teams.Some?
    ensures d.None? <==> EspnEntryBroken(m.teams.value, 0) || EspnEntryBroken(m.teams.value, 1)
    ensures d.Some? ==> d.value.id == m.objectId && d.value.status == EspnStatus(m.statusType)
    ensures d.Some? ==> d.value.team1.id == OrElse(EspnInfoAt(m.teams.value, 0).id, "team1")
                        && d.value.team2.id == OrElse(EspnInfoAt(m.teams.value, 1).id, "team2")
    ensures d.Some? ==> d.value.team1.name == OrElse(EspnInfoAt(m.teams.value, 0).name, "Team 1")
                        && d.value.team2.name == OrElse(EspnInfoAt(m.teams.value, 1).name, "Team 2")
    ensures d.Some? ==> d.value.team1.flag == TeamFlag(EspnInfoAt(m.teams.value, 0).name)
                        && d.value.team2.flag == TeamFlag(EspnInfoAt(m.teams.value, 1).name)
    ensures d.Some? ==> d.value.team1.players == GeneratePlayers(EspnInfoAt(m.teams.value, 0).name, From(rng, Roster1Draws))
                        && d.value.team2.players == GeneratePlayers(EspnInfoAt(m.teams.value, 1).name, From(rng, Roster2Draws))
    ensures d.Some? ==> (d.value.score1, d.value.score2) == EspnScores(m.teams, From(rng, ScoreDraws))
    ensures d.Some? ==> d.value.venue == OrElse(m.venueName, "TBD") && d.value.startTime == OrElse(m.startDate, now)
    ensures d.Some? ==> d.value.team1.shortName == OrElse(EspnInfoAt(m.teams.value, 0).abbreviation, "T1")
    ensures d.Some? ==> d.value.team2.shortName == OrElse(EspnInfoAt(m.teams.value, 1).abbreviation, "T2")
    ensures d.Some? ==> d.value.currentInnings == 1 && d.value.matchType == "T20I" && 0 <= d.value.score1.balls < 6
  {
    var ts := m.teams.value;
    if EspnEntryBroken(ts, 0) || EspnEntryBroken(ts, 1) then None
    else
      var scores := EspnScores(m.teams, From(rng, ScoreDraws));
      Some(MatchData(
        m.objectId,
        EspnStatus(m.statusType),
        EspnTeam(ts, 0, "team1", "Team 1", "T1", From(rng, Roster1Draws)),
        EspnTeam(ts, 1, "team2", "Team 2", "T2", From(rng, Roster2Draws)),
        scores.0, scores.1, 1, None, None,
        OrElse(m.venueName, "TBD"), "T20I", OrElse(m.startDate, now), None))
  }

  // -------------------------------------------------------- provider scan

  /** The outcome of `array.find` over provider matches: a hit, none, or a `TypeError`. */
  datatype Scan = Found(at: nat) | NotFound | Threw(at: nat)

  /** Whether a CricAPI match is about the tracked fixture; reading absent `teams` throws. */
  predicate CricApiTracked(m: CricApiMatch)
    requires m.teams.Some?
  {
    exists i :: 0 <= i < |m.teams.value| && IsTrackedTeam(m.teams.value[i])
  }

  /** The first CricAPI match naming a tracked team, scanning in order. */
  function FindCricApi(ms: seq<CricApiMatch>): (r: Scan)
    ensures r.Found? ==> r.at < |ms| && ms[r.at].teams.Some? && CricApiTracked(ms[r.at])
    ensures r.Threw? ==> r.at < |ms| && ms[r.at].teams.None?
    ensures r.Found? || r.Threw? ==>
              forall j :: 0 <= j < r.at ==> ms[j].teams.Some? && !CricApiTracked(ms[j])
    ensures r.NotFound? ==> forall j :: 0 <= j < |ms| ==> ms[j].teams.Some? && !CricApiTracked(ms[j])
  {
    if |ms| == 0 then NotFound
    else if ms[0].teams.None? then Threw(0)
    else if CricApiTracked(ms[0]) then Found(0)
    else
      match FindCricApi(ms[1..])
      case Found(k) => Found(k + 1)
      case Threw(k) => Threw(k + 1)
      case NotFound => NotFound
  }

  /** Outcome of `Array.prototype.some` whose callback may throw. */
  datatype Probe = Yes | No | Throws

  /** `teams.some(t => t.team.name?.toLowerCase().includes(...))` over ESPN team entries. */
  function EspnEntriesProbe(es: seq<EspnTeamEntry>): (r: Probe)
    ensures r == Yes ==> exists i :: 0 <= i < |es| && es[i].team.Some? && es[i].team.value.name.Some?
                                     && IsTrackedTeam(es[i].team.value.name.value)
    ensures r == No ==> forall i :: 0 <= i < |es| ==> es[i].team.Some?
    ensures r == Throws ==> exists i :: 0 <= i < |es| && es[i].team.None?
  {
    if |es| == 0 then No
    else if es[0].team.None? then Throws
    else if es[0].team.value.name.Some? && IsTrackedTeam(es[0].team.value.name.value) then Yes
    else EspnEntriesProbe(es[1..])
  }

  /** `m.teams?.some(...)`: a match without `teams` simply does not match. */
  function EspnMatchProbe(m: EspnMatch): Probe
  {
    if m.teams.None? then No else EspnEntriesProbe(m.teams.value)
  }

  /** The first ESPN match naming a tracked team, scanning in order. */
  function FindEspn(ms: seq<EspnMatch>): (r: Scan)
    ensures r.Found? ==> r.at < |ms| && EspnMatchProbe(ms[r.at]) == Yes && ms[r.at].teams.Some?
    ensures r.Threw? ==> r.at < |ms| && EspnMatchProbe(ms[r.at]) == Throws
    ensures r.Found? || r.Threw? ==> forall j :: 0 <= j < r.at ==> EspnMatchProbe(ms[j]) == No
    ensures r.NotFound? ==> forall j :: 0 <= j < |ms| ==> EspnMatchProbe(ms[j]) == No
  {
    if |ms| == 0 then NotFound
    else
      match EspnMatchProbe(ms[0])
      case Yes => Found(0)
      case Throws => Threw(0)
      case No =>
        match FindEspn(ms[1..])
        case Found(k) => Found(k + 1)
        case Threw(k) => Threw(k + 1)
        case NotFound => NotFound
  }

  // ------------------------------------------------------------ resolver

  /** The CricAPI step of `tryRealAPIs`: a converted match, or nothing (every failure is swallowed). */
  function TryCricApi(resp: CricApiResponse, rng: Draws, now: string): (r: Option<MatchData>)
    ensures r.Some? <==> resp.CricApiOk? && resp.data.Some? && FindCricApi(resp.data.value).Found?
    ensures r.Some? ==> r.value == ConvertCricApi(resp.data.value[FindCricApi(resp.data.value).at], rng, now)
  {
    if resp.CricApiOk? && resp.data.Some? && |resp.data.value| > 0 then
      match FindCricApi(resp.data.value)
      case Found(i) => Some(ConvertCricApi(resp.data.value[i], rng, now))
      case _ => None
    else None
  }

  /** The ESPN step of `tryRealAPIs`. */
  function TryEspn(resp: EspnResponse, rng: Draws, now: string): (r: Option<MatchData>)
    ensures r.Some? ==> resp.EspnOk? && resp.matches.Some? && FindEspn(resp.matches.value).Found?
    ensures resp.EspnOk? && resp.matches.Some? && FindEspn(resp.matches.value).Found? ==>
              var m := resp.matches.value[FindEspn(resp.matches.value).at];
              r == ConvertEspn(m, rng, now)
  {
    if resp.EspnOk? && resp.matches.Some? && |resp.matches.value| > 0 then
      match FindEspn(resp.matches.value)
      case Found(i) => ConvertEspn(resp.matches.value[i], rng, now)
      case _ => None
    else None
  }

  /** `tryRealAPIs`: CricAPI first; ESPN only when CricAPI yields nothing. */
  function TryRealApis(cric: CricApiResponse, espn: EspnResponse, rng: Draws, now: string): (r: Option<MatchData>)
    ensures TryCricApi(cric, rng, now).Some? ==> r == TryCricApi(cric, rng, now)
    ensures TryCricApi(cric, rng, now).None? ==> r == TryEspn(espn, rng, now)
  {
    var first := TryCricApi(cric, rng, now);
    if first.Some? then first else TryEspn(espn, rng, now)
  }

  // ---------------------------------------------------------- simulation

  /** The balls bowled in an innings. */
  function BallsBowled(s: Score): int
  {
    s.overs * 6 + s.balls
  }

  /** Chance that a poll advances the simulated match: `Math.random() > 0.7`. */
  const AdvanceThreshold: real := 0.7

  /**
   * `updateMockData`: with probability 0.3 (when `roll` exceeds 0.7) team 1
   * scores 1 to 6 runs off one more ball, a sixth ball completing the
   * over; otherwise nothing changes. Nothing but team 1's runs, overs and
   * balls is ever touched.
   */
  function Advance(m: MatchData, roll: Unit, runsRoll: Unit): (r: MatchData)
    ensures roll <= AdvanceThreshold ==> r == m
    ensures roll > AdvanceThreshold ==> m.score1.runs + 1 <= r.score1.runs <= m.score1.runs + 6
    ensures roll > AdvanceThreshold ==> BallsBowled(r.score1) == BallsBowled(m.score1) + 1
    ensures roll > AdvanceThreshold ==> (r.score1.overs == m.score1.overs + 1 <==> m.score1.balls == 5)
    ensures roll > AdvanceThreshold ==> (r.score1.overs == m.score1.overs <==> m.score1.balls != 5)
    ensures 0 <= m.score1.balls < 6 ==> 0 <= r.score1.balls < 6
    ensures r.score1.wickets == m.score1.wickets
    ensures r == m.(score1 := r.score1)
  {
    if roll > AdvanceThreshold then
      var s := m.score1;
      var runs := s.runs + Pick(runsRoll, 6) + 1;
      var balls := s.balls + 1;
      var s' := if balls == 6 then s.(runs := runs, overs := s.overs + 1, balls := 0)
                else s.(runs := runs, balls := balls);
      m.(score1 := s')
    else
      m
  }

  /** The simulated match the service starts from: India 68/0 after 8.2 overs against Pakistan. */
  const MockMatch: MatchData := MatchData(
    "ind-vs-pak-2024", Live,
    Team("ind", "India", "IND",
         "https://storage.googleapis.com/workspace-0f70711f-8b4e-4d94-86f1-2a93ccde5887/image/4027463d-9cda-444f-be43-48b8ddf707d6.png",
         [ Player("kohli", "Virat Kohli", Batsman, Some(BattingStats(45, 32, 4, 1, true)), None, true),
           Player("rohit", "Rohit Sharma", Batsman, Some(BattingStats(23, 18, 3, 0, true)), None, true),
           Player("bumrah", "Jasprit Bumrah", Bowler, None, Some(BowlingStats(0, 0, 0, 0, 0)), false) ]),
    Team("pak", "Pakistan", "PAK",
         "https://storage.googleapis.com/workspace-0f70711f-8b4e-4d94-86f1-2a93ccde5887/image/1d992f2b-d1b3-4675-b220-42ed10d460c5.png",
         [ Player("babar", "Babar Azam", Batsman, Some(BattingStats(0, 0, 0, 0, true)), None, false),
           Player("shaheen", "Shaheen Afridi", Bowler, None, Some(BowlingStats(3, 0, 28, 0, 20)), true) ]),
    Score(68, 0, 8, 2), Score(0, 0, 0, 0), 1,
    Some("India"), Some(Bat),
    "Dubai International Cricket Stadium", "T20I", "2024-01-15T14:30:00Z",
    Some(Weather("Clear", 28, 45, 12)))

  /** One poll's random draws: whether the match advances, and by how many runs. */
  datatype Roll = Roll(advance: Unit, runs: Unit)

  /** The simulated match after a run of polls during a total provider outage. */
  function Simulate(m: MatchData, rolls: seq<Roll>): MatchData
    decreases |rolls|
  {
    if |rolls| == 0 then m else Simulate(Advance(m, rolls[0].advance, rolls[0].runs), rolls[1..])
  }

  /** How many of the polls advance the match. */
  function Advances(rolls: seq<Roll>): (n: nat)
    ensures n <= |rolls|
  {
    if |rolls| == 0 then 0
    else (if rolls[0].advance > AdvanceThreshold then 1 else 0) + Advances(rolls[1..])
  }

  /**
   * However long the outage lasts, runs and overs never go down, wickets
   * and the second innings never change, `balls` stays in 0..5, and each
   * advancing poll adds exactly one ball and one to six runs.
   */
  lemma {:induction false} SimulationProgresses(m: MatchData, rolls: seq<Roll>)
    requires 0 <= m.score1.balls < 6
    ensures var r := Simulate(m, rolls);
            && 0 <= r.score1.balls < 6
            && r.score1.overs >= m.score1.overs
            && r.score1.wickets == m.score1.wickets
            && r.score2 == m.score2
            && BallsBowled(r.score1) == BallsBowled(m.score1) + Advances(rolls)
            && m.score1.runs + Advances(rolls) <= r.score1.runs <= m.score1.runs + 6 * Advances(rolls)
            && r == m.(score1 := r.score1)
    decreases |rolls|
  {
    if |rolls| > 0 {
      var m' := Advance(m, rolls[0].advance, rolls[0].runs);
      SimulationProgresses(m', rolls[1..]);
    }
  }

  /** `getLiveMatch`: the resolved match and the simulated match to keep for the next call. */
  datatype Resolved = Resolved(data: MatchData, mock: MatchData)

  /**
   * `getLiveMatch`. A provider's failure never surfaces: the result is a
   * provider's match when one yields it, and only otherwise the simulated
   * match, advanced once; the simulation advances only on that path.
   */
  function GetLiveMatch(cric: CricApiResponse, espn: EspnResponse, rng: Draws, now: string,
                        mock: MatchData, roll: Roll): (r: Resolved)
    ensures TryCricApi(cric, rng, now).Some? ==> r == Resolved(TryCricApi(cric, rng, now).value, mock)
    ensures TryCricApi(cric, rng, now).None? && TryEspn(espn, rng, now).Some? ==>
              r == Resolved(TryEspn(espn, rng, now).value, mock)
    ensures TryCricApi(cric, rng, now).None? && TryEspn(espn, rng, now).None? ==>
              r.data == r.mock == Advance(mock, roll.advance, roll.runs)
  {
    match TryRealApis(cric, espn, rng, now)
    case Some(d) => Resolved(d, mock)
    case None =>
      var next := Advance(mock, roll.advance, roll.runs);
      Resolved(next, next)
  }

  /**
   * A provider that fails outright is indistinguishable from one that
   * answers with no matches at all, so no provider error reaches the caller.
   */
  lemma ProviderFailureIsSilent(espn: EspnResponse, rng: Draws, now: string, mock: MatchData, roll: Roll)
    ensures GetLiveMatch(CricApiFailed, espn, rng, now, mock, roll)
         == GetLiveMatch(CricApiOk(Some([])), espn, rng, now, mock, roll)
    ensures GetLiveMatch(CricApiFailed, EspnFailed, rng, now, mock, roll)
         == GetLiveMatch(CricApiFailed, EspnOk(Some([])), rng, now, mock, roll)
  {
  }

  /**
   * A CricAPI list where an earlier entry lacks `teams` hides a later
   * tracked match: the `TypeError` sends the resolver on to ESPN.
   */
  lemma CricApiTypeErrorFallsThrough(bad: CricApiMatch, good: CricApiMatch, espn: EspnResponse,
                                     rng: Draws, now: string, mock: MatchData, roll: Roll)
    requires bad.teams.None? && good.teams == Some(["India", "Pakistan"])
    ensures GetLiveMatch(CricApiOk(Some([bad, good])), espn, rng, now, mock, roll)
         == GetLiveMatch(CricApiFailed, espn, rng, now, mock, roll)
  {
  }

  /** A tracked CricAPI match wins even when untracked matches come before it. */
  lemma CricApiSkipsUntracked(other: CricApiMatch, good: CricApiMatch, espn: EspnResponse,
                              rng: Draws, now: string, mock: MatchData, roll: Roll)
    requires other.teams.Some? && !CricApiTracked(other)
    requires good.teams.Some? && CricApiTracked(good)
    ensures GetLiveMatch(CricApiOk(Some([other, good])), espn, rng, now, mock, roll).data
         == ConvertCricApi(good, rng, now)
  {
    var ms := [other, good];
    assert ms[1..] == [good];
    assert FindCricApi([good]) == Found(0);
    assert FindCricApi(ms) == Found(1);
    assert TryCricApi(CricApiOk(Some(ms)), rng, now) == Some(ConvertCricApi(good, rng, now));
  }

  // ---------------------------------------------------------- commentary

  /** The stored commentary, newest first: 8.2 at `t0`, 8.1 thirty seconds earlier, 7.6 a minute earlier. */
  function MockCommentary(t0: int): seq<Commentary>
  {
    [ Commentary("1", 8, 2, 4, "FOUR! Kohli drives beautifully through covers for his 4th boundary",
                 t0, false, true, Some("Virat Kohli")),
      Commentary("2", 8, 1, 1, "Single taken to deep square leg, good running between the wickets",
                 t0 - 30, false, false, Some("Rohit Sharma")),
      Commentary("3", 7, 6, 6, "SIX! What a shot! Rohit pulls it over deep mid-wicket for maximum!",
                 t0 - 60, false, true, Some("Rohit Sharma")) ]
  }

  function Timestamp(c: Commentary): int { c.timestamp }

  /** `getCommentary` as written: a reversed copy of the stored list. */
  function GetCommentaryAsWritten(stored: seq<Commentary>): (r: seq<Commentary>)
    ensures |r| == |stored|
    ensures forall i :: 0 <= i < |r| ==> r[i] == stored[|stored| - 1 - i]
  {
    Reverse(stored)
  }

  /** With the shipped data the reversal puts the oldest ball (7.6) first. */
  lemma CommentaryAsWrittenOldestFirst(t0: int)
    ensures var r := GetCommentaryAsWritten(MockCommentary(t0));
            r[0].over == 7 && r[0].ball == 6 && !SortedDesc(r, Timestamp)
  {
    var r := GetCommentaryAsWritten(MockCommentary(t0));
    assert Timestamp(r[0]) < Timestamp(r[1]);
  }

  /** `getCommentary` as its comment intends: most recent first, nothing lost or added. */
  function GetCommentary(stored: seq<Commentary>): (r: seq<Commentary>)
    ensures SortedDesc(r, Timestamp)
    ensures multiset(r) == multiset(stored)
  {
    SortDesc(stored, Timestamp)
  }

  /** With the shipped data the intended order puts 8.2 first. */
  lemma CommentaryNewestFirst(t0: int)
    ensures var r := GetCommentary(MockCommentary(t0));
            r == MockCommentary(t0) && r[0].over == 8 && r[0].ball == 2
  {
    var s := MockCommentary(t0);
    NewestFirstKept(s[0], s[1], s[2]);
    assert s == [s[0], s[1], s[2]];
  }

  /** Three entries already newest first come back unchanged. */
  lemma NewestFirstKept(a: Commentary, b: Commentary, c: Commentary)
    requires a.timestamp >= b.timestamp >= c.timestamp
    ensures GetCommentary([a, b, c]) == [a, b, c]
  {
    var s := [a, b, c];
    assert SortedDesc(s, Timestamp);
    SortDescOfSorted(s, Timestamp);
  }

  // ---------------------------------------------------------------- chat

  function ChatTimestamp(m: ChatMessage): int { m.timestamp }

  /** `getLiveChat`: the stored messages, newest first, one from each origin. */
  function GetLiveChat(t0: int): (r: seq<ChatMessage>)
    ensures SortedDesc(r, ChatTimestamp)
    ensures |r| == 3 && r[0].country == In && r[1].country == Pk && r[2].country == Other
  {
    [ ChatMessage("1", "CricketFan_IND", "What a partnership! IND looking strong! \U{1F1EE}\U{1F1F3}", t0, In),
      ChatMessage("2", "PakCricketLover", "Need early wickets here! Come on Pakistan! \U{1F1F5}\U{1F1F0}", t0 - 15, Pk),
      ChatMessage("3", "CricketExpert", "This partnership is building nicely, 68/0 after 8 overs", t0 - 30, Other) ]
  }
}
