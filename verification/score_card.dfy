/**
 * The decisions of `src/components/ScoreCard.tsx`: how overs are written,
 * which side is batting, who the current batsmen and bowler are, and when
 * the previous innings is shown.
 */
module ScoreCard {
  import opened Optional
  import opened Text
  import opened Seqs
  import opened Types

  // ------------------------------------------------------------ overs

  /** `formatOvers`: both branches write overs, a dot and the balls, so no balls reads "o.0". */
  function FormatOvers(overs: int, balls: int): (r: string)
    ensures r == IntToString(overs) + "." + IntToString(balls)
    ensures balls == 0 ==> r[|r| - 2..] == ".0"
  {
    if balls == 0 then IntToString(overs) + ".0" else IntToString(overs) + "." + IntToString(balls)
  }

  /** Reads an "overs.balls" figure back: digits, the first dot, digits. */
  function ParseOvers(s: string): (r: Option<(nat, nat)>)
  {
    match FindFirst(s, (c: char) => c == '.')
    case None => None
    case Some(k) =>
      if AllDigits(s[..k]) && AllDigits(s[k + 1..]) then Some((ParseNat(s[..k]), ParseNat(s[k + 1..]))) else None
  }

  /** The overs figure determines the score it was written from. */
  lemma {:induction false} FormatOversRoundTrip(overs: nat, balls: nat)
    ensures ParseOvers(FormatOvers(overs, balls)) == Some((overs, balls))
  {
    var a := NatToString(overs);
    var b := NatToString(balls);
    var s := FormatOvers(overs, balls);
    assert s == a + "." + b;
    assert s[|a|] == '.';
    var found := FindFirst(s, (c: char) => c == '.');
    assert forall j :: 0 <= j < |a| ==> s[j] == a[j] && IsDigit(a[j]);
    assert found == Some(|a|);
    assert s[..|a|] == a && s[|a| + 1..] == b;
    ParseNatToString(overs);
    ParseNatToString(balls);
  }

  // ------------------------------------------------------------ sides

  /** Team 1 bats in the first innings and team 2 in any other. */
  predicate Team1Batting(m: MatchData)
  {
    m.currentInnings == 1
  }

  /** The batting side: its team and its score. */
  function BattingSide(m: MatchData): (r: (Team, Score))
    ensures Team1Batting(m) ==> r == (m.team1, m.score1)
    ensures !Team1Batting(m) ==> r == (m.team2, m.score2)
  {
    if Team1Batting(m) then (m.team1, m.score1) else (m.team2, m.score2)
  }

  /** The side in the field: team 2 in the first innings, team 1 otherwise. */
  function BowlingTeam(m: MatchData): (t: Team)
    ensures Team1Batting(m) ==> t == m.team2
    ensures !Team1Batting(m) ==> t == m.team1
  {
    if m.currentInnings == 1 then m.team2 else m.team1
  }

  /** The two sides are always the two different entries of the match: one bats while the other bowls. */
  lemma SidesAreOpposite(m: MatchData)
    ensures {BattingSide(m).0, BowlingTeam(m)} == {m.team1, m.team2}
    ensures BattingSide(m).0 == m.team1 <==> BowlingTeam(m) == m.team2 || m.team1 == m.team2
  {
  }

  /** The previous-innings line (team 1's completed innings) is shown only in the second innings. */
  predicate ShowPreviousInnings(m: MatchData)
  {
    m.currentInnings == 2
  }

  /**
   * When the previous-innings line shows, team 2 is batting and team 1 is in
   * the field, so the line's team-1 figures are the completed innings; it
   * never shows in the first innings.
   */
  lemma PreviousInningsIsTeam1(m: MatchData)
    ensures ShowPreviousInnings(m) ==> BattingSide(m) == (m.team2, m.score2) && BowlingTeam(m) == m.team1
    ensures Team1Batting(m) ==> !ShowPreviousInnings(m)
  {
  }

  // ---------------------------------------------------------- players

  /** A player who is at the crease: on the field with batting figures. */
  predicate AtCrease(p: Player)
  {
    p.isOnField && p.batting.Some?
  }

  /** Whether a player has bowled: bowling figures with at least one ball. */
  predicate HasBowled(p: Player)
  {
    p.bowling.Some? && p.bowling.value.balls > 0
  }

  /**
   * The first two players of a roster who are at the crease, in roster
   * order: all of them when there are fewer than two.
   */
  function Batsmen(players: seq<Player>): (r: seq<Player>)
    ensures |r| <= 2
    ensures forall p :: p in r ==> p in players && AtCrease(p)
    ensures IsSubsequence(r, players)
    ensures |r| < 2 ==> forall p :: p in players && AtCrease(p) ==> p in r
    ensures var c := Filter(players, AtCrease);
            |r| == (if |c| < 2 then |c| else 2) && r == c[..|r|]
  {
    var atCrease := Filter(players, AtCrease);
    var r := Take(atCrease, 2);
    assert IsSubsequence(r, players) by {
      TakeSubsequence(atCrease, 2);
      SubsequenceTransitive(r, atCrease, players);
    }
    r
  }

  /** `getCurrentBatsmen` as written: the team is looked up by id, which picks team 1 whenever the ids coincide. */
  function CurrentBatsmenAsWritten(m: MatchData): (r: seq<Player>)
    ensures forall p :: p in r ==> AtCrease(p) && (p in m.team1.players || p in m.team2.players)
    ensures BattingSide(m).0.id == m.team1.id ==> r == Batsmen(m.team1.players)
    ensures BattingSide(m).0.id != m.team1.id ==> r == Batsmen(m.team2.players)
  {
    var teamId := BattingSide(m).0.id;
    var team := if teamId == m.team1.id then m.team1 else m.team2;
    Batsmen(team.players)
  }

  /** Two sides sharing an id in the second innings: the card shows team 1's batsmen under team 2's score. */
  lemma BatsmenAsWrittenWrongSide()
    ensures var striker := Player("p1", "A", Batsman, Some(BattingStats(10, 8, 1, 0, true)), None, true);
            var other := Player("p2", "B", Batsman, Some(BattingStats(4, 3, 0, 0, true)), None, true);
            var m := MatchData("m", Live, Team("india", "India", "IND", "", [striker]),
                               Team("india", "india", "IND", "", [other]),
                               Score(150, 5, 20, 0), Score(12, 0, 2, 0), 2, None, None, "", "T20", "", None);
            CurrentBatsmenAsWritten(m) == [striker] && CurrentBatsmen(m) == [other]
  {
  }

  /** `getCurrentBatsmen` as evidently intended: the batting side's first two players at the crease. */
  function CurrentBatsmen(m: MatchData): (r: seq<Player>)
    ensures |r| <= 2
    ensures forall p :: p in r ==> p in BattingSide(m).0.players && AtCrease(p)
    ensures IsSubsequence(r, BattingSide(m).0.players)
    ensures |r| < 2 ==> forall p :: p in BattingSide(m).0.players && AtCrease(p) ==> p in r
    ensures var c := Filter(BattingSide(m).0.players, AtCrease);
            |r| == (if |c| < 2 then |c| else 2) && r == c[..|r|]
  {
    Batsmen(BattingSide(m).0.players)
  }

  /** When the two sides have different ids the lookup by id finds the batting side, so both agree. */
  lemma BatsmenAgreeWhenIdsDiffer(m: MatchData)
    requires m.team1.id != m.team2.id
    ensures CurrentBatsmenAsWritten(m) == CurrentBatsmen(m)
  {
  }

  /** `getCurrentBowler`: the first player of the fielding side who has bowled, if any. */
  function CurrentBowler(m: MatchData): (r: Option<Player>)
    ensures r.Some? <==> exists i :: 0 <= i < |BowlingTeam(m).players| && HasBowled(BowlingTeam(m).players[i])
    ensures r.Some? ==> r.value in BowlingTeam(m).players && HasBowled(r.value)
    ensures r.Some? ==> exists i :: 0 <= i < |BowlingTeam(m).players| && BowlingTeam(m).players[i] == r.value
                                    && forall j :: 0 <= j < i ==> !HasBowled(BowlingTeam(m).players[j])
  {
    Find(BowlingTeam(m).players, HasBowled)
  }
}
