/**
 * The decisions of `src/components/Commentary.tsx`: how a ball is
 * classified for its icon and card style, the run badge, the time label,
 * and the placeholder for an empty feed.
 */
module CommentaryView {
  import opened Optional
  import opened Text
  import opened Types
  import opened RelativeTime

  /** What kind of ball an entry describes, in the panel's order of priority. */
  datatype BallKind = WicketBall | SixHit | FourHit | DotBall | RunsBall

  /** The first matching rule wins: wicket, boundary six, boundary four, no run, anything else. */
  function Classify(c: Commentary): (k: BallKind)
    ensures k == WicketBall <==> c.isWicket
    ensures k == SixHit <==> !c.isWicket && c.isBoundary && c.runs == 6
    ensures k == FourHit <==> !c.isWicket && c.isBoundary && c.runs == 4
    ensures k == DotBall <==> !c.isWicket && !(c.isBoundary && (c.runs == 6 || c.runs == 4)) && c.runs == 0
  {
    if c.isWicket then WicketBall
    else if c.isBoundary && c.runs == 6 then SixHit
    else if c.isBoundary && c.runs == 4 then FourHit
    else if c.runs == 0 then DotBall
    else RunsBall
  }

  /** `getCommentaryIcon`: one icon per kind of ball. */
  function Icon(c: Commentary): (r: string)
    ensures r == IconOf(Classify(c))
  {
    if c.isWicket then "\U{1F3AF}"
    else if c.isBoundary && c.runs == 6 then "\U{1F680}"
    else if c.isBoundary && c.runs == 4 then "\U{1F525}"
    else if c.runs == 0 then "\U{26AA}"
    else "\U{1F3CF}"
  }

  function IconOf(k: BallKind): string
  {
    match k
    case WicketBall => "\U{1F3AF}"
    case SixHit => "\U{1F680}"
    case FourHit => "\U{1F525}"
    case DotBall => "\U{26AA}"
    case RunsBall => "\U{1F3CF}"
  }

  /** The icon tells the kind of ball apart: no two kinds share one. */
  lemma IconsDistinct(a: Commentary, b: Commentary)
    requires Icon(a) == Icon(b)
    ensures Classify(a) == Classify(b)
  {
  }

  const WicketStyle: string := "bg-red-500/20 border-red-500/30"
  const SixStyle: string := "bg-purple-500/20 border-purple-500/30"
  const FourStyle: string := "bg-green-500/20 border-green-500/30"
  const PlainStyle: string := "bg-white/5 border-white/10"

  /** `getCommentaryStyle`: the icon's priority for wickets, sixes and fours; every other ball, a dot ball included, is plain. */
  function Style(c: Commentary): (r: string)
    ensures Classify(c) == WicketBall ==> r == WicketStyle
    ensures Classify(c) == SixHit ==> r == SixStyle
    ensures Classify(c) == FourHit ==> r == FourStyle
    ensures Classify(c) in {DotBall, RunsBall} <==> r == PlainStyle
  {
    if c.isWicket then WicketStyle
    else if c.isBoundary && c.runs == 6 then SixStyle
    else if c.isBoundary && c.runs == 4 then FourStyle
    else PlainStyle
  }

  /** A dot ball has its own icon but shares the plain style with ordinary scoring balls. */
  lemma DotBallStyledPlain(dot: Commentary, single: Commentary)
    requires Classify(dot) == DotBall && Classify(single) == RunsBall
    ensures Style(dot) == Style(single) && Icon(dot) != Icon(single)
  {
  }

  // ---------------------------------------------------------- run badge

  datatype BadgeColour = Purple | Green | Blue

  datatype RunBadge = RunBadge(colour: BadgeColour, caption: string)

  /**
   * The run badge: shown only for a scoring ball; purple from six runs up,
   * green for exactly four, blue otherwise; "run" gains an "s" above one.
   */
  function Badge(runs: int): (r: Option<RunBadge>)
    ensures r.Some? <==> runs > 0
    ensures r.Some? ==> (r.value.colour == Purple <==> runs >= 6)
    ensures r.Some? ==> (r.value.colour == Green <==> runs == 4)
    ensures r.Some? ==> StartsWith(r.value.caption, NatToString(runs))
    ensures r.Some? ==> (r.value.caption[|r.value.caption| - 1] == 's' <==> runs > 1)
  {
    if runs <= 0 then None
    else
      var colour := if runs >= 6 then Purple else if runs == 4 then Green else Blue;
      var caption := NatToString(runs) + " run" + (if runs > 1 then "s" else "");
      assert caption[..|NatToString(runs)|] == NatToString(runs);
      Some(RunBadge(colour, caption))
  }

  /** The badge's number reads back as the runs scored. */
  lemma BadgeNumberRoundTrip(runs: int)
    requires runs > 0
    ensures var caption := Badge(runs).value.caption;
            var digits := |NatToString(runs)|;
            digits <= |caption| && AllDigits(caption[..digits]) && ParseNat(caption[..digits]) == runs
  {
    var caption := Badge(runs).value.caption;
    assert caption[..|NatToString(runs)|] == NatToString(runs);
    ParseNatToString(runs);
  }

  // --------------------------------------------------------------- time

  /**
   * `formatTime` for commentary: seconds under a minute (a future
   * timestamp gives a negative count), whole minutes under an hour, and
   * the clock time after that.
   */
  function CommentaryTime(now: int, at: int): (r: TimeLabel)
    ensures now - at < 60 ==> r == Words(IntToString(now - at) + "s ago")
    ensures 60 <= now - at < 3600 ==> r.Words? && r.text == MinutesAgo(now - at)
    ensures now - at >= 3600 <==> r == ClockTime(at)
  {
    var diff := now - at;
    if diff < 60 then Words(IntToString(diff) + "s ago")
    else if diff < 3600 then Words(MinutesAgo(diff))
    else ClockTime(at)
  }

  // -------------------------------------------------------------- panel

  /** One rendered entry: the "over.ball" tag, icon, style, badge, wicket tag and time. */
  datatype Row = Row(ball: string, icon: string, style: string, badge: Option<RunBadge>,
                     wicketTag: bool, time: TimeLabel)

  function RowOf(c: Commentary, now: int): Row
  {
    Row(IntToString(c.over) + "." + IntToString(c.ball), Icon(c), Style(c), Badge(c.runs),
        c.isWicket, CommentaryTime(now, c.timestamp))
  }

  /** The panel: the loading placeholder (`None`) exactly for an empty feed, otherwise one row per entry, in feed order. */
  function Panel(cs: seq<Commentary>, now: int): (r: Option<seq<Row>>)
    ensures r.None? <==> |cs| == 0
    ensures r.Some? ==> |r.value| == |cs| && forall i :: 0 <= i < |cs| ==> r.value[i] == RowOf(cs[i], now)
  {
    if |cs| == 0 then None else Some(seq(|cs|, i requires 0 <= i < |cs| => RowOf(cs[i], now)))
  }
}
