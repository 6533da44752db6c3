/**
 * The player of `src/components/VideoPlayer.tsx`: which embed a stream
 * URL gets, the volume and mute controls, the initial quality, and the
 * loading/error overlay driven by the simulated two-second connection
 * timer armed whenever the channel changes.
 */
module VideoPlayer {
  import opened Optional
  import opened Text
  import opened Types

  // -------------------------------------------------------------- embeds

  /**
   * `url.split(sep)[1]`: the text between the first and the second
   * occurrence of `sep` (or the end), or `None` when `sep` does not occur.
   */
  function SecondPiece(s: string, sep: string): (r: Option<string>)
    requires |sep| > 0
    ensures r.Some? <==> Contains(s, sep)
    ensures r.Some? ==> var rest := s[IndexOf(s, sep).value + |sep|..];
                        && StartsWith(rest, r.value)
                        && (|r.value| == |rest| || OccursAt(rest, sep, |r.value|))
                        && forall k :: 0 <= k < |r.value| ==> !OccursAt(rest, sep, k)
  {
    match IndexOf(s, sep)
    case None => None
    case Some(i) =>
      var rest := s[i + |sep|..];
      match IndexOf(rest, sep)
      case None =>
        assert forall k :: 0 <= k < |rest| ==> !OccursAt(rest, sep, k);
        Some(rest)
      case Some(j) =>
        assert rest[..j] == rest[..|rest[..j]|];
        Some(rest[..j])
  }

  /** `url.split('/').pop()`: the text after the last slash, or all of it when there is none. */
  function LastSegment(s: string): (r: string)
    ensures |r| <= |s| && r == s[|s| - |r|..]
    ensures '/' !in r
    ensures |r| < |s| ==> s[|s| - |r| - 1] == '/'
  {
    if |s| == 0 then ""
    else if s[|s| - 1] == '/' then ""
    else
      var init := LastSegment(s[..|s| - 1]);
      assert s[..|s| - 1][|s| - 1 - |init|..] + [s[|s| - 1]] == s[|s| - 1 - |init|..];
      init + [s[|s| - 1]]
  }

  /** The YouTube video id: the `v=` parameter when it is non-empty, otherwise the last path segment. */
  function VideoId(url: string): (r: string)
    ensures Contains(url, "v=") && SecondPiece(url, "v=").value != "" ==> r == SecondPiece(url, "v=").value
    ensures !(Contains(url, "v=") && SecondPiece(url, "v=").value != "") ==> r == LastSegment(url)
  {
    var piece := SecondPiece(url, "v=");
    if piece.Some? && piece.value != "" then piece.value else LastSegment(url)
  }

  const YouTubeEmbedPrefix: string := "https://www.youtube.com/embed/"
  const YouTubeEmbedQuery: string := "?autoplay=1&mute=0&controls=1"
  const JioCinemaEmbed: string := "https://www.jiocinema.com/embed/sports/cricket/live"
  const HotstarEmbed: string := "https://www.hotstar.com/in/sports/cricket/embed"
  const PtvSportsEmbed: string := "https://www.ptvsports.tv/live/embed"

  /**
   * `getEmbedUrl`: the hosts are tried in the order YouTube, JioCinema,
   * Hotstar, PTV Sports and the first one found anywhere in the URL
   * decides; no host means the custom player (`None`).
   */
  function EmbedUrl(url: string): (r: Option<string>)
    ensures r.None? <==> !Contains(url, "youtube.com") && !Contains(url, "jiocinema.com")
                         && !Contains(url, "hotstar.com") && !Contains(url, "ptvsports.tv")
    ensures Contains(url, "youtube.com") ==>
              r == Some(YouTubeEmbedPrefix + VideoId(url) + YouTubeEmbedQuery)
    ensures !Contains(url, "youtube.com") && Contains(url, "jiocinema.com") ==> r == Some(JioCinemaEmbed)
    ensures !Contains(url, "youtube.com") && !Contains(url, "jiocinema.com") && Contains(url, "hotstar.com") ==>
              r == Some(HotstarEmbed)
    ensures (!Contains(url, "youtube.com") && !Contains(url, "jiocinema.com") && !Contains(url, "hotstar.com")
             && Contains(url, "ptvsports.tv")) ==> r == Some(PtvSportsEmbed)
  {
    if Contains(url, "youtube.com") then Some(YouTubeEmbedPrefix + VideoId(url) + YouTubeEmbedQuery)
    else if Contains(url, "jiocinema.com") then Some(JioCinemaEmbed)
    else if Contains(url, "hotstar.com") then Some(HotstarEmbed)
    else if Contains(url, "ptvsports.tv") then Some(PtvSportsEmbed)
    else None
  }

  /** A YouTube URL without a `v=` parameter embeds its last path segment, and that id never holds a slash. */
  lemma YouTubeWithoutParameter(url: string)
    requires Contains(url, "youtube.com") && !Contains(url, "v=")
    ensures EmbedUrl(url) == Some(YouTubeEmbedPrefix + LastSegment(url) + YouTubeEmbedQuery)
    ensures '/' !in LastSegment(url)
  {
  }

  // ------------------------------------------------------------- volume

  const MutedIcon: string := "\U{1F507}"
  const LowIcon: string := "\U{1F509}"
  const LoudIcon: string := "\U{1F50A}"

  /** The mute button's icon: silent when muted or at volume 0, quiet below 50, loud otherwise. */
  function MuteIcon(muted: bool, volume: int): (r: string)
    ensures r == MutedIcon <==> muted || volume == 0
    ensures r == LowIcon <==> !muted && volume != 0 && volume < 50
    ensures r == LoudIcon <==> !muted && volume != 0 && volume >= 50
  {
    if muted || volume == 0 then MutedIcon else if volume < 50 then LowIcon else LoudIcon
  }

  // -------------------------------------------------------------- state

  /**
   * The player's state. `timerPending` says whether the two-second
   * connection timer is armed; `embeddable` whether the current URL has an
   * embed (only an embedded frame can fail).
   */
  datatype PlayerState = PlayerState(
    channelId: string,
    embeddable: bool,
    loading: bool,
    error: bool,
    timerPending: bool,
    muted: bool,
    volume: int,
    playing: bool,
    quality: string)

  /** The quality selected on mount: the first offered resolution, or "1080p" when there is none (or it is empty). */
  function InitialQuality(qs: seq<StreamQuality>): (r: string)
    ensures |qs| > 0 && qs[0].resolution != "" ==> r == qs[0].resolution
    ensures |qs| == 0 || qs[0].resolution == "" ==> r == "1080p"
  {
    if |qs| > 0 && qs[0].resolution != "" then qs[0].resolution else "1080p"
  }

  /** Mounting with a channel: playing, volume 80, unmuted, loading with the timer armed. */
  function Mount(c: Channel): (s: PlayerState)
    ensures s.loading && !s.error && s.timerPending && s.playing && !s.muted && s.volume == 80
    ensures s.quality == InitialQuality(c.quality) && s.channelId == c.id
  {
    PlayerState(c.id, EmbedUrl(c.streamUrl).Some?, true, false, true, false, 80, true, InitialQuality(c.quality))
  }

  /** What covers the video area. */
  datatype Overlay = LoadingOverlay | ErrorPanel | Stream

  /** Loading wins over an error; the stream shows only with neither. */
  function OverlayOf(s: PlayerState): (o: Overlay)
    ensures o == LoadingOverlay <==> s.loading
    ensures o == ErrorPanel <==> s.error && !s.loading
    ensures o == Stream <==> !s.loading && !s.error
  {
    if s.loading then LoadingOverlay else if s.error then ErrorPanel else Stream
  }

  /** The value the slider shows: 0 while muted. */
  function SliderValue(s: PlayerState): (v: int)
    ensures s.muted ==> v == 0
    ensures !s.muted ==> v == s.volume
  {
    if s.muted then 0 else s.volume
  }

  datatype PlayerEvent =
    | ShowChannel(channel: Channel)
    | TimerFires
    | FrameFails
    | Retry
    | ToggleMute
    | Slide(value: int)
    | TogglePlay
    | SelectQuality(resolution: string)

  /**
   * A new channel id re-runs the loading effect: loading on, error off, the
   * old timer cleared and a new one armed. Quality, volume and mute carry
   * over.
   */
  function ShowChannelStep(s: PlayerState, c: Channel): (r: PlayerState)
    ensures r.channelId == c.id && r.embeddable == EmbedUrl(c.streamUrl).Some?
    ensures c.id != s.channelId ==> r.loading && !r.error && r.timerPending
    ensures c.id == s.channelId ==> r.loading == s.loading && r.error == s.error && r.timerPending == s.timerPending
    ensures r.quality == s.quality && r.muted == s.muted && r.volume == s.volume
  {
    var s1 := s.(channelId := c.id, embeddable := EmbedUrl(c.streamUrl).Some?);
    if c.id == s.channelId then s1 else s1.(loading := true, error := false, timerPending := true)
  }

  /** Moving the slider: the volume follows it, and a positive value unmutes; 0 leaves the mute flag alone. */
  function SlideStep(s: PlayerState, v: int): (r: PlayerState)
    ensures r.volume == v
    ensures v > 0 ==> !r.muted
    ensures v <= 0 ==> r.muted == s.muted
    ensures r.loading == s.loading && r.error == s.error && r.timerPending == s.timerPending
  {
    var s1 := s.(volume := v);
    if v > 0 then s1.(muted := false) else s1
  }

  /** Every event except Retry, which the two variants below handle differently. */
  function CommonStep(s: PlayerState, e: PlayerEvent): PlayerState
    requires !e.Retry?
  {
    match e
    case ShowChannel(c) => ShowChannelStep(s, c)
    case TimerFires => if s.timerPending then s.(loading := false, timerPending := false) else s
    case FrameFails => if s.embeddable && !s.loading && !s.error then s.(error := true) else s
    case ToggleMute => s.(muted := !s.muted)
    case Slide(v) => SlideStep(s, v)
    case TogglePlay => s.(playing := !s.playing)
    case SelectQuality(q) => s.(quality := q)
  }

  /** Retry as written: clears the error and turns loading on, with no timer to turn it off. */
  function RetryAsWritten(s: PlayerState): (r: PlayerState)
    ensures r.loading && !r.error && r.timerPending == s.timerPending
  {
    s.(error := false, loading := true)
  }

  /** Retry as evidently intended: like a channel change, loading comes with a fresh connection timer. */
  function RetryStep(s: PlayerState): (r: PlayerState)
    ensures r.loading && !r.error && r.timerPending
  {
    s.(error := false, loading := true, timerPending := true)
  }

  function StepAsWritten(s: PlayerState, e: PlayerEvent): PlayerState
  {
    if e.Retry? then RetryAsWritten(s) else CommonStep(s, e)
  }

  function Step(s: PlayerState, e: PlayerEvent): PlayerState
  {
    if e.Retry? then RetryStep(s) else CommonStep(s, e)
  }

  function Run(s: PlayerState, es: seq<PlayerEvent>): PlayerState
    decreases |es|
  {
    if |es| == 0 then s else Run(Step(s, es[0]), es[1..])
  }

  function RunAsWritten(s: PlayerState, es: seq<PlayerEvent>): PlayerState
    decreases |es|
  {
    if |es| == 0 then s else RunAsWritten(StepAsWritten(s, es[0]), es[1..])
  }

  // --------------------------------------------------------- properties

  /** The spinner can always end: the connection timer is armed exactly while loading. */
  predicate Inv(s: PlayerState)
  {
    s.loading == s.timerPending
  }

  lemma StepPreservesInv(s: PlayerState, e: PlayerEvent)
    requires Inv(s)
    ensures Inv(Step(s, e))
  {
  }

  lemma {:induction false} RunPreservesInv(s: PlayerState, es: seq<PlayerEvent>)
    requires Inv(s)
    ensures Inv(Run(s, es))
    decreases |es|
  {
    if |es| > 0 {
      StepPreservesInv(s, es[0]);
      RunPreservesInv(Step(s, es[0]), es[1..]);
    }
  }

  /** With the corrected Retry, the timer firing always ends loading. */
  lemma TimerEndsLoading(s: PlayerState)
    requires Inv(s) && s.loading
    ensures !Step(s, TimerFires).loading
  {
  }

  /** Whether an event keeps the current channel id. */
  predicate SameChannel(s: PlayerState, e: PlayerEvent)
  {
    e.ShowChannel? ==> e.channel.id == s.channelId
  }

  /**
   * As written, Retry from the error panel leaves the spinner up for good:
   * no event short of switching to another channel turns loading off.
   */
  lemma {:induction false} RetryAsWrittenSpinsForever(s: PlayerState, es: seq<PlayerEvent>)
    requires s.loading && !s.timerPending
    requires forall i :: 0 <= i < |es| ==> es[i].ShowChannel? ==> es[i].channel.id == s.channelId
    ensures RunAsWritten(s, es).loading && !RunAsWritten(s, es).timerPending
    decreases |es|
  {
    if |es| > 0 {
      var s1 := StepAsWritten(s, es[0]);
      assert s1.loading && !s1.timerPending && s1.channelId == s.channelId;
      RetryAsWrittenSpinsForever(s1, es[1..]);
    }
  }

  /** The error panel's state after its timer fired is exactly where Retry as written breaks the invariant. */
  lemma RetryAsWrittenBreaksInv(s: PlayerState)
    requires Inv(s) && OverlayOf(s) == ErrorPanel
    ensures !Inv(RetryAsWritten(s))
    ensures Inv(RetryStep(s))
  {
  }

  /** Switching channel shows the loading overlay, and the next timer firing reveals the stream. */
  lemma ChannelChangeLoadsThenStreams(s: PlayerState, c: Channel)
    requires c.id != s.channelId
    ensures OverlayOf(Step(s, ShowChannel(c))) == LoadingOverlay
    ensures OverlayOf(Step(Step(s, ShowChannel(c)), TimerFires)) == Stream
  {
  }

  /** Sliding to a positive volume sets the icon from the volume alone and the slider shows it. */
  lemma SlideUnmutes(s: PlayerState, v: int)
    requires v > 0
    ensures var r := Step(s, Slide(v));
            SliderValue(r) == v && MuteIcon(r.muted, r.volume) == (if v < 50 then LowIcon else LoudIcon)
  {
  }

  /** Sliding to 0 silences the icon whether or not the mute flag is set. */
  lemma SlideToZeroSilences(s: PlayerState)
    ensures var r := Step(s, Slide(0));
            SliderValue(r) == 0 && MuteIcon(r.muted, r.volume) == MutedIcon && r.muted == s.muted
  {
  }

  /** Muting twice restores the previous sound state. */
  lemma ToggleMuteTwice(s: PlayerState)
    ensures Step(Step(s, ToggleMute), ToggleMute) == s
  {
  }
}
