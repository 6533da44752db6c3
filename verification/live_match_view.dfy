/**
 * The page component of `src/components/LiveMatch.tsx`: its own state
 * (selected channel, selector flag, current matches, channel loading), the
 * transitions on initial load and on channel selection, and the choice of
 * which screen to render from its state and the data hook's.
 */
module LiveMatchView {
  import opened Optional
  import opened Types
  import opened LiveMatchHook
  import StreamingService

  datatype ViewState = ViewState(
    selected: Option<Channel>,
    showSelector: bool,
    liveMatches: seq<LiveMatch>,
    channelsLoading: bool)

  /** The state on mount: nothing selected, selector shown, channels loading. */
  function InitialView(): (v: ViewState)
    ensures v.selected.None? && v.showSelector && v.liveMatches == [] && v.channelsLoading
  {
    ViewState(None, true, [], true)
  }

  /** The screen the component renders. */
  datatype Screen =
    | ChannelsLoading
    | Selector(liveBanner: bool)
    | MatchLoading
    | MatchError(message: string)
    | Main(cachedBanner: bool, updating: bool)

  /**
   * The render decision: channel loading first, then the selector, then the
   * match-loading and match-error screens, which both need the match to be
   * absent; held match data always reaches the main view.
   */
  function ScreenOf(v: ViewState, h: HookState): (s: Screen)
    ensures v.channelsLoading ==> s == ChannelsLoading
    ensures !v.channelsLoading && (v.showSelector || v.selected.None?) ==>
              s == Selector(|v.liveMatches| > 0)
    ensures s.MatchLoading? <==> !v.channelsLoading && !v.showSelector && v.selected.Some?
                                 && h.loading && h.matchData.None?
    ensures s.MatchError? <==> !v.channelsLoading && !v.showSelector && v.selected.Some?
                               && !h.loading && Truthy(h.error) && h.matchData.None?
    ensures s.MatchError? ==> s.message == h.error.value
    ensures s.Main? <==> !v.channelsLoading && !v.showSelector && v.selected.Some?
                         && (h.matchData.Some? || (!h.loading && !Truthy(h.error)))
    ensures s.Main? ==> s.cachedBanner == (Truthy(h.error) && h.matchData.Some?) && s.updating == h.loading
  {
    if v.channelsLoading then ChannelsLoading
    else if v.showSelector || v.selected.None? then Selector(|v.liveMatches| > 0)
    else if h.loading && h.matchData.None? then MatchLoading
    else if Truthy(h.error) && h.matchData.None? then MatchError(h.error.value)
    else Main(Truthy(h.error) && h.matchData.Some?, h.loading)
  }

  /**
   * `loadInitialData`: `matches` and `cricket` are the two lookups, `None`
   * when one throws. The first cricket channel is selected and the selector
   * hidden exactly when both succeed and that list is non-empty; loading
   * ends in every case.
   */
  function LoadInitialData(v: ViewState, matches: Option<seq<LiveMatch>>, cricket: Option<seq<Channel>>): (r: ViewState)
    ensures !r.channelsLoading
    ensures r.liveMatches == if matches.Some? then matches.value else v.liveMatches
    ensures matches.Some? && cricket.Some? && |cricket.value| > 0 ==>
              r.selected == Some(cricket.value[0]) && !r.showSelector
    ensures !(matches.Some? && cricket.Some? && |cricket.value| > 0) ==>
              r.selected == v.selected && r.showSelector == v.showSelector
  {
    var v1 := v.(channelsLoading := true);
    match matches
    case None => v1.(channelsLoading := false)
    case Some(ms) =>
      var v2 := v1.(liveMatches := ms);
      var v3 := if cricket.Some? && |cricket.value| > 0
                then v2.(selected := Some(cricket.value[0]), showSelector := false) else v2;
      v3.(channelsLoading := false)
  }

  /** A catalogue that opens with a live cricket channel has that channel selected on first load. */
  lemma FirstLoadSelectsFirstCricket(cs: seq<Channel>, ms: seq<LiveMatch>)
    requires |cs| > 0 && cs[0].category == Cricket && cs[0].isLive
    ensures var r := LoadInitialData(InitialView(), Some(ms), Some(StreamingService.GetChannelsByCategory(cs, "cricket")));
            r.selected == Some(cs[0]) && !r.showSelector
  {
    StreamingService.CategoryHead(cs, "cricket");
  }

  /** With the shipped catalogue the first load selects Star Sports 1 HD and goes past the selector. */
  lemma FirstLoadSelectsStarSports(ms: seq<LiveMatch>)
    ensures var r := LoadInitialData(InitialView(), Some(ms), Some(StreamingService.GetChannelsByCategory(StreamingService.Catalogue, "cricket")));
            r.selected.Some? && r.selected.value.id == "star-sports-1" && !r.showSelector
  {
    StreamingService.CatalogueHead();
    FirstLoadSelectsFirstCricket(StreamingService.Catalogue, ms);
  }

  /** `handleChannelSelect`: store the channel and hide the selector. */
  function HandleChannelSelect(v: ViewState, c: Channel): (r: ViewState)
    ensures r.selected == Some(c) && !r.showSelector
    ensures r.liveMatches == v.liveMatches && r.channelsLoading == v.channelsLoading
  {
    v.(selected := Some(c), showSelector := false)
  }

  /** `handleChannelChange`: show the selector again, keeping the current channel. */
  function HandleChannelChange(v: ViewState): (r: ViewState)
    ensures r.showSelector && r.selected == v.selected
    ensures r.liveMatches == v.liveMatches && r.channelsLoading == v.channelsLoading
  {
    v.(showSelector := true)
  }

  /** Changing channel always lands on the selector once channels have loaded; picking one leaves it. */
  lemma ChangeThenSelect(v: ViewState, h: HookState, c: Channel)
    requires !v.channelsLoading
    ensures ScreenOf(HandleChannelChange(v), h).Selector?
    ensures !ScreenOf(HandleChannelSelect(HandleChannelChange(v), c), h).Selector?
  {
  }

  /**
   * The display is never blanked: once the main view shows a match, a
   * failed match request keeps it on screen, now with the cached-data
   * banner.
   */
  lemma NeverBlankedOnError(v: ViewState, h: HookState, at: int)
    requires ScreenOf(v, h).Main? && h.matchData.Some?
    ensures ScreenOf(v, Apply(h, MatchSettled(Failed, at))) == Main(true, h.loading)
  {
  }

  /** Match data on screen survives any refetch: the main view stays, whatever the four requests do. */
  lemma MainViewSurvivesRefetch(v: ViewState, h: HookState, m: Outcome<MatchData>, at: int,
                                c: Outcome<seq<Commentary>>, st: Outcome<MatchStats>, ch: Outcome<seq<ChatMessage>>)
    requires ScreenOf(v, h).Main? && h.matchData.Some?
    ensures ScreenOf(v, Apply(h, RefetchStarted)).Main?
    ensures ScreenOf(v, Apply(Settle(Apply(h, RefetchStarted), m, at, c, st, ch), RefetchSettled)).Main?
  {
    RefetchAll(h, m, at, c, st, ch);
  }
}
