/**
 * The channel catalogue and current-matches list of
 * `src/lib/streaming-service.ts`: filters and lookups over a fixed
 * sequence of channels, the channel list suggested for a fixture, and a
 * two-provider resolver for the list of current matches.
 *
 * The lookups take the catalogue as a parameter; `Catalogue` is the one the
 * service ships with.
 */
module StreamingService {
  import opened Optional
  import opened Text
  import opened Seqs
  import opened Types
  import CricketApi

  function Quality(resolution: string, bitrate: int, codec: string): StreamQuality
  {
    StreamQuality(resolution, bitrate, "", codec)
  }

  function Program(title: string, description: string, category: string): Option<CurrentProgram>
  {
    Some(CurrentProgram(title, description, true, category))
  }

  /** The six channels the service ships with, all live. */
  const Catalogue: seq<Channel> := [
    Channel("star-sports-1", "Star Sports 1 HD", "Official India cricket broadcaster", Cricket, InCountry,
            "https://jiocinema.com/sports/cricket/live", Some("https://www.hotstar.com/in/sports/cricket"), true,
            [Quality("1080p", 8000, "h264"), Quality("720p", 4000, "h264"), Quality("480p", 2000, "h264")],
            ["Hindi", "English"], Program("India vs Pakistan LIVE", "T20 International Cricket Match", "Cricket"),
            2500000, ["cricket", "live", "india", "pakistan", "official"]),
    Channel("ptv-sports", "PTV Sports HD", "Pakistan national sports broadcaster", Cricket, PkCountry,
            "https://www.ptvsports.tv/live", None, true,
            [Quality("1080p", 7000, "h264"), Quality("720p", 3500, "h264")],
            ["Urdu", "English"], Program("Pakistan vs India LIVE", "T20 International Cricket Match", "Cricket"),
            1800000, ["cricket", "live", "pakistan", "india", "official"]),
    Channel("sky-sports-cricket", "Sky Sports Cricket", "UK premium cricket coverage", Cricket, Global,
            "https://www.skysports.com/watch/live-cricket", None, true,
            [Quality("4K", 15000, "h265"), Quality("1080p", 8000, "h264"), Quality("720p", 4000, "h264")],
            ["English"], Program("India vs Pakistan LIVE", "T20 International - Premium Coverage", "Cricket"),
            950000, ["cricket", "live", "premium", "4k", "english"]),
    Channel("willow-tv", "Willow TV HD", "Dedicated cricket channel for diaspora", Cricket, Global,
            "https://www.willow.tv/live", None, true,
            [Quality("1080p", 6000, "h264"), Quality("720p", 3000, "h264")],
            ["English", "Hindi"], Program("IND vs PAK T20 LIVE", "Complete match coverage with expert commentary", "Cricket"),
            680000, ["cricket", "live", "diaspora", "subscription"]),
    Channel("sony-liv", "Sony LIV Sports", "Sony's premium sports streaming", Sports, InCountry,
            "https://www.sonyliv.com/sports/cricket", None, true,
            [Quality("1080p", 8000, "h264"), Quality("720p", 4000, "h264")],
            ["Hindi", "English", "Tamil", "Telugu"], Program("Cricket LIVE - Multiple Matches", "Premium cricket coverage", "Sports"),
            1200000, ["sports", "cricket", "premium", "multilingual"]),
    Channel("youtube-cricket", "Cricket Official YouTube", "Free official cricket streams", Cricket, Global,
            "https://www.youtube.com/c/cricket/live", None, true,
            [Quality("1080p", 5000, "h264"), Quality("720p", 2500, "h264"), Quality("480p", 1000, "h264")],
            ["English"], Program("IND vs PAK Highlights & Live", "Free cricket content and live streams", "Cricket"),
            3200000, ["cricket", "free", "highlights", "youtube"])
  ]

  /** The shipped catalogue opens with a live cricket channel, Star Sports 1 HD. */
  lemma CatalogueHead()
    ensures |Catalogue| == 6
    ensures Catalogue[0].id == "star-sports-1" && Catalogue[0].category == Cricket && Catalogue[0].isLive
  {
  }

  // ------------------------------------------------------------ lookups

  /** `getLiveChannels`: exactly the live channels, in catalogue order. */
  function GetLiveChannels(cs: seq<Channel>): (r: seq<Channel>)
    ensures forall c :: c in r <==> c in cs && c.isLive
    ensures forall c :: multiset(r)[c] == if c.isLive then multiset(cs)[c] else 0
    ensures IsSubsequence(r, cs)
  {
    Filter(cs, (c: Channel) => c.isLive)
  }

  /** `getChannelsByCategory`: exactly the live channels of that category, in catalogue order. */
  function GetChannelsByCategory(cs: seq<Channel>, category: string): (r: seq<Channel>)
    ensures forall c :: c in r <==> c in cs && CategoryName(c.category) == category && c.isLive
    ensures forall c :: multiset(r)[c] ==
              if CategoryName(c.category) == category && c.isLive then multiset(cs)[c] else 0
    ensures IsSubsequence(r, cs)
  {
    Filter(cs, (c: Channel) => CategoryName(c.category) == category && c.isLive)
  }

  /** A live channel of the category at the head of the catalogue heads the category's list. */
  lemma CategoryHead(cs: seq<Channel>, category: string)
    requires |cs| > 0 && CategoryName(cs[0].category) == category && cs[0].isLive
    ensures |GetChannelsByCategory(cs, category)| > 0 && GetChannelsByCategory(cs, category)[0] == cs[0]
  {
    FilterHead(cs, (c: Channel) => CategoryName(c.category) == category && c.isLive);
  }

  /** Whether a channel is offered to viewers in `country`: its own country's and every global channel. */
  predicate ServesCountry(c: Channel, country: string)
  {
    CountryCode(c.country) == country || c.country == Global
  }

  /** `getChannelsByCountry`: exactly the live channels of that country or global, in catalogue order. */
  function GetChannelsByCountry(cs: seq<Channel>, country: string): (r: seq<Channel>)
    ensures forall c :: c in r <==> c in cs && ServesCountry(c, country) && c.isLive
    ensures forall c :: multiset(r)[c] ==
              if ServesCountry(c, country) && c.isLive then multiset(cs)[c] else 0
    ensures IsSubsequence(r, cs)
  {
    Filter(cs, (c: Channel) => ServesCountry(c, country) && c.isLive)
  }

  /** A live global channel is listed for every country, whatever it is called. */
  lemma GlobalChannelsListedEverywhere(cs: seq<Channel>, c: Channel, country: string)
    requires c in cs && c.isLive && c.country == Global
    ensures c in GetChannelsByCountry(cs, country)
  {
  }

  /** `getChannelById`: the first channel with that id, or `null` when there is none. */
  function GetChannelById(cs: seq<Channel>, id: string): (r: Option<Channel>)
    ensures r.Some? <==> exists i :: 0 <= i < |cs| && cs[i].id == id
    ensures r.Some? ==> exists i :: 0 <= i < |cs| && cs[i] == r.value && r.value.id == id
                                    && forall j :: 0 <= j < i ==> cs[j].id != id
  {
    Find(cs, (c: Channel) => c.id == id)
  }

  /** `lowercaseQuery` (already lower-cased) occurs in the channel's name, description or one of its tags, ignoring case. */
  predicate MatchesQuery(c: Channel, lowercaseQuery: string)
  {
    || Contains(LowerStr(c.name), lowercaseQuery)
    || Contains(LowerStr(c.description), lowercaseQuery)
    || exists i :: 0 <= i < |c.tags| && Contains(LowerStr(c.tags[i]), lowercaseQuery)
  }

  /**
   * `searchChannels`: exactly the channels matching the lower-cased query,
   * live or not, in catalogue order.
   */
  function SearchChannels(cs: seq<Channel>, query: string): (r: seq<Channel>)
    ensures forall c :: c in r <==> c in cs && MatchesQuery(c, LowerStr(query))
    ensures forall c :: multiset(r)[c] == if MatchesQuery(c, LowerStr(query)) then multiset(cs)[c] else 0
    ensures IsSubsequence(r, cs)
  {
    var q := LowerStr(query);
    Filter(cs, (c: Channel) => MatchesQuery(c, q))
  }

  /** An empty query matches every channel, so the whole catalogue comes back. */
  lemma SearchEmptyQuery(cs: seq<Channel>)
    ensures SearchChannels(cs, "") == cs
  {
    var q := LowerStr("");
    assert q == "";
    forall i | 0 <= i < |cs| ensures MatchesQuery(cs[i], q) {
      ContainsEmpty(LowerStr(cs[i].name));
    }
    FilterAll(cs, (c: Channel) => MatchesQuery(c, q));
  }

  // ------------------------------------------------------- match channels

  /** Some team name mentions `country` (lower case), ignoring case. */
  predicate SomeTeamMentions(teams: seq<string>, country: string)
  {
    exists i :: 0 <= i < |teams| && Contains(LowerStr(teams[i]), country)
  }

  const GlobalChannelIds: seq<string> := ["sky-sports-cricket", "willow-tv", "youtube-cricket"]

  /**
   * `getStreamingChannelsForMatch`: Star Sports 1 and Sony LIV first when a
   * team mentions India, then PTV Sports when one mentions Pakistan, and
   * always the three global channels last.
   */
  function StreamingChannelsForMatch(teams: seq<string>): (r: seq<string>)
    ensures 3 <= |r| <= 6
    ensures r[|r| - 3..] == GlobalChannelIds
    ensures SomeTeamMentions(teams, "india") <==> |r| >= 5 && r[..2] == ["star-sports-1", "sony-liv"]
    ensures "ptv-sports" in r <==> SomeTeamMentions(teams, "pakistan")
    ensures |r| == 3 + (if SomeTeamMentions(teams, "india") then 2 else 0)
                     + (if SomeTeamMentions(teams, "pakistan") then 1 else 0)
  {
    var india := if SomeTeamMentions(teams, "india") then ["star-sports-1", "sony-liv"] else [];
    var pakistan := if SomeTeamMentions(teams, "pakistan") then ["ptv-sports"] else [];
    var r := india + pakistan + GlobalChannelIds;
    assert "ptv-sports" in r <==> "ptv-sports" in pakistan by {
      assert "ptv-sports" !in india && "ptv-sports" !in GlobalChannelIds;
    }
    r
  }

  /** Every channel suggested for a fixture is in the shipped catalogue. */
  lemma SuggestedChannelsExist(teams: seq<string>)
    ensures forall id :: id in StreamingChannelsForMatch(teams) ==> GetChannelById(Catalogue, id).Some?
  {
    var ids := ["star-sports-1", "ptv-sports", "sky-sports-cricket", "willow-tv", "sony-liv", "youtube-cricket"];
    forall i | 0 <= i < 6 ensures Catalogue[i].id == ids[i] { }
    forall id | id in StreamingChannelsForMatch(teams) ensures GetChannelById(Catalogue, id).Some? {
      assert id in ids;
      var i :| 0 <= i < 6 && ids[i] == id;
      assert Catalogue[i].id == id;
    }
  }

  // --------------------------------------------------------- categories

  /** `getChannelCategories`: the four browse categories, each listing what its lookup returns. */
  function GetChannelCategories(cs: seq<Channel>): (r: seq<ChannelCategory>)
    ensures |r| == 4
    ensures r[0].id == "cricket" && r[1].id == "sports" && r[2].id == "indian" && r[3].id == "pakistani"
    ensures r[0].channels == GetChannelsByCategory(cs, "cricket")
    ensures r[1].channels == GetChannelsByCategory(cs, "sports")
    ensures r[2].channels == GetChannelsByCountry(cs, "in")
    ensures r[3].channels == GetChannelsByCountry(cs, "pk")
  {
    [ ChannelCategory("cricket", "Cricket Channels", "Dedicated cricket broadcasting channels",
                      GetChannelsByCategory(cs, "cricket")),
      ChannelCategory("sports", "Sports Networks", "General sports channels with cricket coverage",
                      GetChannelsByCategory(cs, "sports")),
      ChannelCategory("indian", "Indian Channels", "Indian broadcasting channels",
                      GetChannelsByCountry(cs, "in")),
      ChannelCategory("pakistani", "Pakistani Channels", "Pakistani broadcasting channels",
                      GetChannelsByCountry(cs, "pk")) ]
  }

  /**
   * Which live channels each browse category lists: the cricket and sports
   * categories by kind, the Indian and Pakistani ones by country, with the
   * global channels under both countries.
   */
  lemma ChannelCategoriesMembers(cs: seq<Channel>, c: Channel)
    ensures var r := GetChannelCategories(cs);
            && (c in r[0].channels <==> c in cs && c.isLive && c.category == Cricket)
            && (c in r[1].channels <==> c in cs && c.isLive && c.category == Sports)
            && (c in r[2].channels <==> c in cs && c.isLive && (c.country == InCountry || c.country == Global))
            && (c in r[3].channels <==> c in cs && c.isLive && (c.country == PkCountry || c.country == Global))
  {
    var r := GetChannelCategories(cs);
    assert CategoryName(c.category) == "cricket" <==> c.category == Cricket;
    assert CategoryName(c.category) == "sports" <==> c.category == Sports;
    assert ServesCountry(c, "in") <==> c.country == InCountry || c.country == Global;
    assert ServesCountry(c, "pk") <==> c.country == PkCountry || c.country == Global;
  }

  // ------------------------------------------------------ current matches

  /** The list's status for a CricAPI match: started means live, even when it has ended. */
  function ListStatusCricApi(started: bool): (r: MatchStatus)
    ensures r != Completed
    ensures r == Live <==> started
  {
    if started then Live else Upcoming
  }

  /** The list's status for an ESPN match: only type 3 is live; a finished match reads as upcoming. */
  function ListStatusEspn(t: Option<int>): (r: MatchStatus)
    ensures r != Completed
    ensures r == Live <==> t == Some(3)
  {
    if t == Some(3) then Live else Upcoming
  }

  /**
   * The list and the live-match resolver read the same provider fields
   * differently: a finished CricAPI match is live in the list, and a
   * finished ESPN match is upcoming in it; otherwise they agree.
   */
  lemma ListStatusAgainstResolver(started: bool, ended: bool, t: Option<int>)
    ensures var s := CricketApi.CricApiStatus(started, ended);
            ListStatusCricApi(started) == if s == Completed then Live else s
    ensures var s := CricketApi.EspnStatus(t);
            ListStatusEspn(t) == if s == Completed then Upcoming else s
  {
  }

  function TeamNameAt(teams: seq<string>, i: nat, fallback: string): (r: string)
    ensures i < |teams| && teams[i] != "" ==> r == teams[i]
    ensures i >= |teams| || teams[i] == "" ==> r == fallback
  {
    if i < |teams| && teams[i] != "" then teams[i] else fallback
  }

  const HotstarCricket: string := "https://www.hotstar.com/in/sports/cricket"

  /** One CricAPI match as a list entry; only called when its `teams` field is present. */
  function CricApiEntry(m: CricApiMatch): (e: LiveMatch)
    requires m.teams.Some?
    ensures e.id == m.id && e.title == m.name
    ensures e.team1 == TeamNameAt(m.teams.value, 0, "Team 1") && e.team2 == TeamNameAt(m.teams.value, 1, "Team 2")
    ensures e.matchType == m.matchType && e.venue == m.venue && e.startTime == m.date
    ensures e.status == ListStatusCricApi(m.matchStarted)
    ensures e.streamingChannels == StreamingChannelsForMatch(m.teams.value)
    ensures e.officialStream == Some(HotstarCricket) && e.highlights == []
  {
    var ts := m.teams.value;
    LiveMatch(m.id, m.name, TeamNameAt(ts, 0, "Team 1"), TeamNameAt(ts, 1, "Team 2"),
              m.matchType, m.venue, m.date, ListStatusCricApi(m.matchStarted),
              StreamingChannelsForMatch(ts), Some(HotstarCricket), [])
  }

  /**
   * `fetchFromCricAPI`: one entry per match, in order; any failure — the
   * request, a missing `data` field, or a match without `teams` — yields
   * the empty list instead.
   */
  function FetchFromCricApi(resp: CricApiResponse): (r: seq<LiveMatch>)
    ensures r != [] ==> resp.CricApiOk? && resp.data.Some?
    ensures resp.CricApiOk? && resp.data.Some? && (forall j :: 0 <= j < |resp.data.value| ==> resp.data.value[j].teams.Some?) ==>
              |r| == |resp.data.value| && forall i :: 0 <= i < |r| ==> r[i] == CricApiEntry(resp.data.value[i])
    ensures resp.CricApiOk? && resp.data.Some? && (exists j :: 0 <= j < |resp.data.value| && resp.data.value[j].teams.None?) ==>
              r == []
    ensures forall i :: 0 <= i < |r| ==> r[i].status != Completed
  {
    if resp.CricApiOk? && resp.data.Some? then
      var ms := resp.data.value;
      if forall j :: 0 <= j < |ms| ==> ms[j].teams.Some? then
        seq(|ms|, i requires 0 <= i < |ms| => CricApiEntry(ms[i]))
      else []
    else []
  }

  /** The i-th ESPN team entry exists, has its `team` record, and that record a non-empty name. */
  predicate HasEspnName(teams: Option<seq<EspnTeamEntry>>, i: nat)
  {
    teams.Some? && i < |teams.value| && teams.value[i].team.Some? && Truthy(teams.value[i].team.value.name)
  }

  /** `match.teams?.[i]?.team?.name || fallback`: every missing link, and an empty name, gives the fallback. */
  function EspnTeamName(teams: Option<seq<EspnTeamEntry>>, i: nat, fallback: string): (r: string)
    ensures HasEspnName(teams, i) ==> r == teams.value[i].team.value.name.value
    ensures !HasEspnName(teams, i) ==> r == fallback
  {
    var name := if teams.Some? && i < |teams.value| && teams.value[i].team.Some?
                then teams.value[i].team.value.name else None;
    OrElse(name, fallback)
  }

  /** One ESPN match as a list entry: no suggested channels, ESPN as the official stream. */
  function EspnEntry(m: EspnMatch): (e: LiveMatch)
    ensures e.id == m.objectId && e.title == m.title
    ensures e.team1 == EspnTeamName(m.teams, 0, "Team 1") && e.team2 == EspnTeamName(m.teams, 1, "Team 2")
    ensures e.matchType == Some("T20") && e.startTime == m.startDate
    ensures e.status == ListStatusEspn(m.statusType)
    ensures e.streamingChannels == [] && e.venue == Some(OrElse(m.venueName, "TBD"))
    ensures e.officialStream == Some("https://www.espncricinfo.com") && e.highlights == []
  {
    LiveMatch(m.objectId, m.title, EspnTeamName(m.teams, 0, "Team 1"), EspnTeamName(m.teams, 1, "Team 2"),
              Some("T20"), Some(OrElse(m.venueName, "TBD")), m.startDate, ListStatusEspn(m.statusType),
              [], Some("https://www.espncricinfo.com"), [])
  }

  /** `fetchFromESPN`: one entry per match, in order; the empty list on any failure. */
  function FetchFromEspn(resp: EspnResponse): (r: seq<LiveMatch>)
    ensures r != [] ==> resp.EspnOk? && resp.matches.Some?
    ensures resp.EspnOk? && resp.matches.Some? ==>
              |r| == |resp.matches.value| && forall i :: 0 <= i < |r| ==> r[i] == EspnEntry(resp.matches.value[i])
    ensures forall i :: 0 <= i < |r| ==> r[i].status != Completed
  {
    if resp.EspnOk? && resp.matches.Some? then
      var ms := resp.matches.value;
      seq(|ms|, i requires 0 <= i < |ms| => EspnEntry(ms[i]))
    else []
  }

  /**
   * `getCurrentMatches`: a non-empty CricAPI list wins without asking ESPN;
   * otherwise ESPN's list, even an empty one. No entry is ever `completed`.
   */
  function GetCurrentMatches(cric: CricApiResponse, espn: EspnResponse): (r: seq<LiveMatch>)
    ensures FetchFromCricApi(cric) != [] ==> r == FetchFromCricApi(cric)
    ensures FetchFromCricApi(cric) == [] ==> r == FetchFromEspn(espn)
    ensures forall i :: 0 <= i < |r| ==> r[i].status != Completed
  {
    var first := FetchFromCricApi(cric);
    if |first| > 0 then first else FetchFromEspn(espn)
  }
}
