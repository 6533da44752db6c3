# Live cricket streaming: a Dafny model of its decision logic

This project models the logic behind a live India-vs-Pakistan cricket page. The page does four things:

- It resolves one live match from two score providers, CricAPI and ESPN Cricinfo. When neither has a match, it falls back to a locally simulated score.
- It offers a fixed catalogue of streaming channels, with lookups and search. It also lists current matches from the same two providers.
- It refreshes feeds through a polling hook. An orchestrating hook keeps the match, commentary, statistics and chat, and records when they fail.
- It renders screens that decide what is shown: the screen itself, the score card, the commentary and chat panels, and the video player.

The model is functional:

- Every record is an immutable datatype.
- Every operation is a pure function.
- Every stateful piece is a transition function over a state record, driven by discrete events:
  - the polling hook's timer slot;
  - the live-match hook's state slots;
  - the page's screen state;
  - the chat panel;
  - the video player.
- Network outcomes are explicit inputs: a provider answer is either a failed request or a parsed payload whose fields may be missing.
- Random draws (`Math.random()`) are also explicit inputs, as are clock readings. Timestamps are whole seconds unless a member says otherwise.

Modules, one per source file plus shared ones:

| module | file | models |
|---|---|---|
| `Optional`, `Text`, `Seqs` | optional.dfy, text.dfy, seqs.dfy | Shared helpers: `Option`, and ASCII strings (`toLowerCase`, `includes`, `trim`, `${n}`). Also sequence filters, finds and a descending sort. |
| `Types` | types.dfy | The records of `src/lib/types.ts` and `src/lib/streaming-types.ts`, and the post-parse provider payloads. Also JavaScript's `||` on optional values. |
| `CricketApi` | cricket_api.dfy | `src/lib/cricket-api.ts` |
| `StreamingService` | streaming_service.dfy | `src/lib/streaming-service.ts` |
| `Polling` | polling.dfy | `src/hooks/use-polling.ts` |
| `LiveMatchHook` | live_match_hook.dfy | `src/hooks/use-live-match.ts` |
| `LiveMatchView` | live_match_view.dfy | `src/components/LiveMatch.tsx` |
| `ScoreCard` | score_card.dfy | `src/components/ScoreCard.tsx` |
| `RelativeTime`, `CommentaryView` | relative_time.dfy, commentary_view.dfy | `src/components/Commentary.tsx` |
| `LiveChatView` | live_chat_view.dfy | `src/components/LiveChat.tsx` |
| `VideoPlayer` | video_player.dfy | `src/components/VideoPlayer.tsx` |

## Model

| member | source | states |
|---|---|---|
| CricketApi.CricApiStatus | src/lib/cricket-api.ts:150 | A match that has not started is upcoming. Started and ended is completed. Started and not ended is live. All three directions are if-and-only-if. |
| CricketApi.EspnStatus | src/lib/cricket-api.ts:178 | Status type 3 is live and type 4 is completed. Anything else, including a missing type, is upcoming. All three directions are if-and-only-if. |
| CricketApi.At | src/lib/cricket-api.ts:153-161 | `teams[i]` exists exactly for an index inside the array and is then that entry. Otherwise it is `undefined`. |
| CricketApi.KnownCode | src/lib/cricket-api.ts:204-215 | The ten-country table gives a 2- or 3-letter code. |
| CricketApi.ShortName | src/lib/cricket-api.ts:203-218 | A table hit returns its code. Any other non-empty name returns its first (at most) three characters upper-cased. A missing or empty name returns "TBD". The result always has 1 to 3 characters. |
| CricketApi.TeamId | src/lib/cricket-api.ts:153 | A present, non-empty name gives its lower-cased form with only the first space replaced by '-'. This keeps the length, leaves no upper-case letter and contains '-' when the name has a space. A missing or empty name gives the fallback ("team1"/"team2"). |
| CricketApi.KnownFlag | src/lib/cricket-api.ts:221-226 | The four-country flag table holds only `.png` addresses. |
| CricketApi.TeamFlagAsWritten | src/lib/cricket-api.ts:220-229 | A table hit returns its flag. Anything else returns the fallback exactly as the source spells it. |
| CricketApi.FlagAsWrittenIsMalformed | src/lib/cricket-api.ts:228 | For a team outside the table (Sri Lanka), the flag address as written does not end in `.png`. |
| CricketApi.TeamFlag | src/lib/cricket-api.ts:220-229 | Corrected flag lookup. Every result ends in `.png`. Table hits are unchanged. |
| CricketApi.FlagCorrectionDropsBrace | src/lib/cricket-api.ts:220-229 | The corrected lookup agrees with the one as written on every table hit. Elsewhere it differs only by the trailing `}`. |
| CricketApi.RosterFor | src/lib/cricket-api.ts:233-246 | A name containing "india" (case-insensitive) gets India's roster. Otherwise a name containing "pakistan" gets Pakistan's. Otherwise there is none. |
| CricketApi.GeneratePlayers | src/lib/cricket-api.ts:231-247 | India gets kohli and rohit, on the field with batting figures, and bumrah off it with bowling figures. Pakistan gets babar, off the field with no runs, and shaheen, bowling on it. Any other team gets nobody. Every drawn figure is a whole number in 0..49. |
| CricketApi.CricApiScores | src/lib/cricket-api.ts:249-271 | A present, non-zero provider figure is kept; team 1's overs get five added. A missing or zero one is drawn for team 1 (runs 50..149, wickets 0..2, overs 5..14) and is 0 for team 2. Team 1's balls are drawn in 0..5. Team 2 has no balls. |
| CricketApi.EspnScores | src/lib/cricket-api.ts:273-295 | The same keep-or-draw rules over each ESPN team's first innings entry. A present, non-zero runs, wickets or overs figure is kept (overs plus five). A missing or zero one is drawn for team 1 and is 0 for team 2. A missing team or innings counts as missing figures. |
| CricketApi.ConvertCricApi | src/lib/cricket-api.ts:147-173 | The record carries the match id and the status mapping. For both teams it carries the `\|\| 'Team 1'`/`'Team 2'` names, the derived ids, short names and flags, and the roster generated from the name. The scores are CricAPI's keep-or-draw figures. It also carries the venue "TBD" and type "T20I" defaults, the date or the current time as start time, innings 1, and no toss or weather. |
| CricketApi.ConvertEspn | src/lib/cricket-api.ts:175-201 | The conversion throws (None) exactly when a team entry it dereferences is missing. Otherwise the record carries the object id and ESPN's status mapping. For each team it carries the id or "team1"/"team2", the name or "Team 1"/"Team 2", the abbreviation or "T1"/"T2", and the flag and roster for the name. The scores are ESPN's keep-or-draw figures. It also carries the venue or "TBD", the start date or the current time, innings 1 and type "T20I". |
| CricketApi.FindCricApi | src/lib/cricket-api.ts:104-108 | The scan finds the first match with a team name containing "india" or "pakistan". It throws at the first match without `teams`. Every earlier match is untracked. |
| CricketApi.EspnEntriesProbe | src/lib/cricket-api.ts:129-132 | `teams.some(...)` over ESPN entries gives yes, no, or a TypeError for an entry without `team`, in scan order. |
| CricketApi.FindEspn | src/lib/cricket-api.ts:128-133 | The first ESPN match whose teams name a tracked country. A missing `teams` simply does not match. |
| CricketApi.TryCricApi | src/lib/cricket-api.ts:95-117 | The CricAPI step yields a match exactly when the request succeeded, `data` is present and the scan found one. The result is that match converted. Every failure gives nothing. |
| CricketApi.TryEspn | src/lib/cricket-api.ts:120-142 | The ESPN step yields the converted first tracked match. A failed request, missing `matches` or a failed scan yields nothing. |
| CricketApi.TryRealApis | src/lib/cricket-api.ts:93-145 | CricAPI is tried first. ESPN is consulted only when CricAPI yields nothing. |
| CricketApi.Advance | src/lib/cricket-api.ts:335-351 | A draw of at most 0.7 leaves the match unchanged. Otherwise team 1 gains 1..6 runs and exactly one ball, and the overs grow exactly when the balls were 5. Balls stay in 0..5, and wickets and every other field are untouched. |
| CricketApi.SimulationProgresses | src/lib/cricket-api.ts:335-351 | Over any run of polls, balls stay in 0..5 and overs never decrease. The balls bowled grow by exactly the number of advancing polls, and runs by one to six per advancing poll. Wickets, team 2's score and every other field are unchanged. |
| CricketApi.GetLiveMatch | src/lib/cricket-api.ts:74-91 | The first provider that yields a match is used. The advanced mock is used only when both yield nothing. |
| CricketApi.ProviderFailureIsSilent | src/lib/cricket-api.ts:115-117 | A failed CricAPI request falls through to ESPN. When both fail, the result is the advanced mock, never an error. |
| CricketApi.CricApiTypeErrorFallsThrough | src/lib/cricket-api.ts:104-117 | A CricAPI match without `teams` before a tracked match makes the scan throw. The tracked match is then lost and ESPN decides. |
| CricketApi.CricApiSkipsUntracked | src/lib/cricket-api.ts:104-111 | Untracked matches before a tracked one are skipped, and the tracked one wins. |
| CricketApi.GetCommentaryAsWritten | src/lib/cricket-api.ts:297-305 | The result is exactly the reverse of the stored list. |
| CricketApi.CommentaryAsWrittenOldestFirst | src/lib/cricket-api.ts:62-66 | With the shipped entries, the reversed list starts with over 7.6, the oldest ball. |
| CricketApi.GetCommentary | src/lib/cricket-api.ts:300 | Corrected: the stored entries in newest-first order, with nothing lost or added. |
| CricketApi.NewestFirstKept | src/lib/cricket-api.ts:300 | Three entries already stored newest first come back unchanged from the corrected ordering. |
| CricketApi.CommentaryNewestFirst | src/lib/cricket-api.ts:62-66 | With the shipped entries, the corrected list starts with over 8.2. |
| CricketApi.GetLiveChat | src/lib/cricket-api.ts:68-72 | The stored chat is newest first, with one message from India, one from Pakistan and one from elsewhere. |
| StreamingService.CatalogueHead | src/lib/streaming-service.ts:8-163 | The catalogue has six channels and opens with the live cricket channel star-sports-1. |
| StreamingService.GetLiveChannels | src/lib/streaming-service.ts:165-169 | Exactly the live channels, each with its catalogue multiplicity, as a subsequence of the catalogue (order kept). |
| StreamingService.GetChannelsByCategory | src/lib/streaming-service.ts:171-175 | Exactly the live channels of that category, with multiplicities, in catalogue order. |
| StreamingService.CategoryHead | src/lib/streaming-service.ts:171-175 | A live channel of the category at the head of the catalogue heads the category's list. |
| StreamingService.GetChannelsByCountry | src/lib/streaming-service.ts:177-181 | Exactly the live channels of that country or global, with multiplicities, in catalogue order. |
| StreamingService.GlobalChannelsListedEverywhere | src/lib/streaming-service.ts:179 | A live global channel appears for every country. |
| StreamingService.GetChannelById | src/lib/streaming-service.ts:183-185 | Some exactly when a channel has the id. The result is then the first such channel. |
| StreamingService.SearchChannels | src/lib/streaming-service.ts:342-349 | A channel is returned exactly when the lower-cased query occurs in its lower-cased name, description or a tag. Catalogue order and multiplicity are kept, with no live filter. |
| StreamingService.SearchEmptyQuery | src/lib/streaming-service.ts:342-349 | An empty query returns the whole catalogue. |
| StreamingService.StreamingChannelsForMatch | src/lib/streaming-service.ts:291-307 | Three to six ids, always ending with the three global channels. The list starts with star-sports-1, sony-liv exactly when a team mentions India. It holds ptv-sports exactly when one mentions Pakistan. |
| StreamingService.SuggestedChannelsExist | src/lib/streaming-service.ts:291-307 | Every suggested id names a catalogue channel. |
| StreamingService.GetChannelCategories | src/lib/streaming-service.ts:309-340 | Four categories: cricket, sports, indian, pakistani, in that order. Each lists exactly its lookup's result, order and repeats included: the cricket and sports lists by category, the Indian and Pakistani lists by country. |
| StreamingService.ChannelCategoriesMembers | src/lib/streaming-service.ts:309-340 | Which channels each category holds: cricket and sports hold the live channels of that category, and indian and pakistani the live channels of that country or global. |
| StreamingService.ListStatusCricApi | src/lib/streaming-service.ts:226 | The list marks a started match live and anything else upcoming, never completed. |
| StreamingService.ListStatusEspn | src/lib/streaming-service.ts:257 | The list marks only type 3 live, and everything else upcoming. |
| StreamingService.ListStatusAgainstResolver | src/lib/streaming-service.ts:226 | Against the resolver's mapping, a match the resolver calls completed reads as live from CricAPI and upcoming from ESPN. |
| StreamingService.TeamNameAt | src/lib/streaming-service.ts:220-221 | `teams[i] \|\| fallback`. |
| StreamingService.CricApiEntry | src/lib/streaming-service.ts:216-229 | One entry: the match id and name. Team names come from `teams[i] \|\| 'Team 1'`/`'Team 2'`. The provider's type, venue and date are copied. It also carries the list status mapping, suggested channels from the team names, Hotstar as the official stream, and no highlights. |
| StreamingService.FetchFromCricApi | src/lib/streaming-service.ts:205-234 | Any failure gives the empty list: the request, missing `data`, or a match without `teams`. Otherwise there is one entry per match, in order. No entry is completed. |
| StreamingService.EspnEntry | src/lib/streaming-service.ts:247-260 | One entry: the object id and title, the team names or "Team 1"/"Team 2", type "T20", the venue or "TBD", the start date, and ESPN's list status. It has no suggested channels, ESPN as the official stream, and no highlights. |
| StreamingService.EspnTeamName | src/lib/streaming-service.ts:250-252 | The name of the i-th team when the entry, its `team` record and a non-empty name are all present. Any missing link, or an empty name, gives the fallback. |
| StreamingService.FetchFromEspn | src/lib/streaming-service.ts:236-265 | One entry per match, in order. A failed request or missing `matches` gives the empty list. No entry is completed. |
| StreamingService.GetCurrentMatches | src/lib/streaming-service.ts:187-203 | A non-empty CricAPI list is returned without consulting ESPN. Otherwise the ESPN list is returned, even when empty. |
| Polling.Setup | src/hooks/use-polling.ts:22-24 | A timer is created only when enabled with a positive interval. Its handle fills the slot. |
| Polling.Clear | src/hooks/use-polling.ts:26-37 | The timer named by the slot stops, and the stale handle stays in the slot. |
| Polling.Mount | src/hooks/use-polling.ts:5-31 | A mounted hook satisfies the invariant. It runs exactly one timer when enabled with a positive interval, and none otherwise. |
| Polling.Rerender | src/hooks/use-polling.ts:10-31 | The latest callback is always stored. The timers are untouched unless `interval` or `enabled` changed. |
| Polling.StartPolling | src/hooks/use-polling.ts:39-48 | A no-op when the slot already holds a handle or polling is not wanted. Otherwise exactly one timer is added. |
| Polling.Tick | src/hooks/use-polling.ts:16-20 | Only a running timer fires, and it calls the latest callback. |
| Polling.ActiveWithinSlot | src/hooks/use-polling.ts:15-48 | The running timers are at most the one the slot names. |
| Polling.StepPreservesInv | src/hooks/use-polling.ts:15-48 | Every event keeps the invariant: running timers have their handle in the slot and are wanted, and handles are fresh. |
| Polling.RunPreservesInv | src/hooks/use-polling.ts:15-48 | Every sequence of events keeps the invariant. |
| Polling.AtMostOneTimer | src/hooks/use-polling.ts:15-31 | At most one timer runs at any time. |
| Polling.EnabledControlsTimer | src/hooks/use-polling.ts:15-31 | A dependency change clears the old timer before any new one. Afterwards exactly one timer runs if wanted, and none otherwise. |
| Polling.LatestCallbackRuns | src/hooks/use-polling.ts:10-12 | After a new callback, the running timer keeps running and its next tick calls the new callback. |
| Polling.StopThenStartIsNoop | src/hooks/use-polling.ts:33-47 | After `stopPolling`, no timer runs and `startPolling` changes nothing. |
| LiveMatchHook.Initial | src/hooks/use-live-match.ts:9-15 | No match, empty commentary and chat, no stats, loading, and no error. |
| LiveMatchHook.OnMatch | src/hooks/use-live-match.ts:17-27 | Success replaces the match, stamps `lastUpdate` and clears the error. Failure keeps the match and `lastUpdate` and sets the fixed message. Other slots are untouched either way. |
| LiveMatchHook.Apply | src/hooks/use-live-match.ts:29-68 | A commentary, stats or chat success replaces only its slot, and a failure changes nothing. Refetch start and end set loading. |
| LiveMatchHook.SettleOrderIrrelevant | src/hooks/use-live-match.ts:58-64 | Results of different feeds commute. |
| LiveMatchHook.RefetchAll | src/hooks/use-live-match.ts:56-68 | A refetch shows loading while outstanding. When it settles, loading is off. Each slot holds its new value, or its old one when its request failed, and the error reflects the match request alone. |
| LiveMatchHook.PermutedSettleSame | src/hooks/use-live-match.ts:58-64 | Any two orderings of the same settled results, at most one per feed, reach the same state. |
| LiveMatchHook.RefetchOrderIrrelevant | src/hooks/use-live-match.ts:58-64 | Every ordering of the four settled requests gives the state they give in source order. |
| LiveMatchHook.StaleDataOnError | src/hooks/use-live-match.ts:23-26 | A failed match request keeps the previous match and sets the error. |
| LiveMatchHook.OverlappingRefetchLoading | src/hooks/use-live-match.ts:56-68 | With two overlapping refetches, the first to settle turns loading off. |
| LiveMatchHook.PollInterval | src/hooks/use-live-match.ts:76-82 | Match, commentary and chat poll at 30000, 15000 and 10000 ms respectively. |
| LiveMatchHook.PollersFollowStatus | src/hooks/use-live-match.ts:76-82 | At mount, each feed's poller gets its interval and the live gate, and runs one timer exactly while a live match is held. |
| LiveMatchHook.PollerFollowsEvent | src/hooks/use-live-match.ts:76-82 | The re-render after any event keeps that true. A match turning live starts the timer, one leaving live stops it, and anything else leaves it as it was. |
| LiveMatchHook.PollersFollowRun | src/hooks/use-live-match.ts:9-82 | After any sequence of settled requests and re-renders from mount, each polled feed runs exactly one timer when the held match is live, and none otherwise. |
| LiveMatchHook.FailureKeepsPolling | src/hooks/use-live-match.ts:23-26 | A failed match request does not change whether polling runs. |
| LiveMatchView.InitialView | src/components/LiveMatch.tsx:19-22 | Nothing selected, selector shown, no matches, channels loading. |
| LiveMatchView.ScreenOf | src/components/LiveMatch.tsx:69-261 | Channels loading wins over everything. Then the selector shows when asked for or with no channel. Loading and error screens appear only without match data. Match data always gives the main view, with the cached-data banner exactly when an error is set. |
| LiveMatchView.LoadInitialData | src/components/LiveMatch.tsx:39-58 | `channelsLoading` always ends false. The first cricket channel is selected and the selector hidden exactly when that list is non-empty. |
| LiveMatchView.FirstLoadSelectsFirstCricket | src/components/LiveMatch.tsx:48-52 | A catalogue opening with a live cricket channel has that channel selected on first load. |
| LiveMatchView.FirstLoadSelectsStarSports | src/components/LiveMatch.tsx:48-52 | With the shipped catalogue, Star Sports 1 is selected. |
| LiveMatchView.HandleChannelSelect | src/components/LiveMatch.tsx:60-63 | Stores the channel and hides the selector. |
| LiveMatchView.HandleChannelChange | src/components/LiveMatch.tsx:65-67 | Shows the selector and keeps the current channel. |
| LiveMatchView.ChangeThenSelect | src/components/LiveMatch.tsx:60-84 | A channel change lands on the selector, and a selection leaves it. |
| LiveMatchView.NeverBlankedOnError | src/components/LiveMatch.tsx:143-253 | A failed match request keeps the main view, now with the cached-data banner. |
| LiveMatchView.MainViewSurvivesRefetch | src/components/LiveMatch.tsx:129-170 | Match data on screen survives any refetch. |
| ScoreCard.FormatOvers | src/components/ScoreCard.tsx:13-16 | Both branches write overs, '.', balls, so no balls reads "o.0". |
| ScoreCard.FormatOversRoundTrip | src/components/ScoreCard.tsx:13-16 | The overs figure parses back to the overs and balls it was written from. |
| ScoreCard.BattingSide | src/components/ScoreCard.tsx:32-34 | Team 1 and its score exactly in innings 1, team 2 otherwise. |
| ScoreCard.BowlingTeam | src/components/ScoreCard.tsx:26 | Team 2 in innings 1, team 1 otherwise. |
| ScoreCard.SidesAreOpposite | src/components/ScoreCard.tsx:26-34 | The batting and bowling sides are the match's two teams. |
| ScoreCard.PreviousInningsIsTeam1 | src/components/ScoreCard.tsx:139-140 | The previous-innings line shows only when `currentInnings` is 2. Team 2 is then batting and team 1 is in the field, so the line's team-1 figures are the completed innings. It never shows in the first innings. |
| ScoreCard.Batsmen | src/components/ScoreCard.tsx:20-22 | The first two players at the crease, in roster order: a prefix of the at-crease filter, of length two or all of it. |
| ScoreCard.CurrentBatsmenAsWritten | src/components/ScoreCard.tsx:18-23 | Team 1's batsmen whenever the batting side's id equals team 1's id, and team 2's batsmen otherwise. |
| ScoreCard.BatsmenAsWrittenWrongSide | src/components/ScoreCard.tsx:19 | Two teams sharing an id in innings 2: team 1's batsmen are shown. |
| ScoreCard.CurrentBatsmen | src/components/ScoreCard.tsx:18-23 | Corrected: the batting side's first two players at the crease, in roster order: a prefix of its at-crease filter, of length two or all of it. |
| ScoreCard.BatsmenAgreeWhenIdsDiffer | src/components/ScoreCard.tsx:18-35 | With distinct team ids the lookup by id finds the batting side. |
| ScoreCard.CurrentBowler | src/components/ScoreCard.tsx:25-30 | The first fielding player with bowling figures and at least one ball, and None exactly when there is none. |
| RelativeTime.MinutesAgo | src/components/Commentary.tsx:18 | "{m}m ago" with m the whole minutes elapsed, 1..59. |
| RelativeTime.MinutesAgoDistinguishes | src/components/LiveChat.tsx:46 | Equal labels mean equal whole minutes. |
| CommentaryView.Classify | src/components/Commentary.tsx:25-31 | Priority: wicket, boundary six, boundary four, no run, default, each as an if-and-only-if. |
| CommentaryView.Icon | src/components/Commentary.tsx:25-31 | One icon per kind of ball. |
| CommentaryView.IconsDistinct | src/components/Commentary.tsx:25-31 | Equal icons mean equal kinds. |
| CommentaryView.Style | src/components/Commentary.tsx:33-38 | The icon's priority for wicket, six and four. Plain exactly for dot balls and other scoring balls. |
| CommentaryView.DotBallStyledPlain | src/components/Commentary.tsx:29-37 | A dot ball shares the plain style with a scoring ball but not its icon. |
| CommentaryView.Badge | src/components/Commentary.tsx:73-81 | Shown exactly for runs > 0. Purple exactly from 6 runs and green exactly at 4. The caption starts with the runs and ends in 's' exactly above 1. |
| CommentaryView.BadgeNumberRoundTrip | src/components/Commentary.tsx:79 | The caption's digits read back as the runs. |
| CommentaryView.CommentaryTime | src/components/Commentary.tsx:12-23 | "{diff}s ago" under a minute (also for negative differences), minutes under an hour, else the clock time. |
| CommentaryView.Panel | src/components/Commentary.tsx:51-54 | The placeholder exactly for an empty feed. Otherwise one row per entry in feed order. |
| LiveChatView.Type | src/components/LiveChat.tsx:139 | The input keeps the longest prefix of what was typed that fits in 200 UTF-16 code units. |
| LiveChatView.TypeAstral | src/components/LiveChat.tsx:139 | Characters outside the Basic Multilingual Plane count twice, so at most 100 of them are kept. |
| LiveChatView.HandleSend | src/components/LiveChat.tsx:24-38 | A blank input changes nothing. Otherwise the trimmed text is prepended as "You"/other, with id "local-{ms}", and the input is cleared. |
| LiveChatView.SendRefusedIffBlank | src/components/LiveChat.tsx:26 | Sending is refused exactly when the input is all white space. |
| LiveChatView.TypePreservesInv | src/components/LiveChat.tsx:24-38 | Typing keeps the panel's invariant: input within 200 code units, and local messages all the user's own, non-blank and short. |
| LiveChatView.SendPreservesInv | src/components/LiveChat.tsx:24-38 | Sending keeps that invariant. |
| LiveChatView.Merge | src/components/LiveChat.tsx:20-22 | A permutation of feed and local messages, sorted newest first. Its length is the sum of both, which is the shown count. |
| LiveChatView.MergeShowsAll | src/components/LiveChat.tsx:20-22 | A message is shown exactly when it is in the feed or the local list. |
| LiveChatView.SentMessageOnTop | src/components/LiveChat.tsx:20-36 | A message just sent heads the panel when nothing is newer. |
| LiveChatView.ChatTime | src/components/LiveChat.tsx:40-51 | "now" exactly under a minute, minutes under an hour, and the clock time exactly from an hour. |
| LiveChatView.CountryFlag | src/components/LiveChat.tsx:53-59 | India's and Pakistan's flags, and a globe for anyone else, each as an if-and-only-if. |
| LiveChatView.MessageStyle | src/components/LiveChat.tsx:61-68 | The user's style exactly for the user. Otherwise one style per country. |
| LiveChatView.StyleOf | src/components/LiveChat.tsx:100-103 | A message from "You" gets the user style whatever its country, and only such messages do. |
| LiveChatView.SentMessagesStyledAsOwn | src/components/LiveChat.tsx:100-103 | Every message sent from the page is shown in the user's style. |
| VideoPlayer.SecondPiece | src/components/VideoPlayer.tsx:64 | `split(sep)[1]` exists exactly when the separator occurs. It is the text between the first and the next occurrence. |
| VideoPlayer.LastSegment | src/components/VideoPlayer.tsx:64 | `split('/').pop()` is a suffix without '/', preceded by '/' unless it is the whole string. |
| VideoPlayer.VideoId | src/components/VideoPlayer.tsx:64 | The non-empty `v=` parameter, else the last segment. |
| VideoPlayer.EmbedUrl | src/components/VideoPlayer.tsx:61-76 | youtube.com, jiocinema.com, hotstar.com and ptvsports.tv are checked in that order, and the first hit decides. No hit gives null. |
| VideoPlayer.YouTubeWithoutParameter | src/components/VideoPlayer.tsx:63-65 | A YouTube URL without `v=` embeds its last path segment. |
| VideoPlayer.MuteIcon | src/components/VideoPlayer.tsx:250 | Silent exactly when muted or at volume 0, quiet exactly below 50, loud otherwise. |
| VideoPlayer.InitialQuality | src/components/VideoPlayer.tsx:20 | The first quality's resolution, or "1080p". |
| VideoPlayer.Mount | src/components/VideoPlayer.tsx:16-43 | Playing, volume 80, unmuted, loading with the timer armed, initial quality. |
| VideoPlayer.OverlayOf | src/components/VideoPlayer.tsx:127-165 | Loading wins. The error panel shows exactly with an error and no loading, and the stream exactly with neither. |
| VideoPlayer.SliderValue | src/components/VideoPlayer.tsx:255 | The slider shows 0 while muted. |
| VideoPlayer.ShowChannelStep | src/components/VideoPlayer.tsx:34-43 | A new channel id resets to loading with no error and the timer armed. The selected quality is kept, since the source does not reset it. The same id changes nothing. |
| VideoPlayer.SlideStep | src/components/VideoPlayer.tsx:256-259 | The volume follows the slider. A positive value unmutes, and 0 leaves the mute flag. |
| VideoPlayer.RetryAsWritten | src/components/VideoPlayer.tsx:148 | Clears the error and turns loading on without arming a timer. |
| VideoPlayer.RetryStep | src/components/VideoPlayer.tsx:148 | Corrected: loading with a fresh timer. |
| VideoPlayer.StepPreservesInv | src/components/VideoPlayer.tsx:34-174 | Every event keeps the timer armed exactly while loading. |
| VideoPlayer.RunPreservesInv | src/components/VideoPlayer.tsx:34-174 | So does every sequence of events. |
| VideoPlayer.TimerEndsLoading | src/components/VideoPlayer.tsx:38-40 | The timer firing always ends loading. |
| VideoPlayer.RetryAsWrittenSpinsForever | src/components/VideoPlayer.tsx:148 | From loading with no timer armed, which is where Retry as written leaves the player, no event sequence that keeps the channel ends loading. |
| VideoPlayer.RetryAsWrittenBreaksInv | src/components/VideoPlayer.tsx:138-148 | From the error panel, Retry as written breaks the invariant and the corrected Retry keeps it. |
| VideoPlayer.ChannelChangeLoadsThenStreams | src/components/VideoPlayer.tsx:34-43 | A channel change shows loading, then the stream when the timer fires. |
| VideoPlayer.SlideUnmutes | src/components/VideoPlayer.tsx:250-259 | After a positive slide, the icon and slider follow the volume alone. |
| VideoPlayer.SlideToZeroSilences | src/components/VideoPlayer.tsx:250-259 | After sliding to 0, the icon is silent. |
| VideoPlayer.ToggleMuteTwice | src/components/VideoPlayer.tsx:49-51 | Toggling mute twice restores the state. |

## Left out

- Network requests, HTTP status checks and JSON decoding are not modelled. A provider answer is an input: a failed request, or the parsed fields the code reads, each possibly missing.
- `setTimeout` latency delays are not modelled (500 ms, 300 ms, 100 ms, and the player's 2-second connection timer). Only the timer's firing is an event.
- `Promise.all` interleaving and React effect scheduling are not modelled. Each settled request is a discrete event.
- Floating-point fields are not carried: `runRate`, `requiredRunRate`, `strikeRate`, `economy`. Provider overs are taken as whole numbers, and so are the simulated match's bowling overs (Shaheen Afridi's 3.2 is carried as 3).
- The `Math.random() > 0.7` draw is an exact real comparison, not a JavaScript double.
- `Date` parsing and locale formatting are not modelled. A clock-time label is the abstract `ClockTime(at)`. Timestamps are whole seconds, except the chat id and the hook's `lastUpdate`, which are in milliseconds.
- Text.LowerStr / Text.UpperStr / Text.Trim: ASCII only. Unicode case mapping and Unicode white space are not modelled.
- CricketApi.ShortName: the table lookup treats only the ten table keys as hits. A name such as "constructor", which an object literal would resolve through its prototype, is not modelled. `substring(0, 3)` is taken as three whole characters; splitting a surrogate pair is not modelled.
- CricketApi.ConvertCricApi: team flags come from the corrected `TeamFlag`. As written, a team outside the four-entry flag table gets the address ending in `.png}` (`TeamFlagAsWritten`); FlagCorrectionDropsBrace states the exact difference.
- CricketApi.ConvertEspn: team flags come from the corrected `TeamFlag`, with the same difference from the source as for ConvertCricApi.
- LiveChatView.Type: a field at its limit keeps whole characters only. Whether a browser splits a surrogate pair at the 200th code unit is not modelled.
- LiveChatView.Merge: the sort is shown sorted and a permutation, but its stability (the order of equal timestamps) is not stated.
- `getMatchStats` returns a fixed payload. It is modelled only as an opaque value that a stats event carries.
- `getFallbackMatches` is not modelled: both fetchers catch every error, so its catch branch cannot be reached.
- The live-match hook's error path needs `getLiveMatch` to throw. The resolver never does, since every provider failure is caught, but the failure event is modelled anyway.
- The video player is not fully modelled:
  - fullscreen handling, `window.open` and the play/pause rendering are not modelled;
  - channel logos and images are not modelled.
- The chat's "No messages yet" placeholder and all JSX/Tailwind rendering are not modelled.
- A `startPolling` call after the hook unmounts is not modelled. An unmounted hook has no further events.
- Route handlers, layout, configuration, and the `ChannelSelector`, `MatchHeader`, `PlayerStats` and `StreamPlayer` components are not part of this model.

## Findings

| source | as written | input that shows it | evidently intended | confidence | as-written member | corrected member |
|---|---|---|---|---|---|---|
| src/lib/cricket-api.ts:300 | `[...mockCommentary].reverse()` under the comment "Most recent first", over a list stored newest first | the shipped commentary: the result starts with over 7.6, the oldest ball | most recent ball first | high, not executed | CricketApi.CommentaryAsWrittenOldestFirst | CricketApi.CommentaryNewestFirst |
| src/lib/cricket-api.ts:228 | the fallback flag URL ends in `.png}` | `getTeamFlag('Sri Lanka')` | a `.png` image address | high, not executed | CricketApi.FlagAsWrittenIsMalformed | CricketApi.TeamFlag |
| src/components/ScoreCard.tsx:18-19 | the batting team is looked up again by id | innings 2 with both team ids "india" (two names lowering to the same id): team 1's batsmen are shown under team 2's score | the batting side's own players | low, not executed; every conversion and the simulated match set `currentInnings` to 1 (src/lib/cricket-api.ts:48,168,196), so the shipped app never reaches innings 2 | ScoreCard.BatsmenAsWrittenWrongSide | ScoreCard.CurrentBatsmen |
| src/components/VideoPlayer.tsx:148 | Retry sets loading without a timer to clear it | the error panel, then Retry: the spinner stays until the channel changes | Retry reconnects like a channel change, and loading ends | medium, not executed | VideoPlayer.RetryAsWrittenSpinsForever | VideoPlayer.RetryStep |
