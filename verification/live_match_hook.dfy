/**
 * The data hook of `src/hooks/use-live-match.ts`: four feeds (match,
 * commentary, statistics, chat) fetched together on mount and on
 * `refetch`, three of them re-polled while the match is live.
 *
 * Each settled request is an event applied to the hook's state; the order
 * in which concurrent requests settle is arbitrary, so the model lets any
 * order happen and proves it does not matter.
 */
module LiveMatchHook {
  import opened Optional
  import opened Types
  import Polling

  /** How a request settled: with a value, or rejected. */
  datatype Outcome<T> = Ok(value: T) | Failed

  /** The hook's state; `lastUpdate` is in milliseconds. */
  datatype HookState = HookState(
    matchData: Option<MatchData>,
    commentary: seq<Commentary>,
    matchStats: Option<MatchStats>,
    liveChat: seq<ChatMessage>,
    loading: bool,
    error: Option<string>,
    lastUpdate: int)

  const MatchError: string := "Failed to fetch live match data"

  /** The state on mount, before the first fetch settles. */
  function Initial(now: int): (s: HookState)
    ensures s.loading && s.error.None? && s.matchData.None? && s.matchStats.None?
    ensures s.commentary == [] && s.liveChat == [] && s.lastUpdate == now
  {
    HookState(None, [], None, [], true, None, now)
  }

  datatype Event =
    | MatchSettled(result: Outcome<MatchData>, at: int)
    | CommentarySettled(commentary: Outcome<seq<Commentary>>)
    | StatsSettled(stats: Outcome<MatchStats>)
    | ChatSettled(chat: Outcome<seq<ChatMessage>>)
    | RefetchStarted
    | RefetchSettled

  /** `fetchMatchData`: success replaces the match and clears the error; failure keeps the old match and sets the error. */
  function OnMatch(s: HookState, o: Outcome<MatchData>, at: int): (r: HookState)
    ensures o.Ok? ==> r.matchData == Some(o.value) && r.error.None? && r.lastUpdate == at
    ensures o.Failed? ==> r.matchData == s.matchData && r.error == Some(MatchError) && r.lastUpdate == s.lastUpdate
    ensures r.commentary == s.commentary && r.matchStats == s.matchStats && r.liveChat == s.liveChat
    ensures r.loading == s.loading
  {
    match o
    case Ok(d) => s.(matchData := Some(d), lastUpdate := at, error := None)
    case Failed => s.(error := Some(MatchError))
  }

  /** The three secondary feeds: success replaces the feed; failure is swallowed and changes nothing. */
  function Apply(s: HookState, e: Event): (r: HookState)
    ensures e.CommentarySettled? ==> r == if e.commentary.Ok? then s.(commentary := e.commentary.value) else s
    ensures e.StatsSettled? ==> r == if e.stats.Ok? then s.(matchStats := Some(e.stats.value)) else s
    ensures e.ChatSettled? ==> r == if e.chat.Ok? then s.(liveChat := e.chat.value) else s
    ensures e.RefetchStarted? ==> r == s.(loading := true)
    ensures e.RefetchSettled? ==> r == s.(loading := false)
  {
    match e
    case MatchSettled(o, at) => OnMatch(s, o, at)
    case CommentarySettled(o) => if o.Ok? then s.(commentary := o.value) else s
    case StatsSettled(o) => if o.Ok? then s.(matchStats := Some(o.value)) else s
    case ChatSettled(o) => if o.Ok? then s.(liveChat := o.value) else s
    case RefetchStarted => s.(loading := true)
    case RefetchSettled => s.(loading := false)
  }

  /** The feed a settled request belongs to; `RefetchStarted`/`RefetchSettled` belong to none. */
  function Feed(e: Event): int
  {
    match e
    case MatchSettled(_, _) => 0
    case CommentarySettled(_) => 1
    case StatsSettled(_) => 2
    case ChatSettled(_) => 3
    case _ => -1
  }

  /** Results of different feeds write disjoint fields, so they commute. */
  lemma SettleOrderIrrelevant(s: HookState, a: Event, b: Event)
    requires 0 <= Feed(a) && 0 <= Feed(b) && Feed(a) != Feed(b)
    ensures Apply(Apply(s, a), b) == Apply(Apply(s, b), a)
  {
  }

  /** The state after the four requests of one refetch settle (in source order). */
  function Settle(s: HookState, m: Outcome<MatchData>, at: int, c: Outcome<seq<Commentary>>,
                  st: Outcome<MatchStats>, ch: Outcome<seq<ChatMessage>>): HookState
  {
    Apply(Apply(Apply(Apply(s, MatchSettled(m, at)), CommentarySettled(c)), StatsSettled(st)), ChatSettled(ch))
  }

  /**
   * `fetchAllData`: loading is on while the four requests are outstanding;
   * since every request swallows its own failure, `Promise.all` always
   * fulfils and loading ends off. Each feed holds its new value, or its old
   * one when its request failed.
   */
  lemma RefetchAll(s: HookState, m: Outcome<MatchData>, at: int, c: Outcome<seq<Commentary>>,
                   st: Outcome<MatchStats>, ch: Outcome<seq<ChatMessage>>)
    ensures Apply(s, RefetchStarted).loading
    ensures var r := Apply(Settle(Apply(s, RefetchStarted), m, at, c, st, ch), RefetchSettled);
            && !r.loading
            && r.matchData == (if m.Ok? then Some(m.value) else s.matchData)
            && r.error == (if m.Ok? then None else Some(MatchError))
            && r.commentary == (if c.Ok? then c.value else s.commentary)
            && r.matchStats == (if st.Ok? then Some(st.value) else s.matchStats)
            && r.liveChat == (if ch.Ok? then ch.value else s.liveChat)
  {
  }

  /** The state after a sequence of events, applied in order. */
  function Run(s: HookState, es: seq<Event>): HookState
    decreases |es|
  {
    if |es| == 0 then s else Run(Apply(s, es[0]), es[1..])
  }

  lemma {:induction false} RunAppend(s: HookState, a: seq<Event>, b: seq<Event>)
    ensures Run(s, a + b) == Run(Run(s, a), b)
    decreases |a|
  {
    if |a| == 0 {
      assert a + b == b;
    } else {
      assert (a + b)[0] == a[0] && (a + b)[1..] == a[1..] + b;
      RunAppend(Apply(s, a[0]), a[1..], b);
    }
  }

  /** Every event is a settled request, and no two belong to the same feed. */
  predicate OnePerFeed(es: seq<Event>)
  {
    && (forall i :: 0 <= i < |es| ==> 0 <= Feed(es[i]))
    && (forall i, j :: 0 <= i < j < |es| ==> Feed(es[i]) != Feed(es[j]))
  }

  /** A result can be moved ahead of results of other feeds without changing the outcome. */
  lemma {:induction false} MoveAhead(s: HookState, x: seq<Event>, a: Event)
    requires 0 <= Feed(a)
    requires forall i :: 0 <= i < |x| ==> 0 <= Feed(x[i]) && Feed(x[i]) != Feed(a)
    ensures Run(s, x + [a]) == Run(Apply(s, a), x)
    decreases |x|
  {
    if |x| > 0 {
      assert (x + [a])[0] == x[0] && (x + [a])[1..] == x[1..] + [a];
      MoveAhead(Apply(s, x[0]), x[1..], a);
      SettleOrderIrrelevant(s, x[0], a);
    }
  }

  /** Splits `s` around the first occurrence of `a`. */
  lemma {:induction false} SplitAtFirst<T>(s: seq<T>, a: T) returns (x: seq<T>, y: seq<T>)
    requires a in s
    ensures s == x + [a] + y && a !in x
    decreases |s|
  {
    if s[0] == a {
      x, y := [], s[1..];
      assert s == [s[0]] + s[1..];
    } else {
      var x', y' := SplitAtFirst(s[1..], a);
      x, y := [s[0]] + x', y';
      assert s == [s[0]] + s[1..];
    }
  }

  /**
   * With `es` one result per feed and `es'` a reordering of it split
   * around `es[0]`, the results before that point belong to other feeds,
   * and the rest of `es` is a reordering of the rest of `es'`.
   */
  lemma OthersOtherFeeds(es: seq<Event>, es': seq<Event>, x: seq<Event>, y: seq<Event>)
    requires OnePerFeed(es) && |es| > 0 && multiset(es) == multiset(es')
    requires es' == x + [es[0]] + y && es[0] !in x
    ensures forall i :: 0 <= i < |x| ==> 0 <= Feed(x[i]) && Feed(x[i]) != Feed(es[0])
    ensures multiset(es[1..]) == multiset(x + y)
    ensures OnePerFeed(es[1..])
  {
    forall i | 0 <= i < |x| ensures 0 <= Feed(x[i]) && Feed(x[i]) != Feed(es[0]) {
      assert x[i] == es'[i];
      assert x[i] in multiset(es);
      var j :| 0 <= j < |es| && es[j] == x[i];
      assert j != 0;
    }
    assert multiset(es') == multiset(x) + multiset([es[0]]) + multiset(y) by {
      assert es' == (x + [es[0]]) + y;
    }
    assert multiset(x + y) == multiset(x) + multiset(y);
    assert es == [es[0]] + es[1..];
    assert multiset(es) == multiset([es[0]]) + multiset(es[1..]);
    forall e ensures multiset(es[1..])[e] == multiset(x + y)[e] {
      assert multiset(es)[e] == multiset(es')[e];
    }
  }

  /** Two orders of the same settled results, one per feed, reach the same state. */
  lemma {:induction false} PermutedSettleSame(s: HookState, es: seq<Event>, es': seq<Event>)
    requires OnePerFeed(es) && multiset(es) == multiset(es')
    ensures Run(s, es) == Run(s, es')
    decreases |es|
  {
    if |es| == 0 {
      assert |es'| == |multiset(es')|;
    } else {
      var a := es[0];
      assert a in multiset(es');
      var x, y := SplitAtFirst(es', a);
      OthersOtherFeeds(es, es', x, y);
      RunAppend(s, x + [a], y);
      MoveAhead(s, x, a);
      RunAppend(Apply(s, a), x, y);
      PermutedSettleSame(Apply(s, a), es[1..], x + y);
    }
  }

  lemma RunFour(s: HookState, a: Event, b: Event, c: Event, d: Event)
    ensures Run(s, [a, b, c, d]) == Apply(Apply(Apply(Apply(s, a), b), c), d)
  {
    var s1 := Apply(s, a);
    var s2 := Apply(s1, b);
    var s3 := Apply(s2, c);
    assert [a, b, c, d][1..] == [b, c, d] && [b, c, d][1..] == [c, d] && [c, d][1..] == [d] && [d][1..] == [];
    assert Run(s3, [d]) == Run(Apply(s3, d), []) == Apply(s3, d);
    assert Run(s2, [c, d]) == Run(s3, [d]);
    assert Run(s1, [b, c, d]) == Run(s2, [c, d]);
    assert Run(s, [a, b, c, d]) == Run(s1, [b, c, d]);
  }

  /**
   * The order in which the four requests settle does not change the
   * result: every ordering of the four results gives the state they give
   * in source order.
   */
  lemma RefetchOrderIrrelevant(s: HookState, m: Outcome<MatchData>, at: int, c: Outcome<seq<Commentary>>,
                               st: Outcome<MatchStats>, ch: Outcome<seq<ChatMessage>>, es: seq<Event>)
    requires multiset(es) == multiset([MatchSettled(m, at), CommentarySettled(c), StatsSettled(st), ChatSettled(ch)])
    ensures Run(s, es) == Settle(s, m, at, c, st, ch)
  {
    var canonical := [MatchSettled(m, at), CommentarySettled(c), StatsSettled(st), ChatSettled(ch)];
    assert OnePerFeed(canonical);
    PermutedSettleSame(s, canonical, es);
    RunFour(s, MatchSettled(m, at), CommentarySettled(c), StatsSettled(st), ChatSettled(ch));
  }

  /** A failed match request never blanks the match already on screen. */
  lemma StaleDataOnError(s: HookState, at: int)
    requires s.matchData.Some?
    ensures var r := Apply(s, MatchSettled(Failed, at));
            r.matchData == s.matchData && r.error == Some(MatchError)
  {
  }

  /** Two overlapping refetches: the first to settle turns loading off while the second is still outstanding. */
  lemma OverlappingRefetchLoading(s: HookState)
    ensures !Apply(Apply(Apply(s, RefetchStarted), RefetchStarted), RefetchSettled).loading
  {
  }

  // ------------------------------------------------------------- polling

  /** The two polled feeds besides the match; statistics are never polled. */
  datatype PolledFeed = MatchFeed | CommentaryFeed | ChatFeed

  /** The polling period of each feed, in milliseconds. */
  function PollInterval(f: PolledFeed): (ms: int)
    ensures ms > 0
    ensures f == MatchFeed ==> ms == 30000
    ensures f == CommentaryFeed ==> ms == 15000
    ensures f == ChatFeed ==> ms == 10000
  {
    match f
    case MatchFeed => 30000
    case CommentaryFeed => 15000
    case ChatFeed => 10000
  }

  /** `matchData?.status === 'live'`: polling runs only while a live match is held. */
  predicate PollingEnabled(s: HookState)
  {
    s.matchData.Some? && s.matchData.value.status == Live
  }

  /**
   * A feed's poller is in step with the hook's state: it was given the
   * feed's interval and the live gate of that state, and runs one interval
   * exactly while a live match is held.
   */
  predicate InStep(p: Polling.Poller, s: HookState, f: PolledFeed)
  {
    && Polling.Inv(p)
    && p.interval == PollInterval(f)
    && p.enabled == PollingEnabled(s)
    && |p.active| == (if PollingEnabled(s) then 1 else 0)
  }

  /** A feed's poller as the hook mounts it in state `s`: one interval while the match is live, none otherwise. */
  lemma PollersFollowStatus(s: HookState, f: PolledFeed, callback: nat)
    ensures InStep(Polling.Mount(callback, PollInterval(f), PollingEnabled(s)), s, f)
  {
  }

  /**
   * The re-render after any state change keeps the poller in step: a match
   * turning live starts the feed's interval, one leaving live (or replaced
   * by a non-live one) stops it, and anything else leaves it running as it was.
   */
  lemma PollerFollowsEvent(p: Polling.Poller, s: HookState, f: PolledFeed, e: Event, callback: nat)
    requires InStep(p, s, f)
    ensures var s' := Apply(s, e);
            InStep(Polling.Rerender(p, callback, PollInterval(f), PollingEnabled(s')), s', f)
  {
    var s' := Apply(s, e);
    if PollingEnabled(s') != PollingEnabled(s) {
      Polling.EnabledControlsTimer(p, callback, PollInterval(f), PollingEnabled(s'));
      var r := Polling.Rerender(p, callback, PollInterval(f), PollingEnabled(s'));
      Polling.StepPreservesInv(p, Polling.Render(callback, PollInterval(f), PollingEnabled(s')));
      if PollingEnabled(s') {
        assert r.active == {r.slot.value};
      }
    }
  }

  /** The hook and one feed's poller after a sequence of events, re-rendering after each. */
  function Follow(p: Polling.Poller, s: HookState, f: PolledFeed, es: seq<Event>, callback: nat)
    : (Polling.Poller, HookState)
    decreases |es|
  {
    if |es| == 0 then (p, s)
    else
      var s' := Apply(s, es[0]);
      Follow(Polling.Rerender(p, callback, PollInterval(f), PollingEnabled(s')), s', f, es[1..], callback)
  }

  /**
   * From mount on, whatever the requests return and in whatever order,
   * each polled feed runs exactly one interval while the held match is
   * live and none otherwise.
   */
  lemma {:induction false} PollersFollowRun(p: Polling.Poller, s: HookState, f: PolledFeed, es: seq<Event>,
                                            callback: nat)
    requires InStep(p, s, f)
    ensures var r := Follow(p, s, f, es, callback);
            r.1 == Run(s, es) && InStep(r.0, r.1, f)
            && |r.0.active| == (if PollingEnabled(Run(s, es)) then 1 else 0)
    decreases |es|
  {
    if |es| > 0 {
      var s' := Apply(s, es[0]);
      PollerFollowsEvent(p, s, f, es[0], callback);
      PollersFollowRun(Polling.Rerender(p, callback, PollInterval(f), PollingEnabled(s')), s', f, es[1..], callback);
    }
  }

  /** A failed match request keeps polling as it was: the stale match still decides. */
  lemma FailureKeepsPolling(s: HookState, at: int)
    ensures PollingEnabled(Apply(s, MatchSettled(Failed, at))) == PollingEnabled(s)
  {
  }
}
