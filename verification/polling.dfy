/**
 * The interval hook of `src/hooks/use-polling.ts` as a state machine over
 * timer handles.
 *
 * The hook keeps one slot (`intervalRef`) for the handle of its interval
 * and one for the latest callback (`savedCallback`). Re-rendering with a
 * new `interval` or `enabled` clears the interval in the slot and, when
 * polling is enabled with a positive interval, starts a fresh one; the
 * slot is never reset to empty, so a cleared handle stays in it. Callbacks
 * are identified by number; the browser's timer queue is the set of
 * handles still `active`.
 */
module Polling {
  import opened Optional

  /** The hook's state: the latest callback, the handle slot, the live timers, the next handle, and the current dependencies. */
  datatype Poller = Poller(
    callback: nat,
    slot: Option<nat>,
    active: set<nat>,
    next: nat,
    interval: int,
    enabled: bool)

  /** What can happen to a mounted hook. */
  datatype Event =
    | Render(callback: nat, interval: int, enabled: bool)
    | Stop
    | Start
    | Unmount

  /** Whether the hook wants a timer: `enabled && interval > 0`. */
  predicate Wants(p: Poller)
  {
    p.enabled && p.interval > 0
  }

  /**
   * The states the hook can reach: every live timer is the one in the
   * slot, handles are never reused, and a timer only runs while polling is
   * wanted.
   */
  predicate Inv(p: Poller)
  {
    && (forall h :: h in p.active ==> p.slot == Some(h))
    && (p.slot.Some? ==> p.slot.value < p.next)
    && (p.active != {} ==> Wants(p))
  }

  /** The effect body: start an interval and keep its handle when polling is wanted. */
  function Setup(p: Poller): (r: Poller)
    ensures Wants(p) ==> r.slot == Some(p.next) && r.active == p.active + {p.next} && r.next == p.next + 1
    ensures !Wants(p) ==> r == p
    ensures r.callback == p.callback && r.interval == p.interval && r.enabled == p.enabled
  {
    if Wants(p) then p.(slot := Some(p.next), active := p.active + {p.next}, next := p.next + 1) else p
  }

  /** The effect's cleanup, and `stopPolling`: clear whatever interval the slot names, leaving the slot as it is. */
  function Clear(p: Poller): (r: Poller)
    ensures r.slot == p.slot
    ensures p.slot.Some? ==> r.active == p.active - {p.slot.value}
    ensures p.slot.None? ==> r.active == p.active
    ensures r.callback == p.callback && r.next == p.next && r.interval == p.interval && r.enabled == p.enabled
  {
    if p.slot.Some? then p.(active := p.active - {p.slot.value}) else p
  }

  /** Mounting: the slot starts empty and the effect runs once. */
  function Mount(callback: nat, interval: int, enabled: bool): (r: Poller)
    ensures Inv(r)
    ensures |r.active| == if enabled && interval > 0 then 1 else 0
    ensures r.callback == callback
  {
    Setup(Poller(callback, None, {}, 0, interval, enabled))
  }

  /**
   * A re-render: the callback slot takes the new callback, and the interval
   * effect re-runs (cleanup, then setup) only when `interval` or `enabled`
   * changed.
   */
  function Rerender(p: Poller, callback: nat, interval: int, enabled: bool): (r: Poller)
    ensures r.callback == callback && r.interval == interval && r.enabled == enabled
    ensures interval == p.interval && enabled == p.enabled ==> r.slot == p.slot && r.active == p.active
  {
    var q := p.(callback := callback);
    if interval == p.interval && enabled == p.enabled then q
    else Setup(Clear(q).(interval := interval, enabled := enabled))
  }

  /** `startPolling`: starts an interval only when the slot has never held one and polling is wanted. */
  function StartPolling(p: Poller): (r: Poller)
    ensures p.slot.Some? || !Wants(p) ==> r == p
    ensures p.slot.None? && Wants(p) ==> r.slot.Some? && r.active == p.active + {r.slot.value}
  {
    if p.slot.None? && Wants(p) then Setup(p) else p
  }

  function Step(p: Poller, e: Event): Poller
  {
    match e
    case Render(cb, i, en) => Rerender(p, cb, i, en)
    case Stop => Clear(p)
    case Start => StartPolling(p)
    case Unmount => Clear(p)
  }

  function Run(p: Poller, es: seq<Event>): Poller
    decreases |es|
  {
    if |es| == 0 then p else Run(Step(p, es[0]), es[1..])
  }

  /** A firing of timer `h`: only a live timer fires, and it calls the latest callback. */
  function Tick(p: Poller, h: nat): (r: Option<nat>)
    ensures r.Some? <==> h in p.active
    ensures r.Some? ==> r.value == p.callback
  {
    if h in p.active then Some(p.callback) else None
  }

  // ---------------------------------------------------------- properties

  /** In a reachable state the live timers are at most the one the slot names. */
  lemma ActiveWithinSlot(p: Poller)
    requires Inv(p)
    ensures p.slot.None? ==> p.active == {}
    ensures p.slot.Some? ==> p.active <= {p.slot.value}
  {
  }

  lemma StepPreservesInv(p: Poller, e: Event)
    requires Inv(p)
    ensures Inv(Step(p, e))
  {
    match e
    case Render(cb, i, en) =>
      if i != p.interval || en != p.enabled {
        ActiveWithinSlot(p);
      }
    case Stop =>
    case Start =>
      if p.slot.None? && Wants(p) {
        ActiveWithinSlot(p);
      }
    case Unmount =>
  }

  /** Every state reachable from a mount satisfies the invariant. */
  lemma {:induction false} RunPreservesInv(p: Poller, es: seq<Event>)
    requires Inv(p)
    ensures Inv(Run(p, es))
    decreases |es|
  {
    if |es| > 0 {
      StepPreservesInv(p, es[0]);
      RunPreservesInv(Step(p, es[0]), es[1..]);
    }
  }

  /** At most one interval is ever running per hook. */
  lemma AtMostOneTimer(p: Poller)
    requires Inv(p)
    ensures |p.active| <= 1
  {
    if p.active != {} {
      var h :| h in p.active;
      assert p.active == {h} by {
        forall g | g in p.active ensures g == h {
          assert p.slot == Some(g) && p.slot == Some(h);
        }
      }
    }
  }

  /** Turning polling off clears the running interval; turning it on from off starts exactly one. */
  lemma EnabledControlsTimer(p: Poller, callback: nat, interval: int, enabled: bool)
    requires Inv(p)
    requires interval != p.interval || enabled != p.enabled
    ensures var r := Rerender(p, callback, interval, enabled);
            (enabled && interval > 0 ==> r.slot.Some? && r.active == {r.slot.value})
            && (!(enabled && interval > 0) ==> r.active == {})
  {
    ActiveWithinSlot(p);
  }

  /** A new callback takes effect at the next tick of the running interval, without restarting it. */
  lemma LatestCallbackRuns(p: Poller, h: nat, callback: nat)
    requires h in p.active
    ensures var r := Rerender(p, callback, p.interval, p.enabled);
            r.active == p.active && Tick(r, h) == Some(callback)
  {
  }

  /** After `stopPolling`, `startPolling` does nothing: the cleared handle still fills the slot. */
  lemma StopThenStartIsNoop(p: Poller)
    requires Inv(p) && p.slot.Some?
    ensures var s := Clear(p);
            StartPolling(s) == s && s.active == {}
  {
    ActiveWithinSlot(p);
  }
}
