/**
 * `usePolling`: a holder for at most one browser interval timer, driven by the `enabled` flag,
 * the page's visibility and the timer's own ticks. Interval ids are the positive integers the
 * browser hands out; `live` is the set of intervals the browser would still fire.
 */
module Polling {
  import opened Wrappers

  /** The holder invariant: the interval in the ref is the only live one, and none is live without it. */
  predicate OneInterval(timer: Option<nat>, live: set<nat>)
  {
    (timer.None? ==> live == {}) && (timer.Some? ==> live == {timer.value})
  }

  lemma AtMostOneLive(timer: Option<nat>, live: set<nat>)
    requires OneInterval(timer, live)
    ensures |live| <= 1
  {
  }

  class Poller<C> {
    const interval: nat
    /** `callbackRef.current`: the callback of the most recent render. */
    var callback: C
    var enabled: bool
    var hidden: bool
    /** `intervalRef.current`. */
    var timer: Option<nat>
    var live: set<nat>
    var nextId: nat

    ghost predicate Valid()
      reads this
    {
      OneInterval(timer, live) && nextId >= 1 && forall t :: t in live ==> t < nextId
    }

    /** The first render: the refs are set, no timer exists yet. */
    constructor (callback: C, enabled: bool, interval: nat, hidden: bool)
      ensures Valid()
      ensures this.callback == callback && this.enabled == enabled && this.interval == interval && this.hidden == hidden
      ensures timer == None && live == {}
    {
      this.callback, this.enabled, this.interval, this.hidden := callback, enabled, interval, hidden;
      timer, live, nextId := None, {}, 1;
    }

    /** `startPolling`: clears the interval in the ref, if any, then installs a fresh one. */
    method StartPolling()
      requires Valid()
      modifies this
      ensures Valid()
      ensures timer == Some(old(nextId)) && live == {old(nextId)} && nextId == old(nextId) + 1
      ensures old(timer).Some? ==> old(timer).value !in live
      ensures callback == old(callback) && enabled == old(enabled) && hidden == old(hidden)
    {
      if timer.Some? {
        live := live - {timer.value};
      }
      timer := Some(nextId);
      live := live + {nextId};
      nextId := nextId + 1;
    }

    /** `stopPolling`: clears the interval in the ref, if any, and empties the ref. */
    method StopPolling()
      requires Valid()
      modifies this
      ensures Valid()
      ensures timer == None && live == {}
      ensures nextId == old(nextId) && callback == old(callback) && enabled == old(enabled) && hidden == old(hidden)
    {
      if timer.Some? {
        live := live - {timer.value};
        timer := None;
      }
    }

    /** Mounting runs the effects: polling starts when enabled, whether or not the page is hidden. */
    method Mount()
      requires Valid()
      modifies this
      ensures Valid()
      ensures enabled ==> timer == Some(old(nextId)) && live == {old(nextId)}
      ensures !enabled ==> timer == None && live == {}
      ensures callback == old(callback) && enabled == old(enabled) && hidden == old(hidden)
    {
      if enabled {
        StartPolling();
      } else {
        StopPolling();
      }
    }

    /**
     * A re-render with a new callback and `enabled` flag. The ref always takes the new callback;
     * when `enabled` changed, both effects are cleaned up (stopping polling) and run again.
     */
    method Render(cb: C, en: bool)
      requires Valid()
      modifies this
      ensures Valid()
      ensures callback == cb && enabled == en && hidden == old(hidden)
      ensures en == old(enabled) ==> timer == old(timer) && live == old(live)
      ensures en != old(enabled) && en ==> timer == Some(old(nextId)) && live == {old(nextId)}
      ensures en != old(enabled) && !en ==> timer == None && live == {}
    {
      callback := cb;
      if en != enabled {
        StopPolling();
        StopPolling();
        enabled := en;
        if enabled {
          StartPolling();
        } else {
          StopPolling();
        }
      }
    }

    /** `visibilitychange`: hidden stops polling; visible restarts it only when enabled. */
    method VisibilityChange(nowHidden: bool)
      requires Valid()
      modifies this
      ensures Valid()
      ensures hidden == nowHidden && callback == old(callback) && enabled == old(enabled)
      ensures nowHidden ==> timer == None && live == {}
      ensures !nowHidden && enabled ==> timer == Some(old(nextId)) && live == {old(nextId)}
      ensures !nowHidden && !enabled ==> timer == old(timer) && live == old(live)
    {
      hidden := nowHidden;
      if nowHidden {
        StopPolling();
      } else if enabled {
        StartPolling();
      }
    }

    /**
     * Interval `t` fires: a live interval calls the current callback; a cleared one does nothing.
     * A throw from the callback is caught, so the tick changes no state either way.
     */
    method Tick(t: nat) returns (called: Option<C>)
      requires Valid()
      ensures t in live ==> called == Some(callback)
      ensures t !in live ==> called == None
    {
      if t in live {
        called := Some(callback);
      } else {
        called := None;
      }
    }

    /** Unmounting runs the cleanups: polling stops. */
    method Unmount()
      requires Valid()
      modifies this
      ensures Valid()
      ensures timer == None && live == {}
      ensures callback == old(callback) && enabled == old(enabled) && hidden == old(hidden)
    {
      StopPolling();
      StopPolling();
    }
  }
}
