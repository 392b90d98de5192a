/**
 * `useRealtimeData`: the pins and prefecture stats of one group, reloaded on demand and by
 * polling, replaced only when their serialization differs from the last one seen. A load is one
 * atomic step whose fetch outcome (both lists, or a failure) is given.
 */
module Realtime {
  import opened Wrappers

  const PollInterval := 10000

  /** The hook's state and refs: what a load reads and writes. */
  datatype View<P, S> = View(
    pins: seq<P>, stats: seq<S>, lastUpdated: Option<int>, isLoading: bool,
    pinsHash: string, statsHash: string)

  /** The state of a freshly mounted hook. */
  function Initial<P, S>(): View<P, S>
  {
    View([], [], None, false, "", "")
  }

  /** `!!groupId` for the optional id. */
  predicate HasGroup(groupId: Option<string>)
  {
    groupId.Some? && groupId.value != ""
  }

  /** The options the hook passes to `usePolling`. */
  function PollingOptions(groupId: Option<string>, enabled: bool): (o: (bool, nat))
    ensures o.0 <==> enabled && HasGroup(groupId)
    ensures o.1 == 10000
  {
    (enabled && HasGroup(groupId), PollInterval)
  }

  /**
   * `loadData` as a state transition. Without a group or when disabled nothing happens. A failed
   * fetch leaves everything but `isLoading`, which ends false. A successful one replaces each list
   * whose serialization differs from its snapshot, updates that snapshot, and stamps the time.
   */
  function Load<P, S>(v: View<P, S>, active: bool, outcome: Option<(seq<P>, seq<S>)>, now: int,
                      hashPins: seq<P> -> string, hashStats: seq<S> -> string): View<P, S>
  {
    if !active then v
    else
      match outcome
      case None => v.(isLoading := false)
      case Some((pinsData, statsData)) =>
        var ph := hashPins(pinsData);
        var sh := hashStats(statsData);
        var v1 := if ph != v.pinsHash then v.(pins := pinsData, pinsHash := ph) else v;
        var v2 := if sh != v1.statsHash then v1.(stats := statsData, statsHash := sh) else v1;
        v2.(lastUpdated := Some(now), isLoading := false)
  }

  /** `invalidateCache`: both snapshots become `""`. */
  function Invalidate<P, S>(v: View<P, S>): (w: View<P, S>)
    ensures w.pinsHash == "" && w.statsHash == ""
    ensures w.pins == v.pins && w.stats == v.stats && w.lastUpdated == v.lastUpdated && w.isLoading == v.isLoading
  {
    v.(pinsHash := "", statsHash := "")
  }

  lemma InactiveLoadDoesNothing<P, S>(v: View<P, S>, outcome: Option<(seq<P>, seq<S>)>, now: int,
                                      hp: seq<P> -> string, hs: seq<S> -> string)
    ensures Load(v, false, outcome, now, hp, hs) == v
  {
  }

  /** Pins are replaced exactly when their serialization changed; afterwards the snapshot is that serialization. */
  lemma PinsReplacedIffChanged<P, S>(v: View<P, S>, pinsData: seq<P>, statsData: seq<S>, now: int,
                                     hp: seq<P> -> string, hs: seq<S> -> string)
    ensures var w := Load(v, true, Some((pinsData, statsData)), now, hp, hs);
      w.pinsHash == hp(pinsData) &&
      (hp(pinsData) != v.pinsHash ==> w.pins == pinsData) &&
      (hp(pinsData) == v.pinsHash ==> w.pins == v.pins)
  {
  }

  /** Stats follow the same rule, independently of whether the pins changed. */
  lemma StatsReplacedIffChanged<P, S>(v: View<P, S>, pinsData: seq<P>, statsData: seq<S>, now: int,
                                      hp: seq<P> -> string, hs: seq<S> -> string)
    ensures var w := Load(v, true, Some((pinsData, statsData)), now, hp, hs);
      w.statsHash == hs(statsData) &&
      (hs(statsData) != v.statsHash ==> w.stats == statsData) &&
      (hs(statsData) == v.statsHash ==> w.stats == v.stats) &&
      Load(v.(pins := pinsData), true, Some((pinsData, statsData)), now, hp, hs).stats == w.stats
  {
  }

  /** Every successful load stamps the time, even when nothing changed, and clears `isLoading`. */
  lemma SuccessStampsTime<P, S>(v: View<P, S>, pinsData: seq<P>, statsData: seq<S>, now: int,
                                hp: seq<P> -> string, hs: seq<S> -> string)
    ensures Load(v, true, Some((pinsData, statsData)), now, hp, hs).lastUpdated == Some(now)
    ensures !Load(v, true, Some((pinsData, statsData)), now, hp, hs).isLoading
  {
  }

  /** A failed load changes neither list, neither snapshot nor the time; it only ends loading. */
  lemma FailureKeepsData<P, S>(v: View<P, S>, now: int, hp: seq<P> -> string, hs: seq<S> -> string)
    ensures Load(v, true, None, now, hp, hs) == v.(isLoading := false)
  {
  }

  /** Loading the same data again changes nothing but the timestamp. */
  lemma ReloadIsQuiet<P, S>(v: View<P, S>, pinsData: seq<P>, statsData: seq<S>, t1: int, t2: int,
                            hp: seq<P> -> string, hs: seq<S> -> string)
    ensures var w := Load(v, true, Some((pinsData, statsData)), t1, hp, hs);
      Load(w, true, Some((pinsData, statsData)), t2, hp, hs) == w.(lastUpdated := Some(t2))
  {
  }

  /**
   * After `invalidateCache` the next successful load replaces both lists, because a serialization
   * of a list (at least `"[]"`) is never empty.
   */
  lemma InvalidateForcesReplace<P, S>(v: View<P, S>, pinsData: seq<P>, statsData: seq<S>, now: int,
                                      hp: seq<P> -> string, hs: seq<S> -> string)
    requires hp(pinsData) != "" && hs(statsData) != ""
    ensures var w := Load(Invalidate(v), true, Some((pinsData, statsData)), now, hp, hs);
      w.pins == pinsData && w.stats == statsData
  {
  }

  class RealtimeData<P, S> {
    /** The hook's props. */
    var groupId: Option<string>
    var enabled: bool
    var pins: seq<P>
    var stats: seq<S>
    var lastUpdated: Option<int>
    var isLoading: bool
    /** `lastPinsHashRef.current` and `lastStatsHashRef.current`. */
    var pinsHash: string
    var statsHash: string

    function Snapshot(): View<P, S>
      reads this
    {
      View(pins, stats, lastUpdated, isLoading, pinsHash, statsHash)
    }

    constructor (groupId: Option<string>, enabled: bool)
      ensures this.groupId == groupId && this.enabled == enabled
      ensures Snapshot() == Initial()
    {
      this.groupId, this.enabled := groupId, enabled;
      pins, stats, lastUpdated, isLoading, pinsHash, statsHash := [], [], None, false, "", "";
    }

    /** `loadData`, with the fetch outcome and the clock given. */
    method LoadData(outcome: Option<(seq<P>, seq<S>)>, now: int, hashPins: seq<P> -> string, hashStats: seq<S> -> string)
      modifies this
      ensures groupId == old(groupId) && enabled == old(enabled)
      ensures Snapshot() == Load(old(Snapshot()), HasGroup(groupId) && enabled, outcome, now, hashPins, hashStats)
    {
      if !HasGroup(groupId) || !enabled {
        return;
      }
      isLoading := true;
      match outcome {
        case None =>
        case Some((pinsData, statsData)) =>
          var ph := hashPins(pinsData);
          var sh := hashStats(statsData);
          if ph != pinsHash {
            pins := pinsData;
            pinsHash := ph;
          }
          if sh != statsHash {
            stats := statsData;
            statsHash := sh;
          }
          lastUpdated := Some(now);
      }
      isLoading := false;
    }

    /** `forceRefresh`: a load like any other. */
    method ForceRefresh(outcome: Option<(seq<P>, seq<S>)>, now: int, hashPins: seq<P> -> string, hashStats: seq<S> -> string)
      modifies this
      ensures groupId == old(groupId) && enabled == old(enabled)
      ensures Snapshot() == Load(old(Snapshot()), HasGroup(groupId) && enabled, outcome, now, hashPins, hashStats)
    {
      LoadData(outcome, now, hashPins, hashStats);
    }

    /** `invalidateCache`. */
    method InvalidateCache()
      modifies this
      ensures groupId == old(groupId) && enabled == old(enabled)
      ensures Snapshot() == Invalidate(old(Snapshot()))
    {
      pinsHash := "";
      statsHash := "";
    }

    /**
     * A re-render with new props. When `groupId` or `enabled` differs, `loadData` is re-created and the
     * initial-load effect runs it (a no-op when inactive). Nothing resets the data or the hash refs, so
     * the previous group's pins and stats stay until a load for the new group replaces them.
     */
    method ChangeProps(newGroupId: Option<string>, newEnabled: bool, outcome: Option<(seq<P>, seq<S>)>, now: int,
                       hashPins: seq<P> -> string, hashStats: seq<S> -> string)
      modifies this
      ensures groupId == newGroupId && enabled == newEnabled
      ensures Snapshot() ==
        if newGroupId == old(groupId) && newEnabled == old(enabled) then old(Snapshot())
        else Load(old(Snapshot()), HasGroup(newGroupId) && newEnabled, outcome, now, hashPins, hashStats)
    {
      if newGroupId == groupId && newEnabled == enabled {
        return;
      }
      groupId, enabled := newGroupId, newEnabled;
      LoadData(outcome, now, hashPins, hashStats);
    }
  }
}
