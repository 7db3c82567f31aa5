/**
 * The state the animation hooks keep between renders: the entrance flag, the
 * set of staggered items already shown, the list of click ripples with its id
 * counter, and the loading flag with its minimum display time.
 *
 * Whether the user prefers reduced motion reaches each hook as a parameter. A
 * pending `setTimeout` is a field recording its delay (or, for the ripples, the
 * id it will remove); its callback is a method that the caller invokes when the
 * timer fires. Running an effect again first runs the previous effect's cleanup.
 */
module UseAnimations {
  import opened Wrappers

  // ----- useEntranceAnimation -----

  /** The delay of the entrance timer: none under reduced motion. */
  function EntranceDelay(reduced: bool, delay: int): int {
    if reduced then 0 else delay
  }

  lemma EntranceDelayCases(reduced: bool, delay: int)
    ensures reduced ==> EntranceDelay(reduced, delay) == 0
    ensures !reduced ==> EntranceDelay(reduced, delay) == delay
    ensures delay >= 0 ==> 0 <= EntranceDelay(reduced, delay) <= delay
  {
  }

  class EntranceAnimation {
    var isVisible: bool
    /** The delay of the pending timer that will show the element. */
    var timer: Option<int>

    constructor ()
      ensures !isVisible && timer == None
    {
      isVisible := false;
      timer := None;
    }

    /** The effect, run on mount and whenever `delay` or `reduced` changes. */
    method RunEffect(reduced: bool, delay: int)
      modifies this`timer
      ensures timer == Some(EntranceDelay(reduced, delay))
    {
      timer := Some(EntranceDelay(reduced, delay));
    }

    method TimerFires()
      requires timer.Some?
      modifies this
      ensures isVisible && timer == None
    {
      isVisible := true;
      timer := None;
    }

    method Cleanup()
      modifies this`timer
      ensures timer == None
    {
      timer := None;
    }
  }

  // ----- useStaggerAnimation -----

  /** `{0, 1, ..., count - 1}`. */
  function Indices(count: nat): (r: set<nat>)
    ensures forall i: nat :: i in r <==> i < count
  {
    if count == 0 then {} else Indices(count - 1) + {count - 1}
  }

  /**
   * `useStaggerAnimation`. `itemCount` and `baseDelay` are the dependencies of
   * the effect as of its last run; the visible set is `useState` and so
   * outlives a change of them.
   */
  class StaggerAnimation {
    var itemCount: nat
    var baseDelay: int
    var visibleItems: set<nat>
    /** The pending timers, from item index to the delay it was scheduled with. */
    var pending: map<nat, int>

    /** Every pending timer belongs to an item of the last run and waits index times the base delay. */
    ghost predicate Valid()
      reads this
    {
      && pending.Keys <= Indices(itemCount)
      && forall i :: i in pending ==> pending[i] == i * baseDelay
    }

    constructor (itemCount: nat, baseDelay: int := 100)
      ensures Valid()
      ensures this.itemCount == itemCount && this.baseDelay == baseDelay
      ensures visibleItems == {} && pending == map[]
    {
      this.itemCount := itemCount;
      this.baseDelay := baseDelay;
      visibleItems := {};
      pending := map[];
    }

    /**
     * The effect for dependencies `count`, `delay` and `reduced`, after the
     * previous run's cleanup: under reduced motion the visible set becomes
     * exactly the `count` items; otherwise it is kept as it is and item `i` is
     * scheduled for `i * delay` milliseconds.
     */
    method RunEffect(count: nat, delay: int, reduced: bool)
      requires Valid()
      modifies this
      ensures Valid()
      ensures itemCount == count && baseDelay == delay
      ensures reduced ==> visibleItems == Indices(count) && pending == map[]
      ensures !reduced ==> visibleItems == old(visibleItems) && pending.Keys == Indices(count)
    {
      itemCount, baseDelay := count, delay;
      pending := map[];
      if reduced {
        visibleItems := Indices(count);
        return;
      }
      for i := 0 to count
        invariant itemCount == count && baseDelay == delay
        invariant visibleItems == old(visibleItems)
        invariant pending.Keys == Indices(i)
        invariant forall j :: j in pending ==> pending[j] == j * delay
      {
        pending := pending[i := i * delay];
      }
    }

    /** The timer of item `i` fires: the item joins the visible set. */
    method TimerFires(i: nat)
      requires Valid() && i in pending
      modifies this`visibleItems, this`pending
      ensures Valid()
      ensures visibleItems == old(visibleItems) + {i}
      ensures pending == old(pending) - {i}
      ensures old(visibleItems) <= Indices(itemCount) ==> visibleItems <= Indices(itemCount)
    {
      visibleItems := visibleItems + {i};
      pending := pending - {i};
    }

    /** The cleanup: every pending timer is cleared; what is shown stays shown. */
    method Cleanup()
      requires Valid()
      modifies this`pending
      ensures Valid() && pending == map[]
    {
      pending := map[];
    }
  }

  /**
   * The list shrinks from five items to three after items 3 and 4 have shown:
   * they stay in the visible set, since nothing in the hook ever removes an item.
   */
  method ShrinkKeepsShownItems() returns (visible: set<nat>, count: nat)
    ensures count == 3 && 3 in visible && 4 in visible
  {
    var s := new StaggerAnimation(5);
    s.RunEffect(5, 100, false);
    assert 3 in Indices(5) && 4 in Indices(5);
    s.TimerFires(3);
    s.TimerFires(4);
    s.Cleanup();
    s.RunEffect(3, 100, false);
    visible, count := s.visibleItems, s.itemCount;
  }

  /** With a non-negative base delay, an earlier item is never scheduled after a later one. */
  lemma StaggerOrder(s: StaggerAnimation, i: nat, j: nat)
    requires s.Valid() && i in s.pending && j in s.pending && i <= j && s.baseDelay >= 0
    ensures 0 <= s.pending[i] <= s.pending[j]
  {
    assert s.pending[j] - s.pending[i] == (j - i) * s.baseDelay;
  }

  // ----- useRipple -----

  datatype Rect = Rect(left: real, top: real, width: real, height: real)

  datatype Ripple = Ripple(x: real, y: real, size: real, id: nat)

  function Max(a: real, b: real): real {
    if a >= b then a else b
  }

  /** The ripple for a click at (`clientX`, `clientY`) on an element with bounding box `rect`. */
  function RippleAt(rect: Rect, clientX: real, clientY: real, id: nat): Ripple {
    var size := Max(rect.width, rect.height);
    Ripple(clientX - rect.left - size / 2.0, clientY - rect.top - size / 2.0, size, id)
  }

  /** The ripple is a square as large as the element's larger side, centred on the click. */
  lemma RippleGeometry(rect: Rect, clientX: real, clientY: real, id: nat)
    ensures var r := RippleAt(rect, clientX, clientY, id);
      && r.size >= rect.width && r.size >= rect.height && (r.size == rect.width || r.size == rect.height)
      && rect.left + r.x + r.size / 2.0 == clientX
      && rect.top + r.y + r.size / 2.0 == clientY
      && r.id == id
  {
  }

  /** Ids strictly increase along the list, so no two ripples share one. */
  ghost predicate IdsIncreasing(rs: seq<Ripple>) {
    forall i, j :: 0 <= i < j < |rs| ==> rs[i].id < rs[j].id
  }

  /** `prev.filter((r) => r.id !== id)`. */
  function RemoveId(rs: seq<Ripple>, id: nat): seq<Ripple> {
    if rs == [] then []
    else if rs[0].id == id then RemoveId(rs[1..], id)
    else [rs[0]] + RemoveId(rs[1..], id)
  }

  /** A list without that id is left as it is. */
  lemma {:induction false} RemoveAbsentId(rs: seq<Ripple>, id: nat)
    requires forall i :: 0 <= i < |rs| ==> rs[i].id != id
    ensures RemoveId(rs, id) == rs
    decreases |rs|
  {
    if rs != [] {
      RemoveAbsentId(rs[1..], id);
    }
  }

  /** Removing the id of position `k` drops that ripple and keeps the others in order. */
  lemma {:induction false} RemoveIdSplices(rs: seq<Ripple>, k: nat)
    requires IdsIncreasing(rs) && k < |rs|
    ensures RemoveId(rs, rs[k].id) == rs[..k] + rs[k + 1..]
    decreases |rs|
  {
    if k == 0 {
      RemoveAbsentId(rs[1..], rs[0].id);
    } else {
      RemoveIdSplices(rs[1..], k - 1);
      assert rs[1..][k - 1] == rs[k];
      assert rs[..k] == [rs[0]] + rs[1..][..k - 1];
      assert rs[1..][k..] == rs[k + 1..];
    }
  }

  /** Removal keeps only ripples of the list, and every one with another id. */
  lemma {:induction false} RemoveIdMembers(rs: seq<Ripple>, id: nat, r: Ripple)
    ensures r in RemoveId(rs, id) <==> r in rs && r.id != id
    decreases |rs|
  {
    if rs != [] {
      RemoveIdMembers(rs[1..], id, r);
      assert rs == [rs[0]] + rs[1..];
    }
  }

  /** Removal keeps the ids increasing. */
  lemma {:induction false} RemoveIdKeepsOrder(rs: seq<Ripple>, id: nat)
    requires IdsIncreasing(rs)
    ensures IdsIncreasing(RemoveId(rs, id))
    ensures |RemoveId(rs, id)| <= |rs|
    decreases |rs|
  {
    if rs != [] {
      RemoveIdKeepsOrder(rs[1..], id);
      var tail := RemoveId(rs[1..], id);
      forall r | r in tail ensures rs[0].id < r.id {
        RemoveIdMembers(rs[1..], id, r);
      }
      if rs[0].id != id {
        var out := [rs[0]] + tail;
        forall i, j | 0 <= i < j < |out| ensures out[i].id < out[j].id {
          if i == 0 {
            assert out[j] == tail[j - 1] && out[j] in tail;
          } else {
            assert out[i] == tail[i - 1] && out[j] == tail[j - 1];
          }
        }
      }
    }
  }

  class RippleEffect {
    var ripples: seq<Ripple>
    /** `nextId.current`. */
    var nextId: nat
    /** The ids whose 600 ms removal timer is pending. */
    var pendingRemovals: set<nat>

    ghost predicate Valid()
      reads this
    {
      && IdsIncreasing(ripples)
      && (forall i :: 0 <= i < |ripples| ==> ripples[i].id < nextId)
      && (forall id :: id in pendingRemovals ==> id < nextId)
    }

    constructor ()
      ensures Valid() && ripples == [] && nextId == 0 && pendingRemovals == {}
    {
      ripples := [];
      nextId := 0;
      pendingRemovals := {};
    }

    /** `createRipple` for a mouse-down: nothing under reduced motion. */
    method CreateRipple(reduced: bool, rect: Rect, clientX: real, clientY: real)
      requires Valid()
      modifies this
      ensures Valid()
      ensures reduced ==> ripples == old(ripples) && nextId == old(nextId) && pendingRemovals == old(pendingRemovals)
      ensures !reduced ==>
        && ripples == old(ripples) + [RippleAt(rect, clientX, clientY, old(nextId))]
        && nextId == old(nextId) + 1
        && pendingRemovals == old(pendingRemovals) + {old(nextId)}
    {
      if reduced {
        return;
      }
      var ripple := RippleAt(rect, clientX, clientY, nextId);
      nextId := nextId + 1;
      ripples := ripples + [ripple];
      pendingRemovals := pendingRemovals + {ripple.id};
    }

    /** The removal timer of ripple `id` fires. */
    method RemovalFires(id: nat)
      requires Valid() && id in pendingRemovals
      modifies this`ripples, this`pendingRemovals
      ensures Valid()
      ensures ripples == RemoveId(old(ripples), id)
      ensures pendingRemovals == old(pendingRemovals) - {id}
    {
      RemoveIdKeepsOrder(ripples, id);
      forall i | 0 <= i < |RemoveId(ripples, id)| ensures RemoveId(ripples, id)[i].id < nextId {
        RemoveIdMembers(ripples, id, RemoveId(ripples, id)[i]);
      }
      ripples := RemoveId(ripples, id);
      pendingRemovals := pendingRemovals - {id};
    }
  }

  /** Two clicks, then the first ripple's timer: only the second ripple is left. */
  method TwoClicksThenFirstRemoval(rect: Rect) returns (left: seq<Ripple>)
    ensures |left| == 1 && left[0].id == 1
  {
    var r := new RippleEffect();
    r.CreateRipple(false, rect, 10.0, 10.0);
    r.CreateRipple(false, rect, 20.0, 20.0);
    RemoveIdSplices(r.ripples, 0);
    r.RemovalFires(0);
    left := r.ripples;
  }

  // ----- useLoadingAnimation -----

  /** `Math.max(0, minDuration - elapsed)`. */
  function Remaining(minDuration: int, elapsed: int): int {
    if minDuration - elapsed > 0 then minDuration - elapsed else 0
  }

  /** What is left is never negative, and the spinner stays up for at least `minDuration` in all. */
  lemma RemainingProperties(minDuration: int, elapsed: int)
    ensures Remaining(minDuration, elapsed) >= 0
    ensures elapsed + Remaining(minDuration, elapsed) >= minDuration
    ensures elapsed <= minDuration ==> Remaining(minDuration, elapsed) == minDuration - elapsed
    ensures elapsed >= minDuration ==> Remaining(minDuration, elapsed) == 0
  {
  }

  /** `useLoadingAnimation`. `minDuration` is the dependency of the effect as of its last run. */
  class LoadingAnimation {
    var minDuration: int
    var showLoading: bool
    /** `startTimeRef.current`: `None` for `null`. */
    var startTime: Option<int>
    /** The delay of the pending timer that will hide the spinner. */
    var hideTimer: Option<int>

    constructor (minDuration: int := 300)
      ensures this.minDuration == minDuration
      ensures !showLoading && startTime == None && hideTimer == None
    {
      this.minDuration := minDuration;
      showLoading := false;
      startTime := None;
      hideTimer := None;
    }

    /**
     * The effect at time `now` for dependencies `isLoading` and `minimum`,
     * after the previous run's cleanup (which clears its hide timer). Only a
     * truthy start time counts, so a start time of 0 counts as none.
     */
    method RunEffect(isLoading: bool, minimum: int, now: int)
      modifies this
      ensures minDuration == minimum
      ensures isLoading ==> showLoading && startTime == Some(now) && hideTimer == None
      ensures !isLoading ==> showLoading == old(showLoading) && startTime == old(startTime)
      ensures !isLoading && old(startTime).Some? && old(startTime).value != 0 ==>
        hideTimer == Some(Remaining(minimum, now - old(startTime).value))
      ensures !isLoading && (old(startTime).None? || old(startTime).value == 0) ==> hideTimer == None
    {
      minDuration := minimum;
      hideTimer := None;
      if isLoading {
        startTime := Some(now);
        showLoading := true;
      } else if startTime.Some? && startTime.value != 0 {
        var elapsed := now - startTime.value;
        hideTimer := Some(Remaining(minimum, elapsed));
      }
    }

    method HideTimerFires()
      requires hideTimer.Some?
      modifies this
      ensures !showLoading && startTime == None && hideTimer == None
    {
      showLoading := false;
      startTime := None;
      hideTimer := None;
    }
  }

  /** Loading starts at `t0` and ends at `t1`: the spinner is shown and its hiding is scheduled no earlier than `t0 + minDuration`. */
  method LoadingCycle(minDuration: int, t0: int, t1: int) returns (shown: bool, hideAt: int)
    requires 0 < t0 <= t1
    ensures shown
    ensures hideAt >= t0 + minDuration && hideAt >= t1
  {
    var l := new LoadingAnimation(minDuration);
    l.RunEffect(true, minDuration, t0);
    shown := l.showLoading;
    l.RunEffect(false, minDuration, t1);
    RemainingProperties(minDuration, t1 - t0);
    hideAt := t1 + l.hideTimer.value;
  }
}
