/**
 * Media-query hooks: the width-to-breakpoint classifier with its debounced
 * resize listener, and a boolean that mirrors one media query.
 *
 * The window's width at the moment a callback runs is a parameter. A timer id
 * is a number handed out by the tracker itself.
 */
module UseMediaQuery {
  import opened Wrappers

  datatype Breakpoint = Mobile | Tablet | Desktop

  function BreakpointRank(b: Breakpoint): nat {
    match b
    case Mobile => 0
    case Tablet => 1
    case Desktop => 2
  }

  /** `updateBreakpoint`'s if-chain on `window.innerWidth`. */
  function ClassifyWidth(width: int): Breakpoint {
    if width < 640 then Mobile
    else if width < 1024 then Tablet
    else Desktop
  }

  /** The three bands, each stated both ways. */
  lemma BreakpointBands(width: int)
    ensures ClassifyWidth(width) == Mobile <==> width < 640
    ensures ClassifyWidth(width) == Tablet <==> 640 <= width < 1024
    ensures ClassifyWidth(width) == Desktop <==> 1024 <= width
  {
  }

  /** A wider window never gets a smaller breakpoint. */
  lemma BreakpointMonotone(w1: int, w2: int)
    requires w1 <= w2
    ensures BreakpointRank(ClassifyWidth(w1)) <= BreakpointRank(ClassifyWidth(w2))
  {
  }

  /** Milliseconds a resize waits before the breakpoint is recomputed. */
  const DebounceMs := 150

  /** `useBreakpoint`. */
  class BreakpointTracker {
    var breakpoint: Breakpoint
    /** The `timeoutId` variable: the last timer scheduled, if any. */
    var timeoutId: Option<nat>
    /** Timers scheduled and neither cleared nor fired, each with the delay it was scheduled with. */
    var pending: map<nat, int>
    var nextTimer: nat
    var listening: bool

    /** At most one update is pending, it is the one in the slot, and it waits the debounce delay. */
    ghost predicate Valid()
      reads this
    {
      && pending.Keys <= (if timeoutId.Some? then {timeoutId.value} else {})
      && (forall t :: t in pending ==> pending[t] == DebounceMs)
      && (forall t :: t in pending ==> t < nextTimer)
      && (timeoutId.Some? ==> timeoutId.value < nextTimer)
    }

    constructor ()
      ensures Valid()
      ensures breakpoint == Desktop && pending == map[] && timeoutId == None && !listening
    {
      breakpoint := Desktop;
      timeoutId := None;
      pending := map[];
      nextTimer := 0;
      listening := false;
    }

    /** The mount effect: classify the current width at once, then listen for resizes. */
    method Mount(width: int)
      requires Valid()
      modifies this`breakpoint, this`listening
      ensures Valid()
      ensures breakpoint == ClassifyWidth(width) && listening
    {
      breakpoint := ClassifyWidth(width);
      listening := true;
    }

    /** `debouncedUpdate`: clear the pending update and schedule a fresh one, `DebounceMs` milliseconds away. */
    method OnResize() returns (scheduled: nat)
      requires Valid() && listening
      modifies this`timeoutId, this`pending, this`nextTimer
      ensures Valid()
      ensures scheduled !in old(pending) && scheduled == old(nextTimer)
      ensures pending == map[scheduled := DebounceMs] && timeoutId == Some(scheduled)
    {
      if timeoutId.Some? {
        pending := pending - {timeoutId.value};
      }
      scheduled := nextTimer;
      nextTimer := nextTimer + 1;
      timeoutId := Some(scheduled);
      pending := pending[scheduled := DebounceMs];
    }

    /** A pending update fires and classifies the width at that moment. */
    method TimerFires(t: nat, width: int)
      requires Valid() && t in pending
      modifies this`breakpoint, this`pending
      ensures Valid()
      ensures breakpoint == ClassifyWidth(width) && pending == map[]
    {
      breakpoint := ClassifyWidth(width);
      pending := pending - {t};
    }

    /** The cleanup: clear the pending update and stop listening. */
    method Teardown()
      requires Valid()
      modifies this`pending, this`listening
      ensures Valid()
      ensures pending == map[] && !listening
    {
      if timeoutId.Some? {
        pending := pending - {timeoutId.value};
      }
      listening := false;
    }
  }

  /** A burst of resizes leaves one pending update: the last one, which alone decides the breakpoint. */
  method ResizeBurst(w0: int, w: int) returns (bp: Breakpoint)
    ensures bp == ClassifyWidth(w)
  {
    var tr := new BreakpointTracker();
    tr.Mount(w0);
    var _ := tr.OnResize();
    var _ := tr.OnResize();
    var last := tr.OnResize();
    tr.TimerFires(last, w);
    bp := tr.breakpoint;
  }

  /** `useMediaQuery`. The media query list is `None` when there is no window, and otherwise carries its current `matches`. */
  class MediaQuery {
    var matches: bool
    var listening: bool

    /** The first render: `false` without a window, else the list's answer. */
    constructor (list: Option<bool>)
      ensures matches == list.GetOr(false) && !listening
      ensures list.None? ==> !matches
    {
      matches := list.GetOr(false);
      listening := false;
    }

    /** The effect: with a list, read its answer again and start listening; without one, nothing. */
    method MountEffect(list: Option<bool>)
      modifies this
      ensures list.None? ==> matches == old(matches) && listening == old(listening)
      ensures list.Some? ==> matches == list.value && listening
    {
      if list.Some? {
        matches := list.value;
        listening := true;
      }
    }

    /** `handleChange`: the state takes the event's `matches`. */
    method OnChange(eventMatches: bool)
      requires listening
      modifies this`matches
      ensures matches == eventMatches
    {
      matches := eventMatches;
    }

    method Unmount()
      modifies this`listening
      ensures !listening
    {
      listening := false;
    }
  }
}
