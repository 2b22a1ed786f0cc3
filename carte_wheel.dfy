/**
 * The gesture controller of the menu wheel (`WheelCarousel` in src/pages/Carte.jsx):
 * wheel and touch deltas accumulate until their size reaches 80, then the active index steps
 * once (against the sign of the gesture), the accumulator empties and a re-entrancy guard is
 * armed; a 600 ms timer disarms it. Timers and the browser's events are explicit `Event`s.
 *
 * The transitions are pure functions over `Wheel`; the class `WheelCarousel` holds the same
 * state in fields and its methods are proved to perform exactly these transitions.
 */
module CarteWheel {

  /** `scrollThreshold`: the accumulated delta that triggers one step. */
  const ScrollThreshold: real := 80.0

  /** The guard's cooldown, in milliseconds; its expiry is the `TimerFired` event. */
  const CooldownMs: nat := 600

  function Abs(x: real): real
  {
    if x < 0.0 then -x else x
  }

  /**
   * The controller's state: `items.length`, the `currentIndex` state, `accumulatedDeltaRef`,
   * `isScrollingRef`, whether a cooldown timer is scheduled and not yet fired or cleared, and the
   * `touchStartY` local of the listeners' closure.
   */
  datatype Wheel = Wheel(
    itemCount: nat,
    currentIndex: int,
    accumulated: real,
    scrolling: bool,
    timerPending: bool,
    touchStartY: real)

  /** What every reachable state satisfies: at least one item and a non-negative index. */
  predicate WellFormed(w: Wheel)
  {
    w.itemCount >= 1 && w.currentIndex >= 0
  }

  /** The index designates an item (between a category switch and its reset it may not). */
  predicate Settled(w: Wheel)
  {
    WellFormed(w) && w.currentIndex < w.itemCount
  }

  /** The state right after mounting with `itemCount` items. */
  function Initial(itemCount: nat): (w: Wheel)
    requires itemCount >= 1
    ensures Settled(w) && !w.scrolling && !w.timerPending
  {
    Wheel(itemCount, 0, 0.0, false, false, 0.0)
  }

  /** The step direction for an accumulated delta: inverted, so a positive delta moves back. */
  function Direction(accumulated: real): (d: int)
    ensures d == -1 <==> accumulated > 0.0
    ensures d == -1 || d == 1
  {
    if accumulated > 0.0 then -1 else 1
  }

  /** The part both handlers share once past the guard: accumulate, and step when the threshold is reached. */
  function Accumulate(w: Wheel, delta: real): (r: Wheel)
    requires WellFormed(w)
    ensures WellFormed(r) && r.itemCount == w.itemCount && r.touchStartY == w.touchStartY
    ensures Settled(w) ==> Settled(r)
  {
    var acc := w.accumulated + delta;
    if Abs(acc) >= ScrollThreshold then
      w.(currentIndex := (w.currentIndex + Direction(acc) + w.itemCount) % w.itemCount,
         accumulated := 0.0,
         scrolling := true,
         timerPending := true)
    else
      w.(accumulated := acc)
  }

  /** `handleWheel`: dropped while the guard is armed. */
  function OnWheel(w: Wheel, deltaY: real): (r: Wheel)
    requires WellFormed(w)
    ensures WellFormed(r)
    ensures Settled(w) ==> Settled(r)
  {
    if w.scrolling then w else Accumulate(w, deltaY)
  }

  /** `handleTouchStart`: records where the finger went down (no guard check). */
  function OnTouchStart(w: Wheel, clientY: real): (r: Wheel)
    ensures r == w.(touchStartY := clientY)
  {
    w.(touchStartY := clientY)
  }

  /** `handleTouchMove`: dropped while the guard is armed; otherwise the delta is the distance moved up. */
  function OnTouchMove(w: Wheel, clientY: real): (r: Wheel)
    requires WellFormed(w)
    ensures WellFormed(r)
    ensures Settled(w) ==> Settled(r)
  {
    if w.scrolling then w else Accumulate(w.(touchStartY := clientY), w.touchStartY - clientY)
  }

  /** The 600 ms timer firing: the guard is released. A cleared timer never fires. */
  function OnTimerFired(w: Wheel): (r: Wheel)
    ensures w.timerPending ==> !r.scrolling && !r.timerPending
    ensures !w.timerPending ==> r == w
  {
    if w.timerPending then w.(scrolling := false, timerPending := false) else w
  }

  /**
   * The `[items.length]` effect re-running AS WRITTEN (lines 274-283): the cleanup clears the
   * timer and fresh listeners start from `touchStartY = 0`, but `isScrollingRef` is left as it was.
   */
  function OnItemsChangedAsWritten(w: Wheel, itemCount: nat): (r: Wheel)
    requires WellFormed(w) && itemCount >= 1
    ensures WellFormed(r) && r.itemCount == itemCount && r.scrolling == w.scrolling
    ensures itemCount != w.itemCount ==> !r.timerPending
  {
    if itemCount == w.itemCount then w
    else w.(itemCount := itemCount, timerPending := false, touchStartY := 0.0)
  }

  /** The same effect with the evidently intended cleanup: clearing the timer also releases the guard. */
  function OnItemsChanged(w: Wheel, itemCount: nat): (r: Wheel)
    requires WellFormed(w) && itemCount >= 1
    ensures WellFormed(r) && r.itemCount == itemCount
    ensures itemCount != w.itemCount ==> !r.scrolling && !r.timerPending
  {
    if itemCount == w.itemCount then w
    else w.(itemCount := itemCount, scrolling := false, timerPending := false, touchStartY := 0.0)
  }

  /** The deferred callback of the `[categoryId]` effect: back to the first item with an empty accumulator. */
  function OnCategoryReset(w: Wheel): (r: Wheel)
    requires WellFormed(w)
    ensures Settled(r) && r.currentIndex == 0 && r.accumulated == 0.0
    ensures r.scrolling == w.scrolling && r.timerPending == w.timerPending
  {
    w.(currentIndex := 0, accumulated := 0.0)
  }

  /** Everything that can happen to the controller. */
  datatype Event =
    | WheelInput(deltaY: real)
    | TouchStart(startY: real)
    | TouchMove(moveY: real)
    | TimerFired
    | ItemsChanged(count: nat)
    | CategoryReset

  predicate EventOk(e: Event)
  {
    e.ItemsChanged? ==> e.count >= 1
  }

  predicate EventsOk(es: seq<Event>)
  {
    forall k :: 0 <= k < |es| ==> EventOk(es[k])
  }

  function Apply(w: Wheel, e: Event): (r: Wheel)
    requires WellFormed(w) && EventOk(e)
    ensures WellFormed(r)
    ensures Settled(w) && !e.ItemsChanged? ==> Settled(r)
    ensures e.CategoryReset? ==> Settled(r)
  {
    match e
    case WheelInput(d) => OnWheel(w, d)
    case TouchStart(y) => OnTouchStart(w, y)
    case TouchMove(y) => OnTouchMove(w, y)
    case TimerFired => OnTimerFired(w)
    case ItemsChanged(n) => OnItemsChanged(w, n)
    case CategoryReset => OnCategoryReset(w)
  }

  function Run(w: Wheel, es: seq<Event>): (r: Wheel)
    requires WellFormed(w) && EventsOk(es)
    ensures WellFormed(r)
    ensures Settled(w) && (forall k :: 0 <= k < |es| ==> !es[k].ItemsChanged?) ==> Settled(r)
    decreases |es|
  {
    if es == [] then w else Run(Apply(w, es[0]), es[1..])
  }

  /**
   * A count change is the one event that can leave the index past the new end: the index is
   * only brought back by the deferred category reset.
   */
  lemma CountChangeUnsettles()
    ensures Settled(Wheel(5, 4, 0.0, false, false, 0.0))
    ensures !Settled(Apply(Wheel(5, 4, 0.0, false, false, 0.0), ItemsChanged(3)))
    ensures Settled(Apply(Apply(Wheel(5, 4, 0.0, false, false, 0.0), ItemsChanged(3)), CategoryReset))
  {
  }

  /** The event loop with the cleanup as written. */
  function ApplyAsWritten(w: Wheel, e: Event): (r: Wheel)
    requires WellFormed(w) && EventOk(e)
    ensures WellFormed(r)
    ensures Settled(w) && !e.ItemsChanged? ==> Settled(r)
  {
    if e.ItemsChanged? then OnItemsChangedAsWritten(w, e.count) else Apply(w, e)
  }

  function RunAsWritten(w: Wheel, es: seq<Event>): (r: Wheel)
    requires WellFormed(w) && EventsOk(es)
    ensures WellFormed(r)
    decreases |es|
  {
    if es == [] then w else RunAsWritten(ApplyAsWritten(w, es[0]), es[1..])
  }

  // ---------------------------------------------------------------------------------------
  // Properties of one gesture

  /**
   * Once the accumulated delta reaches the threshold, a wheel or touch input moves the index by
   * exactly one place round the ring: back for a positive delta, forward for a negative one; the
   * accumulator empties and the guard and its timer are armed.
   */
  lemma GestureStepsOnce(w: Wheel, delta: real)
    requires Settled(w) && !w.scrolling && Abs(w.accumulated + delta) >= ScrollThreshold
    ensures var r := Accumulate(w, delta);
      && Settled(r)
      && r.accumulated == 0.0 && r.scrolling && r.timerPending
      && (w.accumulated + delta > 0.0 ==>
            r.currentIndex == if w.currentIndex == 0 then w.itemCount - 1 else w.currentIndex - 1)
      && (w.accumulated + delta <= 0.0 ==>
            r.currentIndex == if w.currentIndex == w.itemCount - 1 then 0 else w.currentIndex + 1)
  {
    var acc := w.accumulated + delta;
    if acc > 0.0 {
      StepBack(w.currentIndex, w.itemCount);
    } else {
      StepForward(w.currentIndex, w.itemCount);
    }
  }

  /** `(i - 1 + n) % n` is the previous place on a ring of `n`. */
  lemma StepBack(i: int, n: int)
    requires 0 <= i < n
    ensures (i + -1 + n) % n == if i == 0 then n - 1 else i - 1
  {
    if i == 0 {
      assert i + -1 + n == n - 1;
    } else {
      assert i + -1 + n == (i - 1) + n;
      assert ((i - 1) + n) % n == i - 1;
    }
  }

  /** `(i + 1 + n) % n` is the next place on a ring of `n`. */
  lemma StepForward(i: int, n: int)
    requires 0 <= i < n
    ensures (i + 1 + n) % n == if i == n - 1 then 0 else i + 1
  {
    if i == n - 1 {
      assert i + 1 + n == n + n;
      assert (n + n) % n == 0;
    } else {
      assert ((i + 1) + n) % n == i + 1;
    }
  }

  /**
   * Below the threshold nothing moves: the index, guard and timer stay, and the delta is kept
   * for the next input. Conversely, an index change always comes with an empty accumulator and the
   * guard armed.
   */
  lemma NoStepBelowThreshold(w: Wheel, delta: real)
    requires WellFormed(w)
    ensures var r := Accumulate(w, delta);
      && (Abs(w.accumulated + delta) < ScrollThreshold ==>
            r.currentIndex == w.currentIndex && r.accumulated == w.accumulated + delta &&
            r.scrolling == w.scrolling && r.timerPending == w.timerPending)
      && (r.currentIndex != w.currentIndex ==> r.accumulated == 0.0 && r.scrolling && r.timerPending)
  {
  }

  /** While the guard is armed, wheel and touch-move input is dropped, not queued: the state is untouched. */
  lemma GuardDropsInput(w: Wheel, delta: real, y: real)
    requires WellFormed(w) && w.scrolling
    ensures OnWheel(w, delta) == w && OnTouchMove(w, y) == w
  {
  }

  // ---------------------------------------------------------------------------------------
  // Properties of event sequences

  /**
   * While armed, the guard stays armed through any events but the timer and a change of item
   * count, and nothing but a category reset moves the index.
   */
  lemma {:induction false} OnlyTimerReleasesGuard(w: Wheel, es: seq<Event>)
    requires WellFormed(w) && EventsOk(es) && w.scrolling
    requires forall k :: 0 <= k < |es| ==> !es[k].TimerFired? && !es[k].ItemsChanged?
    ensures Run(w, es).scrolling
    ensures Run(w, es).currentIndex == w.currentIndex || Run(w, es).currentIndex == 0
    decreases |es|
  {
    if es != [] {
      var w' := Apply(w, es[0]);
      assert w'.scrolling;
      OnlyTimerReleasesGuard(w', es[1..]);
      assert Run(w', es[1..]).currentIndex == w'.currentIndex || Run(w', es[1..]).currentIndex == 0;
    }
  }

  /** The guard is armed exactly when a timer is pending to release it. */
  predicate GuardTimed(w: Wheel)
  {
    w.scrolling == w.timerPending
  }

  /**
   * With the cleanup releasing the guard, every reachable state keeps the guard tied to a pending
   * timer, so the guard can always be released: the next timer event disarms it.
   */
  lemma {:induction false} GuardAlwaysReleasable(w: Wheel, es: seq<Event>)
    requires WellFormed(w) && EventsOk(es) && GuardTimed(w)
    ensures GuardTimed(Run(w, es))
    ensures !OnTimerFired(Run(w, es)).scrolling
    decreases |es|
  {
    if es != [] {
      var w' := Apply(w, es[0]);
      assert GuardTimed(w');
      GuardAlwaysReleasable(w', es[1..]);
    }
  }

  /**
   * As written, once the guard is armed with no timer pending (a change of item count during the
   * cooldown), no sequence of events ever releases it: the wheel ignores every gesture for good,
   * and its index moves only to 0 on a category reset.
   */
  lemma {:induction false} GuardStuckAsWritten(w: Wheel, es: seq<Event>)
    requires WellFormed(w) && EventsOk(es) && w.scrolling && !w.timerPending
    ensures RunAsWritten(w, es).scrolling && !RunAsWritten(w, es).timerPending
    ensures RunAsWritten(w, es).currentIndex == w.currentIndex || RunAsWritten(w, es).currentIndex == 0
    decreases |es|
  {
    if es != [] {
      var w' := ApplyAsWritten(w, es[0]);
      assert w'.scrolling && !w'.timerPending;
      GuardStuckAsWritten(w', es[1..]);
    }
  }

  /**
   * The input that exhibits it: on a 5-item category, one wheel notch of 100 steps the wheel and
   * arms the guard; switching to a 3-item category within the 600 ms leaves the guard armed with
   * its timer cleared. The intended cleanup leaves the wheel free instead.
   */
  lemma SwitchDuringCooldown()
    ensures var as_written := RunAsWritten(Initial(5), [WheelInput(100.0), ItemsChanged(3)]);
      as_written.scrolling && !as_written.timerPending
    ensures var fixed := Run(Initial(5), [WheelInput(100.0), ItemsChanged(3)]);
      !fixed.scrolling && !fixed.timerPending
  {
    var es := [WheelInput(100.0), ItemsChanged(3)];
    assert es[1..] == [ItemsChanged(3)];
    assert es[1..][1..] == [];
    var w1 := Apply(Initial(5), es[0]);
    assert w1.scrolling && w1.timerPending && w1.itemCount == 5;
  }

  // ---------------------------------------------------------------------------------------
  // The component's state, as the component holds it

  class WheelCarousel {
    var itemCount: nat
    var currentIndex: int
    var accumulatedDelta: real
    var isScrolling: bool
    var timerPending: bool
    var touchStartY: real

    function State(): Wheel
      reads this
    {
      Wheel(itemCount, currentIndex, accumulatedDelta, isScrolling, timerPending, touchStartY)
    }

    predicate Valid()
      reads this
    {
      WellFormed(State())
    }

    constructor (items: nat)
      requires items >= 1
      ensures Valid() && State() == Initial(items)
    {
      itemCount := items;
      currentIndex := 0;
      accumulatedDelta := 0.0;
      isScrolling := false;
      timerPending := false;
      touchStartY := 0.0;
    }

    /** Shared tail of both handlers, past the guard check. */
    method AccumulateDelta(delta: real)
      requires Valid()
      modifies this
      ensures Valid() && State() == Accumulate(old(State()), delta)
    {
      accumulatedDelta := accumulatedDelta + delta;
      if Abs(accumulatedDelta) >= ScrollThreshold {
        var direction := if accumulatedDelta > 0.0 then -1 else 1;
        currentIndex := (currentIndex + direction + itemCount) % itemCount;
        accumulatedDelta := 0.0;
        isScrolling := true;
        // clearTimeout on any earlier timer, then schedule the 600 ms release
        timerPending := true;
      }
    }

    method HandleWheel(deltaY: real)
      requires Valid()
      modifies this
      ensures Valid() && State() == OnWheel(old(State()), deltaY)
    {
      if isScrolling {
        return;
      }
      AccumulateDelta(deltaY);
    }

    method HandleTouchStart(clientY: real)
      requires Valid()
      modifies this
      ensures Valid() && State() == OnTouchStart(old(State()), clientY)
    {
      touchStartY := clientY;
    }

    method HandleTouchMove(clientY: real)
      requires Valid()
      modifies this
      ensures Valid() && State() == OnTouchMove(old(State()), clientY)
    {
      if isScrolling {
        return;
      }
      var delta := touchStartY - clientY;
      touchStartY := clientY;
      AccumulateDelta(delta);
    }

    method TimerFired()
      requires Valid()
      modifies this
      ensures Valid() && State() == OnTimerFired(old(State()))
    {
      if timerPending {
        isScrolling := false;
        timerPending := false;
      }
    }

    /** The `[items.length]` effect's cleanup and re-registration as written: the guard is kept. */
    method ItemsChangedAsWritten(items: nat)
      requires Valid() && items >= 1
      modifies this
      ensures Valid() && State() == OnItemsChangedAsWritten(old(State()), items)
    {
      if items != itemCount {
        timerPending := false;
        touchStartY := 0.0;
        itemCount := items;
      }
    }

    /** The `[items.length]` effect's cleanup and re-registration, with the guard released. */
    method ItemsChanged(items: nat)
      requires Valid() && items >= 1
      modifies this
      ensures Valid() && State() == OnItemsChanged(old(State()), items)
    {
      if items != itemCount {
        timerPending := false;
        isScrolling := false;
        touchStartY := 0.0;
        itemCount := items;
      }
    }

    method CategoryReset()
      requires Valid()
      modifies this
      ensures Valid() && State() == OnCategoryReset(old(State()))
    {
      currentIndex := 0;
      accumulatedDelta := 0.0;
    }
  }
}
