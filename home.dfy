/**
 * The home page of Home.jsx: the dish carousel (arrows, swipe by mouse or touch, autoplay tick,
 * horizontal offset) and the scroll-driven bowl animation (progress clamp and derived values).
 * Pointer coordinates, widths and scroll offsets are reals.
 */
module Home {
  import opened Options

  /** The number of dishes in the carousel. */
  const DishCount: nat := 6

  /** The horizontal distance a swipe must exceed, strictly, to change slide. */
  const SwipeThreshold: real := 50.0

  function AbsReal(x: real): real
  {
    if x < 0.0 then -x else x
  }

  /** `(prev + 1) % dishes.length`. */
  function Next(i: int): (r: int)
    ensures 0 <= r < DishCount
  {
    (i + 1) % DishCount
  }

  /** `(prev - 1 + dishes.length) % dishes.length`. */
  function Previous(i: int): (r: int)
    ensures 0 <= r < DishCount
  {
    (i - 1 + DishCount) % DishCount
  }

  /** On a valid index, next and previous undo each other and step by one around the ring. */
  lemma NextPreviousInverse(i: int)
    requires 0 <= i < DishCount
    ensures Previous(Next(i)) == i && Next(Previous(i)) == i
    ensures Next(i) == if i == DishCount - 1 then 0 else i + 1
    ensures Previous(i) == if i == 0 then DishCount - 1 else i - 1
  {
  }

  /** The carousel's state. */
  datatype Carousel = Carousel(currentIndex: int, isDragging: bool, startX: real, currentX: real)

  predicate InRange(c: Carousel)
  {
    0 <= c.currentIndex < DishCount
  }

  const Initial: Carousel := Carousel(0, false, 0.0, 0.0)

  /** `goToSlide(index)`: no range check. */
  function ShowSlide(c: Carousel, index: int): (r: Carousel)
    ensures r.currentIndex == index && r.(currentIndex := c.currentIndex) == c
    ensures 0 <= index < DishCount ==> InRange(r)
  {
    c.(currentIndex := index)
  }

  function ShowNext(c: Carousel): Carousel
  {
    c.(currentIndex := Next(c.currentIndex))
  }

  function ShowPrevious(c: Carousel): Carousel
  {
    c.(currentIndex := Previous(c.currentIndex))
  }

  /** `handleMouseDown` / `handleTouchStart`: start a drag at `x`. */
  function Press(c: Carousel, x: real): (r: Carousel)
    ensures r.isDragging && r.startX == x && r.currentX == x
    ensures r.currentIndex == c.currentIndex
  {
    c.(isDragging := true, startX := x, currentX := x)
  }

  /** `handleMouseMove` / `handleTouchMove`: follow the pointer while dragging. */
  function Move(c: Carousel, x: real): (r: Carousel)
    ensures r.currentIndex == c.currentIndex && r.isDragging == c.isDragging && r.startX == c.startX
    ensures r.currentX == if c.isDragging then x else c.currentX
  {
    if c.isDragging then c.(currentX := x) else c
  }

  /** `handleMouseUp` / `handleTouchEnd`: change slide on a long enough swipe, then end the drag. */
  function Release(c: Carousel): (r: Carousel)
    ensures !r.isDragging
    ensures r.currentIndex == c.currentIndex || r.currentIndex == Next(c.currentIndex) || r.currentIndex == Previous(c.currentIndex)
    ensures c.isDragging || r == c
    ensures InRange(c) ==> InRange(r)
  {
    if !c.isDragging then c
    else
      var diff := c.startX - c.currentX;
      var index :=
        if AbsReal(diff) > SwipeThreshold then (if diff > 0.0 then Next(c.currentIndex) else Previous(c.currentIndex))
        else c.currentIndex;
      Carousel(index, false, 0.0, 0.0)
  }

  /** The autoplay interval's callback: advance unless a drag is in progress. */
  function Tick(c: Carousel): (r: Carousel)
    ensures r.(currentIndex := c.currentIndex) == c
    ensures !c.isDragging ==> InRange(r) && r.currentIndex == Next(c.currentIndex)
    ensures c.isDragging ==> r == c
  {
    if !c.isDragging then c.(currentIndex := Next(c.currentIndex)) else c
  }

  /**
   * A release changes slide exactly when a drag is in progress and the swipe exceeds 50: forward
   * for a leftward swipe, backward otherwise; it always ends with no drag and both positions 0.
   */
  lemma ReleaseThreshold(c: Carousel)
    ensures !c.isDragging ==> Release(c) == c
    ensures c.isDragging ==> !Release(c).isDragging && Release(c).startX == 0.0 && Release(c).currentX == 0.0
    ensures c.isDragging && c.startX - c.currentX > SwipeThreshold ==> Release(c).currentIndex == Next(c.currentIndex)
    ensures c.isDragging && c.startX - c.currentX < -SwipeThreshold ==> Release(c).currentIndex == Previous(c.currentIndex)
    ensures c.isDragging && AbsReal(c.startX - c.currentX) <= SwipeThreshold ==> Release(c).currentIndex == c.currentIndex
  {
  }

  /** A swipe of exactly 50 does not change slide. */
  lemma ThresholdIsStrict(c: Carousel)
    requires c.isDragging && (c.startX - c.currentX == SwipeThreshold || c.startX - c.currentX == -SwipeThreshold)
    ensures Release(c).currentIndex == c.currentIndex
  {
  }

  /** A move has an effect only while dragging; a tick only while not dragging. */
  lemma MoveAndTickGuards(c: Carousel, x: real)
    ensures !c.isDragging ==> Move(c, x) == c
    ensures c.isDragging ==> Move(c, x) == c.(currentX := x)
    ensures c.isDragging ==> Tick(c) == c
    ensures !c.isDragging ==> Tick(c).currentIndex == Next(c.currentIndex) && Tick(c).isDragging == c.isDragging
  {
  }

  /** The carousel's inputs. */
  datatype Input = Slide(index: int) | Prev | NextSlide | Down(x: real) | Drag(x: real) | Up | AutoTick

  function Apply(c: Carousel, e: Input): Carousel
  {
    match e
    case Slide(index) => ShowSlide(c, index)
    case Prev => ShowPrevious(c)
    case NextSlide => ShowNext(c)
    case Down(x) => Press(c, x)
    case Drag(x) => Move(c, x)
    case Up => Release(c)
    case AutoTick => Tick(c)
  }

  function Run(c: Carousel, inputs: seq<Input>): Carousel
    decreases |inputs|
  {
    if |inputs| == 0 then c else Run(Apply(c, inputs[0]), inputs[1..])
  }

  /** The dots only ever ask for an existing slide. */
  predicate InputOk(e: Input)
  {
    e.Slide? ==> 0 <= e.index < DishCount
  }

  /** Every input sequence whose dots name existing slides keeps the index on a dish. */
  lemma {:induction false} RunStaysInRange(c: Carousel, inputs: seq<Input>)
    requires InRange(c) && forall k :: 0 <= k < |inputs| ==> InputOk(inputs[k])
    ensures InRange(Run(c, inputs))
    decreases |inputs|
  {
    if |inputs| > 0 {
      assert InputOk(inputs[0]);
      RunStaysInRange(Apply(c, inputs[0]), inputs[1..]);
    }
  }

  /** The track's horizontal offset, in percent of the carousel's width. */
  function TranslateX(c: Carousel, width: real): (x: real)
    ensures !c.isDragging || width <= 0.0 ==> x == -(c.currentIndex as real) * 100.0
  {
    var dragOffset := if c.isDragging then c.startX - c.currentX else 0.0;
    if width > 0.0 then -(c.currentIndex as real) * 100.0 - (dragOffset / width) * 100.0
    else -(c.currentIndex as real) * 100.0
  }

  /** While dragging, the track follows the pointer: a drag of a whole width moves by one slide. */
  lemma DragFollowsPointer(c: Carousel, width: real)
    requires c.isDragging && width > 0.0 && c.startX - c.currentX == width
    ensures TranslateX(c, width) == -((c.currentIndex + 1) as real) * 100.0
  {
  }

  /** The carousel as a component whose handlers update its state in place. */
  class DishCarousel {
    var currentIndex: int
    var isDragging: bool
    var startX: real
    var currentX: real

    function State(): Carousel
      reads this
    {
      Carousel(currentIndex, isDragging, startX, currentX)
    }

    constructor ()
      ensures State() == Initial
    {
      currentIndex := 0;
      isDragging := false;
      startX := 0.0;
      currentX := 0.0;
    }

    method GoToSlide(index: int)
      modifies this
      ensures State() == ShowSlide(old(State()), index)
    {
      currentIndex := index;
    }

    method GoToPrevious()
      modifies this
      ensures State() == ShowPrevious(old(State()))
    {
      currentIndex := (currentIndex - 1 + DishCount) % DishCount;
    }

    method GoToNext()
      modifies this
      ensures State() == ShowNext(old(State()))
    {
      currentIndex := (currentIndex + 1) % DishCount;
    }

    /** `handleMouseDown` / `handleTouchStart`. */
    method HandleDown(x: real)
      modifies this
      ensures State() == Press(old(State()), x)
    {
      isDragging := true;
      startX := x;
      currentX := x;
    }

    /** `handleMouseMove` / `handleTouchMove`. */
    method HandleMove(x: real)
      modifies this
      ensures State() == Move(old(State()), x)
    {
      if isDragging {
        currentX := x;
      }
    }

    /** `handleMouseUp` / `handleTouchEnd`. */
    method HandleUp()
      modifies this
      ensures State() == Release(old(State()))
    {
      if !isDragging {
        return;
      }
      var diff := startX - currentX;
      if AbsReal(diff) > SwipeThreshold {
        if diff > 0.0 {
          GoToNext();
        } else {
          GoToPrevious();
        }
      }
      isDragging := false;
      startX := 0.0;
      currentX := 0.0;
    }

    /** The autoplay interval's callback. */
    method AutoplayTick()
      modifies this
      ensures State() == Tick(old(State()))
    {
      if !isDragging {
        currentIndex := (currentIndex + 1) % DishCount;
      }
    }
  }

  // ---------------------------------------------------------------------------------------------
  // The scroll-driven animation

  /**
   * `Math.max(0, Math.min(1, -rect.top / sectionHeight))` for a section of height `height >= 0`;
   * `None` is the `NaN` of a zero-height section whose top is at 0 (0 / 0).
   */
  function ScrollProgress(top: real, height: real): (p: Option<real>)
    requires height >= 0.0
    ensures p.Some? ==> 0.0 <= p.value <= 1.0
    ensures p.None? <==> height == 0.0 && top == 0.0
    ensures height > 0.0 && -height <= top <= 0.0 ==> p == Some(-top / height)
    ensures height > 0.0 && top > 0.0 ==> p == Some(0.0)
    ensures height > 0.0 && top < -height ==> p == Some(1.0)
  {
    if height == 0.0 then
      (if top < 0.0 then Some(1.0) else if top > 0.0 then Some(0.0) else None)
    else
      var ratio := -top / height;
      RatioBounds(-top, height);
      Some(if ratio > 1.0 then 1.0 else if ratio < 0.0 then 0.0 else ratio)
  }

  /** A quotient by a positive height lies in [0, 1] exactly when its numerator lies in [0, height]. */
  lemma RatioBounds(x: real, height: real)
    requires height > 0.0
    ensures x / height <= 1.0 <==> x <= height
    ensures x / height >= 0.0 <==> x >= 0.0
  {
    var ratio := x / height;
    assert ratio * height == x;
    if ratio > 1.0 {
      assert ratio * height > 1.0 * height;
    }
    if ratio < 0.0 {
      assert ratio * height < 0.0 * height;
    }
    if x > height {
      assert ratio * height > 1.0 * height;
    }
  }

  /** The values derived from the progress: rotation, opacity, downward offset and scale. */
  datatype BowlPose = BowlPose(rotation: real, opacity: real, translateY: real, scale: real)

  function Pose(progress: real): (r: BowlPose)
    ensures r.opacity + r.rotation / 90.0 == 1.0
    ensures r.scale == 1.0 + r.translateY / 8.0
  {
    BowlPose(progress * 360.0 / 4.0, 1.0 - progress, progress * 8.0, 1.0 + progress * 1.0)
  }

  /** On a clamped progress the rotation stays in [0, 90], the opacity in [0, 1], the offset in [0, 8] and the scale in [1, 2]. */
  lemma PoseBounds(progress: real)
    requires 0.0 <= progress <= 1.0
    ensures var pose := Pose(progress);
      && 0.0 <= pose.rotation <= 90.0 && 0.0 <= pose.opacity <= 1.0
      && 0.0 <= pose.translateY <= 8.0 && 1.0 <= pose.scale <= 2.0
    ensures Pose(progress).opacity + Pose(progress).rotation / 90.0 == 1.0
  {
  }
}
