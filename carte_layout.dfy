/**
 * Where the menu wheel draws each item (the `items.map` of `WheelCarousel` in
 * src/pages/Carte.jsx): the item's offset from the active one, taken the short way round, sets
 * its angle on the arc (30 degrees per step), its opacity, scale and stacking order, and items
 * more than 90 degrees away are not drawn. The x/y position (cosine and sine) is not modelled.
 */
module CarteLayout {
  import opened Options

  /** Degrees of arc between neighbouring items. */
  const StepDegrees: int := 30

  /** Items whose arc angle exceeds this many degrees are not drawn. */
  const MaxArcDegrees: int := 90

  function AbsInt(x: int): nat
  {
    if x < 0 then -x else x
  }

  function MaxReal(a: real, b: real): real
  {
    if a < b then b else a
  }

  /**
   * `relativeIndex`: `index - currentIndex`, shifted once by `n` when it lies beyond `n / 2` on
   * either side (the comparison is with the exact half, so `2 * rel` is compared with `n`).
   */
  function RelativeIndex(index: int, current: int, n: int): (r: int)
    requires n >= 1
    ensures r == index - current || r == index - current - n || r == index - current + n
    ensures -n < index - current < n ==> -n <= 2 * r <= n
  {
    var rel := index - current;
    if 2 * rel > n then rel - n
    else if 2 * rel < -n then rel + n
    else rel
  }

  /**
   * For positions on the ring, the relative index is the offset modulo `n` that lies in the closed
   * range [-n/2, n/2], and it is 0 exactly for the active item.
   */
  lemma RelativeIndexNormalised(index: int, current: int, n: int)
    requires n >= 1 && 0 <= index < n && 0 <= current < n
    ensures var r := RelativeIndex(index, current, n);
      && (r == index - current || r == index - current - n || r == index - current + n)
      && -n <= 2 * r <= n
      && (r == 0 <==> index == current)
  {
  }

  /** The range is closed at both ends: with four items, both -2 and +2 occur. */
  lemma BothHalvesReached()
    ensures RelativeIndex(2, 0, 4) == 2 && RelativeIndex(0, 2, 4) == -2
  {
  }

  /** The drawing attributes of one item: rotation in degrees, opacity, scale and z-index. */
  datatype ItemLayout = ItemLayout(rotation: int, opacity: real, scale: real, zIndex: int)

  /**
   * The layout of item `index` when `current` is active, or `None` when the item is culled
   * (`return null`).
   */
  function Layout(index: int, current: int, n: int): (r: Option<ItemLayout>)
    requires n >= 1
    ensures r.Some? <==> -3 <= RelativeIndex(index, current, n) <= 3
    ensures r.Some? ==> 0.1 <= r.value.opacity <= 1.0 && 0.4 <= r.value.scale <= 1.0
  {
    var rel := RelativeIndex(index, current, n);
    var arcAngle := rel * StepDegrees;
    var distance := AbsInt(rel);
    var isActive := index == current;
    var opacity := if isActive then 1.0 else MaxReal(0.1, 1.0 - distance as real * 0.3);
    var scale := if isActive then 1.0 else MaxReal(0.4, 1.0 - distance as real * 0.2);
    if AbsInt(arcAngle) > MaxArcDegrees then None
    else Some(ItemLayout(-arcAngle, opacity, scale, if isActive then 10 else 5 - distance))
  }

  /** The active item is drawn upright, fully opaque, at full size and on top. */
  lemma ActiveItemLayout(current: int, n: int)
    requires 0 <= current < n
    ensures Layout(current, current, n) == Some(ItemLayout(0, 1.0, 1.0, 10))
  {
  }

  /**
   * An item is drawn exactly when it is at most three steps from the active one; any other drawn
   * item is strictly fainter, smaller and lower than the active one: at distance d it has opacity
   * max(0.1, 1 - 0.3d) <= 0.7, scale max(0.4, 1 - 0.2d) <= 0.8 and z-index 5 - d, and it is
   * counter-rotated by 30 degrees per step.
   */
  lemma OtherItemLayout(index: int, current: int, n: int)
    requires 0 <= index < n && 0 <= current < n
    ensures var rel := RelativeIndex(index, current, n);
      && (Layout(index, current, n).Some? <==> -3 <= rel <= 3)
      && (index != current && Layout(index, current, n).Some? ==>
            var l := Layout(index, current, n).value;
            var d := AbsInt(rel);
            && 1 <= d <= 3
            && l.rotation == -30 * rel
            && l.opacity == MaxReal(0.1, 1.0 - d as real * 0.3) && l.opacity <= 0.7
            && l.scale == MaxReal(0.4, 1.0 - d as real * 0.2) && l.scale <= 0.8
            && l.zIndex == 5 - d && 2 <= l.zIndex <= 4)
  {
    RelativeIndexNormalised(index, current, n);
  }

  /** The indices `items.map` draws (does not return `null` for). */
  function Drawn(current: int, n: int): (r: set<int>)
    requires n >= 1
    ensures forall i :: i in r <==> 0 <= i < n && -3 <= RelativeIndex(i, current, n) <= 3
  {
    set i | 0 <= i < n && Layout(i, current, n).Some?
  }

  /** A drawn item sits at most three places round the ring from the active one. */
  lemma DrawnInWindow(i: int, current: int, n: int)
    requires 0 <= current < n && i in Drawn(current, n)
    ensures i in Window(current, n)
  {
    var rel := RelativeIndex(i, current, n);
    RelativeIndexNormalised(i, current, n);
    assert -3 <= rel <= 3;
    RingPosition(i, current, rel, n);
    if rel == -3 { assert i == (current - 3) % n; }
    else if rel == -2 { assert i == (current - 2) % n; }
    else if rel == -1 { assert i == (current - 1) % n; }
    else if rel == 0 { assert i == current % n; }
    else if rel == 1 { assert i == (current + 1) % n; }
    else if rel == 2 { assert i == (current + 2) % n; }
    else { assert i == (current + 3) % n; }
  }

  /** Going `rel` places from `current` lands on `i` when `rel` is `i - current` up to one turn. */
  lemma RingPosition(i: int, current: int, rel: int, n: int)
    requires 0 <= i < n && n >= 1
    requires rel == i - current || rel == i - current - n || rel == i - current + n
    ensures (current + rel) % n == i
  {
    if rel == i - current - n {
      assert current + rel == i - n;
      assert (i - n) % n == i;
    } else if rel == i - current + n {
      assert current + rel == i + n;
      assert (i + n) % n == i;
    }
  }

  /** The places at most three steps from `current` on a ring of `n`. */
  function Window(current: int, n: int): set<int>
    requires n >= 1
  {
    {(current - 3) % n, (current - 2) % n, (current - 1) % n, current % n,
     (current + 1) % n, (current + 2) % n, (current + 3) % n}
  }

  /** However many items a category has, at most seven are drawn at once. */
  lemma AtMostSevenDrawn(current: int, n: int)
    requires 0 <= current < n
    ensures |Drawn(current, n)| <= 7
  {
    var drawn := Drawn(current, n);
    var window := Window(current, n);
    forall i | i in drawn ensures i in window {
      DrawnInWindow(i, current, n);
    }
    assert window == drawn + (window - drawn);
    assert |window| <= 7;
  }

  /** A category of at most seven items is drawn whole. */
  lemma SmallCategoriesDrawnWhole(current: int, n: int)
    requires 0 <= current < n <= 7
    ensures forall i :: 0 <= i < n ==> i in Drawn(current, n)
  {
    forall i | 0 <= i < n ensures Layout(i, current, n).Some? {
      RelativeIndexNormalised(i, current, n);
    }
  }
}
