/** The drag / momentum / snap carousel: one horizontal scroll offset and its three writers
    (pointer drag, the momentum interval, the eased snap animation), plus the values derived
    from it (visible count, current index, arrow guards, lit indicator dots).

    DOM measurements (`clientWidth`, `scrollWidth`, `offsetLeft`), `Date.now()` and the
    timestamps handed to animation frames are parameters. Each momentum interval callback and
    each animation frame is one explicit method call. */
module Carousel {
  import opened Common

  /** Scroll distance per pixel of pointer travel. */
  const DragGain: real := 2.0
  /** Velocity is normalised to px per 16 ms tick. */
  const FrameMs: real := 16.0
  /** Momentum velocity is multiplied by this on every tick. */
  const Friction: real := 0.95
  /** Momentum runs only while |velocity| exceeds this. */
  const StopSpeed: real := 0.5
  /** Length of a snap animation, in ms. */
  const SnapDurationMs: real := 50.0

  function Abs(x: real): real { if x < 0.0 then -x else x }

  /** JavaScript `Math.round`: the nearest integer, halves rounded up. */
  function JsRound(x: real): (r: int)
    ensures r as real - 0.5 <= x < r as real + 0.5
  {
    (x + 0.5).Floor
  }

  /** JavaScript `Math.ceil`. */
  function JsCeil(x: real): (r: int)
    ensures x <= r as real < x + 1.0
  {
    -((-x).Floor)
  }

  // ---------------------------------------------------------------------------------------
  // Layout sizer

  /** How many items are "mostly visible": `Math.max(1, Math.round(containerWidth / (itemMinWidth + gap)))`. */
  function VisibleCount(containerWidth: real, itemMinWidth: real, gap: real): (r: int)
    requires itemMinWidth + gap > 0.0
    ensures r >= 1
    ensures containerWidth / (itemMinWidth + gap) >= 0.5 ==>
      r as real - 0.5 <= containerWidth / (itemMinWidth + gap) < r as real + 0.5
    ensures containerWidth / (itemMinWidth + gap) < 0.5 ==> r == 1
  {
    var n := JsRound(containerWidth / (itemMinWidth + gap));
    if n > 1 then n else 1
  }

  // ---------------------------------------------------------------------------------------
  // Index deriver

  /** The index `handleScroll` derives from an offset: the item whose start is nearest. */
  function IndexAt(offset: real, step: real): (r: int)
    requires step > 0.0
    ensures r as real - 0.5 <= offset / step < r as real + 0.5
  {
    JsRound(offset / step)
  }

  /** The offset of a snap target maps back to that very index. */
  lemma IndexAtTarget(k: int, step: real)
    requires step > 0.0
    ensures IndexAt(k as real * step, step) == k
  {
    assert (k as real * step) / step == k as real;
  }

  /** Offsets inside the track never give a negative index. */
  lemma IndexAtNonNegative(offset: real, step: real)
    requires step > 0.0 && offset >= 0.0
    ensures IndexAt(offset, step) >= 0
  {
  }

  // ---------------------------------------------------------------------------------------
  // Indicator dots

  /** The track is at its end: `Math.ceil(scrollLeft + clientWidth) >= scrollWidth`. The
      rounding up forgives less than one pixel short of the end, and no more. */
  predicate AtEnd(scrollLeft: real, clientWidth: real, scrollWidth: real): (r: bool)
    ensures scrollLeft + clientWidth >= scrollWidth ==> r
    ensures r ==> scrollLeft + clientWidth > scrollWidth - 1.0
  {
    JsCeil(scrollLeft + clientWidth) as real >= scrollWidth
  }

  /** Dot `index` is lit when it lies in the visible window starting at the current index,
      or when the track is at its end and the dot belongs to the last `visibleCount` items. */
  predicate DotLit(index: int, currentIndex: int, visibleCount: int, totalItems: int, atEnd: bool) {
    (index >= currentIndex && index < currentIndex + visibleCount) ||
    (atEnd && index >= totalItems - visibleCount)
  }

  /** How many of the dots `0 .. n-1` are lit. */
  function LitCount(n: nat, currentIndex: int, visibleCount: int, totalItems: int, atEnd: bool): nat {
    if n == 0 then 0
    else LitCount(n - 1, currentIndex, visibleCount, totalItems, atEnd) +
         (if DotLit(n - 1, currentIndex, visibleCount, totalItems, atEnd) then 1 else 0)
  }

  function Clamp(x: int, lo: int, hi: int): int
    requires lo <= hi
  {
    if x < lo then lo else if x > hi then hi else x
  }

  /** Away from the end, the lit dots among the first `n` are exactly those of the window. */
  lemma {:induction false} LitCountWindow(n: nat, currentIndex: int, visibleCount: int, totalItems: int)
    requires currentIndex >= 0 && visibleCount >= 1
    ensures LitCount(n, currentIndex, visibleCount, totalItems, false) == Clamp(n - currentIndex, 0, visibleCount)
  {
    if n > 0 {
      LitCountWindow(n - 1, currentIndex, visibleCount, totalItems);
    }
  }

  /** Away from the end, with the whole window inside the list, exactly `visibleCount` dots are lit. */
  lemma LitCountNotAtEnd(currentIndex: int, visibleCount: int, totalItems: nat)
    requires currentIndex >= 0 && visibleCount >= 1 && currentIndex + visibleCount <= totalItems
    ensures LitCount(totalItems, currentIndex, visibleCount, totalItems, false) == visibleCount
  {
    LitCountWindow(totalItems, currentIndex, visibleCount, totalItems);
  }

  /** At the end of the track the last `visibleCount` dots are all lit, whatever the index; with
      fewer items than visible slots, every dot is. */
  lemma {:induction false} LitCountAtEnd(n: nat, currentIndex: int, visibleCount: int, totalItems: int)
    ensures var firstLit := if totalItems - visibleCount > 0 then totalItems - visibleCount else 0;
      LitCount(n, currentIndex, visibleCount, totalItems, true) >= n - firstLit
  {
    if n > 0 {
      LitCountAtEnd(n - 1, currentIndex, visibleCount, totalItems);
    }
  }

  // ---------------------------------------------------------------------------------------
  // Easing

  function Cube(x: real): real { x * x * x }

  /** `easeInOutCubic`: `4t^3` below one half, `1 - (-2t + 2)^3 / 2` from one half on. */
  function EaseInOutCubic(t: real): real {
    if t < 0.5 then 4.0 * Cube(t) else 1.0 - Cube(-2.0 * t + 2.0) / 2.0
  }

  lemma CubeMonotoneNonNeg(a: real, b: real)
    requires 0.0 <= a <= b
    ensures Cube(a) <= Cube(b)
  {
    assert a * a <= b * b by {
      assert a * a <= a * b;
      assert a * b <= b * b;
    }
    assert a * a * a <= b * b * a;
    assert b * b * a <= b * b * b;
  }

  lemma CubeMonotone(a: real, b: real)
    requires a <= b
    ensures Cube(a) <= Cube(b)
  {
    if 0.0 <= a {
      CubeMonotoneNonNeg(a, b);
    } else if b <= 0.0 {
      CubeMonotoneNonNeg(-b, -a);
      assert Cube(-b) == -Cube(b) && Cube(-a) == -Cube(a);
    } else {
      assert Cube(a) == -Cube(-a);
      CubeMonotoneNonNeg(0.0, -a);
      CubeMonotoneNonNeg(0.0, b);
    }
  }

  /** The curve starts at 0, passes 1/2 at the midpoint (where both branches agree) and ends at 1. */
  lemma EaseEndpoints()
    ensures EaseInOutCubic(0.0) == 0.0
    ensures EaseInOutCubic(0.5) == 0.5 && 4.0 * Cube(0.5) == 0.5
    ensures EaseInOutCubic(1.0) == 1.0
  {
    assert Cube(0.0) == 0.0;
    assert Cube(0.5) == 0.125;
    assert -2.0 * 0.5 + 2.0 == 1.0 && Cube(1.0) == 1.0;
    assert -2.0 * 1.0 + 2.0 == 0.0;
  }

  /** The curve never moves backwards. */
  lemma EaseMonotone(s: real, t: real)
    requires s <= t
    ensures EaseInOutCubic(s) <= EaseInOutCubic(t)
  {
    if t < 0.5 {
      CubeMonotone(s, t);
    } else if s >= 0.5 {
      CubeMonotone(-2.0 * t + 2.0, -2.0 * s + 2.0);
    } else {
      CubeMonotone(s, 0.5);
      CubeMonotone(-2.0 * t + 2.0, 1.0);
    }
  }

  /** On `[0, 1]` the curve stays inside `[0, 1]`. */
  lemma EaseRange(t: real)
    requires 0.0 <= t <= 1.0
    ensures 0.0 <= EaseInOutCubic(t) <= 1.0
  {
    EaseMonotone(0.0, t);
    EaseMonotone(t, 1.0);
  }

  // ---------------------------------------------------------------------------------------
  // Snap animation

  /** One `scrollToIndex` animation: the offset it started from, the distance to the target,
      and the timestamp of its first frame (`null` until the first frame runs). */
  datatype SnapAnimation = SnapAnimation(start: real, distance: real, startTime: Option<real>)
  {
    function Target(): real { start + distance }
  }

  /** `if (!startTime) startTime = currentTime`: `null` and `0` are both replaced. */
  function FrameStart(a: SnapAnimation, now: real): real {
    match a.startTime
    case Some(t) => if t == 0.0 then now else t
    case None => now
  }

  /** `Math.min(elapsed / duration, 1)`: the fraction of the snap duration that has passed. */
  function Progress(elapsed: real): (p: real)
    ensures p <= 1.0 && (p < 1.0 <==> elapsed < SnapDurationMs)
    ensures elapsed >= 0.0 ==> 0.0 <= p
  {
    var p := elapsed / SnapDurationMs;
    if p < 1.0 then p else 1.0
  }

  /** Where frame `p` of snap `a` puts the offset: `start + distance * easeInOutCubic(p)`. */
  function FramePosition(a: SnapAnimation, p: real): real {
    a.start + a.distance * EaseInOutCubic(p)
  }

  predicate Between(x: real, a: real, b: real) {
    (a <= x <= b) || (b <= x <= a)
  }

  /** Every frame of a snap lies between its start and its target. */
  lemma FrameBetween(a: SnapAnimation, p: real)
    requires 0.0 <= p <= 1.0
    ensures Between(FramePosition(a, p), a.start, a.Target())
  {
    var e := EaseInOutCubic(p);
    EaseRange(p);
    if a.distance >= 0.0 {
      assert 0.0 <= a.distance * e <= a.distance * 1.0;
    } else {
      assert a.distance * 1.0 <= a.distance * e <= 0.0;
    }
  }

  /** The frame at full progress puts the offset exactly on the target. */
  lemma FinalFrame(a: SnapAnimation)
    ensures FramePosition(a, 1.0) == a.Target()
  {
    var e := EaseInOutCubic(1.0);
    assert e == 1.0 by {
      assert -2.0 * 1.0 + 2.0 == 0.0;
      assert Cube(0.0) == 0.0;
    }
    assert a.distance * e == a.distance;
  }

  // ---------------------------------------------------------------------------------------
  // Momentum

  /** Where a momentum run started at `offset` with velocity `velocity` comes to rest. */
  datatype CoastEnd = CoastEnd(offset: real, velocity: real, ticks: nat)

  function CoastMeasure(v: real): nat {
    if Abs(v) > StopSpeed then (Abs(v) * 40.0).Floor else 0
  }

  lemma CoastMeasureDecreases(v: real)
    requires Abs(v) > StopSpeed
    ensures CoastMeasure(v * Friction) < CoastMeasure(v)
  {
    assert Abs(v * Friction) == Abs(v) * Friction;
    assert Abs(v * Friction) * 40.0 <= Abs(v) * 40.0 - 1.0;
  }

  /** The ticks of the momentum interval, run until the velocity no longer exceeds `StopSpeed`:
      each adds the velocity to the offset and multiplies the velocity by `Friction`. */
  function Coast(offset: real, v: real): CoastEnd
    decreases CoastMeasure(v)
  {
    if Abs(v) > StopSpeed then
      CoastMeasureDecreases(v);
      var e := Coast(offset + v, v * Friction);
      CoastEnd(e.offset, e.velocity, e.ticks + 1)
    else
      CoastEnd(offset, v, 0)
  }

  function Pow(x: real, n: nat): real {
    if n == 0 then 1.0 else x * Pow(x, n - 1)
  }

  /** Each tick strictly shrinks a non-zero velocity. */
  lemma FrictionShrinks(v: real)
    requires v != 0.0
    ensures Abs(v * Friction) < Abs(v)
  {
  }

  /** A momentum run ends with |velocity| at most `StopSpeed`, the velocity being the
      starting one scaled by `Friction` once per tick, and the offset moved by
      `20 (v - v_end)`: the geometric sum `v (1 - Friction^n) / (1 - Friction)`. */
  lemma CoastClosedForm(offset: real, v: real)
    ensures var e := Coast(offset, v);
      Abs(e.velocity) <= StopSpeed &&
      e.velocity == v * Pow(Friction, e.ticks) &&
      e.offset == offset + 20.0 * (v - e.velocity)
  {
    CoastStops(offset, v);
    CoastVelocity(offset, v);
    CoastOffset(offset, v);
  }

  lemma {:induction false} CoastStops(offset: real, v: real)
    ensures Abs(Coast(offset, v).velocity) <= StopSpeed
    decreases CoastMeasure(v)
  {
    if Abs(v) > StopSpeed {
      CoastMeasureDecreases(v);
      CoastStops(offset + v, v * Friction);
    }
  }

  lemma {:induction false} CoastVelocity(offset: real, v: real)
    ensures var e := Coast(offset, v); e.velocity == v * Pow(Friction, e.ticks)
  {
    CoastDecays(offset, v);
    DecayIsPow(v, Coast(offset, v).ticks);
  }

  /** `n` ticks of friction applied to `v`, one multiplication at a time. */
  function Decay(v: real, n: nat): real
    decreases n
  {
    if n == 0 then v else Decay(v * Friction, n - 1)
  }

  lemma {:induction false} CoastDecays(offset: real, v: real)
    ensures var e := Coast(offset, v); e.velocity == Decay(v, e.ticks)
    decreases CoastMeasure(v)
  {
    if Abs(v) > StopSpeed {
      CoastMeasureDecreases(v);
      CoastDecays(offset + v, v * Friction);
    }
  }

  lemma {:induction false} DecayIsPow(v: real, n: nat)
    ensures Decay(v, n) == v * Pow(Friction, n)
    decreases n
  {
    if n > 0 {
      DecayIsPow(v * Friction, n - 1);
      PowStep(v, n - 1);
    }
  }

  lemma PowStep(v: real, n: nat)
    ensures v * Friction * Pow(Friction, n) == v * Pow(Friction, n + 1)
  {
    assert Pow(Friction, n + 1) == Friction * Pow(Friction, n);
    ScaleAssoc(v, Pow(Friction, n));
  }

  lemma {:induction false} CoastOffset(offset: real, v: real)
    ensures var e := Coast(offset, v); e.offset == offset + 20.0 * (v - e.velocity)
    decreases CoastMeasure(v)
  {
    if Abs(v) > StopSpeed {
      CoastMeasureDecreases(v);
      CoastOffset(offset + v, v * Friction);
      var e := Coast(offset + v, v * Friction);
      assert Coast(offset, v).offset == e.offset && Coast(offset, v).velocity == e.velocity;
    }
  }

  lemma ScaleAssoc(v: real, q: real)
    ensures v * Friction * q == v * (Friction * q)
  {
  }

  lemma {:induction false} PowBounds(x: real, n: nat)
    requires 0.0 <= x <= 1.0
    ensures 0.0 <= Pow(x, n) <= 1.0
  {
    if n > 0 {
      PowBounds(x, n - 1);
      ScaleBetween(Pow(x, n - 1), x);
      assert Pow(x, n) == Pow(x, n - 1) * x;
    }
  }

  /** However long it lasts, a momentum run travels no farther than 20 times the release velocity,
      and in the direction of that velocity. */
  lemma CoastDistanceBound(offset: real, v: real)
    ensures var e := Coast(offset, v);
      Abs(e.offset - offset) <= 20.0 * Abs(v) &&
      (v >= 0.0 ==> e.offset >= offset) && (v <= 0.0 ==> e.offset <= offset)
  {
    CoastClosedForm(offset, v);
    var e := Coast(offset, v);
    PowBounds(Friction, e.ticks);
    ScaleBetween(v, Pow(Friction, e.ticks));
  }

  lemma ScaleBetween(v: real, d: real)
    requires 0.0 <= d <= 1.0
    ensures v >= 0.0 ==> 0.0 <= v * d <= v
    ensures v <= 0.0 ==> v <= v * d <= 0.0
  {
  }

  // ---------------------------------------------------------------------------------------
  // The component

  /** `DraggableCarousel`: its React state plus the container's own `scrollLeft` (`offset`).
      `scrollLeft` is the component's state of that name: the offset recorded when a drag began. */
  class DraggableCarousel {
    const itemMinWidth: real
    const gap: real
    var isDragging: bool
    var startX: real
    var scrollLeft: real
    var currentIndex: int
    var totalItems: nat
    var velocity: real
    var lastX: real
    var lastTime: int
    var visibleCount: int
    var offset: real

    /** Distance between the starts of neighbouring items. */
    function Step(): real {
      itemMinWidth + gap
    }

    ghost predicate Valid()
      reads this
    {
      Step() > 0.0 && visibleCount >= 1
    }

    /** The initial values of every `useState` hook, over a container scrolled to its start. */
    constructor (itemMinWidth: real, gap: real)
      requires itemMinWidth + gap > 0.0
      ensures Valid()
      ensures this.itemMinWidth == itemMinWidth && this.gap == gap
      ensures !isDragging && startX == 0.0 && scrollLeft == 0.0 && currentIndex == 0
      ensures totalItems == 0 && velocity == 0.0 && lastX == 0.0 && lastTime == 0
      ensures visibleCount == 1 && offset == 0.0
    {
      this.itemMinWidth := itemMinWidth;
      this.gap := gap;
      isDragging := false;
      startX := 0.0;
      scrollLeft := 0.0;
      currentIndex := 0;
      totalItems := 0;
      velocity := 0.0;
      lastX := 0.0;
      lastTime := 0;
      visibleCount := 1;
      offset := 0.0;
    }

    /** `updateVisibleCount`, run on mount and on every window resize. */
    method UpdateVisibleCount(clientWidth: real)
      requires Valid()
      modifies this`visibleCount
      ensures Valid()
      ensures visibleCount == VisibleCount(clientWidth, itemMinWidth, gap)
    {
      visibleCount := VisibleCount(clientWidth, itemMinWidth, gap);
    }

    /** The children effect: `totalItems` follows the number of children. */
    method SetTotalItems(count: nat)
      modifies this`totalItems
      ensures totalItems == count
    {
      totalItems := count;
    }

    /** `handleMouseDown` and `handleTouchStart` (same state changes; `pageX` is the mouse's or the
        first touch's): a drag starts, anchored at the current offset, with zero velocity. */
    method PointerDown(pageX: real, offsetLeft: real, now: int)
      modifies this`isDragging, this`startX, this`scrollLeft, this`lastX, this`lastTime, this`velocity
      ensures isDragging && velocity == 0.0
      ensures startX == pageX - offsetLeft && scrollLeft == offset
      ensures lastX == pageX && lastTime == now
    {
      isDragging := true;
      startX := pageX - offsetLeft;
      scrollLeft := offset;
      lastX := pageX;
      lastTime := now;
      velocity := 0.0;
    }

    /** `handleMouseMove` and `handleTouchMove`: ignored unless dragging; otherwise the offset is
        the anchor minus twice the pointer travel since the drag began, the velocity is
        re-estimated when time has passed, and the last sample is refreshed. */
    method PointerMove(pageX: real, offsetLeft: real, now: int)
      modifies this`offset, this`velocity, this`lastX, this`lastTime
      ensures !old(isDragging) ==>
        offset == old(offset) && velocity == old(velocity) && lastX == old(lastX) && lastTime == old(lastTime)
      ensures old(isDragging) ==>
        offset == scrollLeft - DragGain * ((pageX - offsetLeft) - startX) &&
        lastX == pageX && lastTime == now &&
        velocity == (if now - old(lastTime) > 0
                     then -(pageX - old(lastX)) / ((now - old(lastTime)) as real) * FrameMs
                     else old(velocity))
    {
      if !isDragging {
        return;
      }
      var x := pageX - offsetLeft;
      var walk := (x - startX) * DragGain;
      offset := scrollLeft - walk;
      var dt := now - lastTime;
      if dt > 0 {
        var dx := pageX - lastX;
        velocity := -dx / (dt as real) * FrameMs;
      }
      lastX := pageX;
      lastTime := now;
    }

    /** `handleDragEnd` (mouse up, mouse leave, touch end). The velocity is kept, so the
        momentum effect takes over when it exceeds `StopSpeed`. */
    method DragEnd()
      modifies this`isDragging
      ensures !isDragging
    {
      isDragging := false;
    }

    /** One callback of the momentum interval, followed by the re-render that restarts the
        effect with the new velocity. It runs only when not dragging and |velocity| > `StopSpeed`. */
    method MomentumTick() returns (ticked: bool)
      modifies this`offset, this`velocity
      ensures ticked <==> !isDragging && Abs(old(velocity)) > StopSpeed
      ensures ticked ==> offset == old(offset) + old(velocity) && velocity == old(velocity) * Friction
      ensures !ticked ==> offset == old(offset) && velocity == old(velocity)
    {
      ticked := !isDragging && Abs(velocity) > StopSpeed;
      if ticked {
        offset := offset + velocity;
        velocity := velocity * Friction;
      }
    }

    /** The momentum interval left to run undisturbed: ticks until it stops, which happens
        after finitely many ticks, at the place `Coast` describes. */
    method RunMomentum() returns (ticks: nat)
      modifies this`offset, this`velocity
      ensures isDragging ==> ticks == 0 && offset == old(offset) && velocity == old(velocity)
      ensures !isDragging ==> CoastEnd(offset, velocity, ticks) == Coast(old(offset), old(velocity))
      ensures Abs(velocity) <= StopSpeed || isDragging
    {
      ticks := 0;
      while !isDragging && Abs(velocity) > StopSpeed
        invariant !isDragging ==>
          var e := Coast(offset, velocity);
          var e0 := Coast(old(offset), old(velocity));
          e.offset == e0.offset && e.velocity == e0.velocity && e.ticks + ticks == e0.ticks
        invariant isDragging ==> ticks == 0 && offset == old(offset) && velocity == old(velocity)
        decreases CoastMeasure(velocity)
      {
        CoastMeasureDecreases(velocity);
        var ticked := MomentumTick();
        ticks := ticks + 1;
      }
    }

    /** `handleScroll`: while not dragging, the current index becomes the item nearest the offset. */
    method OnScroll()
      requires Valid()
      modifies this`currentIndex
      ensures old(isDragging) ==> currentIndex == old(currentIndex)
      ensures !old(isDragging) ==> currentIndex == IndexAt(offset, Step())
    {
      if !isDragging {
        currentIndex := JsRound(offset / Step());
      }
    }

    /** `scrollToIndex`: schedules a snap animation from the current offset to `index * step`.
        It changes nothing until its frames run. */
    method ScrollToIndex(index: int) returns (a: SnapAnimation)
      ensures a.start == offset && a.Target() == index as real * Step() && a.startTime == None
    {
      var targetScroll := index as real * Step();
      a := SnapAnimation(offset, targetScroll - offset, None);
    }

    /** One `animate` frame at timestamp `now`: the offset is placed on the eased curve between
        the start and the target; another frame is requested while progress is below 1. */
    method AnimateFrame(a: SnapAnimation, now: real) returns (next: SnapAnimation, again: bool)
      requires a.startTime.Some? ==> a.startTime.value <= now
      modifies this`offset
      ensures next == a.(startTime := Some(FrameStart(a, now)))
      ensures offset == FramePosition(a, Progress(now - FrameStart(a, now)))
      ensures again <==> now - FrameStart(a, now) < SnapDurationMs
      ensures Between(offset, a.start, a.Target())
      ensures !again ==> offset == a.Target()
    {
      var startTime := FrameStart(a, now);
      next := a.(startTime := Some(startTime));
      var elapsed := now - startTime;
      var progress := Progress(elapsed);
      offset := FramePosition(a, progress);
      again := progress < 1.0;
      FrameBetween(a, progress);
      if !again {
        FinalFrame(a);
      }
    }

    /** The "previous" arrow is shown exactly when `scrollPrev` would act. */
    predicate ShowsPrev()
      reads this
    {
      currentIndex > 0
    }

    /** The "next" arrow is shown exactly when `scrollNext` would act. */
    predicate ShowsNext()
      reads this
    {
      currentIndex < totalItems - 1
    }

    /** `scrollPrev`: a no-op at index 0, otherwise a snap to the previous item. */
    method ScrollPrev() returns (a: Option<SnapAnimation>)
      ensures a.Some? <==> ShowsPrev()
      ensures a.Some? ==> a.value.start == offset && a.value.Target() == (currentIndex - 1) as real * Step()
    {
      if currentIndex > 0 {
        var s := ScrollToIndex(currentIndex - 1);
        a := Some(s);
      } else {
        a := None;
      }
    }

    /** `scrollNext`: a no-op from the last index on, otherwise a snap to the next item. */
    method ScrollNext() returns (a: Option<SnapAnimation>)
      ensures a.Some? <==> ShowsNext()
      ensures a.Some? ==> a.value.start == offset && a.value.Target() == (currentIndex + 1) as real * Step()
    {
      if currentIndex < totalItems - 1 {
        var s := ScrollToIndex(currentIndex + 1);
        a := Some(s);
      } else {
        a := None;
      }
    }

    /** Whether indicator dot `index` is lit, for the container's current measurements. */
    predicate IsDotLit(index: int, clientWidth: real, scrollWidth: real): (r: bool)
      reads this
      ensures currentIndex <= index < currentIndex + visibleCount ==> r
      ensures offset + clientWidth >= scrollWidth && index >= totalItems - visibleCount ==> r
      ensures offset + clientWidth <= scrollWidth - 1.0 ==> (r <==> currentIndex <= index < currentIndex + visibleCount)
    {
      DotLit(index, currentIndex, visibleCount, totalItems, AtEnd(offset, clientWidth, scrollWidth))
    }
  }
}
