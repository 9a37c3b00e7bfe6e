/** Drag-to-scroll on the hourly strip, with a momentum glide on release.

    The drag state is the closure of `initDragScroll` (`isDown`, `startX`,
    the anchor `scrollLeft`, `velX`) plus the strip's own `scrollLeft`,
    treated as an unclamped real. The glide runs its frames to completion
    here: each frame first stops if the speed is under 0.5, and otherwise
    decays the speed by 0.92 and scrolls by the decayed amount. */
module DragScroll {
  import opened Types

  /** Scroll pixels per pointer pixel while dragging. */
  const DragFactor: real := 1.5
  const Decay: real := 0.92
  /** A glide frame with a speed below this does nothing and ends the glide. */
  const StopSpeed: real := 0.5

  /** A termination measure for the glide: while the speed is at least 0.5, a
      frame removes at least 0.04 of it, so 25 times the speed drops by one. */
  function GlideMeasure(v: real): nat
  {
    (AbsR(v) * 25.0).Floor
  }

  lemma GlideMeasureDrops(v: real)
    requires AbsR(v) >= StopSpeed
    ensures GlideMeasure(v * Decay) < GlideMeasure(v)
    ensures AbsR(v * Decay) == AbsR(v) * Decay
  {
    assert AbsR(v * Decay) * 25.0 <= AbsR(v) * 25.0 - 1.0;
  }

  /** The number of frames that move the strip. */
  function GlideSteps(v: real): (n: nat)
    ensures n == 0 <==> AbsR(v) < StopSpeed
    decreases GlideMeasure(v)
  {
    if AbsR(v) < StopSpeed then 0
    else
      GlideMeasureDrops(v);
      1 + GlideSteps(v * Decay)
  }

  /** The total distance a glide launched with speed `v` scrolls: nothing
      exactly when the launch is too slow, and never against the launch. */
  function GlideDisplacement(v: real): (r: real)
    ensures r == 0.0 <==> AbsR(v) < StopSpeed
    ensures v >= 0.0 ==> r >= 0.0
    ensures v <= 0.0 ==> r <= 0.0
    decreases GlideMeasure(v)
  {
    if AbsR(v) < StopSpeed then 0.0
    else
      GlideMeasureDrops(v);
      v * Decay + GlideDisplacement(v * Decay)
  }

  /** v * 0.92^k: the speed after k decays. */
  function FrameSpeed(v: real, k: nat): real
  {
    if k == 0 then v else FrameSpeed(v, k - 1) * Decay
  }

  lemma {:induction false} FrameSpeedShift(v: real, k: nat)
    ensures FrameSpeed(v, k + 1) == FrameSpeed(v * Decay, k)
  {
    if k > 0 {
      FrameSpeedShift(v, k - 1);
    }
  }

  /** v*0.92 + v*0.92^2 + ... + v*0.92^n: the increments of n frames. */
  function GeomSum(v: real, n: nat): real
  {
    if n == 0 then 0.0 else GeomSum(v, n - 1) + FrameSpeed(v, n)
  }

  lemma {:induction false} GeomSumShift(v: real, n: nat)
    ensures GeomSum(v, n + 1) == v * Decay + GeomSum(v * Decay, n)
  {
    if n > 0 {
      GeomSumShift(v, n - 1);
      FrameSpeedShift(v, n);
    } else {
      assert FrameSpeed(v, 1) == FrameSpeed(v, 0) * Decay;
    }
  }

  /** The glide applies exactly the decayed speeds v*0.92^k, k = 1..n, where
      n is its number of moving frames. */
  lemma {:induction false} GlideIsGeometric(v: real)
    ensures GlideDisplacement(v) == GeomSum(v, GlideSteps(v))
    decreases GlideMeasure(v)
  {
    if AbsR(v) >= StopSpeed {
      GlideMeasureDrops(v);
      GlideIsGeometric(v * Decay);
      GeomSumShift(v, GlideSteps(v * Decay));
    }
  }

  /** The glide stops at the first frame whose starting speed v*0.92^k is
      below 0.5 ... */
  lemma {:induction false} GlideStopsWhenSlow(v: real)
    ensures AbsR(FrameSpeed(v, GlideSteps(v))) < StopSpeed
    decreases GlideMeasure(v)
  {
    if AbsR(v) >= StopSpeed {
      GlideMeasureDrops(v);
      GlideStopsWhenSlow(v * Decay);
      FrameSpeedShift(v, GlideSteps(v * Decay));
    }
  }

  /** ... and every earlier frame started at 0.5 or faster. */
  lemma {:induction false} GlideFastBeforeStop(v: real, k: nat)
    requires k < GlideSteps(v)
    ensures AbsR(FrameSpeed(v, k)) >= StopSpeed
    decreases k
  {
    if k > 0 {
      GlideMeasureDrops(v);
      GlideFastBeforeStop(v * Decay, k - 1);
      FrameSpeedShift(v, k - 1);
    }
  }

  /** The glide moves in the direction of its launch speed, and by less than
      the whole geometric series |v| * 0.92 / 0.08; a speed under 0.5 does
      nothing. */
  lemma {:induction false} GlideBounded(v: real)
    ensures AbsR(v) < StopSpeed ==> GlideDisplacement(v) == 0.0
    ensures v > 0.0 ==> GlideDisplacement(v) >= 0.0
    ensures v < 0.0 ==> GlideDisplacement(v) <= 0.0
    ensures v >= StopSpeed ==> GlideDisplacement(v) > 0.0
    ensures v <= -StopSpeed ==> GlideDisplacement(v) < 0.0
    ensures v != 0.0 ==> AbsR(GlideDisplacement(v)) < AbsR(v) * Decay / (1.0 - Decay)
    decreases GlideMeasure(v)
  {
    if AbsR(v) >= StopSpeed {
      GlideMeasureDrops(v);
      GlideBounded(v * Decay);
    }
  }

  /** A launch speed of 10 glides for 36 frames. */
  lemma GlideFromTen()
    ensures GlideSteps(10.0) == 36
  {
    // The launch speeds of successive frames, 10 * 0.92^k, from k = 36 down.
    assert GlideSteps(0.49700617480299483035768844272971614082746615940325201053366097916461056) == 0;
    assert GlideSteps(0.540224103046733511258357002967082761768984955873100011449631499091968) == 1;
    assert GlideSteps(0.5872001120073190339764750032250899584445488650794565341843820642304) == 2;
    assert GlideSteps(0.63826099131230329780051630785335865048320528812984405889606746112) == 3;
    assert GlideSteps(0.693761947078590541087517725927563750525223139271569629234855936) == 4;
    assert GlideSteps(0.7540890729115114577038236151386562505708947165995322056900608) == 5;
    assert GlideSteps(0.81966203577338201924328653819419157670749425717340457140224) == 6;
    assert GlideSteps(0.890936995405850020916615802384990844247276366492831055872) == 7;
    assert GlideSteps(0.9684097776150543705615389156358596133122569201009033216) == 8;
    assert GlideSteps(1.05261932349462431582775969090854305794810534793576448) == 9;
    assert GlideSteps(1.144151438581113386769304011857112019508810160799744) == 10;
    assert GlideSteps(1.2436428680229493334448956650620782820747936530432) == 11;
    assert GlideSteps(1.35178572611190144939662572289356335008129744896) == 12;
    assert GlideSteps(1.469332310991197227605027959666916684870975488) == 13;
    assert GlideSteps(1.5971003380339100300054651735509963965988864) == 14;
    assert GlideSteps(1.73597862829772829348420127559890912673792) == 15;
    assert GlideSteps(1.886933291627965536395870951737944702976) == 16;
    assert GlideSteps(2.0510144474217016699955119040629833728) == 17;
    assert GlideSteps(2.22936352980619746738642598267715584) == 18;
    assert GlideSteps(2.423221228050214638463506502909952) == 19;
    assert GlideSteps(2.6339361174458854765907679379456) == 20;
    assert GlideSteps(2.86297404070204943107692167168) == 21;
    assert GlideSteps(3.111928305110923294648827904) == 22;
    assert GlideSteps(3.3825307664249166246182912) == 23;
    assert GlideSteps(3.67666387654882241806336) == 24;
    assert GlideSteps(3.996373778857415671808) == 25;
    assert GlideSteps(4.3438845422363213824) == 26;
    assert GlideSteps(4.72161363286556672) == 27;
    assert GlideSteps(5.132188731375616) == 28;
    assert GlideSteps(5.5784660123648) == 29;
    assert GlideSteps(6.06355001344) == 30;
    assert GlideSteps(6.590815232) == 31;
    assert GlideSteps(7.1639296) == 32;
    assert GlideSteps(7.78688) == 33;
    assert GlideSteps(8.464) == 34;
    assert GlideSteps(9.2) == 35;
    assert GlideSteps(10.0) == 36;
  }

  /** The drag session: whether the button is down, the pointer x and strip
      offset recorded at mousedown, the last per-move scroll delta, and the
      strip's offset. */
  datatype Drag = Drag(isDown: bool, startX: real, anchor: real, velX: real, scrollLeft: real)

  /** mousedown: record the anchors. `velX` is kept, and no glide is
      stopped (the frame id it cancels is never assigned). */
  function AfterMouseDown(s: Drag, x: real): (r: Drag)
    ensures r.isDown && r.startX == x && r.anchor == s.scrollLeft
    ensures r.velX == s.velX && r.scrollLeft == s.scrollLeft
  {
    s.(isDown := true, startX := x, anchor := s.scrollLeft)
  }

  /** mouseleave: end the drag, no glide. */
  function AfterMouseLeave(s: Drag): (r: Drag)
    ensures !r.isDown && r == s.(isDown := false)
  {
    s.(isDown := false)
  }

  /** mouseup: end the drag and glide with the current `velX`, which may be
      left over from an earlier gesture. */
  function AfterMouseUp(s: Drag): (r: Drag)
    ensures !r.isDown && r.velX == s.velX
    ensures r.scrollLeft == s.scrollLeft + GlideDisplacement(s.velX)
    ensures r.startX == s.startX && r.anchor == s.anchor
  {
    s.(isDown := false, scrollLeft := s.scrollLeft + GlideDisplacement(s.velX))
  }

  /** mousemove: ignored unless down; otherwise scroll to the anchor offset
      minus 1.5 times the pointer travel and record the change as `velX`. */
  function AfterMouseMove(s: Drag, x: real): (r: Drag)
    ensures !s.isDown ==> r == s
    ensures s.isDown ==> r.scrollLeft == s.anchor - DragFactor * (x - s.startX)
    ensures s.isDown ==> r.velX == r.scrollLeft - s.scrollLeft
    ensures r.isDown == s.isDown && r.startX == s.startX && r.anchor == s.anchor
  {
    if !s.isDown then s
    else
      var walk := (x - s.startX) * DragFactor;
      var prevScrollLeft := s.scrollLeft;
      var scrollLeft := s.anchor - walk;
      s.(scrollLeft := scrollLeft, velX := scrollLeft - prevScrollLeft)
  }

  /** A run of mousemove events at the given pointer positions. */
  function AfterMoves(s: Drag, xs: seq<real>): Drag
    decreases |xs|
  {
    if xs == [] then s else AfterMoves(AfterMouseMove(s, xs[0]), xs[1..])
  }

  /** Moves while the button is up change nothing. */
  lemma {:induction false} MovesWhileUpChangeNothing(s: Drag, xs: seq<real>)
    requires !s.isDown
    ensures AfterMoves(s, xs) == s
    decreases |xs|
  {
    if xs != [] {
      MovesWhileUpChangeNothing(AfterMouseMove(s, xs[0]), xs[1..]);
    }
  }

  /** During a drag the offset depends only on where the drag started and
      where the pointer is now (not on the path), and `velX` is the last
      move's delta: -1.5 times the last pointer step. */
  lemma {:induction false} DragTracksPointer(s: Drag, xs: seq<real>)
    requires s.isDown && |xs| > 0
    ensures AfterMoves(s, xs).isDown
    ensures AfterMoves(s, xs).scrollLeft == s.anchor - DragFactor * (xs[|xs| - 1] - s.startX)
    ensures |xs| >= 2 ==> AfterMoves(s, xs).velX == -DragFactor * (xs[|xs| - 1] - xs[|xs| - 2])
    ensures AfterMoves(s, xs).anchor == s.anchor && AfterMoves(s, xs).startX == s.startX
    decreases |xs|
  {
    var t := AfterMouseMove(s, xs[0]);
    if |xs| > 1 {
      DragTracksPointer(t, xs[1..]);
      assert xs[1..][|xs| - 2] == xs[|xs| - 1];
      if |xs| >= 3 {
        assert xs[1..][|xs| - 3] == xs[|xs| - 2];
      } else {
        assert AfterMoves(t, xs[1..]) == AfterMouseMove(t, xs[1]);
      }
    }
  }

  /** A click without a move re-launches the previous gesture's glide
      speed. */
  lemma ClickRelaunchesStaleVelocity(s: Drag, x: real)
    ensures AfterMouseUp(AfterMouseDown(s, x)).scrollLeft == s.scrollLeft + GlideDisplacement(s.velX)
  {
  }

  /** The strip and its drag closure. `momentumID` is omitted: it is never
      assigned, so cancelling it on mousedown has no effect. */
  class Slider {
    var isDown: bool
    var startX: real
    /** The closure's `scrollLeft`: the offset at mousedown. */
    var anchor: real
    var velX: real
    /** The element's `scrollLeft`. */
    var scrollLeft: real

    function State(): Drag
      reads this
    {
      Drag(isDown, startX, anchor, velX, scrollLeft)
    }

    /** `initDragScroll`: not down, no velocity; the anchors are undefined
        until the first mousedown and are read only after it. */
    constructor (scrollLeft: real)
      ensures State() == Drag(false, 0.0, 0.0, 0.0, scrollLeft)
    {
      isDown := false;
      startX := 0.0;
      anchor := 0.0;
      velX := 0.0;
      this.scrollLeft := scrollLeft;
    }

    method MouseDown(pageX: real, offsetLeft: real)
      modifies this
      ensures State() == AfterMouseDown(old(State()), pageX - offsetLeft)
    {
      isDown := true;
      startX := pageX - offsetLeft;
      anchor := scrollLeft;
    }

    method MouseLeave()
      modifies this
      ensures State() == AfterMouseLeave(old(State()))
    {
      isDown := false;
    }

    method MouseUp()
      modifies this
      ensures State() == AfterMouseUp(old(State()))
    {
      isDown := false;
      ghost var frames := BeginMomentum(velX);
    }

    method MouseMove(pageX: real, offsetLeft: real)
      modifies this
      ensures State() == AfterMouseMove(old(State()), pageX - offsetLeft)
    {
      if !isDown {
        return;
      }
      var x := pageX - offsetLeft;
      var walk := (x - startX) * DragFactor;
      var prevScrollLeft := scrollLeft;
      scrollLeft := anchor - walk;
      velX := scrollLeft - prevScrollLeft;
    }

    /** `beginMomentum`: the glide's frames, run to completion. */
    method BeginMomentum(velocity: real) returns (ghost frames: nat)
      modifies this`scrollLeft
      ensures scrollLeft == old(scrollLeft) + GlideDisplacement(velocity)
      ensures frames == GlideSteps(velocity)
    {
      var v := velocity;
      frames := 0;
      while AbsR(v) >= StopSpeed
        invariant scrollLeft + GlideDisplacement(v) == old(scrollLeft) + GlideDisplacement(velocity)
        invariant frames + GlideSteps(v) == GlideSteps(velocity)
        decreases GlideMeasure(v)
      {
        GlideMeasureDrops(v);
        v := v * Decay;
        scrollLeft := scrollLeft + v;
        frames := frames + 1;
      }
    }
  }
}
