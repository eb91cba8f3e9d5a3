// The animation of the demo's middle control point. Each rendered frame with
// a complete set of control points adds the stepping factor to the scale
// alpha and reverses the stepping factor when alpha has reached -1 or 1.
module Animation {

  /** Alpha and the stepping factor, the two numbers a frame updates. */
  datatype Anim = Anim(alpha: real, step: real)

  const INITIAL_ALPHA: real := 1.0
  const INITIAL_STEP: real := -0.01
  const SPEED_UP: real := 1.25
  const SLOW_DOWN: real := 0.5

  /** The state the page starts in, which is also the stepping factor the clear button restores. */
  const START: Anim := Anim(INITIAL_ALPHA, INITIAL_STEP)

  /** One frame: advance alpha, then reverse the step if alpha is at or past -1, else if at or past 1. */
  function Advance(a: Anim): (r: Anim)
    ensures r.alpha == a.alpha + a.step
    ensures r.step == a.step || r.step == -a.step
    ensures a.step != 0.0 ==> (r.step == -a.step <==> r.alpha <= -1.0 || r.alpha >= 1.0)
  {
    var alpha := a.alpha + a.step;
    if alpha <= -1.0 then Anim(alpha, a.step * -1.0)
    else if alpha >= 1.0 then Anim(alpha, a.step * -1.0)
    else Anim(alpha, a.step)
  }

  /** n frames in a row. */
  function Frames(a: Anim, n: nat): Anim {
    if n == 0 then a else Advance(Frames(a, n - 1))
  }

  /**
   * The bounce invariant: alpha stays within one step of [-1, 1], and a
   * stepping factor pointing further out is only ever seen while alpha is
   * strictly inside.
   */
  predicate Bouncing(a: Anim) {
    var size := if a.step < 0.0 then -a.step else a.step;
    -1.0 - size < a.alpha < 1.0 + size
    && (a.alpha <= -1.0 ==> a.step > 0.0)
    && (a.alpha >= 1.0 ==> a.step < 0.0)
  }

  /** The page starts bouncing. */
  lemma StartIsBouncing()
    ensures Bouncing(START)
  {
  }

  /** A frame keeps the bounce invariant, so alpha never drifts more than one step outside [-1, 1]. */
  lemma AdvanceKeepsBouncing(a: Anim)
    requires Bouncing(a)
    ensures Bouncing(Advance(a))
  {
  }

  /** Any number of frames keeps the bounce invariant. */
  lemma {:induction false} FramesKeepBouncing(a: Anim, n: nat)
    requires Bouncing(a)
    ensures Bouncing(Frames(a, n))
  {
    if n > 0 {
      FramesKeepBouncing(a, n - 1);
      AdvanceKeepsBouncing(Frames(a, n - 1));
    }
  }

  /** The plus button (factor 1.25) keeps the bounce invariant: a larger step only widens the band. */
  lemma SpeedUpKeepsBouncing(a: Anim)
    requires Bouncing(a)
    ensures Bouncing(Anim(a.alpha, a.step * SPEED_UP))
  {
  }

  /** The minus button (factor 0.5) does not: right after a bounce past -1 a halved step leaves alpha outside the band. */
  lemma SlowDownCanBreakBouncing()
    ensures Bouncing(Anim(-1.5, 0.75))
    ensures !Bouncing(Anim(-1.5, 0.75 * SLOW_DOWN))
  {
  }

  // ---------------------------------------------------------------------
  // What clear does to a running animation

  /** From the start, alpha falls by 0.01 per frame for the first 199 frames without a reversal. */
  lemma {:induction false} FirstDescent(k: nat)
    requires k < 200
    ensures Frames(START, k) == Anim(1.0 - k as real * 0.01, -0.01)
  {
    if k > 0 {
      FirstDescent(k - 1);
    }
  }

  /** Frame 200 brings alpha to exactly -1 and reverses the step to +0.01. */
  lemma FirstBounce()
    ensures Frames(START, 200) == Anim(-1.0, 0.01)
  {
    FirstDescent(199);
  }

  /**
   * Once alpha is at or below -1 with a step that is not positive, the frames
   * alternate between two states forever and alpha never comes back above -1.
   */
  lemma {:induction false} StuckBelow(a: Anim, n: nat)
    requires a.alpha <= -1.0 && a.step <= 0.0
    ensures Frames(a, n) == if n % 2 == 0 then a else Advance(a)
    ensures Frames(a, n).alpha <= -1.0
  {
    if n > 0 {
      StuckBelow(a, n - 1);
    }
  }

  /**
   * The clear button resets the step to -0.01 but keeps alpha. Pressed on the
   * frame after the first bounce (alpha -1, step +0.01), it leaves the
   * animation oscillating between alpha -1 and -1.01 for every later frame.
   */
  lemma ClearAfterBounceSticks(n: nat)
    ensures var cleared := Anim(Frames(START, 200).alpha, INITIAL_STEP);
            !Bouncing(cleared) && Frames(cleared, n).alpha <= -1.0
  {
    FirstBounce();
    StuckBelow(Anim(-1.0, INITIAL_STEP), n);
  }
}
