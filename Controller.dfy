// The page's state and its event handlers: the control points collected from
// mouse clicks, the curve computed when the third one arrives, and the
// animation scale alpha with its stepping factor.
module Controller {
  import opened Vectors
  import opened CurveSampler
  import opened Animation
  import opened ClickCoordinates

  /** What one call of render hands to the renderer: nothing after clearing the screen, or one line strip. */
  datatype Frame = Blank | Strip(points: seq<real>)

  class Demo {
    var controlPoints: seq<Vec2>
    var curve: seq<real>
    var alpha: real
    var steppingFactor: real

    /** At most three control points, and with three the stored curve is theirs. */
    ghost predicate Valid()
      reads this
    {
      |controlPoints| <= 3
      && (|controlPoints| == 3 ==> curve == Curve(controlPoints[0], controlPoints[1], controlPoints[2]))
    }

    function State(): Anim
      reads this
    {
      Anim(alpha, steppingFactor)
    }

    /** Page load: no control points, no curve, alpha 1 and step -0.01, then one render that draws nothing. */
    constructor ()
      ensures Valid()
      ensures controlPoints == [] && curve == [] && State() == START
    {
      controlPoints := [];
      curve := [];
      alpha := INITIAL_ALPHA;
      steppingFactor := INITIAL_STEP;
    }

    /**
     * One frame. With three control points the curve is drawn with the middle
     * point scaled by the current alpha, then alpha and the step advance. The
     * control points and the stored curve are left as they are.
     */
    method Render() returns (frame: Frame)
      requires Valid()
      modifies this
      ensures Valid()
      ensures controlPoints == old(controlPoints) && curve == old(curve)
      ensures |controlPoints| == 3 ==>
        frame == Strip(Curve(controlPoints[0], Scale(old(alpha), controlPoints[1]), controlPoints[2]))
        && State() == Advance(old(State()))
      ensures |controlPoints| != 3 ==> frame == Blank && State() == old(State())
    {
      if |controlPoints| == 3 {
        var points := PointsOnTheCurve(controlPoints[0], Scale(alpha, controlPoints[1]), controlPoints[2]);
        frame := Strip(points);
        alpha := alpha + steppingFactor;
        if alpha <= -1.0 {
          steppingFactor := steppingFactor * -1.0;
        } else if alpha >= 1.0 {
          steppingFactor := steppingFactor * -1.0;
        }
      } else {
        frame := Blank;
      }
    }

    /**
     * A click at p (already in device coordinates). It is recorded only while
     * fewer than three points are held; whenever three are held afterwards the
     * curve is recomputed from them in click order and one frame is rendered.
     */
    method OnMouseDown(p: Vec2)
      requires Valid()
      modifies this
      ensures Valid()
      ensures controlPoints == if |old(controlPoints)| < 3 then old(controlPoints) + [p] else old(controlPoints)
      ensures |controlPoints| == 3 ==>
        curve == Curve(controlPoints[0], controlPoints[1], controlPoints[2])
        && State() == Advance(old(State()))
      ensures |controlPoints| < 3 ==> curve == old(curve) && State() == old(State())
    {
      if |controlPoints| < 3 {
        controlPoints := controlPoints + [p];
      }
      if |controlPoints| == 3 {
        curve := PointsOnTheCurve(controlPoints[0], controlPoints[1], controlPoints[2]);
        var _ := Render();
      }
    }

    /** The plus button: the step grows by a quarter, keeping its sign. */
    method OnPlus()
      requires Valid()
      modifies this`steppingFactor
      ensures Valid()
      ensures steppingFactor == old(steppingFactor) * SPEED_UP
      ensures (steppingFactor < 0.0 <==> old(steppingFactor) < 0.0) && (steppingFactor > 0.0 <==> old(steppingFactor) > 0.0)
    {
      steppingFactor := steppingFactor * 1.25;
    }

    /** The minus button: the step is halved, keeping its sign. */
    method OnMinus()
      requires Valid()
      modifies this`steppingFactor
      ensures Valid()
      ensures steppingFactor == old(steppingFactor) * SLOW_DOWN
      ensures (steppingFactor < 0.0 <==> old(steppingFactor) < 0.0) && (steppingFactor > 0.0 <==> old(steppingFactor) > 0.0)
    {
      steppingFactor := steppingFactor * 0.50;
    }

    /**
     * The clear button: the control points are emptied and the step goes back
     * to -0.01. Alpha keeps its value and the stored curve is not touched (the
     * handler empties a differently named variable). The render that follows
     * has no control points, so it changes nothing.
     */
    method OnClear()
      requires Valid()
      modifies this
      ensures Valid()
      ensures controlPoints == [] && steppingFactor == INITIAL_STEP
      ensures alpha == old(alpha) && curve == old(curve)
    {
      controlPoints := [];
      steppingFactor := -0.01;
      var _ := Render();
    }
  }

  /**
   * Three clicks, each within width x height pixels of the canvas
   * rectangle's top-left corner, on a canvas of positive size give a curve
   * that stays on the canvas: every coordinate the sampler returns is in
   * [-1, 1].
   */
  lemma ClickedCurveOnCanvas(clicks: seq<(real, real)>, left: real, top: real, width: nat, height: nat)
    requires |clicks| == 3 && width > 0 && height > 0
    requires forall i :: 0 <= i < 3 ==>
      left <= clicks[i].0 <= left + width as real && top <= clicks[i].1 <= top + height as real
    ensures forall i :: 0 <= i < 3 ==> ToNdc(clicks[i].0, clicks[i].1, left, top, width, height).Some?
    ensures var ps := seq(3, i requires 0 <= i < 3 => ToNdc(clicks[i].0, clicks[i].1, left, top, width, height).value);
            forall j :: 0 <= j < |Curve(ps[0], ps[1], ps[2])| ==> -1.0 <= Curve(ps[0], ps[1], ps[2])[j] <= 1.0
  {
    forall i | 0 <= i < 3
      ensures ToNdc(clicks[i].0, clicks[i].1, left, top, width, height).Some?
      ensures InBox(ToNdc(clicks[i].0, clicks[i].1, left, top, width, height).value, -1.0, 1.0, -1.0, 1.0)
    {
      ClickOnCanvas(clicks[i].0, clicks[i].1, left, top, width, height);
    }
    var ps := seq(3, i requires 0 <= i < 3 => ToNdc(clicks[i].0, clicks[i].1, left, top, width, height).value);
    CurveInBox(ps[0], ps[1], ps[2], -1.0, 1.0, -1.0, 1.0);
  }
}
