// Conversion of a mouse click from window pixels to normalized device
// coordinates: the canvas's horizontal extent maps to [-1, 1] from left to
// right and its vertical extent to [1, -1] from top to bottom.
//
// The canvas rectangle's left and top edges and the canvas's width and
// height, which the original reads from the browser, are parameters here.
module ClickCoordinates {
  import opened Vectors

  datatype Option<T> = None | Some(value: T)

  /**
   * The click at (clientX, clientY) in normalized device coordinates. A canvas
   * of width or height 0 makes the original divide by zero, which yields
   * non-finite numbers; that case is None here.
   */
  function ToNdc(clientX: real, clientY: real, left: real, top: real, width: nat, height: nat): (r: Option<Vec2>)
    ensures r.Some? <==> width > 0 && height > 0
  {
    if width == 0 || height == 0 then None
    else
      var halfWidth := Half(width);
      var halfHeight := Half(height);
      Some(Vec2(((clientX - left) - halfWidth) / halfWidth, (halfHeight - (clientY - top)) / halfHeight))
  }

  /** The window pixel that a point in normalized device coordinates stands for. */
  function FromNdc(p: Vec2, left: real, top: real, width: nat, height: nat): (r: (real, real))
    ensures p == Vec2(0.0, 0.0) ==> r == (left + Half(width), top + Half(height))
  {
    (left + Half(width) + p.x * Half(width), top + Half(height) - p.y * Half(height))
  }

  /** Half of a canvas extent, the distance from an edge to the centre. */
  function Half(extent: nat): (r: real)
    ensures extent > 0 ==> r > 0.0
  {
    extent as real / 2.0
  }

  /** Converting a click and mapping it back gives the click. */
  lemma NdcRoundTrip(clientX: real, clientY: real, left: real, top: real, width: nat, height: nat)
    requires width > 0 && height > 0
    ensures ToNdc(clientX, clientY, left, top, width, height).Some?
    ensures FromNdc(ToNdc(clientX, clientY, left, top, width, height).value, left, top, width, height)
            == (clientX, clientY)
  {
    var halfWidth := Half(width);
    var halfHeight := Half(height);
    var p := ToNdc(clientX, clientY, left, top, width, height).value;
    assert p.x == ((clientX - left) - halfWidth) / halfWidth;
    assert p.y == (halfHeight - (clientY - top)) / halfHeight;
    DivCancel((clientX - left) - halfWidth, halfWidth);
    DivCancel(halfHeight - (clientY - top), halfHeight);
    var r := FromNdc(p, left, top, width, height);
    assert r.0 == clientX && r.1 == clientY;
  }

  /** Mapping a device point to a pixel and converting it back gives the point. */
  lemma PixelRoundTrip(p: Vec2, left: real, top: real, width: nat, height: nat)
    requires width > 0 && height > 0
    ensures ToNdc(FromNdc(p, left, top, width, height).0, FromNdc(p, left, top, width, height).1,
                  left, top, width, height) == Some(p)
  {
    var halfWidth := Half(width);
    var halfHeight := Half(height);
    var px := left + halfWidth + p.x * halfWidth;
    var py := top + halfHeight - p.y * halfHeight;
    assert (px - left) - halfWidth == p.x * halfWidth;
    assert halfHeight - (py - top) == p.y * halfHeight;
    var r := FromNdc(p, left, top, width, height);
    assert r.0 == px && r.1 == py;
    MulDivCancel(p.x, halfWidth);
    MulDivCancel(p.y, halfHeight);
    var q := ToNdc(px, py, left, top, width, height);
    assert q.value.x == ((px - left) - halfWidth) / halfWidth == p.x;
    assert q.value.y == (halfHeight - (py - top)) / halfHeight == p.y;
  }

  /**
   * A click within width x height pixels of the rectangle's top-left corner
   * lands in the square [-1, 1] x [-1, 1], and the corners of that pixel area
   * land on its corners. This is the whole canvas when it is shown at its
   * buffer size with no border or padding.
   */
  lemma ClickOnCanvas(clientX: real, clientY: real, left: real, top: real, width: nat, height: nat)
    requires width > 0 && height > 0
    requires left <= clientX <= left + width as real && top <= clientY <= top + height as real
    ensures ToNdc(clientX, clientY, left, top, width, height).Some?
    ensures var p := ToNdc(clientX, clientY, left, top, width, height).value;
            -1.0 <= p.x <= 1.0 && -1.0 <= p.y <= 1.0
    ensures ToNdc(left, top, left, top, width, height) == Some(Vec2(-1.0, 1.0))
    ensures ToNdc(left + width as real, top + height as real, left, top, width, height) == Some(Vec2(1.0, -1.0))
  {
    var halfWidth := Half(width);
    var halfHeight := Half(height);
    QuotientInUnit((clientX - left) - halfWidth, halfWidth);
    QuotientInUnit(halfHeight - (clientY - top), halfHeight);
    MulDivCancel(-1.0, halfWidth);
    MulDivCancel(1.0, halfWidth);
    MulDivCancel(-1.0, halfHeight);
    MulDivCancel(1.0, halfHeight);
  }

  // ---------------------------------------------------------------------
  // Division facts used above

  lemma DivCancel(n: real, d: real)
    requires d != 0.0
    ensures (n / d) * d == n
  {
  }

  lemma MulDivCancel(x: real, d: real)
    requires d != 0.0
    ensures (x * d) / d == x
  {
  }

  lemma QuotientInUnit(n: real, d: real)
    requires d > 0.0 && -d <= n <= d
    ensures -1.0 <= n / d <= 1.0
  {
  }
}
