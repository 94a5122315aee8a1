/** Choice of the virtual viewport handed to the perspective projection.
    The reference aspect is 4:3: a window wider than that keeps a virtual
    width of 8 and derives the height; any other window keeps a virtual
    height of 6 and derives the width. Window sizes are integers; the
    source's `f32` arithmetic is abstracted by exact `real` arithmetic. */
module Projection {

  datatype Viewport = Viewport(width: real, height: real)

  const ReferenceWidth: real := 8.0
  const ReferenceHeight: real := 6.0

  /** The viewport for a window of `w` by `h` pixels. */
  function VirtualViewport(w: int, h: int): (r: Viewport)
    requires w > 0 && h > 0
    // the virtual viewport has the window's aspect ratio ...
    ensures r.width * (h as real) == r.height * (w as real)
    // ... fits inside the 8 x 6 reference area and touches one of its sides
    ensures 0.0 < r.width <= ReferenceWidth && 0.0 < r.height <= ReferenceHeight
    ensures r.width == ReferenceWidth || r.height == ReferenceHeight
    // the wide branch is taken exactly when w/h > 4/3, comparing strictly
    ensures 4 * h < 3 * w ==> r.width == ReferenceWidth && r.height < ReferenceHeight
    ensures 4 * h >= 3 * w ==> r.height == ReferenceHeight
  {
    var ratio := (w as real) / (h as real);
    if 4.0 / 3.0 < ratio then
      WideBranch(w, h, ratio);
      Viewport(ReferenceWidth, ReferenceWidth / ratio)
    else
      NarrowBranch(w, h, ratio);
      Viewport(ReferenceHeight * ratio, ReferenceHeight)
  }

  lemma WideBranch(w: int, h: int, ratio: real)
    requires w > 0 && h > 0 && ratio == (w as real) / (h as real)
    requires 4.0 / 3.0 < ratio
    ensures 4 * h < 3 * w
    ensures (ReferenceWidth / ratio) * (w as real) == ReferenceWidth * (h as real)
    ensures 0.0 < ReferenceWidth / ratio < ReferenceHeight
  {
    var wr, hr := w as real, h as real;
    assert ratio * hr == wr;
    assert 4.0 * hr < 3.0 * wr by {
      assert 4.0 / 3.0 * hr < ratio * hr;
    }
    assert ReferenceWidth / ratio == ReferenceWidth * hr / wr;
  }

  lemma NarrowBranch(w: int, h: int, ratio: real)
    requires w > 0 && h > 0 && ratio == (w as real) / (h as real)
    requires !(4.0 / 3.0 < ratio)
    ensures 4 * h >= 3 * w
    ensures (ReferenceHeight * ratio) * (h as real) == ReferenceHeight * (w as real)
    ensures 0.0 < ReferenceHeight * ratio <= ReferenceWidth
  {
    var wr, hr := w as real, h as real;
    assert ratio * hr == wr;
    assert 3.0 * wr <= 4.0 * hr by {
      assert ratio * hr <= 4.0 / 3.0 * hr;
    }
  }

  /** An exactly 4:3 window sits on the boundary and takes the height-anchored branch. */
  lemma BoundaryWindow()
    ensures VirtualViewport(800, 600) == Viewport(8.0, 6.0)
  {
  }

  /** A 16:9 window is wider than 4:3: width 8, height 8 * 9 / 16. */
  lemma WideWindow()
    ensures VirtualViewport(1280, 720) == Viewport(8.0, 4.5)
  {
  }

  /** Scaling the window uniformly does not change the virtual viewport. */
  lemma ScaleInvariant(w: int, h: int, k: int)
    requires w > 0 && h > 0 && k > 0
    ensures VirtualViewport(k * w, k * h) == VirtualViewport(w, h)
  {
    var wr, hr, kr := w as real, h as real, k as real;
    assert (k * w) as real == kr * wr && (k * h) as real == kr * hr;
    assert (kr * wr) / (kr * hr) == wr / hr;
  }
}
