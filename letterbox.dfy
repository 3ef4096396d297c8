/**
 * The iOS tap transform of the server (src/server.js, the AppleScript behind
 * POST /api/tap): the device screen is letterboxed into the Simulator window
 * below a 28-point title bar, and a device point is mapped to an absolute
 * screen position. AppleScript numbers are reals here; the final `round` the
 * script applies before clicking is not part of this model.
 */
module Letterbox {
  import opened Js

  const TitleBar: real := 28.0

  /** The Simulator's front window: its position and size on screen. */
  datatype Window = Window(x: real, y: real, w: real, h: real)

  /** How the device screen sits in the window's content area. */
  datatype Fit = Fit(scale: real, offX: real, offY: real)

  function ContentW(win: Window): real { win.w }

  function ContentH(win: Window): real { win.h - TitleBar }

  /** scale = the smaller axis ratio; the scaled screen is centered in the content area. */
  function Letterbox(win: Window, devW: real, devH: real): (fit: Fit)
    requires devW > 0.0 && devH > 0.0
    ensures fit.scale <= ContentW(win) / devW && fit.scale <= ContentH(win) / devH
    ensures fit.scale == ContentW(win) / devW || fit.scale == ContentH(win) / devH
  {
    var scaleX := ContentW(win) / devW;
    var scaleY := ContentH(win) / devH;
    var scale := if scaleX < scaleY then scaleX else scaleY;
    Fit(scale, (ContentW(win) - devW * scale) / 2.0, (ContentH(win) - devH * scale) / 2.0)
  }

  /** The scaled screen fits the content area and is centered in it. */
  lemma LetterboxFits(win: Window, devW: real, devH: real)
    requires devW > 0.0 && devH > 0.0
    ensures devW * Letterbox(win, devW, devH).scale <= ContentW(win)
    ensures devH * Letterbox(win, devW, devH).scale <= ContentH(win)
    ensures Letterbox(win, devW, devH).offX >= 0.0 && Letterbox(win, devW, devH).offY >= 0.0
    ensures 2.0 * Letterbox(win, devW, devH).offX + devW * Letterbox(win, devW, devH).scale == ContentW(win)
    ensures 2.0 * Letterbox(win, devW, devH).offY + devH * Letterbox(win, devW, devH).scale == ContentH(win)
  {
    var fit := Letterbox(win, devW, devH);
    DivMul(ContentW(win), devW);
    DivMul(ContentH(win), devH);
    MulLe(devW, fit.scale, ContentW(win) / devW);
    MulLe(devH, fit.scale, ContentH(win) / devH);
    assert 2.0 * fit.offX == ContentW(win) - devW * fit.scale;
    assert 2.0 * fit.offY == ContentH(win) - devH * fit.scale;
  }

  lemma DivMul(a: real, d: real)
    requires d > 0.0
    ensures d * (a / d) == a
  {
  }

  /** The scaled screen touches the content area's edges on at least one axis. */
  lemma LetterboxTouches(win: Window, devW: real, devH: real)
    requires devW > 0.0 && devH > 0.0
    ensures Letterbox(win, devW, devH).offX == 0.0 || Letterbox(win, devW, devH).offY == 0.0
  {
    var fit := Letterbox(win, devW, devH);
    var scaleX := ContentW(win) / devW;
    var scaleY := ContentH(win) / devH;
    if fit.scale == scaleX {
      DivMul(ContentW(win), devW);
    } else {
      assert fit.scale == scaleY;
      DivMul(ContentH(win), devH);
    }
  }

  lemma MulLe(d: real, a: real, b: real)
    requires d > 0.0 && a <= b
    ensures d * a <= d * b
  {
  }

  /** A window whose content has the device's aspect ratio is filled exactly: no offsets. */
  lemma LetterboxSameAspect(win: Window, devW: real, devH: real, k: real)
    requires devW > 0.0 && devH > 0.0
    requires ContentW(win) == k * devW && ContentH(win) == k * devH
    ensures Letterbox(win, devW, devH) == Fit(k, 0.0, 0.0)
  {
    assert ContentW(win) / devW == k;
    assert ContentH(win) / devH == k;
  }

  /** The absolute screen position the script clicks for device point (x, y), before AppleScript rounds it. */
  function ClickPoint(win: Window, devW: real, devH: real, x: real, y: real): (p: (real, real))
    requires devW > 0.0 && devH > 0.0
  {
    var fit := Letterbox(win, devW, devH);
    (win.x + fit.offX + Round(x) as real * fit.scale,
     win.y + TitleBar + fit.offY + Round(y) as real * fit.scale)
  }

  /** The device origin lands on the top-left corner of the scaled screen in the content area. */
  lemma OriginMapsToContentOrigin(win: Window, devW: real, devH: real)
    requires devW > 0.0 && devH > 0.0
    ensures var fit := Letterbox(win, devW, devH);
      ClickPoint(win, devW, devH, 0.0, 0.0) == (win.x + fit.offX, win.y + TitleBar + fit.offY)
  {
    RoundOfInt(0);
    assert Round(0.0) == 0;
    var fit := Letterbox(win, devW, devH);
    assert 0.0 * fit.scale == 0.0;
    var p := ClickPoint(win, devW, devH, 0.0, 0.0);
    assert p.0 == win.x + fit.offX;
    assert p.1 == win.y + TitleBar + fit.offY;
  }

  /** Moving the device point moves the click by the rounded distance times the scale, on each axis separately. */
  lemma ClickIsAffine(win: Window, devW: real, devH: real, x1: real, y1: real, x2: real, y2: real)
    requires devW > 0.0 && devH > 0.0
    ensures var fit := Letterbox(win, devW, devH);
      var p1 := ClickPoint(win, devW, devH, x1, y1);
      var p2 := ClickPoint(win, devW, devH, x2, y2);
      p2.0 - p1.0 == (Round(x2) - Round(x1)) as real * fit.scale
      && p2.1 - p1.1 == (Round(y2) - Round(y1)) as real * fit.scale
  {
  }

  /** With a non-empty content area, the click does not decrease as the device point moves right or down. */
  lemma {:induction false} ClickIsMonotone(win: Window, devW: real, devH: real, x1: real, y1: real, x2: real, y2: real)
    requires devW > 0.0 && devH > 0.0
    requires win.w >= 0.0 && win.h >= TitleBar
    requires x1 <= x2 && y1 <= y2
    ensures ClickPoint(win, devW, devH, x1, y1).0 <= ClickPoint(win, devW, devH, x2, y2).0
    ensures ClickPoint(win, devW, devH, x1, y1).1 <= ClickPoint(win, devW, devH, x2, y2).1
  {
    var fit := Letterbox(win, devW, devH);
    ScaleNonNegative(win, devW, devH);
    RoundMonotone(x1, x2);
    RoundMonotone(y1, y2);
    ClickIsAffine(win, devW, devH, x1, y1, x2, y2);
    MulNonNeg((Round(x2) - Round(x1)) as real, fit.scale);
    MulNonNeg((Round(y2) - Round(y1)) as real, fit.scale);
  }

  lemma MulNonNeg(a: real, b: real)
    requires a >= 0.0 && b >= 0.0
    ensures a * b >= 0.0
  {
  }

  lemma ScaleNonNegative(win: Window, devW: real, devH: real)
    requires devW > 0.0 && devH > 0.0
    requires win.w >= 0.0 && win.h >= TitleBar
    ensures Letterbox(win, devW, devH).scale >= 0.0
  {
    assert ContentW(win) / devW >= 0.0;
    assert ContentH(win) / devH >= 0.0;
  }

  /** Every whole device point of the screen is clicked inside the window, below the title bar. */
  lemma {:induction false} ClickInsideWindow(win: Window, devW: real, devH: real, x: real, y: real)
    requires devW > 0.0 && devH > 0.0
    requires win.w >= 0.0 && win.h >= TitleBar
    requires 0.0 <= Round(x) as real <= devW && 0.0 <= Round(y) as real <= devH
    ensures var p := ClickPoint(win, devW, devH, x, y);
      win.x <= p.0 <= win.x + win.w && win.y + TitleBar <= p.1 <= win.y + win.h
  {
    var fit := Letterbox(win, devW, devH);
    LetterboxFits(win, devW, devH);
    ScaleNonNegative(win, devW, devH);
    var rx, ry := Round(x) as real, Round(y) as real;
    MulNonNeg(rx, fit.scale);
    MulNonNeg(ry, fit.scale);
    MulNonNeg(devW - rx, fit.scale);
    MulNonNeg(devH - ry, fit.scale);
    assert rx * fit.scale <= devW * fit.scale;
    assert ry * fit.scale <= devH * fit.scale;
  }
}
