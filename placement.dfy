/** Where a tutorial pop-up goes on screen: the arithmetic of `showPopup`
    (assets/js/tutorial.js:144-211). The DOM measurements are parameters: the viewport size
    `w` × `h` (`window.innerWidth`/`innerHeight`), the target element's box, the pop-up's
    size `pw` × `ph` (`offsetWidth`/`offsetHeight`) and its CSS margin, which `parseInt`
    turns into a whole number of pixels. */
module Placement {
  import opened World

  /** The target element: `getBoundingClientRect().left/top` and `offsetWidth/offsetHeight`. */
  datatype Box = Box(left: real, top: real, width: real, height: real)

  /** The pop-up's `style.left` and `style.top`. */
  datatype Point = Point(left: real, top: real)

  /** `Math.min(Math.max(x, 0), hi)`. */
  function Clamp(x: real, hi: real): (r: real)
    ensures r <= hi
    ensures hi >= 0.0 ==> r >= 0.0
    ensures 0.0 <= x <= hi ==> r == x
    ensures x < 0.0 && hi >= 0.0 ==> r == 0.0
    ensures x > hi ==> r == hi
  {
    var atLeastZero := if x > 0.0 then x else 0.0;
    if atLeastZero < hi then atLeastZero else hi
  }

  /** One axis of the anchored placement: first try just past the target (`start + extent`);
      if the pop-up plus one margin would then run past `limit`, go before the target,
      two margins and the pop-up's size back from `start`. */
  function Beside(start: real, extent: real, size: real, margin: real, limit: real): real
  {
    var after := start + extent;
    if after + margin + size > limit then start - margin * 2.0 - size else after
  }

  /** The anchored placement before the clamp: beside the target when the viewport is at
      least as wide as it is high, below it otherwise. */
  function Anchored(w: real, h: real, target: Box, pw: real, ph: real, margin: real): Point
  {
    if w >= h then Point(Beside(target.left, target.width, pw, margin, w), target.top)
    else Point(target.left, Beside(target.top, target.height, ph, margin, h))
  }

  /** The final position: centred without a target, otherwise anchored and then clamped to
      the viewport. */
  function Place(w: real, h: real, target: Option<Box>, pw: real, ph: real, margin: int): Point
  {
    match target
    case None => Point(w / 2.0 - pw / 2.0, h / 2.0 - ph / 2.0)
    case Some(t) =>
      var m := margin as real;
      var p := Anchored(w, h, t, pw, ph, m);
      Point(Clamp(p.left, w - pw - m * 2.0), Clamp(p.top, h - ph - m * 2.0))
  }

  /** `showPopup`'s placement, step by step on the locals `left` and `top`. */
  method PopupPosition(w: real, h: real, target: Option<Box>, pw: real, ph: real, margin: int)
    returns (left: real, top: real)
    ensures Point(left, top) == Place(w, h, target, pw, ph, margin)
  {
    if target.Some? {
      var t := target.value;
      var m := margin as real;
      var isPortrait := w >= h;
      left := t.left;
      top := t.top;
      if isPortrait {
        left := left + t.width;
        if left + m + pw > w {
          left := t.left - m * 2.0 - pw;
        }
      } else {
        top := top + t.height;
        if top + m + ph > h {
          top := t.top - m * 2.0 - ph;
        }
      }
      left := if left > 0.0 then left else 0.0;
      left := if left < w - pw - m * 2.0 then left else w - pw - m * 2.0;
      top := if top > 0.0 then top else 0.0;
      top := if top < h - ph - m * 2.0 then top else h - ph - m * 2.0;
    } else {
      left := w / 2.0 - pw / 2.0;
      top := h / 2.0 - ph / 2.0;
    }
  }

  // ---------------------------------------------------------------------------------------
  // Properties

  /** One axis of the anchored placement: it takes the first position that fits and the
      fallback otherwise. */
  lemma BesideChoice(start: real, extent: real, size: real, margin: real, limit: real)
    ensures start + extent + margin + size <= limit ==> Beside(start, extent, size, margin, limit) == start + extent
    ensures start + extent + margin + size > limit ==> Beside(start, extent, size, margin, limit) == start - 2.0 * margin - size
  {
  }

  /** With a non-negative margin the pop-up's box (which starts one margin past its
      position) does not overlap the target on the axis it was moved along. */
  lemma BesideClear(start: real, extent: real, size: real, margin: real, limit: real)
    requires margin >= 0.0
    ensures var x := Beside(start, extent, size, margin, limit);
      x + margin >= start + extent || x + margin + size <= start
  {
  }

  /** Without a target the pop-up's centre is the viewport's centre, with no clamp. */
  lemma CentredWithoutTarget(w: real, h: real, pw: real, ph: real, margin: int)
    ensures var p := Place(w, h, None, pw, ph, margin);
      p.left + pw / 2.0 == w / 2.0 && p.top + ph / 2.0 == h / 2.0
  {
  }

  /** Anchored placement moves along one axis only: the other axis starts at the target's
      own coordinate. */
  lemma AnchoredKeepsOtherAxis(w: real, h: real, t: Box, pw: real, ph: real, margin: real)
    ensures w >= h ==> Anchored(w, h, t, pw, ph, margin).top == t.top
    ensures w < h ==> Anchored(w, h, t, pw, ph, margin).left == t.left
  {
  }

  /** After the clamp the pop-up never starts past the viewport minus its size and two
      margins, and never starts left of or above the viewport when it fits. */
  lemma ClampedIntoViewport(w: real, h: real, t: Box, pw: real, ph: real, margin: int)
    ensures var p := Place(w, h, Some(t), pw, ph, margin);
      && p.left <= w - pw - 2.0 * margin as real
      && p.top <= h - ph - 2.0 * margin as real
      && (w >= pw + 2.0 * margin as real ==> p.left >= 0.0)
      && (h >= ph + 2.0 * margin as real ==> p.top >= 0.0)
  {
  }

  /** When the clamp does not move it, an anchored pop-up is clear of its target. */
  lemma PlacedClearOfTarget(w: real, h: real, t: Box, pw: real, ph: real, margin: int)
    requires margin >= 0
    ensures var a := Anchored(w, h, t, pw, ph, margin as real);
            var p := Place(w, h, Some(t), pw, ph, margin);
      && (w >= h && p.left == a.left ==>
            p.left + margin as real >= t.left + t.width || p.left + margin as real + pw <= t.left)
      && (w < h && p.top == a.top ==>
            p.top + margin as real >= t.top + t.height || p.top + margin as real + ph <= t.top)
  {
    BesideClear(t.left, t.width, pw, margin as real, w);
    BesideClear(t.top, t.height, ph, margin as real, h);
  }

  /** A 1000 × 800 viewport and a 300 × 200 pop-up without a target: (350, 300). */
  lemma CentredExample()
    ensures Place(1000.0, 800.0, None, 300.0, 200.0, 10) == Point(350.0, 300.0)
  {
  }

  /** The same viewport, a target at (900, 50) 50 pixels wide and a 10-pixel margin: the
      pop-up does not fit to the right (950 + 10 + 300 > 1000), so it goes to the left at
      900 − 20 − 300 = 580; the top stays 50. */
  lemma AnchoredExample()
    ensures Place(1000.0, 800.0, Some(Box(900.0, 50.0, 50.0, 30.0)), 300.0, 200.0, 10) == Point(580.0, 50.0)
  {
  }
}
