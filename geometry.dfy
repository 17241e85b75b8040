/**
  Core Graphics values used by every layout engine: CGSize, CGRect and
  UIEdgeInsets with exact reals in place of CGFloat, the two height modes,
  and the container-width cascade shared by both BRFlexTagView variants.
 */
module Geometry {

  datatype Size = Size(width: real, height: real)

  datatype Rect = Rect(x: real, y: real, width: real, height: real) {
    /** CGRect.maxY */
    function MaxY(): real { y + height }
    /** CGRect.maxX */
    function MaxX(): real { x + width }
    /** CGRect.midY, the key the collection layout groups rows by. */
    function MidY(): real { y + height / 2.0 }
  }

  /** CGRect.zero, the frame of a freshly created tag view. */
  const ZeroRect := Rect(0.0, 0.0, 0.0, 0.0)

  datatype Insets = Insets(top: real, left: real, bottom: real, right: real)

  /** `.adaptive` follows the content; `.fixed(h)` keeps the container at h. */
  datatype HeightMode = Adaptive | Fixed(height: real)

  function Max(a: real, b: real): (r: real)
    ensures r >= a && r >= b && (r == a || r == b)
  {
    if a >= b then a else b
  }

  function Min(a: real, b: real): (r: real)
    ensures r <= a && r <= b && (r == a || r == b)
  {
    if a <= b then a else b
  }

  /** Foundation's `ceil`: the least integer not below x. */
  function Ceil(x: real): (r: int)
    ensures x <= r as real < x + 1.0
  {
    -((-x).Floor)
  }

  /** The smallest container width a layout pass accepts. */
  const MinimumViewWidth: real := 100.0

  /** The first strictly positive candidate, or `fallback` when there is none. */
  function FirstPositive(candidates: seq<real>, fallback: real): (r: real)
    ensures r == fallback || (r in candidates && r > 0.0)
    ensures (forall k :: 0 <= k < |candidates| ==> candidates[k] <= 0.0) ==> r == fallback
    ensures forall k :: 0 <= k < |candidates| && candidates[k] > 0.0 && (forall j :: 0 <= j < k ==> candidates[j] <= 0.0)
                        ==> r == candidates[k]
  {
    if candidates == [] then fallback
    else if candidates[0] > 0.0 then candidates[0]
    else FirstPositive(candidates[1..], fallback)
  }

  /**
    The width cascade of a layout pass: the scroll view's width, else the
    content view's, else the tag view's own bounds, else a fallback derived
    from the screen; the result is then raised to at least 100 points.
   */
  function ResolveViewWidth(scrollWidth: real, containerWidth: real, boundsWidth: real, fallback: real): (r: real)
    ensures r >= MinimumViewWidth
    ensures r == Max(FirstPositive([scrollWidth, containerWidth, boundsWidth], fallback), MinimumViewWidth)
  {
    var w0 := scrollWidth;
    var w1 := if w0 <= 0.0 then containerWidth else w0;
    var w2 := if w1 <= 0.0 then boundsWidth else w1;
    var w3 := if w2 <= 0.0 then fallback else w2;
    assert [scrollWidth, containerWidth, boundsWidth][1..] == [containerWidth, boundsWidth];
    assert [containerWidth, boundsWidth][1..] == [boundsWidth];
    assert [boundsWidth][1..] == [];
    assert FirstPositive([boundsWidth], fallback) == if boundsWidth > 0.0 then boundsWidth else fallback;
    assert FirstPositive([containerWidth, boundsWidth], fallback) == if containerWidth > 0.0 then containerWidth else FirstPositive([boundsWidth], fallback);
    Max(w3, MinimumViewWidth)
  }

  /** The fallback of `performTagLayout`: the screen width minus the horizontal insets. */
  function LayoutFallbackWidth(screenWidth: real, insets: Insets): real {
    screenWidth - insets.left - insets.right
  }

  /** The fallback of `intrinsicContentSize`: the screen width minus a fixed 32 points. */
  function IntrinsicFallbackWidth(screenWidth: real): real {
    screenWidth - 32.0
  }

  /** The widths a layout pass reads: scroll view, content view, own bounds, and the screen. */
  datatype ViewWidths = ViewWidths(scroll: real, container: real, bounds: real, screen: real)

  /**
    The two fallbacks agree when one of the measured widths is positive or the
    horizontal insets add up to 32 points; they can differ only when neither holds.
   */
  lemma FallbacksAgree(w: ViewWidths, insets: Insets)
    requires w.scroll > 0.0 || w.container > 0.0 || w.bounds > 0.0 || insets.left + insets.right == 32.0
    ensures ResolveViewWidth(w.scroll, w.container, w.bounds, LayoutFallbackWidth(w.screen, insets))
         == ResolveViewWidth(w.scroll, w.container, w.bounds, IntrinsicFallbackWidth(w.screen))
  {
  }

  /** With zero measured widths and insets other than 16 + 16, the two passes see different widths. */
  lemma FallbacksDiffer(screen: real, insets: Insets)
    requires screen - insets.left - insets.right >= MinimumViewWidth && screen - 32.0 >= MinimumViewWidth
    requires insets.left + insets.right != 32.0
    ensures ResolveViewWidth(0.0, 0.0, 0.0, LayoutFallbackWidth(screen, insets))
         != ResolveViewWidth(0.0, 0.0, 0.0, IntrinsicFallbackWidth(screen))
  {
  }
}
