/**
  BRFlexTagItemView, the text tag view: its `sizeThatFits` over the label's
  measured sizes, and its data binding.
 */
module TagItemSizing {
  import opened Geometry
  import opened TagModel

  /** The padding a text tag view starts with. */
  const DefaultTextPadding: real := 10.0

  /** The label's unconstrained width, rounded up, plus the padding on both sides. */
  function IdealTagWidth(idealLabel: Size, padding: real): real {
    Ceil(idealLabel.width) as real + 2.0 * padding
  }

  /**
    `sizeThatFits(_:)` of a text tag. `idealLabel` is the label's size with no
    width limit; `labelAt(w)` its size when limited to width `w`. The tag
    takes its ideal width, capped at the offered width; a tag that fits on
    one line keeps the label's height, one that does not is wrapped at the
    offered width less the padding and gets the rounded-up wrapped height.
   */
  function TextTagSize(idealLabel: Size, labelAt: real -> Size, padding: real, size: Size): (r: Size)
    ensures r.width == Min(IdealTagWidth(idealLabel, padding), size.width)
    ensures r.width <= size.width
    ensures IdealTagWidth(idealLabel, padding) <= size.width ==> r.height == idealLabel.height + 2.0 * padding
    ensures IdealTagWidth(idealLabel, padding) > size.width ==>
      r.height == Ceil(labelAt(size.width - 2.0 * padding).height) as real + 2.0 * padding
    ensures idealLabel.height >= 0.0 && labelAt(size.width - 2.0 * padding).height >= 0.0 ==> r.height >= 2.0 * padding
  {
    var idealWidth := IdealTagWidth(idealLabel, padding);
    if idealWidth <= size.width then
      Size(idealWidth, idealLabel.height + padding * 2.0)
    else
      var maxLabelWidth := size.width - padding * 2.0;
      var constrainedLabelSize := labelAt(maxLabelWidth);
      Size(size.width, Ceil(constrainedLabelSize.height) as real + padding * 2.0)
  }

  /**
    A tag re-measured at exactly the width it came out with comes out the
    same again: measuring is idempotent on its own result width. (This says
    nothing about the single-pass layout's second measurement, which offers
    the width left on the line.)
   */
  lemma TextTagSizeStable(idealLabel: Size, labelAt: real -> Size, padding: real, size: Size, height: real)
    ensures var r := TextTagSize(idealLabel, labelAt, padding, size);
      TextTagSize(idealLabel, labelAt, padding, Size(r.width, height)) == r
  {
    var r := TextTagSize(idealLabel, labelAt, padding, size);
    var again := TextTagSize(idealLabel, labelAt, padding, Size(r.width, height));
    if IdealTagWidth(idealLabel, padding) <= size.width {
      assert again.width == r.width;
    } else {
      assert r.width == size.width;
    }
  }

  /** Offering more width never makes a text tag narrower. */
  lemma TextTagWidthMonotone(idealLabel: Size, labelAt: real -> Size, padding: real, narrow: Size, wide: Size)
    requires narrow.width <= wide.width
    ensures TextTagSize(idealLabel, labelAt, padding, narrow).width <= TextTagSize(idealLabel, labelAt, padding, wide).width
  {
    var ideal := IdealTagWidth(idealLabel, padding);
    assert TextTagSize(idealLabel, labelAt, padding, narrow).width == Min(ideal, narrow.width);
    assert TextTagSize(idealLabel, labelAt, padding, wide).width == Min(ideal, wide.width);
  }

  /** The state of a text tag view that layout and taps depend on. */
  class TextTagItemView {
    /** The index reported when the tag is tapped. */
    var index: int
    var text: string
    var padding: real

    /** `init(data:)`: a fresh view showing the data's text. */
    constructor (data: TextTagData)
      ensures index == 0 && text == data.text && padding == DefaultTextPadding
    {
      index := 0;
      text := data.text;
      padding := DefaultTextPadding;
    }

    /** `init(text:)`, kept for older callers. */
    constructor FromText(text: string)
      ensures index == 0 && this.text == text && padding == DefaultTextPadding
    {
      index := 0;
      this.text := text;
      padding := DefaultTextPadding;
    }

    /** `updateData(_:)`: shows the data's text; nothing else changes. */
    method UpdateData(data: TextTagData)
      modifies this`text
      ensures text == data.text
    {
      text := data.text;
    }
  }
}
