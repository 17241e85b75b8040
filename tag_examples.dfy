/**
  The example tag kinds shipped with the demo target: the image-and-text
  tag and the button tag (their data initialisers and `sizeThatFits`), the
  convenience extension of the row-grouping BRFlexTagView, and the list
  scenarios of its unit tests.
 */
module TagExamples {
  import opened Wrappers
  import opened Geometry
  import opened TagModel
  import opened LinePacking
  import opened GroupedTagView

  /** `BRFlexImageTextTagData(text:imageName:identifier:)`: the identifier defaults to "text_imageName". */
  function MakeImageTextTagData(text: string, imageName: string, identifier: Option<string>): (d: ImageTextTagData)
    ensures d.text == text && d.imageName == imageName
    ensures identifier.Some? ==> d.identifier == identifier.value
    ensures identifier.None? ==> d.identifier == text + "_" + imageName
  {
    ImageTextTagData(identifier.GetOr(text + "_" + imageName), text, imageName)
  }

  /** `BRFlexButtonTagData(title:style:identifier:)`: the identifier defaults to the title. */
  function MakeButtonTagData(title: string, style: ButtonStyle, identifier: Option<string>): (d: ButtonTagData)
    ensures d.title == title && d.style == style
    ensures identifier.Some? ==> d.identifier == identifier.value
    ensures identifier.None? ==> d.identifier == title
  {
    ButtonTagData(identifier.GetOr(title), title, style)
  }

  /** The image-text tag's icon is a 16-point square, 4 points before the label. */
  const ImageSize: real := 16.0
  const ImageTextSpacing: real := 4.0
  /** The padding an image-text tag view starts with. */
  const DefaultImageTextPadding: real := 8.0

  /** The width the image-text tag offers its label: what is left beside padding and icon, never negative. */
  function ImageTextLabelWidth(size: Size, padding: real): (w: real)
    ensures w >= 0.0
    ensures w >= size.width - 2.0 * padding - ImageSize - ImageTextSpacing
    ensures w == 0.0 || w == size.width - 2.0 * padding - ImageSize - ImageTextSpacing
  {
    var availableWidth := size.width - padding * 2.0;
    Max(0.0, availableWidth - ImageSize - ImageTextSpacing)
  }

  /**
    `BRFlexImageTextTagView.sizeThatFits(_:)`, given the label's size at the
    width it is offered: icon, spacing, label and padding, never wider than
    the offered width; at least as tall as the icon, plus the padding.
   */
  function ImageTextTagSize(labelSize: Size, padding: real, size: Size): (r: Size)
    ensures r.width <= size.width
    ensures r.width == Min(ImageSize + ImageTextSpacing + labelSize.width + 2.0 * padding, size.width)
    ensures r.width == size.width || r.width == ImageSize + ImageTextSpacing + labelSize.width + 2.0 * padding
    ensures r.height >= ImageSize + 2.0 * padding && r.height >= labelSize.height + 2.0 * padding
    ensures r.height == ImageSize + 2.0 * padding || r.height == labelSize.height + 2.0 * padding
  {
    var contentWidth := ImageSize + ImageTextSpacing + labelSize.width;
    var totalWidth := Min(contentWidth + padding * 2.0, size.width);
    var contentHeight := Max(ImageSize, labelSize.height);
    Size(totalWidth, contentHeight + padding * 2.0)
  }

  /**
    When the label stays within the width it was offered and that width is
    not clamped, the image-text tag is not clipped: it is exactly icon,
    spacing, label and padding wide.
   */
  lemma ImageTextNotClipped(labelSize: Size, padding: real, size: Size)
    requires size.width - 2.0 * padding - ImageSize - ImageTextSpacing >= 0.0
    requires labelSize.width <= ImageTextLabelWidth(size, padding)
    ensures ImageTextTagSize(labelSize, padding, size).width == ImageSize + ImageTextSpacing + labelSize.width + 2.0 * padding
  {
    assert ImageTextLabelWidth(size, padding) == size.width - 2.0 * padding - ImageSize - ImageTextSpacing;
  }

  /** The button tag's minimum size and the padding added to the button's width. */
  const ButtonMinWidth: real := 60.0
  const ButtonMinHeight: real := 32.0
  const ButtonWidthPadding: real := 16.0

  /**
    `BRFlexButtonTagView.sizeThatFits(_:)`, given the button's own fitting
    size: the button plus 16 points, at least 60 wide and 32 tall. The offered
    width is not a limit.
   */
  function ButtonTagSize(buttonSize: Size): (r: Size)
    ensures r.width >= ButtonMinWidth && r.width >= buttonSize.width + ButtonWidthPadding
    ensures r.width == ButtonMinWidth || r.width == buttonSize.width + ButtonWidthPadding
    ensures r.height >= ButtonMinHeight && r.height >= buttonSize.height
    ensures r.height == ButtonMinHeight || r.height == buttonSize.height
  {
    Size(Max(buttonSize.width + ButtonWidthPadding, ButtonMinWidth), Max(buttonSize.height, ButtonMinHeight))
  }

  /** Unlike the other tags, a button tag can be wider than the width it is offered. */
  lemma ButtonMayExceedOffer()
    ensures var offered := Size(40.0, 20.0);
      ButtonTagSize(Size(30.0, 20.0)).width > offered.width
  {
  }

  /** `addTextTag(_:)`: appends one text tag. */
  method AddTextTag(view: FlexTagView, text: string)
    modifies view`tagItems, view`tagViews, view`needsTagLayout
    ensures view.tagItems == old(view.tagItems) + [TextTag(text)]
    ensures view.Valid() && view.needsTagLayout
    ensures forall i :: 0 <= i < |view.tagViews| ==> view.tagViews[i].frame == ZeroRect
  {
    view.AddTagItem(TextTag(text));
  }

  /** `addImageTextTag(text:imageName:)`: appends one image-text tag with the default identifier. */
  method AddImageTextTag(view: FlexTagView, text: string, imageName: string)
    modifies view`tagItems, view`tagViews, view`needsTagLayout
    ensures view.tagItems == old(view.tagItems) + [ImageTextItem(MakeImageTextTagData(text, imageName, None))]
    ensures view.Valid() && view.needsTagLayout
    ensures forall i :: 0 <= i < |view.tagViews| ==> view.tagViews[i].frame == ZeroRect
  {
    view.AddTagItem(ImageTextItem(MakeImageTextTagData(text, imageName, None)));
  }

  /** `addButtonTag(title:style:)`: appends one button tag with the default identifier. */
  method AddButtonTag(view: FlexTagView, title: string, style: ButtonStyle)
    modifies view`tagItems, view`tagViews, view`needsTagLayout
    ensures view.tagItems == old(view.tagItems) + [ButtonItem(MakeButtonTagData(title, style, None))]
    ensures view.Valid() && view.needsTagLayout
    ensures forall i :: 0 <= i < |view.tagViews| ==> view.tagViews[i].frame == ZeroRect
  {
    view.AddTagItem(ButtonItem(MakeButtonTagData(title, style, None)));
  }

  /**
    `addTextTags(_:)`: appends one text tag per string, in order, after the
    existing items, then rebuilds the views.
   */
  method AddTextTags(view: FlexTagView, texts: seq<string>)
    modifies view`tagItems, view`tagViews, view`needsTagLayout
    ensures |view.tagItems| == |old(view.tagItems)| + |texts|
    ensures view.tagItems[..|old(view.tagItems)|] == old(view.tagItems)
    ensures forall i :: 0 <= i < |texts| ==> view.tagItems[|old(view.tagItems)| + i] == TextTag(texts[i])
    ensures view.Valid() && view.needsTagLayout
    ensures forall i :: 0 <= i < |view.tagViews| ==> view.tagViews[i].frame == ZeroRect
  {
    var items: seq<TagItem> := [];
    var i := 0;
    while i < |texts|
      invariant 0 <= i <= |texts| && |items| == i
      invariant forall k :: 0 <= k < i ==> items[k] == TextTag(texts[k])
    {
      items := items + [TextTag(texts[i])];
      i := i + 1;
    }
    view.tagItems := view.tagItems + items;
    view.ReloadData();
  }

  /** A tag view as the unit tests create it: every initialiser argument at its default. */
  method NewDefaultView() returns (view: FlexTagView)
    ensures fresh(view) && view.Valid() && view.tagItems == []
    ensures view.contentInsets == Insets(0.0, 0.0, 0.0, 0.0)
    ensures view.tagHorizontalSpacing == 10.0 && view.tagVerticalSpacing == 10.0
    ensures view.lineAlignment == Left && view.heightMode == Adaptive
  {
    view := new FlexTagView(Insets(0.0, 0.0, 0.0, 0.0), 10.0, 10.0, Left, Adaptive);
  }

  // The scenarios below run on the row-grouping view. The unit tests they
  // follow exercise the Swift package's single-pass view, whose list
  // operations (SinglePassTagView.FlexTagView) carry the same contracts.

  /** `testBasicTextTags`: assigning three strings gives three text tags with those texts. */
  method BasicTextTagsScenario() returns (texts: seq<string>)
    ensures texts == ["Swift", "iOS", "UIKit"]
  {
    var view := NewDefaultView();
    view.SetTags(["Swift", "iOS", "UIKit"]);
    texts := [];
    var i := 0;
    while i < |view.tagItems|
      invariant 0 <= i <= |view.tagItems| && |texts| == i
      invariant forall k :: 0 <= k < i ==> texts[k] == view.tagItems[k].textData.text
    {
      texts := texts + [view.tagItems[i].textData.text];
      i := i + 1;
    }
    assert texts == ["Swift", "iOS", "UIKit"];
  }

  /** `testMixedTags`: three items of three kinds, in the order they were built. */
  method MixedTagsScenario() returns (count: nat, kinds: seq<nat>)
    ensures count == 3 && kinds == [0, 1, 2]
  {
    var view := NewDefaultView();
    view.AddMixedTags([
      TextTag("文本"),
      ImageTextItem(MakeImageTextTagData("图标", "star", None)),
      ButtonItem(MakeButtonTagData("按钮", Primary, None))]);
    count := |view.tagItems|;
    kinds := [];
    var i := 0;
    while i < |view.tagItems|
      invariant 0 <= i <= |view.tagItems| && |kinds| == i
      invariant forall k :: 0 <= k < i ==> kinds[k] == Kind(view.tagItems[k])
    {
      kinds := kinds + [Kind(view.tagItems[i])];
      i := i + 1;
    }
  }

  /** 0 for a text tag, 1 for an image-text tag, 2 for a button tag. */
  function Kind(item: TagItem): nat {
    match item
    case TextItem(_) => 0
    case ImageTextItem(_) => 1
    case ButtonItem(_) => 2
  }

  /** `testConvenienceMethods`: one tag of each kind through the convenience methods. */
  method ConvenienceMethodsScenario() returns (count: nat)
    ensures count == 3
  {
    var view := NewDefaultView();
    AddTextTag(view, "文本标签");
    AddImageTextTag(view, "图片标签", "star");
    AddButtonTag(view, "按钮标签", Primary);
    count := |view.tagItems|;
  }

  /**
    `testTagManipulation`: three added tags, one removed from the middle
    leaves the outer two in order, and clearing leaves none.
   */
  method TagManipulationScenario() returns (afterAdding: nat, afterRemoving: seq<TagItem>, afterClearing: nat)
    ensures afterAdding == 3
    ensures afterRemoving == [TextTag("标签1"), TextTag("标签3")]
    ensures afterClearing == 0
  {
    var view := NewDefaultView();
    AddTextTag(view, "标签1");
    AddTextTag(view, "标签2");
    AddTextTag(view, "标签3");
    afterAdding := |view.tagItems|;
    view.RemoveTagAt(1);
    afterRemoving := view.tagItems;
    view.ClearAllTags();
    afterClearing := |view.tagItems|;
  }
}
