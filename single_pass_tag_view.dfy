/**
  BRFlexTagView as shipped in the Swift package: the same tag-list state as
  the row-grouping variant, without line alignment, laid out in one pass
  (module SinglePassLayout); its tap callback receives the index unchecked.
 */
module SinglePassTagView {
  import opened Wrappers
  import opened Geometry
  import opened TagModel
  import opened SinglePassLayout

  class FlexTagView {
    /** The plain-text tags last assigned through the `tags` property. */
    var tags: seq<string>
    var tagItems: seq<TagItem>
    var tagViews: seq<TagView>
    var contentInsets: Insets
    var tagHorizontalSpacing: real
    var tagVerticalSpacing: real
    var heightMode: HeightMode
    /** The constant of the view's own height constraint, when one is installed. */
    var heightConstraint: Option<real>
    /** The constant of the height constraint installed on the current content view, if any. */
    var contentHeightConstraint: Option<real>
    var scrollContentSize: Size
    var needsTagLayout: bool

    /** One tag view per item, in order, each knowing its own index. */
    predicate Valid()
      reads this
    {
      ViewsMatchItems(tagViews, tagItems)
    }

    function Config(): PassConfig
      reads this`contentInsets, this`tagHorizontalSpacing, this`tagVerticalSpacing
    {
      PassConfig(contentInsets, tagHorizontalSpacing, tagVerticalSpacing)
    }

    /** `init(frame:)`: no tags, zero insets, spacings of 10 points, adaptive height. */
    constructor ()
      ensures Valid() && tags == [] && tagItems == [] && tagViews == []
      ensures Config() == PassConfig(Insets(0.0, 0.0, 0.0, 0.0), 10.0, 10.0)
      ensures heightMode == Adaptive && heightConstraint == None && contentHeightConstraint == None
      ensures needsTagLayout
    {
      tags := [];
      tagItems := [];
      tagViews := [];
      contentInsets := Insets(0.0, 0.0, 0.0, 0.0);
      tagHorizontalSpacing := 10.0;
      tagVerticalSpacing := 10.0;
      heightMode := Adaptive;
      heightConstraint := None;
      contentHeightConstraint := None;
      scrollContentSize := Size(0.0, 0.0);
      needsTagLayout := true;
    }

    /** `reloadData`: discard the tag views and create one per item, then request a layout. */
    method ReloadData()
      modifies this`tagViews, this`needsTagLayout
      ensures Valid()
      ensures forall i :: 0 <= i < |tagViews| ==> tagViews[i].frame == ZeroRect
      ensures needsTagLayout
    {
      tagViews := CreateViews(tagItems);
      needsTagLayout := true;
    }

    /** `setTagItems(_:)` */
    method SetTagItems(items: seq<TagItem>)
      modifies this`tagItems, this`tagViews, this`needsTagLayout
      ensures tagItems == items
      ensures forall i :: 0 <= i < |tagViews| ==> tagViews[i].frame == ZeroRect
      ensures Valid() && needsTagLayout
    {
      tagItems := items;
      ReloadData();
    }

    /** Assigning the `tags` property: one text item per string, in order. */
    method SetTags(texts: seq<string>)
      modifies this`tags, this`tagItems, this`tagViews, this`needsTagLayout
      ensures tags == texts
      ensures |tagItems| == |texts| && forall i :: 0 <= i < |texts| ==> tagItems[i] == TextTag(texts[i])
      ensures forall i :: 0 <= i < |tagViews| ==> tagViews[i].frame == ZeroRect
      ensures Valid() && needsTagLayout
    {
      tags := texts;
      SetTagItems(seq(|texts|, i requires 0 <= i < |texts| => TextTag(texts[i])));
    }

    /** `addTagItem(_:)` */
    method AddTagItem(item: TagItem)
      modifies this`tagItems, this`tagViews, this`needsTagLayout
      ensures tagItems == old(tagItems) + [item]
      ensures forall i :: 0 <= i < |tagViews| ==> tagViews[i].frame == ZeroRect
      ensures Valid() && needsTagLayout
    {
      tagItems := tagItems + [item];
      ReloadData();
    }

    /** `addMixedTags(_:)`, given the items its builder closure appended. */
    method AddMixedTags(newItems: seq<TagItem>)
      modifies this`tagItems, this`tagViews, this`needsTagLayout
      ensures tagItems == old(tagItems) + newItems
      ensures forall i :: 0 <= i < |tagViews| ==> tagViews[i].frame == ZeroRect
      ensures Valid() && needsTagLayout
    {
      tagItems := tagItems + newItems;
      ReloadData();
    }

    /**
      `removeTagAt(index:)`: an index outside the list changes nothing at all;
      an index inside removes that item and rebuilds the views.
     */
    method RemoveTagAt(index: int)
      requires Valid()
      modifies this`tagItems, this`tagViews, this`needsTagLayout
      ensures tagItems == RemovedAt(old(tagItems), index)
      ensures !(0 <= index < |old(tagItems)|) ==> tagViews == old(tagViews) && needsTagLayout == old(needsTagLayout)
      ensures 0 <= index < |old(tagItems)| ==>
        needsTagLayout && forall i :: 0 <= i < |tagViews| ==> tagViews[i].frame == ZeroRect
      ensures Valid()
    {
      if !(0 <= index < |tagItems|) {
        return;
      }
      tagItems := tagItems[..index] + tagItems[index + 1..];
      ReloadData();
    }

    /** `clearAllTags()` */
    method ClearAllTags()
      modifies this`tagItems, this`tagViews, this`needsTagLayout
      ensures tagItems == [] && tagViews == []
      ensures Valid() && needsTagLayout
    {
      tagItems := [];
      ReloadData();
    }

    /** `configureSpacing(contentInsets:tagHorizontalSpacing:tagVerticalSpacing:)`: each property requests a layout. */
    method ConfigureSpacing(insets: Insets, horizontalSpacing: real, verticalSpacing: real)
      modifies this`contentInsets, this`tagHorizontalSpacing, this`tagVerticalSpacing, this`needsTagLayout
      ensures Config() == PassConfig(insets, horizontalSpacing, verticalSpacing)
      ensures needsTagLayout
    {
      contentInsets := insets;
      tagHorizontalSpacing := horizontalSpacing;
      tagVerticalSpacing := verticalSpacing;
      needsTagLayout := true;
    }

    /**
      Assigning `heightMode` (`updateHeightMode`): the old height constraint is
      removed, a fixed mode installs one of its height, the scroll and content
      views are rebuilt empty, and the tag views are recreated.
     */
    method SetHeightMode(mode: HeightMode)
      modifies this`heightMode, this`heightConstraint, this`contentHeightConstraint, this`scrollContentSize
      modifies this`tagViews, this`needsTagLayout
      ensures heightMode == mode
      ensures heightConstraint == (if mode.Fixed? then Some(mode.height) else None)
      ensures contentHeightConstraint == None && scrollContentSize == Size(0.0, 0.0)
      ensures Valid() && needsTagLayout
    {
      heightMode := mode;
      heightConstraint := None;
      contentHeightConstraint := None;
      scrollContentSize := Size(0.0, 0.0);
      if mode.Fixed? {
        heightConstraint := Some(mode.height);
      }
      ReloadData();
    }

    /** `tagItemTapped(at:)`: the index goes to the callback as it came, with no range check. */
    method TagItemTapped(index: int) returns (forwarded: int)
      ensures forwarded == index
    {
      forwarded := index;
    }

    /**
      `performTagLayout`: resolve the container width (falling back to the
      screen width less the horizontal insets), place the tags in one pass
      from the top-left inset corner, and derive the content height. The
      adaptive mode sets the view's own height to the content height; both
      modes size the content view and the scroll content to it, at least 1.
     */
    method PerformTagLayout(measure: (TagItem, real) -> Size, widths: ViewWidths)
      requires Valid()
      modifies this`tagViews, this`heightConstraint, this`contentHeightConstraint, this`scrollContentSize
      ensures Valid()
      ensures var viewWidth := ResolveViewWidth(widths.scroll, widths.container, widths.bounds, LayoutFallbackWidth(widths.screen, contentInsets));
        var available := viewWidth - contentInsets.left - contentInsets.right;
        var contentHeight := PassContentHeight(tagItems, measure, available, Config());
        && FramesAssigned(tagViews, old(tagViews), Run(tagItems, measure, available, Config()).frames)
        && heightConstraint == (if heightMode.Adaptive? then Some(contentHeight) else old(heightConstraint))
        && contentHeightConstraint == Some(Max(contentHeight, 1.0))
        && scrollContentSize == Size(viewWidth, Max(contentHeight, 1.0))
    {
      var viewWidth := ResolveViewWidth(widths.scroll, widths.container, widths.bounds, LayoutFallbackWidth(widths.screen, contentInsets));
      var availableContentWidth := viewWidth - contentInsets.left - contentInsets.right;
      ghost var laidOutHeight := PassContentHeight(tagItems, measure, availableContentWidth, Config());
      var maxY := PlaceTags(measure, availableContentWidth);
      var contentHeight := if tagItems == [] then contentInsets.top + contentInsets.bottom else maxY + contentInsets.bottom;
      assert contentHeight == laidOutHeight;
      // Both modes size the content view and the scroll content alike; only
      // the adaptive mode also sets the view's own height.
      if heightMode.Adaptive? {
        heightConstraint := Some(contentHeight);
      }
      var safeContentHeight := Max(contentHeight, 1.0);
      contentHeightConstraint := Some(safeContentHeight);
      scrollContentSize := Size(viewWidth, safeContentHeight);
    }

    /**
      The loop of `performTagLayout`: every tag view gets the frame of the
      pass, and the result is the last line's y plus its tallest height.
     */
    method PlaceTags(measure: (TagItem, real) -> Size, availableWidth: real) returns (lineBottom: real)
      requires Valid()
      modifies this`tagViews
      ensures Valid()
      ensures FramesAssigned(tagViews, old(tagViews), Run(tagItems, measure, availableWidth, Config()).frames)
      ensures var c := Run(tagItems, measure, availableWidth, Config()).cursor; lineBottom == c.y + c.lineMax
    {
      ghost var before := tagViews;
      ghost var cfg := Config();
      ghost var items := tagItems;
      ghost var placed: seq<Rect> := [];
      var left := contentInsets.left;
      var xOffset := left;
      var yOffset := contentInsets.top;
      var maxHeightInCurrentLine := 0.0;
      assert items[..0] == [];
      var i := 0;
      while i < |tagViews|
        invariant 0 <= i <= |tagViews| == |items| && |placed| == i
        invariant FramesPlaced(tagViews, before, placed)
        invariant Run(items[..i], measure, availableWidth, cfg) == Pass(placed, Cursor(xOffset, yOffset, maxHeightInCurrentLine))
      {
        RunPrefix(items, measure, availableWidth, cfg, i);
        ghost var p := Place(Cursor(xOffset, yOffset, maxHeightInCurrentLine), items[i], measure, availableWidth, cfg);
        var tagView := tagViews[i];
        assert tagView.item == items[i];
        var remainingWidth := RemainingWidth(availableWidth, left, xOffset);
        var idealSize := measure(tagView.item, availableWidth);
        if idealSize.width > remainingWidth && xOffset > left {
          xOffset := left;
          yOffset := yOffset + maxHeightInCurrentLine + tagVerticalSpacing;
          maxHeightInCurrentLine := 0.0;
        }
        var newRemainingWidth := RemainingWidth(availableWidth, left, xOffset);
        var finalSize := measure(tagView.item, newRemainingWidth);
        var frame := Rect(xOffset, yOffset, finalSize.width, finalSize.height);
        assert frame == p.frame;
        PlaceNext(tagViews, before, placed, frame);
        tagViews := tagViews[i := tagView.(frame := frame)];
        placed := placed + [frame];
        xOffset := xOffset + finalSize.width + tagHorizontalSpacing;
        maxHeightInCurrentLine := Max(maxHeightInCurrentLine, finalSize.height);
        assert Cursor(xOffset, yOffset, maxHeightInCurrentLine) == p.next;
        i := i + 1;
      }
      assert items[..i] == items;
      lineBottom := yOffset + maxHeightInCurrentLine;
    }

    /**
      The height of `intrinsicContentSize`: the fixed height in fixed mode; in
      adaptive mode the insets alone without items, else the lowest bottom of
      the views' current frames (at least the top inset) plus the bottom inset.
     */
    method IntrinsicContentHeight() returns (height: real)
      ensures heightMode.Fixed? ==> height == heightMode.height
      ensures heightMode.Adaptive? && tagItems == [] ==> height == contentInsets.top + contentInsets.bottom
      ensures heightMode.Adaptive? && tagItems != [] ==> height == MaxBottom(FramesOf(tagViews), contentInsets.top) + contentInsets.bottom
    {
      match heightMode {
        case Fixed(h) =>
          return h;
        case Adaptive =>
          if tagItems == [] {
            return contentInsets.top + contentInsets.bottom;
          }
          ghost var frames := FramesOf(tagViews);
          var maxY := contentInsets.top;
          var i := 0;
          assert frames[..0] == [];
          while i < |tagViews|
            invariant 0 <= i <= |tagViews|
            invariant maxY == MaxBottom(frames[..i], contentInsets.top)
          {
            assert frames[..i + 1][..i] == frames[..i];
            maxY := Max(maxY, tagViews[i].frame.MaxY());
            i := i + 1;
          }
          assert frames[..i] == frames;
          return maxY + contentInsets.bottom;
      }
    }
  }

  /**
    Right after a layout pass, with non-negative measured heights and
    vertical spacing, the adaptive intrinsic height of a non-empty tag view
    is the content height that pass derived.
   */
  lemma IntrinsicAfterLayout(views: seq<TagView>, before: seq<TagView>, items: seq<TagItem>,
                             measure: (TagItem, real) -> Size, availableWidth: real, cfg: PassConfig)
    requires FramesAssigned(views, before, Run(items, measure, availableWidth, cfg).frames)
    requires HeightsNonNegative(items, measure) && cfg.verticalSpacing >= 0.0 && items != []
    ensures MaxBottom(FramesOf(views), cfg.insets.top) + cfg.insets.bottom == PassContentHeight(items, measure, availableWidth, cfg)
  {
    assert FramesOf(views) == Run(items, measure, availableWidth, cfg).frames;
    IntrinsicMatchesContentHeight(items, measure, availableWidth, cfg);
  }
}
