/**
  BRFlexTagView as shipped in the TagListView example: a view holding tag
  items and one tag view per item, laid out by grouping the tags into rows
  first (module LinePacking) and then placing every row with its alignment.
 */
module GroupedTagView {
  import opened Wrappers
  import opened Geometry
  import opened TagModel
  import opened LinePacking

  /** The frames a layout pass gives the tag views `views` at container width `viewWidth`. */
  function LaidOutFrames(views: seq<TagView>, measure: (TagItem, real) -> Size, cfg: LayoutConfig, viewWidth: real): seq<Rect> {
    var available := viewWidth - cfg.insets.left - cfg.insets.right;
    LayoutFrames(LineGroups(MeasuredSizes(views, measure, available), available, cfg.horizontalSpacing), available, cfg, cfg.insets.top)
  }

  /** The content height a layout pass derives for the tag views `views` at container width `viewWidth`. */
  function LaidOutHeight(hasItems: bool, views: seq<TagView>, measure: (TagItem, real) -> Size, cfg: LayoutConfig, viewWidth: real): real {
    var available := viewWidth - cfg.insets.left - cfg.insets.right;
    ContentHeight(hasItems, LineGroups(MeasuredSizes(views, measure, available), available, cfg.horizontalSpacing), cfg.insets, cfg.verticalSpacing)
  }

  class FlexTagView {
    /** The plain-text tags last assigned through the `tags` property. */
    var tags: seq<string>
    var tagItems: seq<TagItem>
    var tagViews: seq<TagView>
    var contentInsets: Insets
    var tagHorizontalSpacing: real
    var tagVerticalSpacing: real
    var lineAlignment: LineAlignment
    var heightMode: HeightMode
    /** The constant of the view's own height constraint, when one is installed. */
    var heightConstraint: Option<real>
    /** The constant of the height constraint installed on the current content view, if any. */
    var contentHeightConstraint: Option<real>
    var scrollContentSize: Size
    var needsTagLayout: bool

    /** One tag view per item, in order, each knowing its own index. */
    predicate Valid()
      reads this
    {
      ViewsMatchItems(tagViews, tagItems)
    }

    function Config(): LayoutConfig
      reads this`contentInsets, this`tagHorizontalSpacing, this`tagVerticalSpacing, this`lineAlignment
    {
      LayoutConfig(contentInsets, tagHorizontalSpacing, tagVerticalSpacing, lineAlignment)
    }

    /**
      `init(frame:contentInsets:tagHorizontalSpacing:tagVerticalSpacing:lineAlignment:heightMode:)`:
      no tags; a fixed height mode installs a height constraint of that height.
     */
    constructor (contentInsets: Insets, tagHorizontalSpacing: real, tagVerticalSpacing: real,
                 lineAlignment: LineAlignment, heightMode: HeightMode)
      ensures Valid() && tags == [] && tagItems == [] && tagViews == []
      ensures this.contentInsets == contentInsets && this.tagHorizontalSpacing == tagHorizontalSpacing
      ensures this.tagVerticalSpacing == tagVerticalSpacing && this.lineAlignment == lineAlignment
      ensures this.heightMode == heightMode
      ensures heightConstraint == (if heightMode.Fixed? then Some(heightMode.height) else None)
      ensures contentHeightConstraint == None && needsTagLayout
    {
      tags := [];
      tagItems := [];
      tagViews := [];
      this.contentInsets := contentInsets;
      this.tagHorizontalSpacing := tagHorizontalSpacing;
      this.tagVerticalSpacing := tagVerticalSpacing;
      this.lineAlignment := lineAlignment;
      this.heightMode := heightMode;
      heightConstraint := if heightMode.Fixed? then Some(heightMode.height) else None;
      contentHeightConstraint := None;
      scrollContentSize := Size(0.0, 0.0);
      needsTagLayout := true;
    }

    /** `reloadData`: discard the tag views and create one per item, then request a layout. */
    method ReloadData()
      modifies this`tagViews, this`needsTagLayout
      ensures Valid()
      ensures forall i :: 0 <= i < |tagViews| ==> tagViews[i].frame == ZeroRect
      ensures needsTagLayout
    {
      tagViews := CreateViews(tagItems);
      needsTagLayout := true;
    }

    /** `setTagItems(_:)` */
    method SetTagItems(items: seq<TagItem>)
      modifies this`tagItems, this`tagViews, this`needsTagLayout
      ensures tagItems == items
      ensures forall i :: 0 <= i < |tagViews| ==> tagViews[i].frame == ZeroRect
      ensures Valid() && needsTagLayout
    {
      tagItems := items;
      ReloadData();
    }

    /** Assigning the `tags` property: one text item per string, in order. */
    method SetTags(texts: seq<string>)
      modifies this`tags, this`tagItems, this`tagViews, this`needsTagLayout
      ensures tags == texts
      ensures |tagItems| == |texts| && forall i :: 0 <= i < |texts| ==> tagItems[i] == TextTag(texts[i])
      ensures forall i :: 0 <= i < |tagViews| ==> tagViews[i].frame == ZeroRect
      ensures Valid() && needsTagLayout
    {
      tags := texts;
      SetTagItems(seq(|texts|, i requires 0 <= i < |texts| => TextTag(texts[i])));
    }

    /** `addTagItem(_:)` */
    method AddTagItem(item: TagItem)
      modifies this`tagItems, this`tagViews, this`needsTagLayout
      ensures tagItems == old(tagItems) + [item]
      ensures forall i :: 0 <= i < |tagViews| ==> tagViews[i].frame == ZeroRect
      ensures Valid() && needsTagLayout
    {
      tagItems := tagItems + [item];
      ReloadData();
    }

    /** `addMixedTags(_:)`, given the items its builder closure appended. */
    method AddMixedTags(newItems: seq<TagItem>)
      modifies this`tagItems, this`tagViews, this`needsTagLayout
      ensures tagItems == old(tagItems) + newItems
      ensures forall i :: 0 <= i < |tagViews| ==> tagViews[i].frame == ZeroRect
      ensures Valid() && needsTagLayout
    {
      tagItems := tagItems + newItems;
      ReloadData();
    }

    /**
      `removeTagAt(index:)`: an index outside the list changes nothing at all
      (not even the views); an index inside removes that item and rebuilds.
     */
    method RemoveTagAt(index: int)
      requires Valid()
      modifies this`tagItems, this`tagViews, this`needsTagLayout
      ensures tagItems == RemovedAt(old(tagItems), index)
      ensures !(0 <= index < |old(tagItems)|) ==> tagViews == old(tagViews) && needsTagLayout == old(needsTagLayout)
      ensures 0 <= index < |old(tagItems)| ==>
        needsTagLayout && forall i :: 0 <= i < |tagViews| ==> tagViews[i].frame == ZeroRect
      ensures Valid()
    {
      if !(0 <= index < |tagItems|) {
        return;
      }
      tagItems := tagItems[..index] + tagItems[index + 1..];
      ReloadData();
    }

    /** `clearAllTags()` */
    method ClearAllTags()
      modifies this`tagItems, this`tagViews, this`needsTagLayout
      ensures tagItems == [] && tagViews == []
      ensures Valid() && needsTagLayout
    {
      tagItems := [];
      ReloadData();
    }

    /**
      `configureLayout(alignment:contentInsets:tagHorizontalSpacing:tagVerticalSpacing:)`:
      each of these properties requests a layout when it is set.
     */
    method ConfigureLayout(alignment: LineAlignment, insets: Insets, horizontalSpacing: real, verticalSpacing: real)
      modifies this`lineAlignment, this`contentInsets, this`tagHorizontalSpacing, this`tagVerticalSpacing, this`needsTagLayout
      ensures Config() == LayoutConfig(insets, horizontalSpacing, verticalSpacing, alignment)
      ensures needsTagLayout
    {
      lineAlignment := alignment;
      contentInsets := insets;
      tagHorizontalSpacing := horizontalSpacing;
      tagVerticalSpacing := verticalSpacing;
      needsTagLayout := true;
    }

    /**
      Assigning `heightMode` (`updateHeightMode`): the old height constraint is
      removed, a fixed mode installs one of its height, the scroll and content
      views are rebuilt empty, and the tag views are recreated.
     */
    method SetHeightMode(mode: HeightMode)
      modifies this`heightMode, this`heightConstraint, this`contentHeightConstraint, this`scrollContentSize
      modifies this`tagViews, this`needsTagLayout
      ensures heightMode == mode
      ensures heightConstraint == (if mode.Fixed? then Some(mode.height) else None)
      ensures contentHeightConstraint == None && scrollContentSize == Size(0.0, 0.0)
      ensures Valid() && needsTagLayout
    {
      heightMode := mode;
      heightConstraint := None;
      contentHeightConstraint := None;
      scrollContentSize := Size(0.0, 0.0);
      if mode.Fixed? {
        heightConstraint := Some(mode.height);
      }
      ReloadData();
    }

    /**
      `tagItemTapped(at:)`: what the tap callback receives. An index outside
      the item list never reaches the callback.
     */
    method TagItemTapped(index: int) returns (event: Option<TapEvent>)
      ensures event.Some? <==> 0 <= index < |tagItems|
      ensures event.Some? ==> event.value.index == index && event.value.data == tagItems[index]
    {
      if !(0 <= index < |tagItems|) {
        return None;
      }
      event := Some(TapEvent(index, tagItems[index]));
    }

    /**
      `calculateLineGroups(availableWidth:)`: measure every tag view with the
      available width and pack the views into rows; the result is the line
      grouping of LinePacking, so every property proved there holds for it.
     */
    method CalculateLineGroups(measure: (TagItem, real) -> Size, availableWidth: real) returns (lineGroups: seq<LineGroup>)
      ensures lineGroups == LineGroups(MeasuredSizes(tagViews, measure, availableWidth), availableWidth, tagHorizontalSpacing)
    {
      var views := tagViews;
      ghost var sizes := MeasuredSizes(views, measure, availableWidth);
      lineGroups := [];
      var currentLineTags: seq<TagInfo> := [];
      var currentLineWidth := 0.0;
      var currentLineMaxHeight := 0.0;
      PackingStart(sizes, availableWidth, tagHorizontalSpacing);
      var i := 0;
      while i < |views|
        invariant 0 <= i <= |views| && |sizes| == |views|
        invariant PackingAt(sizes, availableWidth, tagHorizontalSpacing, i,
                            lineGroups, currentLineTags, currentLineWidth, currentLineMaxHeight)
      {
        ghost var before := lineGroups;
        ghost var cur := currentLineTags;
        ghost var curWidth := currentLineWidth;
        ghost var curMax := currentLineMaxHeight;
        var idealSize := measure(views[i].item, availableWidth);
        var tagInfo := TagInfo(i, idealSize);
        var widthNeeded := currentLineWidth + idealSize.width + (if currentLineTags == [] then 0.0 else tagHorizontalSpacing);
        ghost var wrapped := widthNeeded > availableWidth && currentLineTags != [];
        if widthNeeded > availableWidth && currentLineTags != [] {
          lineGroups := lineGroups + [LineGroup(currentLineTags, currentLineWidth, currentLineMaxHeight)];
          currentLineTags := [];
          currentLineWidth := 0.0;
          currentLineMaxHeight := 0.0;
        }
        currentLineWidth := if currentLineTags == [] then idealSize.width else currentLineWidth + tagHorizontalSpacing + idealSize.width;
        currentLineTags := currentLineTags + [tagInfo];
        currentLineMaxHeight := Max(currentLineMaxHeight, idealSize.height);
        assert sizes[i] == idealSize;
        PackingAdvance(sizes, availableWidth, tagHorizontalSpacing, i, before, cur, curWidth, curMax,
                       tagInfo, widthNeeded, wrapped, lineGroups, currentLineTags, currentLineWidth, currentLineMaxHeight);
        i := i + 1;
      }
      PackingEnd(sizes, availableWidth, tagHorizontalSpacing, lineGroups, currentLineTags, currentLineWidth, currentLineMaxHeight);
      if currentLineTags != [] {
        lineGroups := lineGroups + [LineGroup(currentLineTags, currentLineWidth, currentLineMaxHeight)];
      }
    }

    /**
      The inner loop of `performTagLayout`: give every tag of one row its
      frame, from `x` rightwards on the line `y`, each `tagHorizontalSpacing`
      after the previous one. The row's tags are the next tag views in order.
     */
    method PlaceRow(tags: seq<TagInfo>, x: real, y: real, ghost before: seq<TagView>, ghost placed: seq<Rect>,
                    ghost later: seq<TagInfo>, ghost sizes: seq<Size>)
      requires |sizes| == |tagViews|
      requires FramesPlaced(tagViews, before, placed)
      requires tags + later == TagInfos(sizes)[|placed|..]
      modifies this`tagViews
      ensures FramesPlaced(tagViews, before, placed + RowFrames(tags, x, y, tagHorizontalSpacing))
    {
      ghost var done := placed;
      var xOffset := x;
      var k := 0;
      assert tags[0..] == tags;
      while k < |tags|
        invariant 0 <= k <= |tags| && |sizes| == |tagViews|
        invariant FramesPlaced(tagViews, before, done)
        invariant placed + RowFrames(tags, x, y, tagHorizontalSpacing) == done + RowFrames(tags[k..], xOffset, y, tagHorizontalSpacing)
        invariant tags[k..] + later == TagInfos(sizes)[|done|..]
      {
        var tagInfo := tags[k];
        PlaceStep(tags, k, later, sizes, |done|);
        var rect := Rect(xOffset, y, tagInfo.size.width, tagInfo.size.height);
        assert RowFrames(tags[k..], xOffset, y, tagHorizontalSpacing)
            == [rect] + RowFrames(tags[k + 1..], xOffset + tagInfo.size.width + tagHorizontalSpacing, y, tagHorizontalSpacing)
          by { assert tags[k..][0] == tagInfo && tags[k..][1..] == tags[k + 1..]; }
        PlaceNext(tagViews, before, done, rect);
        tagViews := tagViews[tagInfo.view := tagViews[tagInfo.view].(frame := rect)];
        done := done + [rect];
        xOffset := xOffset + tagInfo.size.width + tagHorizontalSpacing;
        k := k + 1;
      }
      assert tags[k..] == [];
    }

    /**
      The outer loop of `performTagLayout`: place the rows one below the other
      from the top inset, each at its alignment offset from the left inset,
      and return the line position after the last row. The rows hold the tag
      views in order.
     */
    method PlaceRows(lineGroups: seq<LineGroup>, availableWidth: real, ghost sizes: seq<Size>) returns (yOffset: real)
      requires |sizes| == |tagViews|
      requires FlattenTags(lineGroups) == TagInfos(sizes)
      modifies this`tagViews
      ensures FramesPlaced(tagViews, old(tagViews), LayoutFrames(lineGroups, availableWidth, Config(), contentInsets.top))
      ensures yOffset == contentInsets.top + StackHeight(lineGroups, tagVerticalSpacing)
    {
      ghost var before := tagViews;
      ghost var cfg := Config();
      ghost var placed: seq<Rect> := [];
      RowsPlacedStart(lineGroups, availableWidth, cfg, sizes);
      yOffset := contentInsets.top;
      var r := 0;
      while r < |lineGroups|
        invariant 0 <= r <= |lineGroups| && |sizes| == |tagViews|
        invariant FramesPlaced(tagViews, before, placed)
        invariant RowsPlacedAt(lineGroups, availableWidth, cfg, sizes, r, placed, yOffset)
      {
        var lineGroup := lineGroups[r];
        var alignmentOffset := AlignmentOffset(lineAlignment, lineGroup.totalWidth, availableWidth);
        var xOffset := contentInsets.left + alignmentOffset;
        RowsPlacedAdvance(lineGroups, availableWidth, cfg, sizes, r, placed, yOffset);
        PlaceRow(lineGroup.tags, xOffset, yOffset, before, placed, FlattenTags(lineGroups[r + 1..]), sizes);
        placed := placed + RowFrames(lineGroup.tags, xOffset, yOffset, tagHorizontalSpacing);
        yOffset := yOffset + lineGroup.maxHeight + tagVerticalSpacing;
        r := r + 1;
      }
      RowsPlacedEnd(lineGroups, availableWidth, cfg, sizes, placed, yOffset);
    }

    /**
      The frame and height part of `performTagLayout`: resolve the container
      width (falling back to the screen width less the horizontal insets),
      group the tags into rows, place each row at its alignment offset from
      the left inset and one row below the other, and derive the content
      height. The adaptive mode sets the view's own height to the content
      height; both modes size the content view and the scroll content to the
      content height, at least 1 point.
     */
    method PerformTagLayout(measure: (TagItem, real) -> Size, widths: ViewWidths)
      requires Valid()
      modifies this`tagViews, this`heightConstraint, this`contentHeightConstraint, this`scrollContentSize
      ensures Valid()
      ensures var viewWidth := ResolveViewWidth(widths.scroll, widths.container, widths.bounds, LayoutFallbackWidth(widths.screen, contentInsets));
        FramesAssigned(tagViews, old(tagViews), LaidOutFrames(old(tagViews), measure, Config(), viewWidth))
      ensures var viewWidth := ResolveViewWidth(widths.scroll, widths.container, widths.bounds, LayoutFallbackWidth(widths.screen, contentInsets));
        var contentHeight := LaidOutHeight(tagItems != [], old(tagViews), measure, Config(), viewWidth);
        && heightConstraint == (if heightMode.Adaptive? then Some(contentHeight) else old(heightConstraint))
        && contentHeightConstraint == Some(Max(contentHeight, 1.0))
        && scrollContentSize == Size(viewWidth, Max(contentHeight, 1.0))
    {
      ghost var before := tagViews;
      ghost var cfg := Config();
      var viewWidth := ResolveViewWidth(widths.scroll, widths.container, widths.bounds, LayoutFallbackWidth(widths.screen, contentInsets));
      var availableContentWidth := viewWidth - contentInsets.left - contentInsets.right;
      var lineGroups := CalculateLineGroups(measure, availableContentWidth);
      ghost var sizes := MeasuredSizes(tagViews, measure, availableContentWidth);
      ghost var frames := LayoutFrames(lineGroups, availableContentWidth, cfg, contentInsets.top);
      assert frames == LaidOutFrames(before, measure, cfg, viewWidth);
      ghost var laidOutHeight := LaidOutHeight(tagItems != [], before, measure, cfg, viewWidth);
      assert laidOutHeight == ContentHeight(tagItems != [], lineGroups, contentInsets, tagVerticalSpacing);
      LineGroupsInOrder(sizes, availableContentWidth, tagHorizontalSpacing);
      var yOffset := PlaceRows(lineGroups, availableContentWidth, sizes);
      PlacedAll(tagViews, before, frames, tagItems);
      HeightAfterRows(tagItems != [], lineGroups, contentInsets, tagVerticalSpacing, yOffset);
      if lineGroups != [] {
        yOffset := yOffset - tagVerticalSpacing;
      }
      var contentHeight := if tagItems == [] then contentInsets.top + contentInsets.bottom else yOffset + contentInsets.bottom;
      assert contentHeight == laidOutHeight;
      // Both modes size the content view and the scroll content alike; only
      // the adaptive mode also sets the view's own height.
      if heightMode.Adaptive? {
        heightConstraint := Some(contentHeight);
      }
      var safeContentHeight := Max(contentHeight, 1.0);
      contentHeightConstraint := Some(safeContentHeight);
      scrollContentSize := Size(viewWidth, safeContentHeight);
    }

    /**
      The height of `intrinsicContentSize` (its width is "no intrinsic
      metric"): the fixed height in fixed mode; in adaptive mode the insets
      alone without tags, else the rows packed at the resolved width (falling
      back to the screen width less 32 points) with their vertical spacing.
     */
    method IntrinsicContentHeight(measure: (TagItem, real) -> Size, widths: ViewWidths) returns (height: real)
      ensures heightMode.Fixed? ==> height == heightMode.height
      ensures heightMode.Adaptive? ==>
        height == LaidOutHeight(tagItems != [], tagViews, measure, Config(),
                                ResolveViewWidth(widths.scroll, widths.container, widths.bounds, IntrinsicFallbackWidth(widths.screen)))
    {
      match heightMode {
        case Fixed(h) =>
          return h;
        case Adaptive =>
          if tagItems == [] {
            return contentInsets.top + contentInsets.bottom;
          }
          var viewWidth := ResolveViewWidth(widths.scroll, widths.container, widths.bounds, IntrinsicFallbackWidth(widths.screen));
          var availableContentWidth := viewWidth - contentInsets.left - contentInsets.right;
          var lineGroups := CalculateLineGroups(measure, availableContentWidth);
          var totalHeight := contentInsets.top + contentInsets.bottom;
          if lineGroups != [] {
            var r := 0;
            while r < |lineGroups|
              invariant 0 <= r <= |lineGroups|
              invariant totalHeight + StackHeight(lineGroups[r..], tagVerticalSpacing)
                     == contentInsets.top + contentInsets.bottom + StackHeight(lineGroups, tagVerticalSpacing)
            {
              assert lineGroups[r..][1..] == lineGroups[r + 1..];
              totalHeight := totalHeight + lineGroups[r].maxHeight + tagVerticalSpacing;
              r := r + 1;
            }
            assert lineGroups[r..] == [];
            totalHeight := totalHeight - tagVerticalSpacing;
          }
          return totalHeight;
      }
    }
  }

  /**
    The height `performTagLayout` derives from the line position after the
    last row: that position less the trailing vertical spacing, plus the
    bottom inset; the insets alone without items.
   */
  lemma HeightAfterRows(hasItems: bool, groups: seq<LineGroup>, insets: Insets, verticalSpacing: real, yOffset: real)
    requires yOffset == insets.top + StackHeight(groups, verticalSpacing)
    ensures ContentHeight(hasItems, groups, insets, verticalSpacing)
         == if hasItems then yOffset - (if groups == [] then 0.0 else verticalSpacing) + insets.bottom
            else insets.top + insets.bottom
  {
  }

  /** Once every view has its frame, the views still match the items. */
  lemma PlacedAll(views: seq<TagView>, before: seq<TagView>, frames: seq<Rect>, items: seq<TagItem>)
    requires FramesPlaced(views, before, frames) && |frames| == |views|
    requires ViewsMatchItems(before, items)
    ensures FramesAssigned(views, before, frames) && ViewsMatchItems(views, items)
  {
  }

  /**
    The tag being placed is the view at the placed count: the rows are the
    measured tag views in order, so positions and view indices coincide.
   */
  lemma PlaceStep(tags: seq<TagInfo>, k: nat, later: seq<TagInfo>, sizes: seq<Size>, count: nat)
    requires k < |tags| && count <= |sizes|
    requires tags[k..] + later == TagInfos(sizes)[count..]
    ensures count < |sizes| && tags[k] == TagInfo(count, sizes[count])
    ensures tags[k + 1..] + later == TagInfos(sizes)[count + 1..]
  {
    assert (tags[k..] + later)[0] == tags[k];
    assert tags[k..] + later == [tags[k]] + (tags[k + 1..] + later);
  }

  /**
    The adaptive intrinsic height equals the content height of a layout pass
    whenever both resolve the same container width: some measured width is
    positive, or the horizontal insets add up to the 32 points the intrinsic
    fallback assumes.
   */
  lemma IntrinsicMatchesLayout(hasItems: bool, views: seq<TagView>, measure: (TagItem, real) -> Size, cfg: LayoutConfig, widths: ViewWidths)
    requires widths.scroll > 0.0 || widths.container > 0.0 || widths.bounds > 0.0
          || cfg.insets.left + cfg.insets.right == 32.0
    ensures LaidOutHeight(hasItems, views, measure, cfg,
                          ResolveViewWidth(widths.scroll, widths.container, widths.bounds, LayoutFallbackWidth(widths.screen, cfg.insets)))
         == LaidOutHeight(hasItems, views, measure, cfg,
                          ResolveViewWidth(widths.scroll, widths.container, widths.bounds, IntrinsicFallbackWidth(widths.screen)))
  {
    FallbacksAgree(widths, cfg.insets);
  }

  /** View i is given the size it reported for the available width. */
  lemma LaidOutFrameSizes(views: seq<TagView>, measure: (TagItem, real) -> Size, cfg: LayoutConfig, viewWidth: real)
    ensures var available := viewWidth - cfg.insets.left - cfg.insets.right;
      var frames := LaidOutFrames(views, measure, cfg, viewWidth);
      && |frames| == |views|
      && forall i :: 0 <= i < |views| ==>
           frames[i].width == measure(views[i].item, available).width
           && frames[i].height == measure(views[i].item, available).height
  {
    var available := viewWidth - cfg.insets.left - cfg.insets.right;
    var sizes := MeasuredSizes(views, measure, available);
    var groups := LineGroups(sizes, available, cfg.horizontalSpacing);
    LineGroupsCorrect(sizes, available, cfg.horizontalSpacing);
    LayoutFrameSizes(groups, available, cfg, cfg.insets.top);
  }
}
