# BRFlexTagView layout core in Dafny

BRFlexTagView is an iOS tag-list view. It takes a list of tags of mixed kinds: text tags, image-and-text tags and button tags. Each tag knows how to measure itself. The view breaks the list into lines inside a container width, assigns every tag a frame, and derives the height its content needs. The height either follows the content (adaptive mode) or is fixed.

The repository contains three layout engines. This project models each one separately, together with the tag list state they share and the per-tag sizing arithmetic.

- **Row-grouping engine** (the `BRFlexTagView` of the demo target), modules `LinePacking` and `GroupedTagView`.
  - A greedy, order-preserving line packer (`calculateLineGroups`) measures every tag once with the full available width.
  - Each line is then aligned left, centred or right.
  - Frames are assigned line by line, and the height is the stacked line heights.
- **Single-pass engine** (the `BRFlexTagView` of the Swift package), modules `SinglePassLayout` and `SinglePassTagView`.
  - A single loop wraps tag by tag, always left-aligned.
  - It measures each tag twice: first for the full width to decide whether to wrap, then for the width left on the line.
- **Collection-view regrouping** (`TagCollectionViewFlowLayout`), module `TagCollectionLayout`.
  - It takes the attributes the system flow layout produced and groups them into rows of equal vertical midpoint.
  - It then re-packs every row from x = 0, in place on a copied array.
- **Sizing**, modules `TagItemSizing` and `TagExamples`.
  - `sizeThatFits` of the text, image-text and button tags.
  - The data initialisers with their default identifiers.
  - The convenience extension of the tag view, and the scenarios of the unit tests.

## How the model is built

- **Numbers.** CGFloat is `real` and exact. `ceil` is the least integer not below its argument.
- **Layout functions.** Every engine has a layout function that describes the result: `LineGroups`/`LayoutFrames`, `Run`, or `LeftPacked`.
- **Imperative source becomes imperative Dafny.** Whatever the source does by loops and mutation is written as methods with loops. Each method is proved to produce the result that function describes.
  - `CalculateLineGroups` yields exactly `LineGroups`.
  - `PerformTagLayout` gives every view the frame of `LayoutFrames`, or of `Run` for the single-pass engine.
  - `GroupRows` and `AlignRowsLeft` establish `IsRowGrouping` and `LeftPacked`.
- **What is proved about those functions** is proved as lemmas:
  - packing preserves the tags in order;
  - the width bound and greediness hold, and they characterise the packing uniquely;
  - alignment bounds and the frame formulas;
  - rows do not overlap;
  - closed forms of the content height;
  - the intrinsic height agrees with the laid-out height;
  - the uniqueness and idempotence of the collection-view re-packing.
- **Tag views.** A tag view is a value: its index, the item it shows, and its frame. The tag views and the items are `seq` fields of the view classes, which the list operations reassign.
- **Measurement** is a function parameter `measure(item, widthHint)`. It stands for each view's `sizeThatFits`, which is UIKit text and button measurement.
- **Widths from UIKit.** The view widths and the screen width a layout pass reads are inputs (`ViewWidths`).

## Behaviour worth noting

- **Available width is not floored.** Neither BRFlexTagView floors the available content width: `viewWidth - left - right` (TagListView/Sources/BRFlexTagView/BRFlexTagView.swift:524) can be negative when the insets exceed the width. The model keeps the code's value. `LinePacking.NegativeWidthSingleColumn` shows the consequence: with a negative width, every tag gets a line of its own.
- **The two fallbacks differ.** The row-grouping engine uses one fallback width for layout (screen − left − right) and another for `intrinsicContentSize` (screen − 32). `Geometry.FallbacksDiffer` shows that the two can resolve differently. `Geometry.FallbacksAgree` states when they agree.
- **`needsTagLayout` is only ever set.** It is never read or reset. The model keeps it as a set-only flag.

## Model

| member | source | states |
|---|---|---|
| Geometry.Max | TagListView/Sources/BRFlexTagView/BRFlexTagView.swift:657 | the result is at least both arguments and equals one of them |
| Geometry.Min | TagListView/BRTagViewExample.swift:122 | the result is at most both arguments and equals one of them |
| Geometry.Ceil | TagListView/Sources/BRFlexTagView/BRFlexTagItemView.swift:93 | the least integer at or above x: x ≤ r < x + 1 |
| Geometry.FirstPositive | TagListView/Sources/BRFlexTagView/BRFlexTagView.swift:500-518 | the first strictly positive candidate (any candidate before it is not positive); the fallback when no candidate is positive |
| Geometry.ResolveViewWidth | TagListView/Sources/BRFlexTagView/BRFlexTagView.swift:497-521 | scroll view, content view, own bounds, fallback — the first that is positive — raised to at least 100 |
| Geometry.FallbacksAgree | TagListView/Sources/BRFlexTagView/BRFlexTagView.swift:700-710 | the layout and intrinsic widths coincide when some measured width is positive or the horizontal insets sum to 32 (the layout fallback is at line 517) |
| Geometry.FallbacksDiffer | TagListView/Sources/BRFlexTagView/BRFlexTagView.swift:700-710 | with all view widths 0, both fallbacks at least 100, and insets not summing to 32, layout and intrinsic size resolve different widths (the layout fallback is at line 517) |
| TagModel.MakeTextTagData | TagListView/Sources/BRFlexTagView/BRFlexTagData.swift:18-22 | keeps the text; the identifier is the one supplied, else the text |
| TagModel.TextTag | TagListView/Sources/BRFlexTagView/BRFlexTagView.swift:75-83 | the item built from a string is a text tag with that text, identified by it |
| TagModel.CreateViews | TagListView/Sources/BRFlexTagView/BRFlexTagView.swift:457-476 | one view per item, in order: view i shows item i, reports index i, and has a zero frame |
| TagModel.RemovedAt | TagListView/Sources/BRFlexTagView/BRFlexTagView.swift:265-269 | out of range leaves the list as it is; in range removes exactly that element: one shorter, the elements before and after kept in order, multiset less that one element |
| TagModel.MeasuredSizes | TagListView/Sources/BRFlexTagView/BRFlexTagView.swift:624-626 | size i is view i's item measured for the given width |
| TagModel.FramesOf | Sources/BRFlexTagView/BRFlexTagView.swift:439-441 | the views' frames, one per view, in order |
| LinePacking.TagInfos | TagListView/Sources/BRFlexTagView/BRFlexTagView.swift:624-649 | one TagInfo per view: its position and its measured size |
| LinePacking.RowMaxHeight | TagListView/Sources/BRFlexTagView/BRFlexTagView.swift:622-657 | at least 0 and every tag's height, and equal to 0 or to one of them |
| LinePacking.RowWidthAppend | TagListView/Sources/BRFlexTagView/BRFlexTagView.swift:652-656 | appending a tag to a non-empty row adds the spacing and its width |
| LinePacking.RowMaxHeightAppend | TagListView/Sources/BRFlexTagView/BRFlexTagView.swift:657 | appending a tag makes the tallest height the larger of the two |
| LinePacking.PackFromStep | TagListView/Sources/BRFlexTagView/BRFlexTagView.swift:628-657 | one loop turn: when the tag does not fit a non-empty line, that line is closed with its width and height; the tag then joins the (new) line with the updated width and height |
| LinePacking.FitsAppend | TagListView/Sources/BRFlexTagView/BRFlexTagView.swift:629-632 | a row of fitting prefixes still fits after a tag that leaves it within the width |
| LinePacking.SingleRow | TagListView/Sources/BRFlexTagView/BRFlexTagView.swift:652-653 | a one-tag row is as wide as its tag and as tall as max(0, its height) |
| LinePacking.WellPackedCons | TagListView/Sources/BRFlexTagView/BRFlexTagView.swift:632-645 | a correct row followed by a correct packing that it could not absorb is a correct packing |
| LinePacking.PackFromCorrect | TagListView/Sources/BRFlexTagView/BRFlexTagView.swift:618-671 | from any consistent current line, the packer's lines flatten to that line plus the rest of the tags, are all non-empty, fitting and recording their width and height, and are greedy |
| LinePacking.PackFromWrapCorrect | TagListView/Sources/BRFlexTagView/BRFlexTagView.swift:632-645 | the same, for a turn that closes the current line |
| LinePacking.PackFromJoinUnfold | TagListView/Sources/BRFlexTagView/BRFlexTagView.swift:647-657 | a tag that fits joins the current line with the width grown by spacing and width, and the height by max |
| LinePacking.PackFromJoinCorrect | TagListView/Sources/BRFlexTagView/BRFlexTagView.swift:647-657 | the same correctness, for a turn that keeps the current line |
| LinePacking.LineGroupsCorrect | TagListView/Sources/BRFlexTagView/BRFlexTagView.swift:618-671 | flattening the lines gives back every view exactly once, in order; every line is non-empty, records its width (widths plus gaps) and tallest height, fits, and could not have taken the next line's first tag |
| LinePacking.LineGroupsInOrder | TagListView/Sources/BRFlexTagView/BRFlexTagView.swift:618-671 | flattening the lines gives back every view exactly once, in order |
| LinePacking.FlattenEmpty | TagListView/Sources/BRFlexTagView/BRFlexTagView.swift:661 | non-empty lines flatten to nothing exactly when there are none |
| LinePacking.LineGroupsEmpty | TagListView/Sources/BRFlexTagView/BRFlexTagView.swift:618-671 | there are no lines if and only if there are no tags |
| LinePacking.WidthBound | TagListView/Sources/BRFlexTagView/BRFlexTagView.swift:629-632 | a line of two or more tags is no wider than the available width |
| LinePacking.WellPackedTail | TagListView/Sources/BRFlexTagView/BRFlexTagView.swift:618-671 | the lines after the first are still a correct packing |
| LinePacking.FirstRowLength | TagListView/Sources/BRFlexTagView/BRFlexTagView.swift:629-645 | of two correct packings of the same tags, neither first line is longer than the other |
| LinePacking.WellPackedUnique | TagListView/Sources/BRFlexTagView/BRFlexTagView.swift:618-671 | two correct packings of the same tags are equal |
| LinePacking.LineGroupsCharacterization | TagListView/Sources/BRFlexTagView/BRFlexTagView.swift:618-671 | a list of lines is the packer's result if and only if it flattens to the tags and is a correct greedy packing |
| LinePacking.SumWidthsNonNegative | TagListView/Sources/BRFlexTagView/BRFlexTagView.swift:652-656 | non-negative widths sum to a non-negative width |
| LinePacking.NegativeWidthSingleColumn | TagListView/Sources/BRFlexTagView/BRFlexTagView.swift:629-632 | with a negative available width (not floored), every tag gets a line of its own (the unfloored width is computed at line 524) |
| LinePacking.FlattenMember | TagListView/Sources/BRFlexTagView/BRFlexTagView.swift:618-671 | every tag of a line is among the flattened tags |
| LinePacking.FlattenLength | TagListView/Sources/BRFlexTagView/BRFlexTagView.swift:618-671 | the flattened list is as long as the lines' tag counts added up |
| LinePacking.SumOfOnes | TagListView/Sources/BRFlexTagView/BRFlexTagView.swift:618-671 | lines of one tag each hold as many tags as there are lines |
| LinePacking.AlignmentOffset | TagListView/Sources/BRFlexTagView/BRFlexTagView.swift:674-683 | 0 ≤ offset ≤ max(0, avail − width); 0 for left alignment and for an overflowing line; equal margins when centred; no right margin when right-aligned |
| LinePacking.AlignedRowInside | TagListView/Sources/BRFlexTagView/BRFlexTagView.swift:674-683 | a fitting line, once aligned, stays within [0, avail] |
| LinePacking.RowFrames | TagListView/Sources/BRFlexTagView/BRFlexTagView.swift:538-550 | one frame per tag of the line |
| LinePacking.RowFramesShape | TagListView/Sources/BRFlexTagView/BRFlexTagView.swift:538-550 | all frames of a line share its y and have their tag's measured size; the first starts at the line's x, each next one at the previous maxX plus the spacing |
| LinePacking.RowFrameX | TagListView/Sources/BRFlexTagView/BRFlexTagView.swift:535-550 | tag k starts at the line's x plus the width of the k tags before it plus one spacing |
| LinePacking.RowFramesExtent | TagListView/Sources/BRFlexTagView/BRFlexTagView.swift:535-550 | the last frame of a line ends at its x plus the line's recorded width |
| LinePacking.RowFrameEnd | TagListView/Sources/BRFlexTagView/BRFlexTagView.swift:535-550 | tag k ends at the line's x plus the width of its first k + 1 tags |
| LinePacking.RowWidthPrefixMonotone | TagListView/Sources/BRFlexTagView/BRFlexTagView.swift:652-656 | with non-negative widths and spacing, a prefix of a line is no wider than the line |
| LinePacking.RowInsideContent | TagListView/Sources/BRFlexTagView/BRFlexTagView.swift:529-550 | every frame of a fitting aligned line lies between the left inset and the left inset plus the available width (offsets from lines 674-683) |
| LinePacking.TagInside | TagListView/Sources/BRFlexTagView/BRFlexTagView.swift:535-550 | each tag of a line lies between the line's x and its x plus the line's width |
| LinePacking.StackHeightClosedForm | TagListView/Sources/BRFlexTagView/BRFlexTagView.swift:553 | stacking lines adds their tallest heights plus one vertical spacing per line |
| LinePacking.LayoutFrames | TagListView/Sources/BRFlexTagView/BRFlexTagView.swift:527-554 | one frame per tag of the packing |
| LinePacking.FramePosition | TagListView/Sources/BRFlexTagView/BRFlexTagView.swift:527-554 | the frame of tag k of line r is that line's aligned frame k, at the top inset plus the heights and spacings of the lines above |
| LinePacking.TagCountPrefix | TagListView/Sources/BRFlexTagView/BRFlexTagView.swift:527-554 | the tags before line r + 1 are those before line r plus line r's |
| LinePacking.StackHeightPrefix | TagListView/Sources/BRFlexTagView/BRFlexTagView.swift:553 | the stack grows line by line by height plus spacing |
| LinePacking.StackHeightMonotone | TagListView/Sources/BRFlexTagView/BRFlexTagView.swift:553 | with non-negative heights and spacing, a later line starts no higher up |
| LinePacking.RowFrameVertical | TagListView/Sources/BRFlexTagView/BRFlexTagView.swift:538-543 | a line's frames start at its y and end at y plus their height |
| LinePacking.WellPackedHeights | TagListView/Sources/BRFlexTagView/BRFlexTagView.swift:657 | in a correct packing no line's recorded height is negative or smaller than any of its tags' heights |
| LinePacking.TagVertical | TagListView/Sources/BRFlexTagView/BRFlexTagView.swift:527-554 | tag k of line r spans from its line's y to that y plus its height |
| LinePacking.RowsDoNotOverlap | TagListView/Sources/BRFlexTagView/BRFlexTagView.swift:527-554 | with a non-negative vertical spacing, every tag of an earlier line ends at or above where every tag of a later line starts |
| LinePacking.Separated | TagListView/Sources/BRFlexTagView/BRFlexTagView.swift:527-554 | the same, from the recorded heights alone |
| LinePacking.TagCountMonotone | TagListView/Sources/BRFlexTagView/BRFlexTagView.swift:527-554 | earlier lines hold no more tags than the lines up to a later one |
| LinePacking.ContentHeightClosedForm | TagListView/Sources/BRFlexTagView/BRFlexTagView.swift:556-562 | without lines the insets alone; with items, the insets plus every line's tallest height plus (lines − 1) vertical spacings |
| LinePacking.ContentEnclosesTags | TagListView/Sources/BRFlexTagView/BRFlexTagView.swift:527-562 | every tag lies between the top inset and the content height less the bottom inset |
| LinePacking.Enclosed | TagListView/Sources/BRFlexTagView/BRFlexTagView.swift:527-562 | the same, from the recorded heights alone |
| LinePacking.MultiTagRowInside | TagListView/Sources/BRFlexTagView/BRFlexTagView.swift:527-554 | every tag of a line of two or more lies inside the content area horizontally (lines built as at lines 629-632) |
| LinePacking.LayoutFrameSizes | TagListView/Sources/BRFlexTagView/BRFlexTagView.swift:538-543 | every frame has the measured size of its tag |
| LinePacking.LayoutFramesStep | TagListView/Sources/BRFlexTagView/BRFlexTagView.swift:527-554 | one turn of the line loop: line r's frames at the current y, then the rest from y plus its height plus the spacing |
| GroupedTagView.FlexTagView.constructor | TagListView/Sources/BRFlexTagView/BRFlexTagView.swift:160-176 | no tags, the given insets, spacings, alignment and height mode; a fixed height installs a height constraint of that height |
| GroupedTagView.FlexTagView.ReloadData | TagListView/Sources/BRFlexTagView/BRFlexTagView.swift:451-479 | one fresh view per item with its index and a zero frame; a layout is requested |
| GroupedTagView.FlexTagView.SetTagItems | TagListView/Sources/BRFlexTagView/BRFlexTagView.swift:239-242 | the items become the given ones; the views are rebuilt with zero frames and a layout is requested |
| GroupedTagView.FlexTagView.SetTags | TagListView/Sources/BRFlexTagView/BRFlexTagView.swift:75-83 | item i is the text tag of string i, with as many items as strings; the rebuilt views have zero frames |
| GroupedTagView.FlexTagView.AddTagItem | TagListView/Sources/BRFlexTagView/BRFlexTagView.swift:251-254 | the item is appended after the existing ones; the rebuilt views have zero frames and a layout is requested |
| GroupedTagView.FlexTagView.AddMixedTags | TagListView/Sources/BRFlexTagView/BRFlexTagView.swift:257-262 | the built items are appended after the existing ones, in order; the rebuilt views have zero frames and a layout is requested |
| GroupedTagView.FlexTagView.RemoveTagAt | TagListView/Sources/BRFlexTagView/BRFlexTagView.swift:265-269 | the items become RemovedAt of the old ones; in range, the views are rebuilt with zero frames and a layout is requested; out of range, the views and the layout flag are untouched too |
| GroupedTagView.FlexTagView.ClearAllTags | TagListView/Sources/BRFlexTagView/BRFlexTagView.swift:272-275 | no items and no views remain |
| GroupedTagView.FlexTagView.ConfigureLayout | TagListView/Sources/BRFlexTagView/BRFlexTagView.swift:360-370 | alignment, insets and both spacings take the given values; a layout is requested |
| GroupedTagView.FlexTagView.SetHeightMode | TagListView/Sources/BRFlexTagView/BRFlexTagView.swift:394-449 | the height constraint is removed, and reinstalled at h for a fixed mode; the content view is new, without a height constraint; the views are rebuilt |
| GroupedTagView.FlexTagView.TagItemTapped | TagListView/Sources/BRFlexTagView/BRFlexTagView.swift:746-758 | the callback receives an event exactly when the index is in range, carrying that index and that item's data |
| GroupedTagView.FlexTagView.CalculateLineGroups | TagListView/Sources/BRFlexTagView/BRFlexTagView.swift:618-671 | the loop's lines are exactly the packing of the views' sizes measured for the available width |
| GroupedTagView.FlexTagView.PlaceRow | TagListView/Sources/BRFlexTagView/BRFlexTagView.swift:535-550 | the next line's views receive that line's frames; the others are untouched |
| GroupedTagView.FlexTagView.PlaceRows | TagListView/Sources/BRFlexTagView/BRFlexTagView.swift:527-554 | every view receives its frame of LayoutFrames; the final y is the top inset plus the stacked lines |
| GroupedTagView.FlexTagView.PerformTagLayout | TagListView/Sources/BRFlexTagView/BRFlexTagView.swift:496-615 | every view keeps index and item and gets the frame of packing and aligning at the resolved width; the adaptive mode sets its height to the content height; both modes size content view and scroll content to max(height, 1) |
| GroupedTagView.FlexTagView.IntrinsicContentHeight | TagListView/Sources/BRFlexTagView/BRFlexTagView.swift:685-728 | the fixed height in fixed mode; otherwise the content height of packing the views at the width resolved with the screen − 32 fallback |
| GroupedTagView.PlacedAll | TagListView/Sources/BRFlexTagView/BRFlexTagView.swift:527-554 | once every view is placed, the views are the old ones with the new frames and still match the items |
| GroupedTagView.PlaceStep | TagListView/Sources/BRFlexTagView/BRFlexTagView.swift:535-550 | the next tag of a line is the next view in order, with its measured size |
| GroupedTagView.IntrinsicMatchesLayout | TagListView/Sources/BRFlexTagView/BRFlexTagView.swift:714-723 | when the two fallbacks are not needed or coincide, the intrinsic height equals the content height of the layout pass (the laid-out height is at lines 556-562) |
| GroupedTagView.LaidOutFrameSizes | TagListView/Sources/BRFlexTagView/BRFlexTagView.swift:538-543 | after a layout pass, view i has exactly the size its item measures for the available width (measured at line 626) |
| SinglePassLayout.RemainingWidth | Sources/BRFlexTagView/BRFlexTagView.swift:348-361 | the width left on the line, clamped at 0 |
| SinglePassLayout.Place | Sources/BRFlexTagView/BRFlexTagView.swift:346-371 | a tag wraps exactly when it is not at the line start and its ideal width exceeds the width left; the wrapped line starts at the left inset, below the tallest tag plus the spacing; the frame has the size measured for the width left at its x; x then advances by width plus spacing, and the line height is the running max |
| SinglePassLayout.Run | Sources/BRFlexTagView/BRFlexTagView.swift:342-372 | one frame per item |
| SinglePassLayout.RunPrefix | Sources/BRFlexTagView/BRFlexTagView.swift:346-371 | the pass over one more item appends that item's placement to the frames and moves the cursor |
| SinglePassLayout.RunExtends | Sources/BRFlexTagView/BRFlexTagView.swift:342-372 | later items never move earlier frames |
| SinglePassLayout.FirstTagAtOrigin | Sources/BRFlexTagView/BRFlexTagView.swift:342-367 | the first tag sits at (left inset, top inset) |
| SinglePassLayout.NoTagLeftOfInset | Sources/BRFlexTagView/BRFlexTagView.swift:342-370 | with non-negative widths and spacing, no tag and no cursor is left of the left inset |
| SinglePassLayout.LineChanges | Sources/BRFlexTagView/BRFlexTagView.swift:354-370 | a tag that stays on the line is at the previous tag's y, right after its maxX plus the spacing; a wrapped tag is at the left inset, lower by the finished line's height plus the spacing |
| SinglePassLayout.MaxBottom | Sources/BRFlexTagView/BRFlexTagView.swift:438-441 | at least the top inset and every frame's maxY, and equal to one of them |
| SinglePassLayout.CursorBelowFrames | Sources/BRFlexTagView/BRFlexTagView.swift:342-375 | with non-negative heights and spacing, the lowest frame bottom is the last line's y plus its tallest height |
| SinglePassLayout.IntrinsicMatchesContentHeight | Sources/BRFlexTagView/BRFlexTagView.swift:438-444 | the intrinsic height over the pass's frames equals the content height of that pass (the pass height is at line 375) |
| SinglePassLayout.LinesGoDown | Sources/BRFlexTagView/BRFlexTagView.swift:354-358 | lines never move up: frames are in non-decreasing y, none below the final cursor |
| SinglePassTagView.FlexTagView.constructor | Sources/BRFlexTagView/BRFlexTagView.swift:48-92 | no tags, zero insets, spacings of 10, adaptive mode without height constraints; the setup's reload requests a layout (the initial height mode is set at lines 204-207) |
| SinglePassTagView.FlexTagView.ReloadData | Sources/BRFlexTagView/BRFlexTagView.swift:266-294 | one fresh view per item with its index and a zero frame; a layout is requested |
| SinglePassTagView.FlexTagView.SetTagItems | Sources/BRFlexTagView/BRFlexTagView.swift:108-111 | the items become the given ones; the views are rebuilt with zero frames and a layout is requested |
| SinglePassTagView.FlexTagView.SetTags | Sources/BRFlexTagView/BRFlexTagView.swift:32-40 | item i is the text tag of string i, with as many items as strings; the rebuilt views have zero frames |
| SinglePassTagView.FlexTagView.AddTagItem | Sources/BRFlexTagView/BRFlexTagView.swift:120-123 | the item is appended after the existing ones; the rebuilt views have zero frames and a layout is requested |
| SinglePassTagView.FlexTagView.AddMixedTags | Sources/BRFlexTagView/BRFlexTagView.swift:126-131 | the built items are appended after the existing ones, in order; the rebuilt views have zero frames and a layout is requested |
| SinglePassTagView.FlexTagView.RemoveTagAt | Sources/BRFlexTagView/BRFlexTagView.swift:134-138 | the items become RemovedAt of the old ones; in range, the views are rebuilt with zero frames and a layout is requested; out of range, the views and the layout flag are untouched too |
| SinglePassTagView.FlexTagView.ClearAllTags | Sources/BRFlexTagView/BRFlexTagView.swift:141-144 | no items and no views remain |
| SinglePassTagView.FlexTagView.ConfigureSpacing | Sources/BRFlexTagView/BRFlexTagView.swift:192-201 | insets and both spacings take the given values; a layout is requested |
| SinglePassTagView.FlexTagView.SetHeightMode | Sources/BRFlexTagView/BRFlexTagView.swift:209-263 | the height constraint is removed, and reinstalled at h for a fixed mode; the content view is new, without a height constraint; the views are rebuilt |
| SinglePassTagView.FlexTagView.TagItemTapped | Sources/BRFlexTagView/BRFlexTagView.swift:469-471 | the index reaches the callback unchanged, without a range check |
| SinglePassTagView.FlexTagView.PerformTagLayout | Sources/BRFlexTagView/BRFlexTagView.swift:311-428 | every view keeps index and item and gets its frame of the single pass at the resolved width; the adaptive mode sets its height to the pass's content height; both modes size content view and scroll content to max(height, 1) |
| SinglePassTagView.FlexTagView.PlaceTags | Sources/BRFlexTagView/BRFlexTagView.swift:342-372 | the loop gives every view its frame of the pass and ends at the last line's y plus its tallest height |
| SinglePassTagView.FlexTagView.IntrinsicContentHeight | Sources/BRFlexTagView/BRFlexTagView.swift:430-451 | fixed mode: h; adaptive without items: top + bottom; otherwise the largest of the top inset and the frames' maxY, plus the bottom inset |
| SinglePassTagView.IntrinsicAfterLayout | Sources/BRFlexTagView/BRFlexTagView.swift:430-446 | right after a layout pass, the adaptive intrinsic height equals the content height that pass set (the pass height is at line 375) |
| TagCollectionLayout.MidYs | TagListView/TagCollectionView.swift:371 | the frames' vertical midpoints, in order |
| TagCollectionLayout.Iota | TagListView/TagCollectionView.swift:370 | the indices 0 to n − 1, in order |
| TagCollectionLayout.FlattenAppend | TagListView/TagCollectionView.swift:373-383 | appending a row appends its indices |
| TagCollectionLayout.FlattenSplit | TagListView/TagCollectionView.swift:365-384 | the rows' indices are those of a prefix of rows followed by those of the rest |
| TagCollectionLayout.RowIndex | TagListView/TagCollectionView.swift:365-384 | in a partition, the k-th attribute of row r comes right after all attributes of the earlier rows |
| TagCollectionLayout.GroupOpen | TagListView/TagCollectionView.swift:371-376 | a new midpoint closes the current row, if any, and opens one holding just this attribute |
| TagCollectionLayout.GroupJoin | TagListView/TagCollectionView.swift:377-378 | an equal midpoint adds the attribute to the current row |
| TagCollectionLayout.GroupRows | TagListView/TagCollectionView.swift:365-384 | the rows partition the attributes in order, each exactly once, none empty; an attribute is first in its row exactly when it is the first overall or its midpoint differs from its predecessor's (so the −1 start value never matters) |
| TagCollectionLayout.AlignRowsLeft | TagListView/TagCollectionView.swift:387-394 | in place, the array becomes the LeftPacked re-packing of its old contents: only x changes; an attribute opening a row gets x = 0, every other one the previous x plus the previous width plus the spacing |
| TagCollectionLayout.LayoutAttributesForElements | TagListView/TagCollectionView.swift:361-397 | nil without a collection view; otherwise the copied attributes (none for a nil super result), same count and order, same y, width and height, re-packed from x = 0 in every row |
| TagCollectionLayout.LeftPackedAgree | TagListView/TagCollectionView.swift:387-394 | two re-packings of the same attributes agree at every position |
| TagCollectionLayout.LeftPackedUnique | TagListView/TagCollectionView.swift:387-394 | the re-packed attributes are determined by the input and the spacing |
| TagCollectionLayout.RepackIdempotent | TagListView/TagCollectionView.swift:361-397 | re-packing already re-packed attributes changes nothing |
| TagCollectionLayout.RowTagsDisjoint | TagListView/TagCollectionView.swift:391-392 | with non-negative spacing, each attribute of a row starts at or after its predecessor's end |
| TagCollectionLayout.ShouldInvalidateLayout | TagListView/TagCollectionView.swift:413-416 | true exactly when there is a collection view and the new width differs from the current one |
| TagCollectionLayout.CellUserInfo | TagListView/TagCollectionView.swift:242 | the item's entry exactly when the list is present and longer than the item index, nil otherwise; never out of range |
| TagCollectionLayout.CellUserInfoExample | TagListView/TagCollectionView.swift:242 | an illustration of CellUserInfo: a two-entry list serves cells 0 and 1 and gives nil for cell 2; no list gives nil |
| TagCollectionLayout.TagCollectionView.constructor | TagListView/TagCollectionView.swift:54-147 | no tags, margin, padding and line spacing 10, adaptive without height constraint, flow-layout spacings in step |
| TagCollectionLayout.TagCollectionView.UpdateLayout | TagListView/TagCollectionView.swift:190-193 | the flow layout's item and line spacings become the margin and line spacing |
| TagCollectionLayout.TagCollectionView.SetTagMargin | TagListView/TagCollectionView.swift:61-63 | the margin changes and the flow layout follows |
| TagCollectionLayout.TagCollectionView.SetLineSpacing | TagListView/TagCollectionView.swift:67-69 | the line spacing changes and the flow layout follows |
| TagCollectionLayout.TagCollectionView.SetTagPadding | TagListView/TagCollectionView.swift:64-66 | the padding changes and the flow layout is refreshed |
| TagCollectionLayout.TagCollectionView.SetTags | TagListView/TagCollectionView.swift:217-220 | the tags change and the layout is refreshed (the `tags` observer is at lines 54-56) |
| TagCollectionLayout.TagCollectionView.SetHeightMode | TagListView/TagCollectionView.swift:173-188 | the height constraint is removed, and reinstalled at h for a fixed mode |
| TagCollectionLayout.TagCollectionView.UpdateHeightIfNeeded | TagListView/TagCollectionView.swift:201-215 | adaptive mode sets the height constraint to the content height; fixed mode changes nothing |
| TagCollectionLayout.TagCollectionView.IntrinsicContentHeight | TagListView/TagCollectionView.swift:222-230 | the content height in adaptive mode, h in fixed mode |
| TagCollectionLayout.TagCollectionView.CellData | TagListView/TagCollectionView.swift:242-252 | cell i shows tag i, knows its index and the padding, and has user info exactly when the list has an entry for it |
| TagCollectionLayout.AdaptiveHeightAgrees | TagListView/TagCollectionView.swift:201-230 | an illustration chaining two contracts: in adaptive mode, after the update, the installed height constraint and the intrinsic height it reports are both the content height |
| TagItemSizing.TextTagSize | TagListView/Sources/BRFlexTagView/BRFlexTagItemView.swift:90-111 | the width is the rounded-up label width plus both paddings, capped at the offered width; a tag that fits keeps the label height plus padding, one that does not gets the rounded-up height of the label wrapped at the offered width less the padding; height ≥ 2·padding for non-negative label heights |
| TagItemSizing.TextTagSizeStable | TagListView/Sources/BRFlexTagView/BRFlexTagItemView.swift:90-111 | re-measuring a tag at the width it came out with gives the same size |
| TagItemSizing.TextTagWidthMonotone | TagListView/Sources/BRFlexTagView/BRFlexTagItemView.swift:96-109 | more offered width never gives a narrower tag |
| TagItemSizing.TextTagItemView.constructor | TagListView/Sources/BRFlexTagView/BRFlexTagItemView.swift:24-46 | a fresh view shows the data's text with padding 10 |
| TagItemSizing.TextTagItemView.FromText | TagListView/Sources/BRFlexTagView/BRFlexTagItemView.swift:54-58 | a fresh view shows the given text with padding 10 |
| TagItemSizing.TextTagItemView.UpdateData | TagListView/Sources/BRFlexTagView/BRFlexTagItemView.swift:48-50 | the text becomes the data's text and nothing else changes |
| TagExamples.MakeImageTextTagData | TagListView/BRTagViewExample.swift:19-24 | keeps text and image name; the identifier is the one supplied, else "text_imageName" |
| TagExamples.MakeButtonTagData | TagListView/BRTagViewExample.swift:327-332 | keeps title and style; the identifier is the one supplied, else the title |
| TagExamples.ImageTextLabelWidth | TagListView/BRTagViewExample.swift:114-115 | the label's width is the offered width less padding, icon and spacing, never negative |
| TagExamples.ImageTextTagSize | TagListView/BRTagViewExample.swift:113-129 | the width is the smaller of icon + spacing + label + padding and the offered width; at least as tall as the icon and as the label, plus padding |
| TagExamples.ImageTextNotClipped | TagListView/BRTagViewExample.swift:114-122 | a label that respects its width hint, at an offered width that needs no clamp, is never clipped |
| TagExamples.ButtonTagSize | TagListView/BRTagViewExample.swift:391-397 | the button plus 16, at least 60 wide, and at least 32 tall |
| TagExamples.ButtonMayExceedOffer | TagListView/BRTagViewExample.swift:391-397 | a button tag can come out wider than offered |
| TagExamples.AddTextTag | TagListView/BRTagViewExample.swift:136-138 | one text tag is appended; the rebuilt views have zero frames and a layout is requested |
| TagExamples.AddImageTextTag | TagListView/BRTagViewExample.swift:141-143 | one image-text tag with the default identifier is appended; the rebuilt views have zero frames and a layout is requested |
| TagExamples.AddButtonTag | TagListView/BRTagViewExample.swift:146-148 | one button tag with the default identifier is appended; the rebuilt views have zero frames and a layout is requested |
| TagExamples.AddTextTags | TagListView/BRTagViewExample.swift:151-155 | one text tag per string is appended in order; the existing items are kept as they were; the rebuilt views have zero frames and a layout is requested |
| TagExamples.NewDefaultView | TagListView/Sources/BRFlexTagView/BRFlexTagView.swift:160-176 | a fresh tag view with all initialiser defaults (zero insets, spacings of 10, left alignment, adaptive height) and no items |
| TagExamples.BasicTextTagsScenario | Tests/BRFlexTagViewTests/BRTagViewTests.swift:16-31 | assigning three strings gives three text tags with those texts, in order |
| TagExamples.MixedTagsScenario | Tests/BRFlexTagViewTests/BRTagViewTests.swift:33-47 | adding three mixed items gives three items: a text, an image-text and a button tag, in that order |
| TagExamples.ConvenienceMethodsScenario | Tests/BRFlexTagViewTests/BRTagViewTests.swift:49-57 | the three convenience methods give three items |
| TagExamples.TagManipulationScenario | Tests/BRFlexTagViewTests/BRTagViewTests.swift:59-74 | three adds give three items; removing index 1 leaves the first and third; clearing leaves none |

## Left out

- **UIKit plumbing.** The scroll view, content view and constraint objects are not modelled, nor subview add/remove or `invalidateIntrinsicContentSize`. The model keeps only what layout reads or writes: the height-constraint constants and the scroll content size.
- **Layout triggers.** `layoutSubviews`, `didMoveToWindow`, `layoutMarginsDidChange` and the `bounds` observer are not modelled. Neither is the `layoutIfNeeded` at the end of `updateHeightMode`. A layout pass is a call of `PerformTagLayout`; `needsTagLayout` records the request.
- **Stale constraint reference.** After `updateHeightMode`, the Swift property `contentHeightConstraint` still refers to the constraint of the removed content view. The model records what is installed: no constraint on the new content view.
- **Measurement.** Label and button measurement (`UILabel.sizeThatFits`, `UIButton.sizeThatFits`) and `UIScreen.main.bounds` are foreign. They are inputs: `measure`, `labelAt`, the label and button sizes, and `widths.screen`.
- **Flow-layout super behaviour.** The attributes `UICollectionViewFlowLayout` produces and its content size come from the framework. They are inputs of `LayoutAttributesForElements`, `UpdateHeightIfNeeded` and `IntrinsicContentHeight`.
- **Main-queue deferrals.** `DispatchQueue.main.async` in `updateLayout` and `invalidateLayout` is an event-loop concern. `UpdateHeightIfNeeded` is called directly instead.
- **Floating point.** CGFloat rounding is not modelled; all arithmetic is exact.
- **Styling.** Colours, fonts, corner radii, the styling step of `reloadData`, cell `configure` and `preferredLayoutAttributesFitting` are left out. So are the custom-cell registration and the `print` calls.
- **Type erasure.** The protocols and `AnyFlexTagItem` are a closed sum type `TagItem`. `createView(at:delegate:)` is `CreateViews`.
- **Generic wrappers.** `setTagData`/`addTagData` map their data to items and call `SetTagItems`/`AddTagItem`, so they are not modelled separately.
- **Thin setters.** `setContentInsets`, `setTagSpacing`, `setLeftAlignment`/`setCenterAlignment`/`setRightAlignment` and the convenience `init(contentInset:tagSpacing:)` assign properties that `ConfigureLayout` and `ConfigureSpacing` cover.
- **Getters.** `getTagData`, `getTagItems` and `getTagView` only read fields.
- **Tap callbacks.** Whether a tap callback is installed is not modelled. Engine-1 `TagItemTapped` returns the index and data the callback would receive; the view itself, its third argument, is left out. Engine-2 `TagItemTapped` returns the forwarded index. The collection view's `didSelectItemAt` forwards its index the same way and is not modelled separately.
- **Inner layout of the image-text tag.** `BRFlexImageTextTagView.layoutSubviews` places the icon and label inside the tag. This model covers tag sizes, not subview frames.
- **View identity.** Tag views are values in a sequence. Their identity and aliasing as UIKit objects are not modelled. `removeFromSuperview` is not modelled either.
- **Demo controllers.** `ViewController.swift`, `InitializerUsageExample.swift`, `OnTagTappedCallbackExample.swift`, `TagCollectionViewController.swift`, `CustomCellUsageExample.swift` and `CustomTagCell.swift` wire up UI only.
- **Tests that do not compile.** `testCustomProperties` uses properties BRFlexTagView does not have. `testHeightModes` compares a non-Equatable enum. Neither is modelled.
