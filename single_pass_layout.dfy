/**
  The layout of BRFlexTagView in the Swift package: one pass over the tag
  views, left-aligned, wrapping a tag to a new line when its ideal width does
  not fit what is left of the current line, and then sizing it again for the
  width actually left at its position.

  `Run` is the pass as a function of the items laid out so far; the view
  class in SinglePassTagView follows it with a loop.
 */
module SinglePassLayout {
  import opened Geometry
  import opened TagModel

  /** The loop state: next x, current line's y, tallest height on the current line. */
  datatype Cursor = Cursor(x: real, y: real, lineMax: real)

  /** Insets and spacings of a pass. */
  datatype PassConfig = PassConfig(insets: Insets, horizontalSpacing: real, verticalSpacing: real)

  /** One tag placed: its frame, the cursor after it, and whether it started a new line. */
  datatype Placement = Placement(frame: Rect, next: Cursor, wrapped: bool)

  /** The width left on the current line at `x`, never negative. */
  function RemainingWidth(availableWidth: real, left: real, x: real): (r: real)
    ensures r >= 0.0 && r >= availableWidth - (x - left)
    ensures r == 0.0 || r == availableWidth - (x - left)
  {
    Max(availableWidth - (x - left), 0.0)
  }

  /** The cursor before the first tag: at the top-left inset corner, nothing on the line. */
  function Start(cfg: PassConfig): Cursor {
    Cursor(cfg.insets.left, cfg.insets.top, 0.0)
  }

  /**
    One turn of the loop of `performTagLayout` for a tag whose view measures
    as `measure`. A tag starts a new line exactly when it is not at the start
    of the line and its ideal size (for the full available width) is wider
    than what is left; a new line starts at the left inset, below the current
    line's tallest tag and the vertical spacing. The tag is then measured
    again for the width left at its position and placed there.
   */
  function Place(c: Cursor, item: TagItem, measure: (TagItem, real) -> Size, availableWidth: real, cfg: PassConfig): (p: Placement)
    ensures p.wrapped <==>
      c.x > cfg.insets.left && measure(item, availableWidth).width > RemainingWidth(availableWidth, cfg.insets.left, c.x)
    ensures p.frame.x == (if p.wrapped then cfg.insets.left else c.x)
    ensures p.frame.y == (if p.wrapped then c.y + c.lineMax + cfg.verticalSpacing else c.y)
    ensures var final := measure(item, RemainingWidth(availableWidth, cfg.insets.left, p.frame.x));
      p.frame.width == final.width && p.frame.height == final.height
    ensures p.next.x == p.frame.MaxX() + cfg.horizontalSpacing
    ensures p.next.y == p.frame.y
    ensures p.next.lineMax == Max(if p.wrapped then 0.0 else c.lineMax, p.frame.height)
  {
    var left := cfg.insets.left;
    var idealSize := measure(item, availableWidth);
    var wraps := idealSize.width > RemainingWidth(availableWidth, left, c.x) && c.x > left;
    var line := if wraps then Cursor(left, c.y + c.lineMax + cfg.verticalSpacing, 0.0) else c;
    var finalSize := measure(item, RemainingWidth(availableWidth, left, line.x));
    var frame := Rect(line.x, line.y, finalSize.width, finalSize.height);
    Placement(frame, Cursor(line.x + finalSize.width + cfg.horizontalSpacing, line.y, Max(line.lineMax, finalSize.height)), wraps)
  }

  /** The frames so far and the cursor after them. */
  datatype Pass = Pass(frames: seq<Rect>, cursor: Cursor)

  /** The pass over the tag views showing `items`, in order. */
  function Run(items: seq<TagItem>, measure: (TagItem, real) -> Size, availableWidth: real, cfg: PassConfig): (pass: Pass)
    ensures |pass.frames| == |items|
    decreases |items|
  {
    if items == [] then Pass([], Start(cfg))
    else
      var before := Run(items[..|items| - 1], measure, availableWidth, cfg);
      var item := items[|items| - 1];
      var p := Place(before.cursor, item, measure, availableWidth, cfg);
      Pass(before.frames + [p.frame], p.next)
  }

  /** `contentHeight` of `performTagLayout`: the insets alone without items, else below the last line. */
  function PassContentHeight(items: seq<TagItem>, measure: (TagItem, real) -> Size, availableWidth: real, cfg: PassConfig): real {
    var c := Run(items, measure, availableWidth, cfg).cursor;
    if items == [] then cfg.insets.top + cfg.insets.bottom else c.y + c.lineMax + cfg.insets.bottom
  }

  lemma RunPrefix(items: seq<TagItem>, measure: (TagItem, real) -> Size, availableWidth: real, cfg: PassConfig, i: nat)
    requires i < |items|
    ensures var before := Run(items[..i], measure, availableWidth, cfg);
      var item := items[i];
      Run(items[..i + 1], measure, availableWidth, cfg)
        == Pass(before.frames + [Place(before.cursor, item, measure, availableWidth, cfg).frame],
                Place(before.cursor, item, measure, availableWidth, cfg).next)
  {
    assert items[..i + 1][..i] == items[..i];
  }

  /** Laying out more items never moves the ones already placed. */
  lemma {:induction false} RunExtends(items: seq<TagItem>, measure: (TagItem, real) -> Size, availableWidth: real, cfg: PassConfig, i: nat)
    requires i <= |items|
    ensures Run(items[..i], measure, availableWidth, cfg).frames == Run(items, measure, availableWidth, cfg).frames[..i]
    decreases |items| - i
  {
    if i < |items| {
      RunExtends(items, measure, availableWidth, cfg, i + 1);
      RunPrefix(items, measure, availableWidth, cfg, i);
      var f := Run(items, measure, availableWidth, cfg).frames;
      assert f[..i + 1][..i] == f[..i];
    } else {
      assert items[..i] == items;
    }
  }

  /** The first tag always lands at the top-left inset corner. */
  lemma FirstTagAtOrigin(items: seq<TagItem>, measure: (TagItem, real) -> Size, availableWidth: real, cfg: PassConfig)
    requires items != []
    ensures Run(items, measure, availableWidth, cfg).frames[0].x == cfg.insets.left
    ensures Run(items, measure, availableWidth, cfg).frames[0].y == cfg.insets.top
  {
    RunExtends(items, measure, availableWidth, cfg, 1);
    RunPrefix(items, measure, availableWidth, cfg, 0);
    assert items[..0] == [];
  }

  /** Measurements in the pass report non-negative widths. */
  ghost predicate WidthsNonNegative(items: seq<TagItem>, measure: (TagItem, real) -> Size) {
    forall i, w :: 0 <= i < |items| ==> measure(items[i], w).width >= 0.0
  }

  /** Measurements in the pass report non-negative heights. */
  ghost predicate HeightsNonNegative(items: seq<TagItem>, measure: (TagItem, real) -> Size) {
    forall i, w :: 0 <= i < |items| ==> measure(items[i], w).height >= 0.0
  }

  /**
    With non-negative widths and horizontal spacing, no tag starts left of the
    left inset, and neither does the cursor.
   */
  lemma {:induction false} NoTagLeftOfInset(items: seq<TagItem>, measure: (TagItem, real) -> Size, availableWidth: real, cfg: PassConfig)
    requires WidthsNonNegative(items, measure) && cfg.horizontalSpacing >= 0.0
    ensures var pass := Run(items, measure, availableWidth, cfg);
      && pass.cursor.x >= cfg.insets.left
      && forall k :: 0 <= k < |pass.frames| ==> pass.frames[k].x >= cfg.insets.left
    decreases |items|
  {
    if items != [] {
      var n := |items| - 1;
      var prefix := items[..n];
      assert WidthsNonNegative(prefix, measure) by {
        forall i, w | 0 <= i < |prefix| ensures measure(prefix[i], w).width >= 0.0 {
          assert prefix[i] == items[i];
        }
      }
      NoTagLeftOfInset(prefix, measure, availableWidth, cfg);
      var before := Run(prefix, measure, availableWidth, cfg);
      var item := items[n];
      var p := Place(before.cursor, item, measure, availableWidth, cfg);
      assert p.frame.width == measure(item, RemainingWidth(availableWidth, cfg.insets.left, p.frame.x)).width;
    }
  }

  /**
    A tag is on the same line as the one before it unless it wrapped; a
    wrapped tag starts at the left inset one line lower: below the previous
    line's tallest tag plus the vertical spacing.
   */
  lemma LineChanges(items: seq<TagItem>, measure: (TagItem, real) -> Size, availableWidth: real, cfg: PassConfig, i: nat)
    requires 0 < i < |items|
    ensures var before := Run(items[..i], measure, availableWidth, cfg);
      var p := Place(before.cursor, items[i], measure, availableWidth, cfg);
      var frames := Run(items, measure, availableWidth, cfg).frames;
      && frames[i] == p.frame
      && (!p.wrapped ==> frames[i].y == frames[i - 1].y && frames[i].x == frames[i - 1].MaxX() + cfg.horizontalSpacing)
      && (p.wrapped ==> frames[i].x == cfg.insets.left && frames[i].y == frames[i - 1].y + before.cursor.lineMax + cfg.verticalSpacing)
  {
    var f := Run(items, measure, availableWidth, cfg).frames;
    var b2 := Run(items[..i - 1], measure, availableWidth, cfg);
    var q := Place(b2.cursor, items[i - 1], measure, availableWidth, cfg);
    var before := Run(items[..i], measure, availableWidth, cfg);
    var p := Place(before.cursor, items[i], measure, availableWidth, cfg);
    RunPrefix(items, measure, availableWidth, cfg, i);
    RunPrefix(items, measure, availableWidth, cfg, i - 1);
    assert before == Pass(b2.frames + [q.frame], q.next);
    RunExtends(items, measure, availableWidth, cfg, i + 1);
    RunExtends(items, measure, availableWidth, cfg, i);
    assert f[i] == (before.frames + [p.frame])[i] == p.frame;
    assert f[i - 1] == before.frames[i - 1] == q.frame;
  }

  /** max(top, every frame's maxY), as `intrinsicContentSize` folds it. */
  function MaxBottom(frames: seq<Rect>, top: real): (m: real)
    ensures m >= top
    ensures forall k :: 0 <= k < |frames| ==> frames[k].MaxY() <= m
    ensures m == top || exists k :: 0 <= k < |frames| && m == frames[k].MaxY()
  {
    if frames == [] then top else Max(MaxBottom(frames[..|frames| - 1], top), frames[|frames| - 1].MaxY())
  }

  /**
    The pass keeps the cursor on the lowest line: the tallest tag on that line
    ends lowest of all, at `y + lineMax`.
   */
  lemma {:induction false} CursorBelowFrames(items: seq<TagItem>, measure: (TagItem, real) -> Size, availableWidth: real, cfg: PassConfig)
    requires HeightsNonNegative(items, measure) && cfg.verticalSpacing >= 0.0
    ensures var pass := Run(items, measure, availableWidth, cfg);
      && pass.cursor.lineMax >= 0.0
      && pass.cursor.y >= cfg.insets.top
      && (items != [] ==> MaxBottom(pass.frames, cfg.insets.top) == pass.cursor.y + pass.cursor.lineMax)
    decreases |items|
  {
    if items != [] {
      var n := |items| - 1;
      var prefix := items[..n];
      HeightsPrefix(items, measure, n);
      CursorBelowFrames(prefix, measure, availableWidth, cfg);
      var before := Run(prefix, measure, availableWidth, cfg);
      var p := Place(before.cursor, items[n], measure, availableWidth, cfg);
      assert p.frame.height == measure(items[n], RemainingWidth(availableWidth, cfg.insets.left, p.frame.x)).height;
      assert Run(items, measure, availableWidth, cfg) == Pass(before.frames + [p.frame], p.next);
      CursorBelowStep(before, p, cfg);
    }
  }

  /** One placement keeps the cursor on the lowest line. */
  lemma CursorBelowStep(before: Pass, p: Placement, cfg: PassConfig)
    requires cfg.verticalSpacing >= 0.0 && p.frame.height >= 0.0
    requires before.cursor.lineMax >= 0.0 && before.cursor.y >= cfg.insets.top
    requires before.frames == [] ==> before.cursor.lineMax == 0.0
    requires before.frames != [] ==> MaxBottom(before.frames, cfg.insets.top) == before.cursor.y + before.cursor.lineMax
    requires p.frame.y == (if p.wrapped then before.cursor.y + before.cursor.lineMax + cfg.verticalSpacing else before.cursor.y)
    requires p.next.y == p.frame.y
    requires p.next.lineMax == Max(if p.wrapped then 0.0 else before.cursor.lineMax, p.frame.height)
    ensures p.next.lineMax >= 0.0 && p.next.y >= cfg.insets.top
    ensures MaxBottom(before.frames + [p.frame], cfg.insets.top) == p.next.y + p.next.lineMax
  {
    var frames := before.frames + [p.frame];
    assert frames[..|frames| - 1] == before.frames;
  }

  /**
    With non-negative heights and vertical spacing, the adaptive intrinsic
    height (lowest frame bottom, at least the top inset, plus the bottom
    inset) equals the content height of the pass that produced the frames.
   */
  lemma IntrinsicMatchesContentHeight(items: seq<TagItem>, measure: (TagItem, real) -> Size, availableWidth: real, cfg: PassConfig)
    requires HeightsNonNegative(items, measure) && cfg.verticalSpacing >= 0.0
    requires items != []
    ensures MaxBottom(Run(items, measure, availableWidth, cfg).frames, cfg.insets.top) + cfg.insets.bottom
         == PassContentHeight(items, measure, availableWidth, cfg)
  {
    CursorBelowFrames(items, measure, availableWidth, cfg);
  }

  /** With non-negative heights and vertical spacing, later tags never sit higher than earlier ones. */
  lemma {:induction false} LinesGoDown(items: seq<TagItem>, measure: (TagItem, real) -> Size, availableWidth: real, cfg: PassConfig)
    requires HeightsNonNegative(items, measure) && cfg.verticalSpacing >= 0.0
    ensures var pass := Run(items, measure, availableWidth, cfg);
      && (forall k :: 0 <= k < |pass.frames| ==> pass.frames[k].y <= pass.cursor.y)
      && (forall j, k :: 0 <= j < k < |pass.frames| ==> pass.frames[j].y <= pass.frames[k].y)
    decreases |items|
  {
    if items != [] {
      var n := |items| - 1;
      var prefix := items[..n];
      HeightsPrefix(items, measure, n);
      LinesGoDown(prefix, measure, availableWidth, cfg);
      CursorBelowFrames(prefix, measure, availableWidth, cfg);
      var before := Run(prefix, measure, availableWidth, cfg);
      var p := Place(before.cursor, items[n], measure, availableWidth, cfg);
      var pass := Run(items, measure, availableWidth, cfg);
      assert pass == Pass(before.frames + [p.frame], p.next);
      assert before.cursor.y <= p.frame.y;
      DescendAppend(before.frames, before.cursor.y, p.frame);
      assert pass.cursor.y == p.frame.y;
    }
  }

  lemma HeightsPrefix(items: seq<TagItem>, measure: (TagItem, real) -> Size, n: nat)
    requires HeightsNonNegative(items, measure) && n <= |items|
    ensures HeightsNonNegative(items[..n], measure)
  {
    var prefix := items[..n];
    forall i, w | 0 <= i < |prefix| ensures measure(prefix[i], w).height >= 0.0 {
      assert prefix[i] == items[i];
    }
  }

  /** A frame placed no higher than the cursor keeps a descending list of frames descending. */
  lemma DescendAppend(frames: seq<Rect>, cursorY: real, frame: Rect)
    requires forall k :: 0 <= k < |frames| ==> frames[k].y <= cursorY
    requires forall j, k :: 0 <= j < k < |frames| ==> frames[j].y <= frames[k].y
    requires cursorY <= frame.y
    ensures var all := frames + [frame];
      && (forall k :: 0 <= k < |all| ==> all[k].y <= frame.y)
      && (forall j, k :: 0 <= j < k < |all| ==> all[j].y <= all[k].y)
  {
  }
}
