/**
  The row-grouping layout of BRFlexTagView (the TagListView copy): greedy,
  order-preserving line packing of measured tags, per-row alignment, the
  frame every tag receives and the content height of the whole layout.

  `PackFrom` follows the packing loop of `calculateLineGroups` step by step;
  `WellPacked` states, independently of that loop, what a correct packing is,
  and `LineGroupsCharacterization` proves that the loop's result is exactly
  the one packing with that property.
 */
module LinePacking {
  import opened Geometry

  /** TagInfo: a tag view (by its position in `tagViews`) and its measured size. */
  datatype TagInfo = TagInfo(view: nat, size: Size)

  /** LineGroup: the tags of one row, their accumulated width and the tallest height. */
  datatype LineGroup = LineGroup(tags: seq<TagInfo>, totalWidth: real, maxHeight: real)

  /** LineAlignment */
  datatype LineAlignment = Left | Center | Right

  /** The measured tag views, in order: view i measured as `sizes[i]`. */
  function TagInfos(sizes: seq<Size>): (infos: seq<TagInfo>)
    ensures |infos| == |sizes|
    ensures forall i :: 0 <= i < |infos| ==> infos[i] == TagInfo(i, sizes[i])
  {
    seq(|sizes|, i requires 0 <= i < |sizes| => TagInfo(i, sizes[i]))
  }

  // ---------------------------------------------------------------------------
  // Row measures

  function SumWidths(tags: seq<TagInfo>): real {
    if tags == [] then 0.0 else SumWidths(tags[..|tags| - 1]) + tags[|tags| - 1].size.width
  }

  /** The width a row occupies: its tags' widths plus the gaps between them. */
  function RowWidth(tags: seq<TagInfo>, spacing: real): real {
    if tags == [] then 0.0 else SumWidths(tags) + (|tags| - 1) as real * spacing
  }

  /** The tallest height in a row, starting from 0 as `currentLineMaxHeight` does. */
  function RowMaxHeight(tags: seq<TagInfo>): (m: real)
    ensures m >= 0.0
    ensures forall k :: 0 <= k < |tags| ==> tags[k].size.height <= m
    ensures m == 0.0 || exists k :: 0 <= k < |tags| && m == tags[k].size.height
  {
    if tags == [] then 0.0 else Max(RowMaxHeight(tags[..|tags| - 1]), tags[|tags| - 1].size.height)
  }

  lemma RowWidthAppend(tags: seq<TagInfo>, t: TagInfo, spacing: real)
    requires tags != []
    ensures RowWidth(tags + [t], spacing) == RowWidth(tags, spacing) + spacing + t.size.width
  {
    assert (tags + [t])[..|tags|] == tags;
    var n := |tags| as real;
    assert (n + 1.0 - 1.0) * spacing == (n - 1.0) * spacing + spacing;
  }

  lemma RowMaxHeightAppend(tags: seq<TagInfo>, t: TagInfo)
    ensures RowMaxHeight(tags + [t]) == Max(RowMaxHeight(tags), t.size.height)
  {
    assert (tags + [t])[..|tags|] == tags;
  }

  // ---------------------------------------------------------------------------
  // The packing loop, as a function

  /**
    One pass of the loop of `calculateLineGroups` over the remaining tags
    `infos`, with the row under construction (`cur`, `curWidth`, `curMax`).
    A tag closes the current row when the row is not empty and the width it
    would need exceeds `availableWidth`; otherwise it joins the row.
   */
  function PackFrom(infos: seq<TagInfo>, availableWidth: real, spacing: real,
                    cur: seq<TagInfo>, curWidth: real, curMax: real): seq<LineGroup>
    decreases |infos|
  {
    if infos == [] then
      if cur == [] then [] else [LineGroup(cur, curWidth, curMax)]
    else
      var t := infos[0];
      var widthNeeded := curWidth + t.size.width + (if cur == [] then 0.0 else spacing);
      var wraps := widthNeeded > availableWidth && cur != [];
      var closed := if wraps then [LineGroup(cur, curWidth, curMax)] else [];
      var open := if wraps then [] else cur;
      var openWidth := if wraps then 0.0 else curWidth;
      var openMax := if wraps then 0.0 else curMax;
      var row := open + [t];
      var rowWidth := if |row| == 1 then t.size.width else openWidth + spacing + t.size.width;
      closed + PackFrom(infos[1..], availableWidth, spacing, row, rowWidth, Max(openMax, t.size.height))
  }

  /**
    One turn of the packing loop, on the tags from position i on: the tag
    either closes the current row (which is then emitted as `closed`) and
    opens a row of its own, or joins the current row; `next`, `nextWidth`
    and `nextMax` are the row under construction afterwards.
   */
  lemma PackFromStep(infos: seq<TagInfo>, i: nat, availableWidth: real, spacing: real,
                     cur: seq<TagInfo>, curWidth: real, curMax: real,
                     closed: seq<LineGroup>, next: seq<TagInfo>, nextWidth: real, nextMax: real)
    requires i < |infos|
    requires var t := infos[i];
      if curWidth + t.size.width + (if cur == [] then 0.0 else spacing) > availableWidth && cur != [] then
        closed == [LineGroup(cur, curWidth, curMax)] && next == [t] && nextWidth == t.size.width && nextMax == Max(0.0, t.size.height)
      else
        closed == [] && next == cur + [t] && nextMax == Max(curMax, t.size.height)
        && nextWidth == (if cur == [] then t.size.width else curWidth + spacing + t.size.width)
    ensures PackFrom(infos[i..], availableWidth, spacing, cur, curWidth, curMax)
         == closed + PackFrom(infos[i + 1..], availableWidth, spacing, next, nextWidth, nextMax)
  {
    assert infos[i..][0] == infos[i] && infos[i..][1..] == infos[i + 1..];
    assert [] + [infos[i]] == [infos[i]];
  }

  /**
    The invariant of the packing loop after `i` tags: the rows closed so far,
    followed by the packing of the remaining tags onto the row under
    construction, are the packing of all tags.
   */
  ghost predicate PackingAt(sizes: seq<Size>, availableWidth: real, spacing: real, i: nat,
                            groups: seq<LineGroup>, cur: seq<TagInfo>, curWidth: real, curMax: real) {
    && i <= |sizes|
    && LineGroups(sizes, availableWidth, spacing)
       == groups + PackFrom(TagInfos(sizes)[i..], availableWidth, spacing, cur, curWidth, curMax)
  }

  lemma PackingStart(sizes: seq<Size>, availableWidth: real, spacing: real)
    ensures PackingAt(sizes, availableWidth, spacing, 0, [], [], 0.0, 0.0)
  {
    assert TagInfos(sizes)[0..] == TagInfos(sizes);
  }

  /**
    One turn of the packing loop keeps its invariant: the tag `t` at `i`
    needs `widthNeeded` on the current row; when that row `wrapped`, it was
    closed and `t` starts the next one, otherwise `t` joins it.
   */
  lemma PackingAdvance(sizes: seq<Size>, availableWidth: real, spacing: real, i: nat,
                       groups: seq<LineGroup>, cur: seq<TagInfo>, curWidth: real, curMax: real,
                       t: TagInfo, widthNeeded: real, wrapped: bool,
                       nextGroups: seq<LineGroup>, next: seq<TagInfo>, nextWidth: real, nextMax: real)
    requires PackingAt(sizes, availableWidth, spacing, i, groups, cur, curWidth, curMax) && i < |sizes|
    requires t == TagInfo(i, sizes[i])
    requires widthNeeded == curWidth + t.size.width + (if cur == [] then 0.0 else spacing)
    requires wrapped == (widthNeeded > availableWidth && cur != [])
    requires wrapped ==> nextGroups == groups + [LineGroup(cur, curWidth, curMax)] && next == [t]
                         && nextWidth == t.size.width && nextMax == Max(0.0, t.size.height)
    requires !wrapped ==> nextGroups == groups && next == cur + [t] && nextMax == Max(curMax, t.size.height)
                          && nextWidth == (if cur == [] then t.size.width else curWidth + spacing + t.size.width)
    ensures PackingAt(sizes, availableWidth, spacing, i + 1, nextGroups, next, nextWidth, nextMax)
  {
    var infos := TagInfos(sizes);
    var closed := if wrapped then [LineGroup(cur, curWidth, curMax)] else [];
    PackFromStep(infos, i, availableWidth, spacing, cur, curWidth, curMax, closed, next, nextWidth, nextMax);
    var rest := PackFrom(infos[i + 1..], availableWidth, spacing, next, nextWidth, nextMax);
    assert groups + (closed + rest) == (groups + closed) + rest;
    assert nextGroups == groups + closed;
  }

  /** After the last tag, closing the row under construction completes the packing. */
  lemma PackingEnd(sizes: seq<Size>, availableWidth: real, spacing: real,
                   groups: seq<LineGroup>, cur: seq<TagInfo>, curWidth: real, curMax: real)
    requires PackingAt(sizes, availableWidth, spacing, |sizes|, groups, cur, curWidth, curMax)
    ensures LineGroups(sizes, availableWidth, spacing)
         == groups + (if cur == [] then [] else [LineGroup(cur, curWidth, curMax)])
  {
    assert TagInfos(sizes)[|sizes|..] == [];
  }

  /** The line groups `calculateLineGroups(availableWidth:)` returns for tags measured as `sizes`. */
  function LineGroups(sizes: seq<Size>, availableWidth: real, spacing: real): seq<LineGroup> {
    PackFrom(TagInfos(sizes), availableWidth, spacing, [], 0.0, 0.0)
  }

  // ---------------------------------------------------------------------------
  // What a correct packing is

  /** The tags of all rows, row after row. */
  function FlattenTags(groups: seq<LineGroup>): seq<TagInfo> {
    if groups == [] then [] else groups[0].tags + FlattenTags(groups[1..])
  }

  /** Every prefix of two or more tags of the row fits the available width. */
  ghost predicate Fits(tags: seq<TagInfo>, availableWidth: real, spacing: real) {
    forall k :: 2 <= k <= |tags| ==> RowWidth(tags[..k], spacing) <= availableWidth
  }

  /** A row is non-empty, fits, and records its own width and tallest height. */
  ghost predicate GroupOk(g: LineGroup, availableWidth: real, spacing: real) {
    && g.tags != []
    && g.totalWidth == RowWidth(g.tags, spacing)
    && g.maxHeight == RowMaxHeight(g.tags)
    && Fits(g.tags, availableWidth, spacing)
  }

  /** No row could have taken the first tag of the row after it. */
  ghost predicate Greedy(groups: seq<LineGroup>, availableWidth: real, spacing: real)
    requires forall i :: 0 <= i < |groups| ==> groups[i].tags != []
  {
    forall i :: 0 <= i < |groups| - 1 ==>
      groups[i].totalWidth + spacing + groups[i + 1].tags[0].size.width > availableWidth
  }

  ghost predicate WellPacked(groups: seq<LineGroup>, availableWidth: real, spacing: real) {
    && (forall i :: 0 <= i < |groups| ==> GroupOk(groups[i], availableWidth, spacing))
    && Greedy(groups, availableWidth, spacing)
  }

  lemma FitsAppend(tags: seq<TagInfo>, t: TagInfo, availableWidth: real, spacing: real)
    requires Fits(tags, availableWidth, spacing)
    requires tags != [] ==> RowWidth(tags + [t], spacing) <= availableWidth
    ensures Fits(tags + [t], availableWidth, spacing)
  {
    forall k | 2 <= k <= |tags| + 1
      ensures RowWidth((tags + [t])[..k], spacing) <= availableWidth
    {
      if k <= |tags| {
        assert (tags + [t])[..k] == tags[..k];
      } else {
        assert (tags + [t])[..k] == tags + [t];
      }
    }
  }

  lemma SingleRow(t: TagInfo, spacing: real)
    ensures RowWidth([t], spacing) == t.size.width
    ensures RowMaxHeight([t]) == Max(0.0, t.size.height)
  {
    assert [t][..0] == [];
    assert SumWidths([t]) == SumWidths([]) + t.size.width;
  }

  /** A row followed by a well-packed grouping that the row could not have extended. */
  lemma WellPackedCons(g: LineGroup, rest: seq<LineGroup>, availableWidth: real, spacing: real)
    requires GroupOk(g, availableWidth, spacing) && WellPacked(rest, availableWidth, spacing)
    requires rest != [] ==> g.totalWidth + spacing + rest[0].tags[0].size.width > availableWidth
    ensures WellPacked([g] + rest, availableWidth, spacing)
  {
    var gs := [g] + rest;
    assert forall i :: 1 <= i < |gs| ==> gs[i] == rest[i - 1];
  }

  /**
    The packing loop, started with any consistent row under construction,
    emits that row's tags followed by all remaining tags, in order, in
    well-packed rows whose first row begins with the row under construction.
   */
  lemma {:induction false} PackFromCorrect(infos: seq<TagInfo>, availableWidth: real, spacing: real,
                                           cur: seq<TagInfo>, curWidth: real, curMax: real)
    requires curWidth == RowWidth(cur, spacing) && curMax == RowMaxHeight(cur)
    requires Fits(cur, availableWidth, spacing)
    ensures var groups := PackFrom(infos, availableWidth, spacing, cur, curWidth, curMax);
      && FlattenTags(groups) == cur + infos
      && WellPacked(groups, availableWidth, spacing)
      && (cur != [] ==> groups != [] && groups[0].tags[0] == cur[0])
    decreases |infos|, 1
  {
    if infos == [] {
      assert cur + infos == cur;
      if cur != [] {
        var groups := PackFrom(infos, availableWidth, spacing, cur, curWidth, curMax);
        assert FlattenTags(groups) == cur + FlattenTags([]);
      }
    } else {
      var t := infos[0];
      var widthNeeded := curWidth + t.size.width + (if cur == [] then 0.0 else spacing);
      if widthNeeded > availableWidth && cur != [] {
        PackFromWrapCorrect(infos, availableWidth, spacing, cur, curWidth, curMax);
      } else {
        PackFromJoinCorrect(infos, availableWidth, spacing, cur, curWidth, curMax);
      }
    }
  }

  /** The step that closes the current row. */
  lemma {:induction false} PackFromWrapCorrect(infos: seq<TagInfo>, availableWidth: real, spacing: real,
                                               cur: seq<TagInfo>, curWidth: real, curMax: real)
    requires curWidth == RowWidth(cur, spacing) && curMax == RowMaxHeight(cur)
    requires Fits(cur, availableWidth, spacing)
    requires infos != [] && cur != [] && curWidth + infos[0].size.width + spacing > availableWidth
    ensures var groups := PackFrom(infos, availableWidth, spacing, cur, curWidth, curMax);
      && FlattenTags(groups) == cur + infos
      && WellPacked(groups, availableWidth, spacing)
      && groups != [] && groups[0].tags[0] == cur[0]
    decreases |infos|, 0
  {
    var t := infos[0];
    var g := LineGroup(cur, curWidth, curMax);
    SingleRow(t, spacing);
    assert [] + [t] == [t];
    var rest := PackFrom(infos[1..], availableWidth, spacing, [t], t.size.width, Max(0.0, t.size.height));
    var groups := PackFrom(infos, availableWidth, spacing, cur, curWidth, curMax);
    assert groups == [g] + rest;
    FitsAppend([], t, availableWidth, spacing);
    PackFromCorrect(infos[1..], availableWidth, spacing, [t], t.size.width, Max(0.0, t.size.height));
    WellPackedCons(g, rest, availableWidth, spacing);
    assert groups[1..] == rest;
    assert FlattenTags(groups) == cur + FlattenTags(rest);
    assert infos == [t] + infos[1..];
  }

  /** The loop body when the next tag joins the current row. */
  lemma PackFromJoinUnfold(infos: seq<TagInfo>, availableWidth: real, spacing: real,
                           cur: seq<TagInfo>, curWidth: real, curMax: real)
    requires infos != []
    requires !(curWidth + infos[0].size.width + (if cur == [] then 0.0 else spacing) > availableWidth && cur != [])
    ensures PackFrom(infos, availableWidth, spacing, cur, curWidth, curMax)
         == PackFrom(infos[1..], availableWidth, spacing, cur + [infos[0]],
                     if cur == [] then infos[0].size.width else curWidth + spacing + infos[0].size.width,
                     Max(curMax, infos[0].size.height))
  {
    assert [] + [infos[0]] == [infos[0]];
  }

  /** A tag that joins a consistent current row leaves it consistent: width, tallest height and fit. */
  lemma JoinRow(cur: seq<TagInfo>, t: TagInfo, availableWidth: real, spacing: real, curWidth: real, curMax: real)
    requires curWidth == RowWidth(cur, spacing) && curMax == RowMaxHeight(cur)
    requires Fits(cur, availableWidth, spacing)
    requires !(curWidth + t.size.width + (if cur == [] then 0.0 else spacing) > availableWidth && cur != [])
    ensures (if cur == [] then t.size.width else curWidth + spacing + t.size.width) == RowWidth(cur + [t], spacing)
    ensures Max(curMax, t.size.height) == RowMaxHeight(cur + [t])
    ensures Fits(cur + [t], availableWidth, spacing)
  {
    if cur != [] {
      RowWidthAppend(cur, t, spacing);
    } else {
      assert cur + [t] == [t];
      SingleRow(t, spacing);
    }
    RowMaxHeightAppend(cur, t);
    FitsAppend(cur, t, availableWidth, spacing);
  }

  /** The step that adds a tag to the current row. */
  lemma {:induction false} PackFromJoinCorrect(infos: seq<TagInfo>, availableWidth: real, spacing: real,
                                               cur: seq<TagInfo>, curWidth: real, curMax: real)
    requires curWidth == RowWidth(cur, spacing) && curMax == RowMaxHeight(cur)
    requires Fits(cur, availableWidth, spacing)
    requires infos != []
    requires !(curWidth + infos[0].size.width + (if cur == [] then 0.0 else spacing) > availableWidth && cur != [])
    ensures var groups := PackFrom(infos, availableWidth, spacing, cur, curWidth, curMax);
      && FlattenTags(groups) == cur + infos
      && WellPacked(groups, availableWidth, spacing)
      && groups != [] && groups[0].tags[0] == (cur + infos)[0]
    decreases |infos|, 0
  {
    var t := infos[0];
    var row := cur + [t];
    var rowWidth := if cur == [] then t.size.width else curWidth + spacing + t.size.width;
    var rowMax := Max(curMax, t.size.height);
    JoinRow(cur, t, availableWidth, spacing, curWidth, curMax);
    PackFromJoinUnfold(infos, availableWidth, spacing, cur, curWidth, curMax);
    var groups := PackFrom(infos, availableWidth, spacing, cur, curWidth, curMax);
    assert groups == PackFrom(infos[1..], availableWidth, spacing, row, rowWidth, rowMax);
    PackFromCorrect(infos[1..], availableWidth, spacing, row, rowWidth, rowMax);
    ShiftFirst(cur, infos);
  }

  /** Moving the first remaining tag onto the current row keeps the tags and their order. */
  lemma ShiftFirst<T>(cur: seq<T>, infos: seq<T>)
    requires infos != []
    ensures cur + infos == (cur + [infos[0]]) + infos[1..]
    ensures (cur + [infos[0]])[0] == (cur + infos)[0]
  {
    assert infos == [infos[0]] + infos[1..];
  }

  /** Flattening the line groups gives back the measured tag views exactly, and the packing is well-formed. */
  lemma LineGroupsCorrect(sizes: seq<Size>, availableWidth: real, spacing: real)
    ensures FlattenTags(LineGroups(sizes, availableWidth, spacing)) == TagInfos(sizes)
    ensures WellPacked(LineGroups(sizes, availableWidth, spacing), availableWidth, spacing)
  {
    assert RowWidth([], spacing) == 0.0;
    PackFromCorrect(TagInfos(sizes), availableWidth, spacing, [], 0.0, 0.0);
    assert [] + TagInfos(sizes) == TagInfos(sizes);
  }

  /** The line groups hold the measured tag views in order, each once. */
  lemma LineGroupsInOrder(sizes: seq<Size>, availableWidth: real, spacing: real)
    ensures FlattenTags(LineGroups(sizes, availableWidth, spacing)) == TagInfos(sizes)
  {
    LineGroupsCorrect(sizes, availableWidth, spacing);
  }

  lemma FlattenEmpty(groups: seq<LineGroup>)
    requires forall i :: 0 <= i < |groups| ==> groups[i].tags != []
    ensures FlattenTags(groups) == [] <==> groups == []
  {
    if groups != [] {
      assert |FlattenTags(groups)| >= |groups[0].tags| > 0;
    }
  }

  /** There are no line groups exactly when there are no tags. */
  lemma LineGroupsEmpty(sizes: seq<Size>, availableWidth: real, spacing: real)
    ensures LineGroups(sizes, availableWidth, spacing) == [] <==> sizes == []
  {
    var groups := LineGroups(sizes, availableWidth, spacing);
    LineGroupsCorrect(sizes, availableWidth, spacing);
    FlattenEmpty(groups);
  }

  /** A row of two or more tags never exceeds the available width; only a single tag may. */
  lemma WidthBound(groups: seq<LineGroup>, availableWidth: real, spacing: real, i: nat)
    requires WellPacked(groups, availableWidth, spacing)
    requires i < |groups| && |groups[i].tags| >= 2
    ensures groups[i].totalWidth <= availableWidth
  {
    assert groups[i].tags[..|groups[i].tags|] == groups[i].tags;
  }

  lemma WellPackedTail(groups: seq<LineGroup>, availableWidth: real, spacing: real)
    requires groups != [] && WellPacked(groups, availableWidth, spacing)
    ensures WellPacked(groups[1..], availableWidth, spacing)
  {
    forall i | 0 <= i < |groups[1..]| - 1
      ensures groups[1..][i].totalWidth + spacing + groups[1..][i + 1].tags[0].size.width > availableWidth
    {
      assert groups[1..][i] == groups[i + 1] && groups[1..][i + 1] == groups[i + 2];
    }
  }

  /**
    A well-packed row cannot stop before a tag that a well-packed row starting
    at the same tag keeps: the two first rows have the same length.
   */
  lemma FirstRowLength(g1: seq<LineGroup>, g2: seq<LineGroup>, availableWidth: real, spacing: real)
    requires g1 != [] && g2 != []
    requires WellPacked(g1, availableWidth, spacing) && WellPacked(g2, availableWidth, spacing)
    requires FlattenTags(g1) == FlattenTags(g2)
    ensures |g1[0].tags| <= |g2[0].tags|
  {
  }

  /** Two well-packed groupings of the same tags are the same grouping. */
  lemma {:induction false} WellPackedUnique(g1: seq<LineGroup>, g2: seq<LineGroup>, availableWidth: real, spacing: real)
    requires WellPacked(g1, availableWidth, spacing) && WellPacked(g2, availableWidth, spacing)
    requires FlattenTags(g1) == FlattenTags(g2)
    ensures g1 == g2
    decreases |g1|
  {
    FlattenEmpty(g1);
    FlattenEmpty(g2);
    if g1 != [] && g2 != [] {
      FirstRowLength(g1, g2, availableWidth, spacing);
      FirstRowLength(g2, g1, availableWidth, spacing);
      var a := |g1[0].tags|;
      var flat := FlattenTags(g1);
      assert flat == g1[0].tags + FlattenTags(g1[1..]);
      assert flat == g2[0].tags + FlattenTags(g2[1..]);
      assert g1[0].tags == flat[..a] == g2[0].tags;
      assert g1[0] == g2[0];
      assert FlattenTags(g1[1..]) == flat[a..] == FlattenTags(g2[1..]);
      WellPackedTail(g1, availableWidth, spacing);
      WellPackedTail(g2, availableWidth, spacing);
      WellPackedUnique(g1[1..], g2[1..], availableWidth, spacing);
      assert g1 == [g1[0]] + g1[1..];
      assert g2 == [g2[0]] + g2[1..];
    }
  }

  /**
    The line groups are exactly the well-packed grouping of the measured tags
    in their order: order-preserving, every row non-empty and fitting unless
    it holds one tag, and greedy.
   */
  lemma LineGroupsCharacterization(sizes: seq<Size>, availableWidth: real, spacing: real, groups: seq<LineGroup>)
    ensures groups == LineGroups(sizes, availableWidth, spacing)
        <==> (FlattenTags(groups) == TagInfos(sizes) && WellPacked(groups, availableWidth, spacing))
  {
    LineGroupsCorrect(sizes, availableWidth, spacing);
    if FlattenTags(groups) == TagInfos(sizes) && WellPacked(groups, availableWidth, spacing) {
      WellPackedUnique(groups, LineGroups(sizes, availableWidth, spacing), availableWidth, spacing);
    }
  }

  lemma SumWidthsNonNegative(tags: seq<TagInfo>)
    requires forall k :: 0 <= k < |tags| ==> tags[k].size.width >= 0.0
    ensures SumWidths(tags) >= 0.0
  {
    if tags != [] {
      SumWidthsNonNegative(tags[..|tags| - 1]);
    }
  }

  /**
    With a negative available width, non-negative tag widths and spacing,
    every tag gets a row of its own (the degenerate single-column layout).
   */
  lemma NegativeWidthSingleColumn(sizes: seq<Size>, availableWidth: real, spacing: real)
    requires availableWidth < 0.0 && spacing >= 0.0
    requires forall i :: 0 <= i < |sizes| ==> sizes[i].width >= 0.0
    ensures var groups := LineGroups(sizes, availableWidth, spacing);
      |groups| == |sizes| && forall r :: 0 <= r < |groups| ==> |groups[r].tags| == 1
  {
    var groups := LineGroups(sizes, availableWidth, spacing);
    LineGroupsCorrect(sizes, availableWidth, spacing);
    forall r | 0 <= r < |groups| ensures |groups[r].tags| == 1 {
      if |groups[r].tags| >= 2 {
        var tags := groups[r].tags;
        FlattenMember(groups, r);
        forall k | 0 <= k < 2 ensures tags[k].size.width >= 0.0 {
          assert tags[k] in TagInfos(sizes);
        }
        assert tags[..2][..1] == [tags[0]];
        assert tags[..2] == [tags[0], tags[1]];
        assert RowWidth(tags[..2], spacing) <= availableWidth;
        SumWidthsNonNegative(tags[..2]);
        assert false;
      }
    }
    FlattenLength(groups);
    SumOfOnes(groups);
  }

  /** Every tag of every row is one of the flattened tags. */
  lemma FlattenMember(groups: seq<LineGroup>, r: nat)
    requires r < |groups|
    ensures forall t :: t in groups[r].tags ==> t in FlattenTags(groups)
  {
    if r > 0 {
      FlattenMember(groups[1..], r - 1);
      assert groups[1..][r - 1] == groups[r];
    }
  }

  function TagCount(groups: seq<LineGroup>): nat {
    if groups == [] then 0 else |groups[0].tags| + TagCount(groups[1..])
  }

  lemma FlattenLength(groups: seq<LineGroup>)
    ensures |FlattenTags(groups)| == TagCount(groups)
  {
    if groups != [] {
      FlattenLength(groups[1..]);
    }
  }

  lemma SumOfOnes(groups: seq<LineGroup>)
    requires forall r :: 0 <= r < |groups| ==> |groups[r].tags| == 1
    ensures TagCount(groups) == |groups|
  {
    if groups != [] {
      assert forall r :: 0 <= r < |groups[1..]| ==> groups[1..][r] == groups[r + 1];
      SumOfOnes(groups[1..]);
    }
  }

  // ---------------------------------------------------------------------------
  // Alignment

  /**
    `calculateAlignmentOffset`: how far a row of width `totalWidth` is moved
    right inside `availableWidth`. A row that fits gets equal margins when
    centred and no right margin when right-aligned; a row that does not fit
    is never moved left of the content edge.
   */
  function AlignmentOffset(alignment: LineAlignment, totalWidth: real, availableWidth: real): (r: real)
    ensures 0.0 <= r <= Max(0.0, availableWidth - totalWidth)
    ensures alignment == Left ==> r == 0.0
    ensures totalWidth > availableWidth ==> r == 0.0
    ensures alignment == Center && totalWidth <= availableWidth ==> r + totalWidth + r == availableWidth
    ensures alignment == Right && totalWidth <= availableWidth ==> r + totalWidth == availableWidth
  {
    match alignment
    case Left => 0.0
    case Center => Max(0.0, (availableWidth - totalWidth) / 2.0)
    case Right => Max(0.0, availableWidth - totalWidth)
  }

  /** An aligned row that fits stays inside the content area. */
  lemma AlignedRowInside(alignment: LineAlignment, totalWidth: real, availableWidth: real)
    requires 0.0 <= totalWidth <= availableWidth
    ensures 0.0 <= AlignmentOffset(alignment, totalWidth, availableWidth)
    ensures AlignmentOffset(alignment, totalWidth, availableWidth) + totalWidth <= availableWidth
  {
  }

  // ---------------------------------------------------------------------------
  // Frames

  /**
    The frames the inner loop of `performTagLayout` gives a row's tags,
    starting at `x` on the line `y`: each tag keeps its measured size, all sit
    on the same line, and each starts `spacing` after the previous one ends.
   */
  function RowFrames(tags: seq<TagInfo>, x: real, y: real, spacing: real): (r: seq<Rect>)
    ensures |r| == |tags|
    decreases |tags|
  {
    if tags == [] then []
    else [Rect(x, y, tags[0].size.width, tags[0].size.height)] + RowFrames(tags[1..], x + tags[0].size.width + spacing, y, spacing)
  }

  /**
    The shape of a row's frames: each tag keeps its measured size, all sit on
    the line `y`, the first starts at `x` and each next one starts `spacing`
    after the previous one ends.
   */
  lemma {:induction false} RowFramesShape(tags: seq<TagInfo>, x: real, y: real, spacing: real)
    ensures var r := RowFrames(tags, x, y, spacing);
      && (forall k :: 0 <= k < |r| ==>
            r[k].y == y && r[k].width == tags[k].size.width && r[k].height == tags[k].size.height)
      && (r != [] ==> r[0].x == x)
      && (forall k :: 0 <= k < |r| - 1 ==> r[k + 1].x == r[k].MaxX() + spacing)
    decreases |tags|
  {
    if tags != [] {
      var x1 := x + tags[0].size.width + spacing;
      var rest := RowFrames(tags[1..], x1, y, spacing);
      RowFramesShape(tags[1..], x1, y, spacing);
      var r := RowFrames(tags, x, y, spacing);
      assert r == [Rect(x, y, tags[0].size.width, tags[0].size.height)] + rest;
      assert forall k :: 1 <= k < |r| ==> r[k] == rest[k - 1];
    }
  }

  /** The k-th tag of a row starts after the row's first k tags and their gaps. */
  lemma {:induction false} RowFrameX(tags: seq<TagInfo>, x: real, y: real, spacing: real, k: nat)
    requires k < |tags|
    ensures RowFrames(tags, x, y, spacing)[k].x == x + RowWidth(tags[..k], spacing) + (if k == 0 then 0.0 else spacing)
  {
    RowFramesShape(tags, x, y, spacing);
    if k == 0 {
      assert tags[..0] == [];
    } else {
      RowFrameX(tags, x, y, spacing, k - 1);
      assert tags[..k] == tags[..k - 1] + [tags[k - 1]];
      if k == 1 {
        SingleRow(tags[0], spacing);
        assert tags[..0] == [];
      } else {
        RowWidthAppend(tags[..k - 1], tags[k - 1], spacing);
      }
    }
  }

  /** The last tag of a non-empty row ends `RowWidth` after the row's start. */
  lemma RowFramesExtent(tags: seq<TagInfo>, x: real, y: real, spacing: real)
    requires tags != []
    ensures RowFrames(tags, x, y, spacing)[|tags| - 1].MaxX() == x + RowWidth(tags, spacing)
  {
    RowFrameEnd(tags, x, y, spacing, |tags| - 1);
    assert tags[..|tags|] == tags;
  }

  /** Tag k of a row ends the width of the row's first k + 1 tags after the row's start. */
  lemma RowFrameEnd(tags: seq<TagInfo>, x: real, y: real, spacing: real, k: nat)
    requires k < |tags|
    ensures RowFrames(tags, x, y, spacing)[k].MaxX() == x + RowWidth(tags[..k + 1], spacing)
  {
    RowFramesShape(tags, x, y, spacing);
    RowFrameX(tags, x, y, spacing, k);
    assert tags[..k + 1] == tags[..k] + [tags[k]];
    if k == 0 {
      SingleRow(tags[0], spacing);
      assert tags[..0] == [];
    } else {
      RowWidthAppend(tags[..k], tags[k], spacing);
    }
  }

  lemma {:induction false} RowWidthPrefixMonotone(tags: seq<TagInfo>, spacing: real, k: nat)
    requires 1 <= k <= |tags| && spacing >= 0.0
    requires forall j :: 0 <= j < |tags| ==> tags[j].size.width >= 0.0
    ensures RowWidth(tags[..k], spacing) <= RowWidth(tags, spacing)
    decreases |tags| - k
  {
    if k < |tags| {
      RowWidthPrefixMonotone(tags, spacing, k + 1);
      assert tags[..k + 1] == tags[..k] + [tags[k]];
      RowWidthAppend(tags[..k], tags[k], spacing);
    } else {
      assert tags[..k] == tags;
    }
  }

  /**
    With non-negative widths and spacing, every tag of a row that fits the
    available width lies horizontally inside the content area
    [`left`, `left + availableWidth`], whatever the alignment.
   */
  lemma RowInsideContent(tags: seq<TagInfo>, alignment: LineAlignment, availableWidth: real,
                         left: real, y: real, spacing: real)
    requires spacing >= 0.0
    requires forall j :: 0 <= j < |tags| ==> tags[j].size.width >= 0.0
    requires RowWidth(tags, spacing) <= availableWidth
    ensures var frames := RowFrames(tags, left + AlignmentOffset(alignment, RowWidth(tags, spacing), availableWidth), y, spacing);
      forall k :: 0 <= k < |frames| ==> left <= frames[k].x && frames[k].MaxX() <= left + availableWidth
  {
    var tw := RowWidth(tags, spacing);
    var off := AlignmentOffset(alignment, tw, availableWidth);
    var frames := RowFrames(tags, left + off, y, spacing);
    SumWidthsNonNegative(tags);
    AlignedRowInside(alignment, tw, availableWidth);
    forall k | 0 <= k < |frames|
      ensures left <= frames[k].x && frames[k].MaxX() <= left + availableWidth
    {
      TagInside(tags, left + off, y, spacing, k);
    }
  }

  lemma TagInside(tags: seq<TagInfo>, x: real, y: real, spacing: real, k: nat)
    requires spacing >= 0.0 && k < |tags|
    requires forall j :: 0 <= j < |tags| ==> tags[j].size.width >= 0.0
    ensures x <= RowFrames(tags, x, y, spacing)[k].x
    ensures RowFrames(tags, x, y, spacing)[k].MaxX() <= x + RowWidth(tags, spacing)
  {
    RowFrameX(tags, x, y, spacing, k);
    RowFrameEnd(tags, x, y, spacing, k);
    if k > 0 {
      SumWidthsNonNegative(tags[..k]);
    }
    RowWidthPrefixMonotone(tags, spacing, k + 1);
  }

  /** Layout parameters of a pass: insets, spacings and alignment. */
  datatype LayoutConfig = LayoutConfig(insets: Insets, horizontalSpacing: real, verticalSpacing: real, alignment: LineAlignment)

  /** Σ (maxHeight + verticalSpacing) over the rows: how far the rows advance the line position. */
  function StackHeight(groups: seq<LineGroup>, verticalSpacing: real): real {
    if groups == [] then 0.0 else groups[0].maxHeight + verticalSpacing + StackHeight(groups[1..], verticalSpacing)
  }

  function SumMaxHeights(groups: seq<LineGroup>): real {
    if groups == [] then 0.0 else groups[0].maxHeight + SumMaxHeights(groups[1..])
  }

  lemma {:induction false} StackHeightClosedForm(groups: seq<LineGroup>, verticalSpacing: real)
    ensures StackHeight(groups, verticalSpacing) == SumMaxHeights(groups) + |groups| as real * verticalSpacing
  {
    if groups != [] {
      StackHeightClosedForm(groups[1..], verticalSpacing);
    }
  }

  /**
    The frames of the outer loop of `performTagLayout`, row after row from the
    line `y`: each row is shifted by its alignment offset from the left inset,
    and the next row starts its tallest tag's height plus the vertical
    spacing further down.
   */
  function LayoutFrames(groups: seq<LineGroup>, availableWidth: real, cfg: LayoutConfig, y: real): (r: seq<Rect>)
    ensures |r| == |FlattenTags(groups)|
  {
    if groups == [] then []
    else
      var g := groups[0];
      RowFrames(g.tags, cfg.insets.left + AlignmentOffset(cfg.alignment, g.totalWidth, availableWidth), y, cfg.horizontalSpacing)
        + LayoutFrames(groups[1..], availableWidth, cfg, y + g.maxHeight + cfg.verticalSpacing)
  }

  /**
    Where tag k of row r lands: at the line `y` advanced by the rows above it,
    at the alignment offset of its own row, with its measured size.
   */
  lemma {:induction false} FramePosition(groups: seq<LineGroup>, availableWidth: real, cfg: LayoutConfig,
                                         y: real, r: nat, k: nat)
    requires r < |groups| && k < |groups[r].tags|
    ensures TagCount(groups[..r]) + k < |LayoutFrames(groups, availableWidth, cfg, y)|
    ensures var g := groups[r];
      LayoutFrames(groups, availableWidth, cfg, y)[TagCount(groups[..r]) + k]
        == RowFrames(g.tags, cfg.insets.left + AlignmentOffset(cfg.alignment, g.totalWidth, availableWidth),
                     y + StackHeight(groups[..r], cfg.verticalSpacing), cfg.horizontalSpacing)[k]
  {
    assert TagCount(groups[..r]) + k < |LayoutFrames(groups, availableWidth, cfg, y)| by {
      FlattenLength(groups);
      TagCountPrefix(groups, r);
    }
    if r == 0 {
      assert groups[..0] == [];
      LayoutFramesHead(groups, availableWidth, cfg, y, k);
    } else {
      FramePosition(groups[1..], availableWidth, cfg, y + groups[0].maxHeight + cfg.verticalSpacing, r - 1, k);
      PrefixTotals(groups, r, cfg.verticalSpacing);
      LayoutFramesTail(groups, availableWidth, cfg, y, TagCount(groups[..r]) + k);
    }
  }

  /** The first row's frames open the layout. */
  lemma LayoutFramesHead(groups: seq<LineGroup>, availableWidth: real, cfg: LayoutConfig, y: real, i: nat)
    requires groups != [] && i < |groups[0].tags|
    ensures var g := groups[0];
      i < |LayoutFrames(groups, availableWidth, cfg, y)|
      && LayoutFrames(groups, availableWidth, cfg, y)[i]
         == RowFrames(g.tags, cfg.insets.left + AlignmentOffset(cfg.alignment, g.totalWidth, availableWidth), y, cfg.horizontalSpacing)[i]
  {
  }

  /** Past the first row's frames, the layout continues with the other rows one line lower. */
  lemma LayoutFramesTail(groups: seq<LineGroup>, availableWidth: real, cfg: LayoutConfig, y: real, i: nat)
    requires groups != [] && |groups[0].tags| <= i
    requires i - |groups[0].tags| < |LayoutFrames(groups[1..], availableWidth, cfg, y + groups[0].maxHeight + cfg.verticalSpacing)|
    ensures i < |LayoutFrames(groups, availableWidth, cfg, y)|
    ensures LayoutFrames(groups, availableWidth, cfg, y)[i]
         == LayoutFrames(groups[1..], availableWidth, cfg, y + groups[0].maxHeight + cfg.verticalSpacing)[i - |groups[0].tags|]
  {
  }

  /** The rows above row r: the first row, then the rows above it in the tail. */
  lemma PrefixTotals(groups: seq<LineGroup>, r: nat, verticalSpacing: real)
    requires 0 < r <= |groups|
    ensures TagCount(groups[..r]) == |groups[0].tags| + TagCount(groups[1..][..r - 1])
    ensures StackHeight(groups[..r], verticalSpacing)
         == groups[0].maxHeight + verticalSpacing + StackHeight(groups[1..][..r - 1], verticalSpacing)
  {
    assert groups[1..][..r - 1] == groups[..r][1..];
  }

  lemma {:induction false} TagCountPrefix(groups: seq<LineGroup>, r: nat)
    requires r < |groups|
    ensures TagCount(groups[..r + 1]) == TagCount(groups[..r]) + |groups[r].tags|
    ensures TagCount(groups[..r]) + |groups[r].tags| <= TagCount(groups)
  {
    if r == 0 {
      assert groups[..1][1..] == [];
      assert groups[..0] == [];
      assert TagCount(groups) == |groups[0].tags| + TagCount(groups[1..]);
    } else {
      TagCountPrefix(groups[1..], r - 1);
      assert groups[1..][..r] == groups[..r + 1][1..];
      assert groups[1..][..r - 1] == groups[..r][1..];
    }
  }

  lemma {:induction false} StackHeightPrefix(groups: seq<LineGroup>, verticalSpacing: real, r: nat)
    requires r < |groups|
    ensures StackHeight(groups[..r + 1], verticalSpacing)
         == StackHeight(groups[..r], verticalSpacing) + groups[r].maxHeight + verticalSpacing
  {
    if r == 0 {
      assert groups[..1][1..] == [];
      assert groups[..0] == [];
    } else {
      StackHeightPrefix(groups[1..], verticalSpacing, r - 1);
      assert groups[1..][..r] == groups[..r + 1][1..];
      assert groups[1..][..r - 1] == groups[..r][1..];
    }
  }

  lemma {:induction false} StackHeightMonotone(groups: seq<LineGroup>, verticalSpacing: real, r1: nat, r2: nat)
    requires r1 <= r2 <= |groups| && verticalSpacing >= 0.0
    requires forall i :: 0 <= i < |groups| ==> groups[i].maxHeight >= 0.0
    ensures StackHeight(groups[..r1], verticalSpacing) <= StackHeight(groups[..r2], verticalSpacing)
    decreases r2 - r1
  {
    if r1 < r2 {
      StackHeightMonotone(groups, verticalSpacing, r1 + 1, r2);
      StackHeightPrefix(groups, verticalSpacing, r1);
    }
  }

  /** Tag k of a row sits on the row's line and is as tall as it was measured. */
  lemma RowFrameVertical(tags: seq<TagInfo>, x: real, y: real, spacing: real, k: nat)
    requires k < |tags|
    ensures RowFrames(tags, x, y, spacing)[k].y == y
    ensures RowFrames(tags, x, y, spacing)[k].MaxY() == y + tags[k].size.height
  {
    RowFramesShape(tags, x, y, spacing);
  }

  /** Every row records a non-negative height no lower than any of its tags. */
  ghost predicate HeightsRecorded(groups: seq<LineGroup>) {
    forall i :: 0 <= i < |groups| ==>
      groups[i].maxHeight >= 0.0 && forall k :: 0 <= k < |groups[i].tags| ==> groups[i].tags[k].size.height <= groups[i].maxHeight
  }

  lemma WellPackedHeights(groups: seq<LineGroup>, availableWidth: real, spacing: real)
    requires WellPacked(groups, availableWidth, spacing)
    ensures HeightsRecorded(groups)
  {
    forall i | 0 <= i < |groups|
      ensures groups[i].maxHeight >= 0.0
      ensures forall k :: 0 <= k < |groups[i].tags| ==> groups[i].tags[k].size.height <= groups[i].maxHeight
    {
      assert GroupOk(groups[i], availableWidth, spacing);
    }
  }

  /** The top and bottom of tag k of row r. */
  lemma TagVertical(groups: seq<LineGroup>, availableWidth: real, cfg: LayoutConfig, y: real, r: nat, k: nat)
    requires r < |groups| && k < |groups[r].tags|
    ensures TagCount(groups[..r]) + k < |LayoutFrames(groups, availableWidth, cfg, y)|
    ensures var frame := LayoutFrames(groups, availableWidth, cfg, y)[TagCount(groups[..r]) + k];
      && frame.y == y + StackHeight(groups[..r], cfg.verticalSpacing)
      && frame.MaxY() == y + StackHeight(groups[..r], cfg.verticalSpacing) + groups[r].tags[k].size.height
  {
    var g := groups[r];
    FramePosition(groups, availableWidth, cfg, y, r, k);
    RowFrameVertical(g.tags, cfg.insets.left + AlignmentOffset(cfg.alignment, g.totalWidth, availableWidth),
                     y + StackHeight(groups[..r], cfg.verticalSpacing), cfg.horizontalSpacing, k);
  }

  /**
    With a non-negative vertical spacing, every tag of a well-packed row ends
    at or above the top of every tag in a later row: rows never overlap.
   */
  lemma RowsDoNotOverlap(groups: seq<LineGroup>, availableWidth: real, cfg: LayoutConfig, y: real,
                         r1: nat, k1: nat, r2: nat, k2: nat)
    requires WellPacked(groups, availableWidth, cfg.horizontalSpacing) && cfg.verticalSpacing >= 0.0
    requires r1 < r2 < |groups| && k1 < |groups[r1].tags| && k2 < |groups[r2].tags|
    ensures TagCount(groups[..r1]) + k1 < TagCount(groups[..r2]) + k2 < |LayoutFrames(groups, availableWidth, cfg, y)|
    ensures var frames := LayoutFrames(groups, availableWidth, cfg, y);
      frames[TagCount(groups[..r1]) + k1].MaxY() <= frames[TagCount(groups[..r2]) + k2].y
  {
    WellPackedHeights(groups, availableWidth, cfg.horizontalSpacing);
    Separated(groups, availableWidth, cfg, y, r1, k1, r2, k2);
  }

  lemma Separated(groups: seq<LineGroup>, availableWidth: real, cfg: LayoutConfig, y: real,
                  r1: nat, k1: nat, r2: nat, k2: nat)
    requires HeightsRecorded(groups) && cfg.verticalSpacing >= 0.0
    requires r1 < r2 < |groups| && k1 < |groups[r1].tags| && k2 < |groups[r2].tags|
    ensures TagCount(groups[..r1]) + k1 < TagCount(groups[..r2]) + k2 < |LayoutFrames(groups, availableWidth, cfg, y)|
    ensures var frames := LayoutFrames(groups, availableWidth, cfg, y);
      frames[TagCount(groups[..r1]) + k1].MaxY() <= frames[TagCount(groups[..r2]) + k2].y
  {
    var v := cfg.verticalSpacing;
    TagVertical(groups, availableWidth, cfg, y, r1, k1);
    TagVertical(groups, availableWidth, cfg, y, r2, k2);
    TagCountPrefix(groups, r1);
    TagCountMonotone(groups, r1 + 1, r2);
    StackHeightPrefix(groups, v, r1);
    StackHeightMonotone(groups, v, r1 + 1, r2);
  }

  lemma {:induction false} TagCountMonotone(groups: seq<LineGroup>, r1: nat, r2: nat)
    requires r1 <= r2 <= |groups|
    ensures TagCount(groups[..r1]) <= TagCount(groups[..r2])
    decreases r2 - r1
  {
    if r1 < r2 {
      TagCountMonotone(groups, r1 + 1, r2);
      TagCountPrefix(groups, r1);
    }
  }

  /**
    The content height `performTagLayout` sets: top and bottom insets alone
    when there are no tag items, otherwise the line position after the last
    row, less the one vertical spacing that follows it, plus the bottom inset.
   */
  function ContentHeight(hasItems: bool, groups: seq<LineGroup>, insets: Insets, verticalSpacing: real): real {
    var yEnd := insets.top + StackHeight(groups, verticalSpacing) - (if groups == [] then 0.0 else verticalSpacing);
    if hasItems then yEnd + insets.bottom else insets.top + insets.bottom
  }

  /**
    With rows: the insets, every row's tallest height and one vertical spacing
    between each two rows; without rows: the insets alone.
   */
  lemma ContentHeightClosedForm(hasItems: bool, groups: seq<LineGroup>, insets: Insets, verticalSpacing: real)
    ensures groups == [] ==> ContentHeight(hasItems, groups, insets, verticalSpacing) == insets.top + insets.bottom
    ensures hasItems && groups != [] ==>
      ContentHeight(hasItems, groups, insets, verticalSpacing)
        == insets.top + insets.bottom + SumMaxHeights(groups) + (|groups| - 1) as real * verticalSpacing
  {
    StackHeightClosedForm(groups, verticalSpacing);
  }

  /**
    Every tag of a well-packed layout with a non-negative vertical spacing
    lies vertically inside the content: below the top inset and above the
    bottom inset.
   */
  lemma ContentEnclosesTags(groups: seq<LineGroup>, availableWidth: real, cfg: LayoutConfig, r: nat, k: nat)
    requires WellPacked(groups, availableWidth, cfg.horizontalSpacing) && cfg.verticalSpacing >= 0.0
    requires r < |groups| && k < |groups[r].tags|
    ensures TagCount(groups[..r]) + k < |LayoutFrames(groups, availableWidth, cfg, cfg.insets.top)|
    ensures var frame := LayoutFrames(groups, availableWidth, cfg, cfg.insets.top)[TagCount(groups[..r]) + k];
      && cfg.insets.top <= frame.y
      && frame.MaxY() <= ContentHeight(true, groups, cfg.insets, cfg.verticalSpacing) - cfg.insets.bottom
  {
    WellPackedHeights(groups, availableWidth, cfg.horizontalSpacing);
    Enclosed(groups, availableWidth, cfg, r, k);
  }

  lemma Enclosed(groups: seq<LineGroup>, availableWidth: real, cfg: LayoutConfig, r: nat, k: nat)
    requires HeightsRecorded(groups) && cfg.verticalSpacing >= 0.0
    requires r < |groups| && k < |groups[r].tags|
    ensures TagCount(groups[..r]) + k < |LayoutFrames(groups, availableWidth, cfg, cfg.insets.top)|
    ensures var frame := LayoutFrames(groups, availableWidth, cfg, cfg.insets.top)[TagCount(groups[..r]) + k];
      && cfg.insets.top <= frame.y
      && frame.MaxY() <= ContentHeight(true, groups, cfg.insets, cfg.verticalSpacing) - cfg.insets.bottom
  {
    var v := cfg.verticalSpacing;
    TagVertical(groups, availableWidth, cfg, cfg.insets.top, r, k);
    StackHeightMonotone(groups, v, 0, r);
    assert groups[..0] == [];
    StackHeightPrefix(groups, v, r);
    StackHeightMonotone(groups, v, r + 1, |groups|);
    assert groups[..|groups|] == groups;
  }

  /**
    In a well-packed layout with non-negative widths and spacing, every tag of
    a row holding two or more tags lies horizontally inside the content area
    [`left`, `left + availableWidth`]; only a lone oversized tag can stick out.
   */
  lemma MultiTagRowInside(groups: seq<LineGroup>, availableWidth: real, cfg: LayoutConfig, y: real, r: nat, k: nat)
    requires WellPacked(groups, availableWidth, cfg.horizontalSpacing) && cfg.horizontalSpacing >= 0.0
    requires r < |groups| && k < |groups[r].tags| && |groups[r].tags| >= 2
    requires forall j :: 0 <= j < |groups[r].tags| ==> groups[r].tags[j].size.width >= 0.0
    ensures TagCount(groups[..r]) + k < |LayoutFrames(groups, availableWidth, cfg, y)|
    ensures var frame := LayoutFrames(groups, availableWidth, cfg, y)[TagCount(groups[..r]) + k];
      cfg.insets.left <= frame.x && frame.MaxX() <= cfg.insets.left + availableWidth
  {
    assert GroupOk(groups[r], availableWidth, cfg.horizontalSpacing);
    WidthBound(groups, availableWidth, cfg.horizontalSpacing, r);
    RowFrameInside(groups, availableWidth, cfg, y, r, k);
  }

  /** A tag of a row whose recorded width is its true width and fits lands inside the content area. */
  lemma RowFrameInside(groups: seq<LineGroup>, availableWidth: real, cfg: LayoutConfig, y: real, r: nat, k: nat)
    requires cfg.horizontalSpacing >= 0.0
    requires r < |groups| && k < |groups[r].tags|
    requires forall j :: 0 <= j < |groups[r].tags| ==> groups[r].tags[j].size.width >= 0.0
    requires groups[r].totalWidth == RowWidth(groups[r].tags, cfg.horizontalSpacing) <= availableWidth
    ensures TagCount(groups[..r]) + k < |LayoutFrames(groups, availableWidth, cfg, y)|
    ensures var frame := LayoutFrames(groups, availableWidth, cfg, y)[TagCount(groups[..r]) + k];
      cfg.insets.left <= frame.x && frame.MaxX() <= cfg.insets.left + availableWidth
  {
    FramePosition(groups, availableWidth, cfg, y, r, k);
    RowInsideContent(groups[r].tags, cfg.alignment, availableWidth, cfg.insets.left,
                     y + StackHeight(groups[..r], cfg.verticalSpacing), cfg.horizontalSpacing);
  }

  /** Every tag of the layout is given exactly its measured size. */
  lemma {:induction false} LayoutFrameSizes(groups: seq<LineGroup>, availableWidth: real, cfg: LayoutConfig, y: real)
    ensures var frames := LayoutFrames(groups, availableWidth, cfg, y);
      forall p :: 0 <= p < |frames| ==>
        frames[p].width == FlattenTags(groups)[p].size.width && frames[p].height == FlattenTags(groups)[p].size.height
  {
    if groups != [] {
      var g := groups[0];
      var x := cfg.insets.left + AlignmentOffset(cfg.alignment, g.totalWidth, availableWidth);
      var y1 := y + g.maxHeight + cfg.verticalSpacing;
      RowFramesShape(g.tags, x, y, cfg.horizontalSpacing);
      LayoutFrameSizes(groups[1..], availableWidth, cfg, y1);
      var first := RowFrames(g.tags, x, y, cfg.horizontalSpacing);
      var rest := LayoutFrames(groups[1..], availableWidth, cfg, y1);
      var frames := LayoutFrames(groups, availableWidth, cfg, y);
      assert frames == first + rest;
      assert FlattenTags(groups) == g.tags + FlattenTags(groups[1..]);
      forall p | |first| <= p < |frames|
        ensures frames[p] == rest[p - |first|]
        ensures FlattenTags(groups)[p] == FlattenTags(groups[1..])[p - |first|]
      {
      }
    }
  }

  /**
    The invariant of the row-placing loop after `r` rows: the frames placed so
    far, followed by the frames of the remaining rows from line `y` on, are
    the frames of all rows; the remaining rows hold the remaining tags; and `y`
    is the top line advanced by the rows already placed.
   */
  ghost predicate RowsPlacedAt(groups: seq<LineGroup>, availableWidth: real, cfg: LayoutConfig, sizes: seq<Size>,
                               r: nat, placed: seq<Rect>, y: real) {
    && r <= |groups| && |placed| <= |sizes|
    && LayoutFrames(groups, availableWidth, cfg, cfg.insets.top) == placed + LayoutFrames(groups[r..], availableWidth, cfg, y)
    && FlattenTags(groups[r..]) == TagInfos(sizes)[|placed|..]
    && cfg.insets.top + StackHeight(groups, cfg.verticalSpacing) == y + StackHeight(groups[r..], cfg.verticalSpacing)
  }

  lemma RowsPlacedStart(groups: seq<LineGroup>, availableWidth: real, cfg: LayoutConfig, sizes: seq<Size>)
    requires FlattenTags(groups) == TagInfos(sizes)
    ensures RowsPlacedAt(groups, availableWidth, cfg, sizes, 0, [], cfg.insets.top)
  {
    assert groups[0..] == groups;
    assert TagInfos(sizes)[0..] == TagInfos(sizes);
  }

  /** Placing row `r` at its alignment offset on line `y` keeps the invariant, one line lower. */
  lemma RowsPlacedAdvance(groups: seq<LineGroup>, availableWidth: real, cfg: LayoutConfig, sizes: seq<Size>,
                          r: nat, placed: seq<Rect>, y: real)
    requires RowsPlacedAt(groups, availableWidth, cfg, sizes, r, placed, y) && r < |groups|
    ensures var g := groups[r];
      var row := RowFrames(g.tags, cfg.insets.left + AlignmentOffset(cfg.alignment, g.totalWidth, availableWidth), y, cfg.horizontalSpacing);
      && g.tags + FlattenTags(groups[r + 1..]) == TagInfos(sizes)[|placed|..]
      && RowsPlacedAt(groups, availableWidth, cfg, sizes, r + 1, placed + row, y + g.maxHeight + cfg.verticalSpacing)
  {
    var g := groups[r];
    var x := cfg.insets.left + AlignmentOffset(cfg.alignment, g.totalWidth, availableWidth);
    LayoutFramesStep(groups, r, availableWidth, cfg, y);
    AppendRow(placed, RowFrames(g.tags, x, y, cfg.horizontalSpacing),
              LayoutFrames(groups[r + 1..], availableWidth, cfg, y + g.maxHeight + cfg.verticalSpacing));
    DropTags(TagInfos(sizes), |placed|, g.tags, FlattenTags(groups[r + 1..]));
  }

  lemma AppendRow(placed: seq<Rect>, row: seq<Rect>, rest: seq<Rect>)
    ensures placed + (row + rest) == (placed + row) + rest
  {
  }

  lemma DropTags(infos: seq<TagInfo>, n: nat, tags: seq<TagInfo>, later: seq<TagInfo>)
    requires n <= |infos| && infos[n..] == tags + later
    ensures n + |tags| <= |infos| && infos[n + |tags|..] == later
  {
    assert infos[n + |tags|..] == infos[n..][|tags|..];
  }

  /** After the last row, every frame has been placed and `y` is below all rows. */
  lemma RowsPlacedEnd(groups: seq<LineGroup>, availableWidth: real, cfg: LayoutConfig, sizes: seq<Size>,
                      placed: seq<Rect>, y: real)
    requires RowsPlacedAt(groups, availableWidth, cfg, sizes, |groups|, placed, y)
    ensures placed == LayoutFrames(groups, availableWidth, cfg, cfg.insets.top)
    ensures y == cfg.insets.top + StackHeight(groups, cfg.verticalSpacing)
  {
    assert groups[|groups|..] == [];
  }

  lemma LayoutFramesStep(groups: seq<LineGroup>, r: nat, availableWidth: real, cfg: LayoutConfig, y: real)
    requires r < |groups|
    ensures var g := groups[r];
      && LayoutFrames(groups[r..], availableWidth, cfg, y)
         == RowFrames(g.tags, cfg.insets.left + AlignmentOffset(cfg.alignment, g.totalWidth, availableWidth), y, cfg.horizontalSpacing)
            + LayoutFrames(groups[r + 1..], availableWidth, cfg, y + g.maxHeight + cfg.verticalSpacing)
      && FlattenTags(groups[r..]) == g.tags + FlattenTags(groups[r + 1..])
      && StackHeight(groups[r..], cfg.verticalSpacing) == g.maxHeight + cfg.verticalSpacing + StackHeight(groups[r + 1..], cfg.verticalSpacing)
  {
    assert groups[r..][0] == groups[r] && groups[r..][1..] == groups[r + 1..];
  }
}
