/**
  TagCollectionView: a collection-view variant that lets the system flow
  layout place the cells, then regroups the attributes it returns into rows
  by equal vertical midpoint and re-packs every row from x = 0.
 */
module TagCollectionLayout {
  import opened Wrappers
  import opened Geometry

  /** The vertical midpoints of the attributes' frames, in order. */
  function MidYs(attrs: seq<Rect>): (mids: seq<real>)
    ensures |mids| == |attrs| && forall j :: 0 <= j < |attrs| ==> mids[j] == attrs[j].MidY()
  {
    seq(|attrs|, j requires 0 <= j < |attrs| => attrs[j].MidY())
  }

  /** Attribute j opens a row: it is the first one, or its midY differs from its predecessor's. */
  predicate RowStart(mids: seq<real>, j: int) {
    0 <= j < |mids| && (j == 0 || mids[j] != mids[j - 1])
  }

  /**
    Where re-packing puts attribute j: at 0 when it opens a row, otherwise
    the spacing after the end of attribute j - 1 in `out`.
   */
  function RepackedX(out: seq<Rect>, mids: seq<real>, spacing: real, j: int): real
    requires 0 <= j < |out| == |mids|
  {
    if RowStart(mids, j) then 0.0 else out[j - 1].x + out[j - 1].width + spacing
  }

  /** The indices 0, 1, ..., n - 1. */
  function Iota(n: nat): (s: seq<nat>)
    ensures |s| == n && forall k :: 0 <= k < n ==> s[k] == k
  {
    if n == 0 then [] else Iota(n - 1) + [n - 1]
  }

  /** The rows' indices, row after row. */
  function Flatten(rows: seq<seq<nat>>): seq<nat> {
    if rows == [] then [] else Flatten(rows[..|rows| - 1]) + rows[|rows| - 1]
  }

  lemma FlattenAppend(rows: seq<seq<nat>>, row: seq<nat>)
    ensures Flatten(rows + [row]) == Flatten(rows) + row
  {
    assert (rows + [row])[..|rows|] == rows;
  }

  lemma {:induction false} FlattenSplit(rows: seq<seq<nat>>, m: nat)
    requires m <= |rows|
    ensures Flatten(rows) == Flatten(rows[..m]) + Flatten(rows[m..])
    decreases |rows|
  {
    if m == |rows| {
      assert rows[..m] == rows;
      assert rows[m..] == [];
    } else {
      var n := |rows| - 1;
      FlattenSplit(rows[..n], m);
      assert rows[..n][..m] == rows[..m];
      var tail := rows[m..];
      assert tail[..|tail| - 1] == rows[..n][m..];
      assert tail[|tail| - 1] == rows[n];
    }
  }

  /**
    The rows partition the attribute indices in order, each exactly once; no
    row is empty; and an attribute is the first of its row exactly when it
    opens a row: equal consecutive midpoints share a row, a change of
    midpoint starts the next one.
   */
  predicate IsRowGrouping(rows: seq<seq<nat>>, mids: seq<real>) {
    && Flatten(rows) == Iota(|mids|)
    && (forall r :: 0 <= r < |rows| ==> rows[r] != [])
    && (forall r, k :: 0 <= r < |rows| && 0 <= k < |rows[r]| ==> (k == 0 <==> RowStart(mids, rows[r][k])))
  }

  /**
    In a grouping, the k-th attribute of row r is the one after all the
    attributes of the earlier rows.
   */
  lemma RowIndex(rows: seq<seq<nat>>, n: nat, r: int, k: int)
    requires Flatten(rows) == Iota(n)
    requires 0 <= r < |rows| && 0 <= k < |rows[r]|
    ensures rows[r][k] == |Flatten(rows[..r])| + k < n
  {
    FlattenSplit(rows, r + 1);
    assert rows[..r + 1][..r] == rows[..r];
    assert Flatten(rows[..r + 1]) == Flatten(rows[..r]) + rows[r];
    assert Flatten(rows)[|Flatten(rows[..r])| + k] == rows[r][k];
  }

  /**
    The state of the grouping loop after `i` attributes: the closed rows and
    the current row together hold indices 0 to i - 1 in order, and the
    current row is non-empty, tracking the midY of attribute i - 1, once an
    attribute has been seen.
   */
  ghost predicate GroupingState(rows: seq<seq<nat>>, currentRow: seq<nat>, currentRowY: real, mids: seq<real>, i: nat) {
    && i <= |mids|
    && Flatten(rows) + currentRow == Iota(i)
    && (forall r :: 0 <= r < |rows| ==> rows[r] != [])
    && (forall r, k :: 0 <= r < |rows| && 0 <= k < |rows[r]| ==> (k == 0 <==> RowStart(mids, rows[r][k])))
    && (forall k :: 0 <= k < |currentRow| ==> (k == 0 <==> RowStart(mids, currentRow[k])))
    && (i == 0 ==> rows == [] && currentRow == [])
    && (i > 0 ==> currentRow != [] && currentRowY == mids[i - 1])
  }

  /** A midY different from the tracked one closes the current row and opens a new one. */
  lemma GroupOpen(rows: seq<seq<nat>>, currentRow: seq<nat>, currentRowY: real, mids: seq<real>, i: nat)
    requires GroupingState(rows, currentRow, currentRowY, mids, i) && i < |mids| && currentRowY != mids[i]
    ensures var closed := if currentRow != [] then rows + [currentRow] else rows;
      GroupingState(closed, [i], mids[i], mids, i + 1)
  {
    if currentRow != [] {
      FlattenAppend(rows, currentRow);
    }
  }

  /** An equal midY joins the current row. */
  lemma GroupJoin(rows: seq<seq<nat>>, currentRow: seq<nat>, currentRowY: real, mids: seq<real>, i: nat)
    requires GroupingState(rows, currentRow, currentRowY, mids, i) && i < |mids| && currentRowY == mids[i]
    ensures GroupingState(rows, currentRow + [i], currentRowY, mids, i + 1)
  {
    assert (Flatten(rows) + currentRow) + [i] == Flatten(rows) + (currentRow + [i]);
  }

  /**
    The grouping loop of `layoutAttributesForElements`: the current row
    collects attributes while their midY equals the tracked one (initially
    -1); a different midY closes the current row, if any, and opens a new one.
   */
  method GroupRows(mids: seq<real>) returns (rows: seq<seq<nat>>)
    ensures IsRowGrouping(rows, mids)
  {
    rows := [];
    var currentRow: seq<nat> := [];
    var currentRowY := -1.0;
    var i := 0;
    while i < |mids|
      invariant GroupingState(rows, currentRow, currentRowY, mids, i)
    {
      if currentRowY != mids[i] {
        GroupOpen(rows, currentRow, currentRowY, mids, i);
        if currentRow != [] {
          rows := rows + [currentRow];
        }
        currentRow := [i];
        currentRowY := mids[i];
      } else {
        GroupJoin(rows, currentRow, currentRowY, mids, i);
        currentRow := currentRow + [i];
      }
      i := i + 1;
    }
    GroupEnd(rows, currentRow, currentRowY, mids);
    if currentRow != [] {
      rows := rows + [currentRow];
    }
  }

  /** After the last attribute, closing the current row, if any, completes the grouping. */
  lemma GroupEnd(rows: seq<seq<nat>>, currentRow: seq<nat>, currentRowY: real, mids: seq<real>)
    requires GroupingState(rows, currentRow, currentRowY, mids, |mids|)
    ensures IsRowGrouping(if currentRow != [] then rows + [currentRow] else rows, mids)
  {
    if currentRow != [] {
      FlattenAppend(rows, currentRow);
    }
  }

  /**
    The state of the re-packing loop once the first `q` attributes are
    placed: only x has changed anywhere, nothing from `q` on has changed yet,
    and every placed attribute follows the re-packing rule.
   */
  ghost predicate RepackedUpTo(cur: seq<Rect>, orig: seq<Rect>, mids: seq<real>, spacing: real, q: nat) {
    && |cur| == |orig| == |mids| && q <= |cur|
    && (forall j :: 0 <= j < |cur| ==> cur[j] == orig[j].(x := cur[j].x))
    && (forall j :: q <= j < |cur| ==> cur[j] == orig[j])
    && (forall j {:trigger RepackedX(cur, mids, spacing, j)} :: 0 <= j < q ==>
          cur[j].x == RepackedX(cur, mids, spacing, j))
  }

  /** Setting attribute `q`'s x by the rule places one more attribute. */
  lemma RepackNext(cur: seq<Rect>, orig: seq<Rect>, mids: seq<real>, spacing: real, q: nat, x: real)
    requires RepackedUpTo(cur, orig, mids, spacing, q) && q < |cur| == |mids|
    requires x == RepackedX(cur, mids, spacing, q)
    ensures RepackedUpTo(cur[q := cur[q].(x := x)], orig, mids, spacing, q + 1)
  {
    var next := cur[q := cur[q].(x := x)];
    forall j | 0 <= j < q + 1
      ensures next[j].x == RepackedX(next, mids, spacing, j)
    {
      if j < q {
        RepackedAt(cur, orig, mids, spacing, q, j);
      }
    }
  }

  /** With every attribute placed, the result is the re-packing of the original. */
  lemma RepackDone(cur: seq<Rect>, orig: seq<Rect>, spacing: real)
    requires RepackedUpTo(cur, orig, MidYs(orig), spacing, |cur|)
    ensures LeftPacked(cur, orig, spacing)
  {
    forall j | 0 <= j < |cur|
      ensures cur[j].x == RepackedX(cur, MidYs(orig), spacing, j)
    {
      RepackedAt(cur, orig, MidYs(orig), spacing, |cur|, j);
    }
    LeftPackedIntro(cur, orig, spacing);
  }

  lemma RepackedAt(cur: seq<Rect>, orig: seq<Rect>, mids: seq<real>, spacing: real, q: nat, j: int)
    requires RepackedUpTo(cur, orig, mids, spacing, q) && 0 <= j < q
    ensures cur[j].x == RepackedX(cur, mids, spacing, j)
  {
  }

  /**
    The re-packing loop: in every row a running x starts at 0, each
    attribute's origin.x is set to it, and it advances by that attribute's
    width plus the spacing. Nothing but x changes.
   */
  method AlignRowsLeft(a: array<Rect>, rows: seq<seq<nat>>, mids: seq<real>, spacing: real)
    requires mids == MidYs(a[..]) && IsRowGrouping(rows, mids)
    modifies a
    ensures LeftPacked(a[..], old(a[..]), spacing)
  {
    ghost var original := a[..];
    var r := 0;
    ghost var p := 0;
    while r < |rows|
      invariant 0 <= r <= |rows| && p == |Flatten(rows[..r])| <= a.Length
      invariant RepackedUpTo(a[..], original, mids, spacing, p)
    {
      var row := rows[r];
      var currentX := 0.0;
      var k := 0;
      while k < |row|
        invariant 0 <= k <= |row| && p + k <= a.Length
        invariant RepackedUpTo(a[..], original, mids, spacing, p + k)
        invariant k > 0 ==> currentX == a[p + k - 1].x + a[p + k - 1].width + spacing
        invariant k == 0 ==> currentX == 0.0
      {
        RowIndex(rows, a.Length, r, k);
        var j := row[k];
        assert RowStart(mids, j) <==> k == 0;
        ghost var cur := a[..];
        RepackNext(cur, original, mids, spacing, j, currentX);
        a[j] := a[j].(x := currentX);
        assert a[..] == cur[j := cur[j].(x := currentX)];
        currentX := currentX + a[j].width + spacing;
        k := k + 1;
      }
      assert rows[..r + 1][..r] == rows[..r];
      p := p + |row|;
      r := r + 1;
    }
    assert rows[..r] == rows;
    RepackDone(a[..], original, spacing);
  }

  /**
    `out` is `attrs` re-packed: same count and order, every frame keeps its
    y, width and height, the first attribute of every row sits at x = 0 and
    each next one at the previous x plus the previous width plus the spacing.
   */
  predicate LeftPacked(out: seq<Rect>, attrs: seq<Rect>, spacing: real) {
    && |out| == |attrs|
    && (forall j :: 0 <= j < |out| ==> out[j] == attrs[j].(x := out[j].x))
    && (forall j {:trigger RepackedX(out, MidYs(attrs), spacing, j)} :: 0 <= j < |out| ==>
          out[j].x == RepackedX(out, MidYs(attrs), spacing, j))
  }

  lemma LeftPackedIntro(out: seq<Rect>, attrs: seq<Rect>, spacing: real)
    requires |out| == |attrs|
    requires forall j :: 0 <= j < |out| ==> out[j] == attrs[j].(x := out[j].x)
    requires forall j {:trigger RepackedX(out, MidYs(attrs), spacing, j)} :: 0 <= j < |out| ==>
      out[j].x == RepackedX(out, MidYs(attrs), spacing, j)
    ensures LeftPacked(out, attrs, spacing)
  {
  }

  /**
    `TagCollectionViewFlowLayout.layoutAttributesForElements(in:)`: no
    collection view gives nil; otherwise the super layout's attributes
    (none when it returns nil) are copied, grouped into rows and re-packed.
   */
  method LayoutAttributesForElements(hasCollectionView: bool, superAttributes: Option<seq<Rect>>, minimumInteritemSpacing: real)
    returns (result: Option<seq<Rect>>)
    ensures result.Some? <==> hasCollectionView
    ensures hasCollectionView ==> LeftPacked(result.value, superAttributes.GetOr([]), minimumInteritemSpacing)
  {
    if !hasCollectionView {
      return None;
    }
    var attributes := superAttributes.GetOr([]);
    var a := new Rect[|attributes|](j requires 0 <= j < |attributes| => attributes[j]);
    var mids := MidYs(attributes);
    var rows := GroupRows(mids);
    assert a[..] == attributes;
    AlignRowsLeft(a, rows, mids, minimumInteritemSpacing);
    var out := a[..];
    return Some(out);
  }

  lemma {:induction false} LeftPackedAgree(out1: seq<Rect>, out2: seq<Rect>, attrs: seq<Rect>, spacing: real, j: int)
    requires LeftPacked(out1, attrs, spacing) && LeftPacked(out2, attrs, spacing)
    requires 0 <= j < |attrs|
    ensures out1[j] == out2[j]
    decreases j
  {
    LeftPackedAt(out1, attrs, spacing, j);
    LeftPackedAt(out2, attrs, spacing, j);
    if !RowStart(MidYs(attrs), j) {
      LeftPackedAgree(out1, out2, attrs, spacing, j - 1);
    }
  }

  /** The re-packed attributes are determined by the input and the spacing. */
  lemma LeftPackedUnique(out1: seq<Rect>, out2: seq<Rect>, attrs: seq<Rect>, spacing: real)
    requires LeftPacked(out1, attrs, spacing) && LeftPacked(out2, attrs, spacing)
    ensures out1 == out2
  {
    forall j | 0 <= j < |attrs|
      ensures out1[j] == out2[j]
    {
      LeftPackedAgree(out1, out2, attrs, spacing, j);
    }
  }

  /**
    Re-packing is idempotent: the re-packed attributes keep their midpoints,
    so re-packing them again changes nothing.
   */
  lemma RepackIdempotent(out: seq<Rect>, again: seq<Rect>, attrs: seq<Rect>, spacing: real)
    requires LeftPacked(out, attrs, spacing) && LeftPacked(again, out, spacing)
    ensures again == out
  {
    LeftPackedSelf(out, attrs, spacing);
    LeftPackedUnique(again, out, out, spacing);
  }

  /** Re-packing keeps every midpoint, so re-packed attributes are re-packed relative to themselves. */
  lemma LeftPackedSelf(out: seq<Rect>, attrs: seq<Rect>, spacing: real)
    requires LeftPacked(out, attrs, spacing)
    ensures LeftPacked(out, out, spacing)
  {
    assert MidYs(out) == MidYs(attrs) by {
      forall j | 0 <= j < |out|
        ensures MidYs(out)[j] == MidYs(attrs)[j]
      {
        assert out[j] == attrs[j].(x := out[j].x);
      }
    }
    forall j | 0 <= j < |out|
      ensures out[j].x == RepackedX(out, MidYs(out), spacing, j)
    {
      LeftPackedAt(out, attrs, spacing, j);
    }
    LeftPackedIntro(out, out, spacing);
  }

  /** The position rule of a re-packed attribute, for one index. */
  lemma LeftPackedAt(out: seq<Rect>, attrs: seq<Rect>, spacing: real, j: int)
    requires LeftPacked(out, attrs, spacing) && 0 <= j < |out|
    ensures out[j].x == RepackedX(out, MidYs(attrs), spacing, j)
  {
  }

  /**
    With a non-negative spacing and widths, the tags of one row do not
    overlap: each starts at or after the end of its predecessor.
   */
  lemma RowTagsDisjoint(out: seq<Rect>, attrs: seq<Rect>, spacing: real, j: int)
    requires LeftPacked(out, attrs, spacing) && spacing >= 0.0
    requires 0 < j < |out| && !RowStart(MidYs(attrs), j)
    ensures out[j].x >= out[j - 1].MaxX()
  {
    LeftPackedAt(out, attrs, spacing, j);
  }

  /** `shouldInvalidateLayout(forBoundsChange:)`: only a change of width invalidates. */
  function ShouldInvalidateLayout(hasCollectionView: bool, newWidth: real, currentWidth: real): (invalidate: bool)
    ensures invalidate <==> hasCollectionView && newWidth != currentWidth
  {
    if !hasCollectionView then false else newWidth != currentWidth
  }

  /**
    The user info handed to cell `item`: the item's entry when the list is
    present and long enough, nil otherwise; it never reads out of range.
   */
  function CellUserInfo<U>(tagUserInfo: Option<seq<U>>, item: nat): (info: Option<U>)
    ensures info.Some? <==> tagUserInfo.Some? && item < |tagUserInfo.value|
    ensures info.Some? ==> info.value == tagUserInfo.value[item]
  {
    if |tagUserInfo.GetOr([])| > item then Some(tagUserInfo.value[item]) else None
  }

  /** The layout-relevant part of TagCellData. */
  datatype TagCellData<U> = TagCellData(text: string, index: nat, padding: real, userInfo: Option<U>)

  /** An illustration of CellUserInfo: a list of two entries serves cells 0 and 1 only. */
  lemma CellUserInfoExample()
    ensures CellUserInfo(Some([7, 8]), 1) == Some(8)
    ensures CellUserInfo(Some([7, 8]), 2) == None
    ensures CellUserInfo<int>(None, 0) == None
  {
  }

  class TagCollectionView<U> {
    var tags: seq<string>
    var tagUserInfo: Option<seq<U>>
    var tagMargin: real
    var tagPadding: real
    var lineSpacing: real
    var heightMode: HeightMode
    /** The constant of the view's own height constraint, when one is installed. */
    var heightConstraint: Option<real>
    /** The flow layout's spacing between items of a row. */
    var minimumInteritemSpacing: real
    /** The flow layout's spacing between rows. */
    var minimumLineSpacing: real

    /** The flow layout's spacings follow the view's margin and line spacing. */
    predicate Valid()
      reads this
    {
      minimumInteritemSpacing == tagMargin && minimumLineSpacing == lineSpacing
    }

    /** `init(frame:)`: no tags, spacings and padding of 10 points, adaptive height. */
    constructor ()
      ensures Valid() && tags == [] && tagUserInfo == None
      ensures tagMargin == 10.0 && tagPadding == 10.0 && lineSpacing == 10.0
      ensures heightMode == Adaptive && heightConstraint == None
    {
      tags := [];
      tagUserInfo := None;
      tagMargin := 10.0;
      tagPadding := 10.0;
      lineSpacing := 10.0;
      heightMode := Adaptive;
      heightConstraint := None;
      minimumInteritemSpacing := 10.0;
      minimumLineSpacing := 10.0;
    }

    /** `updateLayout()`: copy the spacings into the flow layout. */
    method UpdateLayout()
      modifies this`minimumInteritemSpacing, this`minimumLineSpacing
      ensures Valid()
    {
      minimumInteritemSpacing := tagMargin;
      minimumLineSpacing := lineSpacing;
    }

    /** Assigning `tagMargin`. */
    method SetTagMargin(margin: real)
      modifies this`tagMargin, this`minimumInteritemSpacing, this`minimumLineSpacing
      ensures tagMargin == margin && Valid()
    {
      tagMargin := margin;
      UpdateLayout();
    }

    /** Assigning `lineSpacing`. */
    method SetLineSpacing(spacing: real)
      modifies this`lineSpacing, this`minimumInteritemSpacing, this`minimumLineSpacing
      ensures lineSpacing == spacing && Valid()
    {
      lineSpacing := spacing;
      UpdateLayout();
    }

    /** Assigning `tagPadding`: cells configured from now on get the new padding; the layout is refreshed. */
    method SetTagPadding(padding: real)
      modifies this`tagPadding, this`minimumInteritemSpacing, this`minimumLineSpacing
      ensures tagPadding == padding && Valid()
    {
      tagPadding := padding;
      UpdateLayout();
    }

    /** Assigning `tags`: the collection is reloaded. */
    method SetTags(texts: seq<string>)
      modifies this`tags, this`minimumInteritemSpacing, this`minimumLineSpacing
      ensures tags == texts && Valid()
    {
      tags := texts;
      UpdateLayout();
    }

    /**
      Assigning `heightMode` (`updateHeightMode`): the old height constraint is
      removed, and a fixed mode installs one of its height.
     */
    method SetHeightMode(mode: HeightMode)
      modifies this`heightMode, this`heightConstraint, this`minimumInteritemSpacing, this`minimumLineSpacing
      ensures heightMode == mode && Valid()
      ensures heightConstraint == (if mode.Fixed? then Some(mode.height) else None)
    {
      heightMode := mode;
      heightConstraint := None;
      if mode.Fixed? {
        heightConstraint := Some(mode.height);
      }
      UpdateLayout();
    }

    /**
      `updateHeightIfNeeded()`, given the flow layout's content height: only
      the adaptive mode sets the height constraint to it; a fixed mode
      changes nothing.
     */
    method UpdateHeightIfNeeded(contentHeight: real)
      modifies this`heightConstraint
      ensures heightMode.Adaptive? ==> heightConstraint == Some(contentHeight)
      ensures heightMode.Fixed? ==> heightConstraint == old(heightConstraint)
    {
      if !heightMode.Adaptive? {
        return;
      }
      heightConstraint := Some(contentHeight);
    }

    /** The height of `intrinsicContentSize`, given the flow layout's content height. */
    function IntrinsicContentHeight(contentHeight: real): (height: real)
      reads this
      ensures heightMode.Fixed? ==> height == heightMode.height
      ensures heightMode.Adaptive? ==> height == contentHeight
    {
      match heightMode
      case Adaptive => contentHeight
      case Fixed(h) => h
    }

    /** The data `cellForItemAt` configures cell `item` with. */
    function CellData(item: nat): (d: TagCellData<U>)
      reads this
      requires item < |tags|
      ensures d.text == tags[item] && d.index == item && d.padding == tagPadding
      ensures d.userInfo.Some? <==> tagUserInfo.Some? && item < |tagUserInfo.value|
    {
      TagCellData(tags[item], item, tagPadding, CellUserInfo(tagUserInfo, item))
    }
  }

  /**
    Right after an adaptive height update, the intrinsic height is the
    content height the update used. An illustration: it chains the contracts
    of UpdateHeightIfNeeded and IntrinsicContentHeight.
   */
  method AdaptiveHeightAgrees<U>(view: TagCollectionView<U>, contentHeight: real) returns (height: real)
    requires view.heightMode.Adaptive?
    modifies view`heightConstraint
    ensures view.heightConstraint == Some(height) && height == contentHeight
  {
    view.UpdateHeightIfNeeded(contentHeight);
    height := view.IntrinsicContentHeight(contentHeight);
  }
}
