/**
  The tag data every tag view shows, the type-erased tag item that pairs data
  with the kind of view rendering it, and the list operations both
  BRFlexTagView variants share: creating one view per item and removing an
  item by index.
 */
module TagModel {
  import opened Wrappers
  import opened Geometry

  /** BRFlexTextTagData */
  datatype TextTagData = TextTagData(identifier: string, text: string)

  /** BRFlexImageTextTagData */
  datatype ImageTextTagData = ImageTextTagData(identifier: string, text: string, imageName: string)

  /** BRFlexButtonTagData.Style */
  datatype ButtonStyle = Primary | Secondary | Destructive

  /** BRFlexButtonTagData */
  datatype ButtonTagData = ButtonTagData(identifier: string, title: string, style: ButtonStyle)

  /**
    AnyFlexTagItem: a tag's data together with the kind of view that renders
    it (text, image and text, or button), as a closed sum type.
   */
  datatype TagItem =
    | TextItem(textData: TextTagData)
    | ImageTextItem(imageTextData: ImageTextTagData)
    | ButtonItem(buttonData: ButtonTagData)
  {
    function Identifier(): string {
      match this
      case TextItem(d) => d.identifier
      case ImageTextItem(d) => d.identifier
      case ButtonItem(d) => d.identifier
    }
  }

  /** `BRFlexTextTagData(text:identifier:)`: the identifier defaults to the text. */
  function MakeTextTagData(text: string, identifier: Option<string>): (d: TextTagData)
    ensures d.text == text
    ensures identifier.Some? ==> d.identifier == identifier.value
    ensures identifier.None? ==> d.identifier == text
  {
    TextTagData(identifier.GetOr(text), text)
  }

  /** A text tag item built from a string, as the `tags` setter and `addTextTag` build it. */
  function TextTag(text: string): (item: TagItem)
    ensures item.TextItem? && item.textData.text == text && item.Identifier() == text
  {
    TextItem(MakeTextTagData(text, None))
  }

  /**
    The layout-relevant state of one tag view: the index it reports when
    tapped, the item it was created from, and its frame.
   */
  datatype TagView = TagView(index: int, item: TagItem, frame: Rect)

  /** View i was created from item i and reports index i. */
  predicate ViewsMatchItems(views: seq<TagView>, items: seq<TagItem>) {
    && |views| == |items|
    && forall i :: 0 <= i < |views| ==> views[i].index == i && views[i].item == items[i]
  }

  /**
    The view-creating loop of `reloadData`: one fresh view per item, in
    order, each told its position; a new view's frame is CGRect.zero.
   */
  method CreateViews(items: seq<TagItem>) returns (views: seq<TagView>)
    ensures ViewsMatchItems(views, items)
    ensures forall i :: 0 <= i < |views| ==> views[i].frame == ZeroRect
  {
    views := [];
    var index := 0;
    while index < |items|
      invariant 0 <= index <= |items|
      invariant |views| == index
      invariant forall i :: 0 <= i < index ==> views[i] == TagView(i, items[i], ZeroRect)
    {
      views := views + [TagView(index, items[index], ZeroRect)];
      index := index + 1;
    }
  }

  /**
    `removeTagAt(index:)` on the item list: an index outside the list leaves
    it as it is; an index inside removes exactly that element and keeps the
    others in order.
   */
  function RemovedAt<T>(s: seq<T>, index: int): (r: seq<T>)
    ensures !(0 <= index < |s|) ==> r == s
    ensures 0 <= index < |s| ==> |r| == |s| - 1
    ensures 0 <= index < |s| ==> forall j :: 0 <= j < index ==> r[j] == s[j]
    ensures 0 <= index < |s| ==> forall j :: index <= j < |r| ==> r[j] == s[j + 1]
    ensures 0 <= index < |s| ==> multiset(r) + multiset{s[index]} == multiset(s)
  {
    if 0 <= index < |s| then
      assert s == s[..index] + [s[index]] + s[index + 1..];
      s[..index] + s[index + 1..]
    else
      s
  }

  /** What the tap callback receives: the tag's index and its data. */
  datatype TapEvent = TapEvent(index: int, data: TagItem)

  /**
    The sizes the tag views report when asked to fit `widthHint`; `measure`
    stands for each view's `sizeThatFits`, which depends on the item it shows.
   */
  function MeasuredSizes(views: seq<TagView>, measure: (TagItem, real) -> Size, widthHint: real): (sizes: seq<Size>)
    ensures |sizes| == |views|
    ensures forall i :: 0 <= i < |views| ==> sizes[i] == measure(views[i].item, widthHint)
  {
    seq(|views|, i requires 0 <= i < |views| => measure(views[i].item, widthHint))
  }

  /** The frames of the views, in order. */
  function FramesOf(views: seq<TagView>): (frames: seq<Rect>)
    ensures |frames| == |views| && forall i :: 0 <= i < |views| ==> frames[i] == views[i].frame
  {
    seq(|views|, i requires 0 <= i < |views| => views[i].frame)
  }

  /** Every view keeps its index and item; view i gets `frames[i]`. */
  predicate FramesAssigned(views: seq<TagView>, before: seq<TagView>, frames: seq<Rect>) {
    && |views| == |before| == |frames|
    && forall i :: 0 <= i < |views| ==> views[i] == before[i].(frame := frames[i])
  }

  /** The first `|placed|` views have received `placed`, the others are as they were. */
  ghost predicate FramesPlaced(views: seq<TagView>, before: seq<TagView>, placed: seq<Rect>) {
    && |views| == |before| && |placed| <= |views|
    && (forall i :: 0 <= i < |placed| ==> views[i] == before[i].(frame := placed[i]))
    && (forall i :: |placed| <= i < |views| ==> views[i] == before[i])
  }

  /** Giving the next view its frame extends what has been placed by that frame. */
  lemma PlaceNext(views: seq<TagView>, before: seq<TagView>, placed: seq<Rect>, frame: Rect)
    requires FramesPlaced(views, before, placed) && |placed| < |views|
    ensures FramesPlaced(views[|placed| := views[|placed|].(frame := frame)], before, placed + [frame])
  {
  }
}
