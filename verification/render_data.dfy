/**
 * `ChannelCommentsRenderData`: what a comments control is asked to show — the counter
 * pieces, the numbered commenter avatars, the unread flag — together with the
 * measured layout of the counter and the size the control needs in each mode.
 */
module RenderModel {
  import opened Geometry
  import opened CounterText

  /**
   * A commenter. `id` is the stable identity the avatar list is diffed by;
   * `details` stands for the rest of the peer record, which `isEqual` also compares.
   */
  datatype Peer = Peer(id: int, details: string)

  /** `ChannelCommentsRenderData.Avatar`: a peer and its position in the cluster. */
  datatype Avatar = Avatar(peer: Peer, index: int)

  /** `Avatar.<` orders by position alone. */
  predicate AvatarLess(a: Avatar, b: Avatar) { a.index < b.index }

  /**
   * `Avatar.<` is a strict order that relates any two avatars at different positions
   * and never two at the same position, whatever their peers.
   */
  lemma AvatarOrder(a: Avatar, b: Avatar, c: Avatar)
    ensures !AvatarLess(a, a)
    ensures AvatarLess(a, b) ==> !AvatarLess(b, a)
    ensures AvatarLess(a, b) && AvatarLess(b, c) ==> AvatarLess(a, c)
    ensures a.index != b.index <==> AvatarLess(a, b) || AvatarLess(b, a)
  {
  }

  /**
   * The numbering done by `init`: the avatars take positions 0, 1, 2, ... in the
   * order the peers were given, so the result is strictly ordered by `Avatar.<`.
   */
  method NumberAvatars(peers: seq<Peer>) returns (avatars: seq<Avatar>)
    ensures |avatars| == |peers|
    ensures forall i :: 0 <= i < |peers| ==> avatars[i].peer == peers[i] && avatars[i].index == i
    ensures forall i, j :: 0 <= i < j < |avatars| ==> AvatarLess(avatars[i], avatars[j])
  {
    avatars := [];
    var index := 0;
    while index < |peers|
      invariant 0 <= index <= |peers|
      invariant |avatars| == index
      invariant forall i :: 0 <= i < index ==> avatars[i] == Avatar(peers[i], i)
    {
      avatars := avatars + [Avatar(peers[index], index)];
      index := index + 1;
    }
  }

  /** One measured piece of the counter: the `(TextViewLayout, Text)` pair, the layout given by its size. */
  datatype Layout = Layout(size: Size, text: Text)

  /** The widths of the pieces added up, left to right. */
  function TitleWidth(layout: seq<Layout>): int {
    if layout == [] then 0 else layout[0].size.width + TitleWidth(layout[1..])
  }

  /** The tallest piece, and never less than zero. */
  function TallestPiece(layout: seq<Layout>): (h: int)
    ensures h >= 0
    ensures forall j :: 0 <= j < |layout| ==> layout[j].size.height <= h
    ensures h == 0 || exists j :: 0 <= j < |layout| && layout[j].size.height == h
  {
    if layout == [] then 0 else Max(layout[0].size.height, TallestPiece(layout[1..]))
  }

  /** The `reduce` in `titleSize`, from the accumulated size `acc` onward. */
  function ReduceSize(acc: Size, layout: seq<Layout>): (r: Size)
    ensures r.width == acc.width + TitleWidth(layout)
    ensures r.height >= acc.height && forall j :: 0 <= j < |layout| ==> layout[j].size.height <= r.height
    ensures r.height == acc.height || exists j :: 0 <= j < |layout| && layout[j].size.height == r.height
    decreases |layout|
  {
    if layout == [] then acc
    else ReduceSize(Size(acc.width + layout[0].size.width, Max(layout[0].size.height, acc.height)), layout[1..])
  }

  /** `titleSize`: the pieces folded from the zero size. */
  function TitleSize(layout: seq<Layout>): (r: Size)
    ensures r == Size(TitleWidth(layout), TallestPiece(layout))
  {
    ReduceSizeFrom(Size(0, 0), layout);
    ReduceSize(Size(0, 0), layout)
  }

  lemma {:induction false} ReduceSizeFrom(acc: Size, layout: seq<Layout>)
    requires acc.height >= 0
    ensures ReduceSize(acc, layout) == Size(acc.width + TitleWidth(layout), Max(acc.height, TallestPiece(layout)))
    decreases |layout|
  {
    if layout != [] {
      var next := Size(acc.width + layout[0].size.width, Max(layout[0].size.height, acc.height));
      ReduceSizeFrom(next, layout[1..]);
    }
  }

  /**
   * The title is as wide as its pieces put side by side and as tall as the tallest
   * of them; with no pieces it is 0 x 0.
   */
  lemma TitleSizeSpansPieces(layout: seq<Layout>)
    ensures TitleSize(layout).width == TitleWidth(layout)
    ensures TitleSize(layout).height == TallestPiece(layout)
    ensures forall j :: 0 <= j < |layout| ==> layout[j].size.height <= TitleSize(layout).height
    ensures layout == [] ==> TitleSize(layout) == Size(0, 0)
  {
    ReduceSizeFrom(Size(0, 0), layout);
  }

  lemma {:induction false} TitleWidthAppend(a: seq<Layout>, b: seq<Layout>)
    ensures TitleWidth(a + b) == TitleWidth(a) + TitleWidth(b)
  {
    if a == [] {
      assert a + b == b;
    } else {
      assert (a + b)[0] == a[0];
      assert (a + b)[1..] == a[1..] + b;
      TitleWidthAppend(a[1..], b);
    }
  }

  /** Adding one more piece on the right widens the title by that piece's width. */
  lemma TitleWidthStep(layout: seq<Layout>, k: nat)
    requires k < |layout|
    ensures TitleWidth(layout[..k + 1]) == TitleWidth(layout[..k]) + layout[k].size.width
  {
    assert layout[..k + 1] == layout[..k] + [layout[k]];
    TitleWidthAppend(layout[..k], [layout[k]]);
  }

  /** The width budget `makeSize` starts from. */
  const InitialBudget: int := 200

  /**
   * What `makeSize` produces from budget `budget` onward: each piece is measured
   * against the budget left, which then shrinks by that piece's width less 2.
   * `measure` stands for `TextViewLayout.measure(width:)` on a piece's text.
   */
  function Measured(title: seq<Text>, measure: (string, int) -> Size, budget: int): (layout: seq<Layout>)
    ensures |layout| == |title|
    ensures forall k :: 0 <= k < |title| ==> layout[k].text == title[k]
  {
    if title == [] then []
    else
      var size := measure(title[0].text, budget);
      [Layout(size, title[0])] + Measured(title[1..], measure, budget - (size.width - 2))
  }

  lemma MeasuredStep(title: seq<Text>, measure: (string, int) -> Size, budget: int, k: nat)
    requires k < |title|
    ensures var size := measure(title[k].text, budget);
      Measured(title[k..], measure, budget)
        == [Layout(size, title[k])] + Measured(title[k + 1..], measure, budget - (size.width - 2))
  {
    assert title[k..][0] == title[k];
    assert title[k..][1..] == title[k + 1..];
  }

  /**
   * Piece k is measured against the starting budget less the widths of the pieces
   * before it, plus 2 for each of them.
   */
  lemma {:induction false} MeasuredBudget(title: seq<Text>, measure: (string, int) -> Size, budget: int, k: nat)
    requires k < |title|
    ensures var layout := Measured(title, measure, budget);
      layout[k].size == measure(title[k].text, budget - TitleWidth(layout[..k]) + 2 * k)
  {
    var layout := Measured(title, measure, budget);
    if k > 0 {
      var size := measure(title[0].text, budget);
      var next := budget - (size.width - 2);
      MeasuredBudget(title[1..], measure, next, k - 1);
      var rest := Measured(title[1..], measure, next);
      assert layout == [Layout(size, title[0])] + rest;
      assert layout[..k] == [layout[0]] + rest[..k - 1];
      assert layout[..k][1..] == rest[..k - 1];
    }
  }

  /**
   * The size a comments control asks for (`size(_:_:)`), by mode:
   * overlay (`isOverlay`), bubble (`bubbled`) and list (neither).
   * `peerCount` is the number of avatars and `hasUnread` the unread flag.
   */
  function ContentSize(layout: seq<Layout>, peerCount: nat, hasUnread: bool, bubbled: bool, isOverlay: bool, theme: Theme): (r: Size)
    // overlay without a title: the bare 31 x 31 round button
    ensures isOverlay && TitleSize(layout).width <= 0 ==> r == Size(31, 31)
    // overlay with a title: at least 31 wide, 5 points of margin either side of the title,
    // and never wider than tall; the icon, the title and 10 points fit in its height
    ensures isOverlay && TitleSize(layout).width > 0 ==>
      && r.width >= 31 && r.width >= TitleSize(layout).width + 10
      && (r.width == 31 || r.width == TitleSize(layout).width + 10)
      && r.height >= r.width
      && r.height >= theme.overlayIcon.height + TitleSize(layout).height + 10
      && (r.height == r.width || r.height == theme.overlayIcon.height + TitleSize(layout).height + 10)
    // bubble with a title: margins of 37, the avatar cluster (21 per avatar) or the bubble
    // icon when there are none, the chevron, and 10 more for the unread dot
    ensures !isOverlay && bubbled && TitleSize(layout).width > 0 ==>
      r == Size(TitleSize(layout).width + 37
                + (if peerCount == 0 then theme.bubbleIcon.width else 21 * peerCount)
                + theme.bubbleNextIcon.width
                + (if hasUnread then 10 else 0),
                theme.bubbleHeight)
    // list with a title: the title, a 3 point gap and the list icon
    ensures !isOverlay && !bubbled && TitleSize(layout).width > 0 ==>
      r == Size(TitleSize(layout).width + 3 + theme.listIcon.width, theme.listHeight)
    // not an overlay and nothing to say: the control takes no room
    ensures !isOverlay && TitleSize(layout).width <= 0 ==> r == Size(0, 0)
  {
    var title := TitleSize(layout);
    if isOverlay then
      if title.width > 0 then
        var width := Max(title.width + 10, 31);
        Size(width, Max(theme.overlayIcon.height + title.height + 10, width))
      else Size(31, 31)
    else if bubbled && title.width > 0 then
      var cluster := if peerCount == 0 then theme.bubbleIcon.width else 21 * peerCount;
      Size(title.width + (6 * 4) + 13 + cluster + theme.bubbleNextIcon.width + (if hasUnread then 10 else 0),
           theme.bubbleHeight)
    else if title.width > 0 then
      Size(title.width + 3 + theme.listIcon.width, theme.listHeight)
    else Size(0, 0)
  }

  /**
   * The render data handed to a control. Everything is fixed at construction except
   * `titleLayout`, which `MakeSize` fills in.
   */
  class RenderData {
    const title: seq<Text>
    const peers: seq<Avatar>
    const hasUnread: bool
    const drawBorder: bool
    var titleLayout: seq<Layout>

    /** `init`: keeps the pieces and numbers the peers; nothing is measured yet. */
    constructor (title: seq<Text>, peers: seq<Peer>, hasUnread: bool, drawBorder: bool)
      ensures this.title == title && this.hasUnread == hasUnread && this.drawBorder == drawBorder
      ensures |this.peers| == |peers|
      ensures forall i :: 0 <= i < |peers| ==> this.peers[i] == Avatar(peers[i], i)
      ensures titleLayout == []
    {
      var numbered := NumberAvatars(peers);
      this.title := title;
      this.peers := numbered;
      this.hasUnread := hasUnread;
      this.drawBorder := drawBorder;
      this.titleLayout := [];
    }

    /** Every piece has been measured, in order. */
    predicate IsMeasured()
      reads this
    {
      |titleLayout| == |title| && forall k :: 0 <= k < |title| ==> titleLayout[k].text == title[k]
    }

    /** `makeSize`: measures the pieces one after another against a shrinking width budget. */
    method MakeSize(measure: (string, int) -> Size)
      modifies this
      ensures titleLayout == Measured(title, measure, InitialBudget)
      ensures IsMeasured()
    {
      var layout: seq<Layout> := [];
      var max := InitialBudget;
      var k := 0;
      assert title[k..] == title;
      while k < |title|
        invariant 0 <= k <= |title|
        invariant layout + Measured(title[k..], measure, max) == Measured(title, measure, InitialBudget)
      {
        var size := measure(title[k].text, max);
        MeasuredStep(title, measure, max, k);
        layout := layout + [Layout(size, title[k])];
        max := max - (size.width - 2);
        k := k + 1;
      }
      assert title[k..] == [];
      titleLayout := layout;
    }
  }
}
