/**
 * How the pieces of each control fit in the size it asks for: the positions the
 * getters and `layout()` compute, checked against `size(_:_:)`.
 */
module LayoutFit {
  import opened Options
  import opened Geometry
  import opened RenderModel
  import opened TextSlots
  import opened BubbleControls

  /**
   * Bubble mode: in a control as wide as it asked to be, the chevron starts 6 points
   * after the counter ends, or 16 when the unread dot is there; the dot then leaves
   * 4 points before the chevron.
   */
  lemma BubbleChevronAfterCounter(layout: seq<Layout>, peerCount: nat, hasUnread: bool, theme: Theme, focus: Size -> Point)
    requires TitleSize(layout).width > 0
    ensures var shown := Some(Rendered(layout, peerCount));
      var width := ContentSize(layout, peerCount, hasUnread, true, false, theme).width;
      var arrowX := width - Gap - theme.bubbleNextIcon.width;
      var dot := DotOrigin(LastTextPosition(Bubble, shown, theme, focus), focus);
      && arrowX == LastTextPosition(Bubble, shown, theme, focus).x + Gap + (if hasUnread then 10 else 0)
      && (hasUnread ==> dot.x + DotSize.width + 4 == arrowX)
  {
    TitleSizeSpansPieces(layout);
  }

  /**
   * Bubble mode: every avatar of a cluster laid out for `peerCount` avatars ends
   * before the counter begins.
   */
  lemma AvatarsBeforeCounter(layout: seq<Layout>, avatars: seq<AvatarView>, theme: Theme, focus: Size -> Point)
    requires layout != [] && LaidOut(avatars)
    ensures var first := FirstTextPosition(Bubble, Some(Rendered(layout, |avatars|)), theme, focus);
      forall i :: 0 <= i < |avatars| ==> ClusterX + avatars[i].x + 22 <= first.x
  {
    var first := FirstTextPosition(Bubble, Some(Rendered(layout, |avatars|)), theme, focus);
    forall i | 0 <= i < |avatars| ensures ClusterX + avatars[i].x + 22 <= first.x {
      assert LaidAt(avatars[i], i);
    }
  }

  /**
   * Overlay mode: the icon sits right above the counter, and the counter keeps 5
   * points of margin below it; when `focus` centres the title across the width the
   * control asked for, the counter also keeps 5 points on its left and on its right.
   */
  lemma OverlayCounterFits(layout: seq<Layout>, peerCount: nat, theme: Theme, focus: Size -> Point)
    requires TitleSize(layout).width > 0
    requires var size := ContentSize(layout, peerCount, false, false, true, theme);
      focus(TitleSize(layout)).x == (size.width - TitleSize(layout).width) / 2
    ensures var shown := Some(Rendered(layout, peerCount));
      var size := ContentSize(layout, peerCount, false, false, true, theme);
      var first := FirstTextPosition(Small, shown, theme, focus);
      && ImagePosition(shown, theme, focus).y + theme.overlayIcon.height == first.y
      && first.y + TitleSize(layout).height + 5 <= size.height
      && 5 <= first.x && first.x + TitleSize(layout).width + 5 <= size.width
  {
    TitleSizeSpansPieces(layout);
  }

  /**
   * List mode: the icon starts 3 points after the counter ends, and its right edge is
   * the right edge of the size the control asked for.
   */
  lemma ListIconAtEnd(layout: seq<Layout>, peerCount: nat, theme: Theme, focus: Size -> Point)
    requires TitleSize(layout).width > 0
    ensures var icon := ListIconOrigin(layout, theme, focus);
      && icon.x == LastTextPosition(List, Some(Rendered(layout, peerCount)), theme, focus).x + 3
      && icon.x + theme.listIcon.width == ContentSize(layout, peerCount, false, false, false, theme).width
  {
    TitleSizeSpansPieces(layout);
  }
}
