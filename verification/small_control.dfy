/**
 * `ChannelCommentsSmallControl`: the round comments button overlaid on media, with
 * the comments icon above the counter.
 */
module SmallControls {
  import opened Options
  import opened Geometry
  import opened RenderModel
  import opened CounterText
  import opened TextSlots

  class SmallControl {
    const base: CommentsControl
    var imageOrigin: Point
    var frameSize: Size

    /** `init(frame:)`: an empty overlay control of the given size. */
    constructor (frameSize: Size)
      ensures Valid() && fresh(base)
      ensures base.textViews == map[] && base.renderData == null
      ensures this.frameSize == frameSize && imageOrigin == Zero
    {
      base := new CommentsControl(Small);
      imageOrigin := Zero;
      this.frameSize := frameSize;
    }

    /** The counter part is an overlay control whose table is well formed. */
    ghost predicate Valid()
      reads this, base
    {
      base.kind == Small && base.Valid()
    }

    /**
     * `update(data:size:animated:)`: the counter as the base control updates it, then the
     * icon moved to `imagePosition` within a frame of the new size, and the frame resized.
     * `focusIn` centres a frame of the given size in a rectangle of size `size`.
     */
    method Update(data: RenderData, size: Size, theme: Theme, focus: Size -> Point, focusIn: Size -> Point, animated: bool)
      returns (slides: map<int, Direction>, exits: map<Text, Transition>, entries: seq<Placement>)
      requires Valid()
      modifies this, base
      ensures Valid() && base.renderData == data
      ensures base.textViews.Keys == Kept(old(base.textViews).Keys, data.title) + Pieces(data.titleLayout)
      ensures forall k :: k in Kept(old(base.textViews).Keys, data.title) && k !in Pieces(data.titleLayout) ==>
                base.textViews[k] == old(base.textViews)[k]
      ensures forall j :: 0 <= j < |data.titleLayout| && LastOf(data.titleLayout, j) ==>
                base.textViews[data.titleLayout[j].text].origin
                  == TextOrigin(FirstTextPosition(Small, base.Shown(), theme, focus), data.titleLayout, j)
      ensures exits.Keys == old(base.textViews).Keys - Kept(old(base.textViews).Keys, data.title)
      ensures forall k :: k in exits ==> exits[k] == ExitOf(data.title, k, animated)
      ensures SlidesFor(slides, old(base.textViews).Keys, data.title)
      ensures |entries| == |data.titleLayout|
      ensures forall j :: 0 <= j < |entries| ==>
                entries[j] == PlacementOf(data.titleLayout, j, Kept(old(base.textViews).Keys, data.title), slides, animated)
      ensures imageOrigin == ImagePosition(base.Shown(), theme, focusIn)
      ensures data.titleLayout != [] ==> imageOrigin == Point(focusIn(theme.overlayIcon).x, 5)
      ensures data.titleLayout == [] ==> imageOrigin == focusIn(theme.overlayIcon)
      ensures frameSize == size
    {
      slides, exits, entries := base.Update(data, theme, focus, animated);
      var iconPosition;
      if data.titleLayout != [] {
        iconPosition := Point(focusIn(theme.overlayIcon).x, 5);
      } else {
        iconPosition := focusIn(theme.overlayIcon);
      }
      imageOrigin := iconPosition;
      frameSize := size;
    }

    /** `layout()`: the icon at `imagePosition`, `focus` centring in the current bounds. */
    method Layout(theme: Theme, focus: Size -> Point)
      modifies this`imageOrigin
      ensures imageOrigin == ImagePosition(base.Shown(), theme, focus)
    {
      imageOrigin := ImagePosition(base.Shown(), theme, focus);
    }
  }
}
