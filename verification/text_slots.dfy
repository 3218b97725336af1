/**
 * `CommentsBasicControl` and the position getters of its subclasses: the table of
 * text views keyed by counter piece, reconciled against new render data, and the
 * points where the counter text begins and ends in each kind of control.
 */
module TextSlots {
  import opened Options
  import opened Geometry
  import opened CounterText
  import opened RenderModel

  /** The control drawing the comments: the base class or one of its three subclasses. */
  datatype Kind =
    | Basic   // CommentsBasicControl itself
    | Bubble  // ChannelCommentsBubbleControl: avatars, counter, unread dot, chevron
    | List    // ChannelCommentsControl: counter followed by the list icon
    | Small   // ChannelCommentsSmallControl: round overlay button, icon above counter

  /** What the getters read from the render data a control holds. */
  datatype Rendered = Rendered(titleLayout: seq<Layout>, peerCount: nat)

  /** The width of what the bubble control draws at x = 19: the avatars, or the bubble icon when there are none. */
  function ClusterWidth(peerCount: nat, theme: Theme): int {
    if peerCount == 0 then theme.bubbleIcon.width else 21 * peerCount
  }

  /**
   * `firstTextPosition` of each kind of control. `focus` gives the origin that centres
   * a frame of the given size in the control's bounds.
   */
  function FirstTextPosition(kind: Kind, shown: Option<Rendered>, theme: Theme, focus: Size -> Point): (p: Point)
    ensures shown.None? || kind == Basic ==> p == Zero
    // bubble: 6 points right of the avatar cluster (or bubble icon) that starts at x = 19,
    // one point above the vertically centred title
    ensures kind == Bubble && shown.Some? && shown.value.titleLayout != [] ==>
      p.x == 19 + ClusterWidth(shown.value.peerCount, theme) + 6 &&
      p.y == focus(TitleSize(shown.value.titleLayout)).y - 1
    // list: flush left, centred vertically (also when there is no title)
    ensures kind == List && shown.Some? ==> p == Point(0, focus(TitleSize(shown.value.titleLayout)).y)
    // overlay: centred horizontally, right below the icon that sits 5 points from the top
    ensures kind == Small && shown.Some? && shown.value.titleLayout != [] ==>
      p == Point(focus(TitleSize(shown.value.titleLayout)).x, 5 + theme.overlayIcon.height)
    ensures kind in {Bubble, Small} && shown.Some? && shown.value.titleLayout == [] ==> p == Zero
  {
    match kind
    case Basic => Zero
    case Bubble =>
      if shown.None? || shown.value.titleLayout == [] then Zero
      else
        var clusterMaxX := 13 + 6 + ClusterWidth(shown.value.peerCount, theme);
        var f := focus(TitleSize(shown.value.titleLayout));
        Point(clusterMaxX + 6, f.y - 1)
    case List =>
      if shown.None? then Zero
      else Point(0, focus(TitleSize(shown.value.titleLayout)).y)
    case Small =>
      if shown.None? || shown.value.titleLayout == [] then Zero
      else
        var iconMaxY := 5 + theme.overlayIcon.height;
        Point(focus(TitleSize(shown.value.titleLayout)).x, iconMaxY)
  }

  /** The `reduce` of `lastTextPosition`: widths added up from `acc`. */
  function ReduceWidth(acc: int, layout: seq<Layout>): (r: int)
    ensures r == acc + TitleWidth(layout)
    decreases |layout|
  {
    if layout == [] then acc else ReduceWidth(acc + layout[0].size.width, layout[1..])
  }

  /**
   * `lastTextPosition`: where the counter text ends — the first position moved right by
   * the width of all pieces, or the zero point when nothing is shown.
   */
  function LastTextPosition(kind: Kind, shown: Option<Rendered>, theme: Theme, focus: Size -> Point): (p: Point)
    ensures shown.None? || shown.value.titleLayout == [] ==> p == Zero
    ensures shown.Some? && shown.value.titleLayout != [] ==>
      var first := FirstTextPosition(kind, shown, theme, focus);
      p == Point(first.x + TitleWidth(shown.value.titleLayout), first.y)
  {
    if shown.None? || shown.value.titleLayout == [] then Zero
    else
      var first := FirstTextPosition(kind, shown, theme, focus);
      Point(first.x + ReduceWidth(0, shown.value.titleLayout), first.y)
  }

  /**
   * `imagePosition` of the overlay control: the icon 5 points from the top above a
   * counter, centred when there is no counter.
   */
  function ImagePosition(shown: Option<Rendered>, theme: Theme, focus: Size -> Point): (p: Point)
    ensures shown.None? ==> p == Zero
    ensures shown.Some? && shown.value.titleLayout != [] ==> p == Point(focus(theme.overlayIcon).x, 5)
    ensures shown.Some? && shown.value.titleLayout == [] ==> p == focus(theme.overlayIcon)
  {
    if shown.None? then Zero
    else if shown.value.titleLayout != [] then Point(focus(theme.overlayIcon).x, 5)
    else focus(theme.overlayIcon)
  }

  /** Where `ChannelCommentsControl.draw` puts the list icon: 3 points right of the title, centred vertically. */
  function ListIconOrigin(layout: seq<Layout>, theme: Theme, focus: Size -> Point): (p: Point)
    ensures p.x == TitleWidth(layout) + 3
    ensures p.y == focus(theme.listIcon).y
  {
    var titleMaxX := 0 + TitleSize(layout).width;
    Point(titleMaxX + 3, focus(theme.listIcon).y)
  }

  // ---------------------------------------------------------------------------
  // The text-view table

  /** A text view in the table: the piece it was created for and its frame origin. */
  datatype TextField = TextField(text: Text, origin: Point)

  /** How a text view leaves or enters: at once (not animated), fading, or fading while sliding. */
  datatype Transition = Instant | Fade | FadeSlide(direction: Direction)

  /** What `update` does for one piece of the new layout. */
  datatype Placement = Moved | Created(enter: Transition)

  /** An old view survives when its piece is exactly the first new piece in the same slot. */
  predicate Keeps(title: seq<Text>, key: Text) {
    FirstInSlot(title, key.index) == Some(key)
  }

  /** The old keys whose views survive `update`. */
  function Kept(keys: set<Text>, title: seq<Text>): (kept: set<Text>)
    ensures kept <= keys
    ensures forall k :: k in kept ==> k in title
    ensures forall k :: k in keys && k !in kept ==> FirstInSlot(title, k.index) != Some(k)
    ensures forall k :: k in kept <==> k in keys && Keeps(title, k)
  {
    set k | k in keys && Keeps(title, k)
  }

  /** The piece `t` is among the first n pieces of a layout. */
  predicate OccursBefore(layout: seq<Layout>, n: int, t: Text)
    requires 0 <= n <= |layout|
  {
    exists j :: 0 <= j < n && layout[j].text == t
  }

  lemma OccursStep(layout: seq<Layout>, n: int)
    requires 0 <= n < |layout|
    ensures forall t :: OccursBefore(layout, n + 1, t) <==> OccursBefore(layout, n, t) || t == layout[n].text
  {
    forall t ensures OccursBefore(layout, n + 1, t) <==> OccursBefore(layout, n, t) || t == layout[n].text {
      if OccursBefore(layout, n + 1, t) {
        var j :| 0 <= j < n + 1 && layout[j].text == t;
        if j < n { assert OccursBefore(layout, n, t); }
      }
      if t == layout[n].text {
        assert layout[n].text == t;
      }
    }
  }

  /** The pieces of a layout, as a set. */
  function Pieces(layout: seq<Layout>): (pieces: set<Text>)
    ensures forall t :: t in pieces <==> OccursBefore(layout, |layout|, t)
  {
    set j | 0 <= j < |layout| :: layout[j].text
  }

  /**
   * How the view of a dropped piece `key` goes away: at once when not animated; otherwise
   * it fades, and when the slot's new piece is numeric it also slides in the direction
   * the new piece is compared with the old.
   */
  function ExitOf(title: seq<Text>, key: Text, animated: bool): (r: Transition)
    ensures r == Instant <==> !animated
    ensures r.FadeSlide? <==> animated && FirstInSlot(title, key.index).Some? && FirstInSlot(title, key.index).value.animation == Numeric
    ensures r.FadeSlide? ==> r.direction == Slide(FirstInSlot(title, key.index).value, key)
  {
    if !animated then Instant
    else match FirstInSlot(title, key.index)
      case Some(t) => if t.animation == Numeric then FadeSlide(Slide(t, key)) else Fade
      case None => Fade
  }

  /**
   * How the view of a new piece appears: at once when not animated; fading for a
   * cross-fade piece; fading and sliding when its slot recorded a direction.
   */
  function EnterOf(piece: Text, slides: map<int, Direction>, animated: bool): (r: Transition)
    ensures r == Instant <==> !animated
    ensures r.FadeSlide? <==> animated && piece.animation == Numeric && piece.index in slides
    ensures r.FadeSlide? ==> r.direction == slides[piece.index]
  {
    if !animated then Instant
    else if piece.animation != Numeric then Fade
    else if piece.index in slides then FadeSlide(slides[piece.index])
    else Fade
  }

  /**
   * The directions `update` records (its `addition` table): one for each slot where an
   * old piece was dropped and a new piece exists, obtained by comparing the new piece
   * with a dropped old piece of that slot.
   */
  ghost predicate SlidesFor(slides: map<int, Direction>, keys: set<Text>, title: seq<Text>) {
    && (forall i :: i in slides ==>
          FirstInSlot(title, i).Some? &&
          exists k :: k in keys && !Keeps(title, k) && k.index == i && slides[i] == Slide(FirstInSlot(title, i).value, k))
    && (forall k :: k in keys && !Keeps(title, k) && FirstInSlot(title, k.index).Some? ==> k.index in slides)
  }

  /** The directions after handling old key `key`: a changed slot with a new piece gets one. */
  function NextSlides(slides: map<int, Direction>, title: seq<Text>, key: Text): map<int, Direction> {
    var current := FirstInSlot(title, key.index);
    if !Keeps(title, key) && current.Some? then slides[key.index := Slide(current.value, key)] else slides
  }

  lemma SlidesForNone(title: seq<Text>)
    ensures SlidesFor(map[], {}, title)
  {
  }

  /** Handling one more old key keeps the recorded directions as `SlidesFor` describes them. */
  lemma SlidesStep(slides: map<int, Direction>, done: set<Text>, title: seq<Text>, key: Text)
    requires SlidesFor(slides, done, title)
    ensures SlidesFor(NextSlides(slides, title, key), done + {key}, title)
  {
    var current := FirstInSlot(title, key.index);
    var keys := done + {key};
    if !Keeps(title, key) && current.Some? {
      var slides' := slides[key.index := Slide(current.value, key)];
      forall i | i in slides'
        ensures FirstInSlot(title, i).Some? &&
          exists k :: k in keys && !Keeps(title, k) && k.index == i && slides'[i] == Slide(FirstInSlot(title, i).value, k)
      {
        if i == key.index {
          assert key in keys && !Keeps(title, key) && key.index == i && slides'[i] == Slide(FirstInSlot(title, i).value, key);
        } else {
          var k :| k in done && !Keeps(title, k) && k.index == i && slides[i] == Slide(FirstInSlot(title, i).value, k);
          assert k in keys && slides'[i] == slides[i];
        }
      }
    } else {
      forall i | i in slides
        ensures exists k :: k in keys && !Keeps(title, k) && k.index == i && slides[i] == Slide(FirstInSlot(title, i).value, k)
      {
        var k :| k in done && !Keeps(title, k) && k.index == i && slides[i] == Slide(FirstInSlot(title, i).value, k);
        assert k in keys;
      }
    }
  }

  /** The exit transitions after handling old key `key`: a dropped key gets one. */
  function NextExits(exits: map<Text, Transition>, title: seq<Text>, key: Text, animated: bool): map<Text, Transition> {
    if Keeps(title, key) then exits else exits[key := ExitOf(title, key, animated)]
  }

  /** The table after handling old key `key`: its view is dropped unless it survives. */
  function NextViews(views: map<Text, TextField>, title: seq<Text>, key: Text): map<Text, TextField> {
    if Keeps(title, key) then views else views - {key}
  }

  /**
   * The state of the first loop of `update` once the old keys `done` have been handled:
   * the views of handled keys that did not survive are gone and all others untouched;
   * each dropped key has its exit; the directions are those of the handled keys.
   */
  ghost predicate Dropping(views: map<Text, TextField>, before: map<Text, TextField>, title: seq<Text>, done: set<Text>,
                           exits: map<Text, Transition>, slides: map<int, Direction>, animated: bool)
  {
    && done <= before.Keys
    && views.Keys == (before.Keys - done) + Kept(done, title)
    && (forall k :: k in views ==> k in before && views[k] == before[k])
    && exits.Keys == done - Kept(done, title)
    && (forall k :: k in exits ==> exits[k] == ExitOf(title, k, animated))
    && SlidesFor(slides, done, title)
  }

  /** Handling one more old key carries `Dropping` from `done` to `done + {key}`. */
  lemma DroppingStep(views: map<Text, TextField>, before: map<Text, TextField>, title: seq<Text>, done: set<Text>,
                     exits: map<Text, Transition>, slides: map<int, Direction>, animated: bool, key: Text)
    requires Dropping(views, before, title, done, exits, slides, animated)
    requires key in before && key !in done
    ensures Dropping(NextViews(views, title, key), before, title, done + {key},
                     NextExits(exits, title, key, animated), NextSlides(slides, title, key), animated)
  {
    SlidesStep(slides, done, title, key);
    assert Kept(done + {key}, title) == Kept(done, title) + (if Keeps(title, key) then {key} else {});
  }

  /** Piece j is the last occurrence of its text among the first n pieces. */
  predicate LastBefore(layout: seq<Layout>, j: int, n: int)
    requires 0 <= j < n <= |layout|
  {
    forall j' :: j < j' < n ==> layout[j'].text != layout[j].text
  }

  /** Piece j is the last occurrence of its text in the layout. */
  predicate LastOf(layout: seq<Layout>, j: int)
    requires 0 <= j < |layout|
  {
    LastBefore(layout, j, |layout|)
  }

  /** Pieces are placed left to right: piece j starts after the widths of the pieces before it. */
  function TextOrigin(first: Point, layout: seq<Layout>, j: int): Point
    requires 0 <= j <= |layout|
  {
    Point(first.x + TitleWidth(layout[..j]), first.y)
  }

  /** Among the first n pieces, the view of each last occurrence sits at that piece's origin. */
  ghost predicate PlacedBefore(views: map<Text, TextField>, layout: seq<Layout>, first: Point, n: int)
    requires 0 <= n <= |layout|
  {
    forall p :: 0 <= p < n && LastBefore(layout, p, n) ==>
      layout[p].text in views && views[layout[p].text].origin == TextOrigin(first, layout, p)
  }

  /** Placing piece n at its origin extends `PlacedBefore` by one piece. */
  lemma OriginsStep(previous: map<Text, TextField>, next: map<Text, TextField>, layout: seq<Layout>, first: Point, n: int)
    requires 0 <= n < |layout|
    requires PlacedBefore(previous, layout, first, n)
    requires layout[n].text in next && next[layout[n].text].origin == TextOrigin(first, layout, n)
    requires forall t :: t in previous && t != layout[n].text ==> t in next && next[t] == previous[t]
    ensures PlacedBefore(next, layout, first, n + 1)
  {
    forall p | 0 <= p < n + 1 && LastBefore(layout, p, n + 1)
      ensures layout[p].text in next && next[layout[p].text].origin == TextOrigin(first, layout, p)
    {
      if p < n {
        assert layout[n].text != layout[p].text;
        assert LastBefore(layout, p, n);
      }
    }
  }

  /** What `update` does for piece j: moves the view it already has, or creates one. */
  function PlacementOf(layout: seq<Layout>, j: int, kept: set<Text>, slides: map<int, Direction>, animated: bool): (r: Placement)
    requires 0 <= j < |layout|
    // moved exactly when the piece already has a view: a surviving one, or one made for an earlier occurrence
    ensures r == Moved <==> layout[j].text in kept || exists i :: 0 <= i < j && layout[i].text == layout[j].text
    ensures r.Created? ==> r.enter == EnterOf(layout[j].text, slides, animated)
  {
    if layout[j].text in kept || OccursBefore(layout, j, layout[j].text) then Moved
    else Created(EnterOf(layout[j].text, slides, animated))
  }

  /** The entries of the first n pieces are the placements `update` makes for them. */
  predicate EntriesBefore(entries: seq<Placement>, layout: seq<Layout>, n: int, kept: set<Text>,
                          slides: map<int, Direction>, animated: bool)
    requires 0 <= n <= |layout|
  {
    |entries| == n && forall p :: 0 <= p < n ==> entries[p] == PlacementOf(layout, p, kept, slides, animated)
  }

  /** Appending the placement of piece n carries `EntriesBefore` from n to n + 1. */
  lemma EntriesStep(entries: seq<Placement>, layout: seq<Layout>, n: int, kept: set<Text>,
                    slides: map<int, Direction>, animated: bool, placement: Placement)
    requires 0 <= n < |layout|
    requires EntriesBefore(entries, layout, n, kept, slides, animated)
    requires placement == if layout[n].text in kept || OccursBefore(layout, n, layout[n].text) then Moved
                          else Created(EnterOf(layout[n].text, slides, animated))
    ensures EntriesBefore(entries + [placement], layout, n + 1, kept, slides, animated)
  {
  }

  /** The table after placing `piece` at `pos`: its view is moved there, or a new one is created there. */
  function Placed(views: map<Text, TextField>, piece: Text, pos: Point): (next: map<Text, TextField>)
    ensures next.Keys == views.Keys + {piece}
    ensures next[piece] == TextField(if piece in views then views[piece].text else piece, pos)
    ensures forall t :: t in views && t != piece ==> next[t] == views[t]
  {
    if piece in views then views[piece := views[piece].(origin := pos)] else views[piece := TextField(piece, pos)]
  }

  /**
   * The table while the second loop of `update` is at piece n: it holds the old views
   * that survived and one view per piece placed so far; the views of surviving pieces not
   * yet reached are untouched; and each last occurrence so far sits at its origin.
   */
  ghost predicate Placing(views: map<Text, TextField>, before: map<Text, TextField>, layout: seq<Layout>, first: Point, n: int)
    requires 0 <= n <= |layout|
  {
    && (forall t :: t in views <==> t in before || OccursBefore(layout, n, t))
    && (forall t :: t in views ==> views[t].text == t)
    && (forall t :: t in before && !OccursBefore(layout, n, t) ==> t in views && views[t] == before[t])
    && PlacedBefore(views, layout, first, n)
  }

  /** Placing piece n at its origin carries `Placing` from n to n + 1. */
  lemma PlacingStep(views: map<Text, TextField>, before: map<Text, TextField>, layout: seq<Layout>, first: Point, n: int)
    requires 0 <= n < |layout|
    requires Placing(views, before, layout, first, n)
    ensures layout[n].text in views <==> layout[n].text in before || OccursBefore(layout, n, layout[n].text)
    ensures Placing(Placed(views, layout[n].text, TextOrigin(first, layout, n)), before, layout, first, n + 1)
  {
    var next := Placed(views, layout[n].text, TextOrigin(first, layout, n));
    OccursStep(layout, n);
    OriginsStep(views, next, layout, first, n);
  }

  class CommentsControl {
    const kind: Kind
    var textViews: map<Text, TextField>
    var renderData: RenderData?

    constructor (kind: Kind)
      ensures this.kind == kind && textViews == map[] && renderData == null
      ensures Valid()
    {
      this.kind := kind;
      textViews := map[];
      renderData := null;
    }

    /** Every view is stored together with the piece it is keyed by. */
    ghost predicate Valid()
      reads this
    {
      forall t :: t in textViews ==> textViews[t].text == t
    }

    /** The render data as the getters see it. */
    function Shown(): Option<Rendered>
      reads this, renderData
    {
      if renderData == null then None else Some(Rendered(renderData.titleLayout, |renderData.peers|))
    }

    /**
     * `update(data:size:animated:)`: drops the views whose piece vanished or changed,
     * records a slide direction for each changed slot, then walks the new layout left
     * to right, moving the views it keeps and creating the missing ones.
     */
    method Update(data: RenderData, theme: Theme, focus: Size -> Point, animated: bool)
      returns (slides: map<int, Direction>, exits: map<Text, Transition>, entries: seq<Placement>)
      requires Valid()
      modifies this
      ensures Valid() && renderData == data
      ensures textViews.Keys == Kept(old(textViews).Keys, data.title) + Pieces(data.titleLayout)
      ensures forall k :: k in Kept(old(textViews).Keys, data.title) && k !in Pieces(data.titleLayout) ==>
                textViews[k] == old(textViews)[k]
      ensures forall j :: 0 <= j < |data.titleLayout| && LastOf(data.titleLayout, j) ==>
                textViews[data.titleLayout[j].text].origin
                  == TextOrigin(FirstTextPosition(kind, Shown(), theme, focus), data.titleLayout, j)
      ensures exits.Keys == old(textViews).Keys - Kept(old(textViews).Keys, data.title)
      ensures forall k :: k in exits ==> exits[k] == ExitOf(data.title, k, animated)
      ensures SlidesFor(slides, old(textViews).Keys, data.title)
      ensures |entries| == |data.titleLayout|
      ensures forall j :: 0 <= j < |entries| ==>
                entries[j] == PlacementOf(data.titleLayout, j, Kept(old(textViews).Keys, data.title), slides, animated)
    {
      renderData := data;
      ghost var before := textViews;
      slides, exits := DropStale(data.title, animated);
      assert textViews.Keys == Kept(before.Keys, data.title);
      var first := FirstTextPosition(kind, Shown(), theme, focus);
      entries := PlaceLayout(data.titleLayout, first, Kept(before.Keys, data.title), slides, animated);
      assert PlacedBefore(textViews, data.titleLayout, first, |data.titleLayout|);
    }

    /** The first loop of `update`: over a copy of the keys, drop each view whose piece vanished or changed. */
    method DropStale(title: seq<Text>, animated: bool)
      returns (slides: map<int, Direction>, exits: map<Text, Transition>)
      requires Valid()
      modifies this`textViews
      ensures Valid()
      ensures textViews.Keys == Kept(old(textViews).Keys, title)
      ensures forall k :: k in textViews ==> textViews[k] == old(textViews)[k]
      ensures exits.Keys == old(textViews).Keys - Kept(old(textViews).Keys, title)
      ensures forall k :: k in exits ==> exits[k] == ExitOf(title, k, animated)
      ensures SlidesFor(slides, old(textViews).Keys, title)
    {
      ghost var before := textViews;
      ghost var done: set<Text> := {};
      var pending := textViews.Keys;
      slides := map[];
      exits := map[];
      SlidesForNone(title);
      while pending != {}
        invariant pending !! done && pending + done == before.Keys
        invariant Dropping(textViews, before, title, done, exits, slides, animated)
        decreases pending
      {
        var key :| key in pending;
        DroppingStep(textViews, before, title, done, exits, slides, animated, key);
        slides, exits := DropKey(key, title, animated, slides, exits);
        pending := pending - {key};
        done := done + {key};
      }
    }

    /** One turn of the first loop of `update`: drops the view of `key` if its piece vanished or changed. */
    method DropKey(key: Text, title: seq<Text>, animated: bool, slides: map<int, Direction>, exits: map<Text, Transition>)
      returns (slides': map<int, Direction>, exits': map<Text, Transition>)
      requires key in textViews && textViews[key].text == key
      // a direction is only ever recorded for a slot that has a new piece
      requires forall i :: i in slides ==> FirstInSlot(title, i).Some?
      modifies this`textViews
      ensures textViews == NextViews(old(textViews), title, key)
      ensures slides' == NextSlides(slides, title, key)
      ensures exits' == NextExits(exits, title, key, animated)
    {
      var current := FirstInSlot(title, key.index);
      slides' := slides;
      exits' := exits;
      if Some(textViews[key].text) != current {
        var updated := if current.Some? then current.value else key;
        if current.Some? {
          slides' := slides'[key.index := if Less(current.value, key) then Backward else Forward];
        }
        textViews := textViews - {key};
        var exit;
        if !animated {
          exit := Instant;
        } else if updated.animation == CrossFade {
          exit := Fade;
        } else if key.index in slides' {
          exit := FadeSlide(slides'[key.index]);
        } else {
          exit := Fade;
        }
        exits' := exits'[key := exit];
      }
    }

    /**
     * The second loop of `update`: walk the layout left to right from `first`, moving the
     * view a piece already has or creating one, advancing by each piece's width.
     */
    method PlaceLayout(layout: seq<Layout>, first: Point, ghost kept: set<Text>, slides: map<int, Direction>, animated: bool)
      returns (entries: seq<Placement>)
      requires Valid() && textViews.Keys == kept
      modifies this`textViews
      ensures Valid()
      ensures textViews.Keys == kept + Pieces(layout)
      ensures forall k :: k in kept && k !in Pieces(layout) ==> textViews[k] == old(textViews)[k]
      ensures PlacedBefore(textViews, layout, first, |layout|)
      ensures |entries| == |layout|
      ensures forall j :: 0 <= j < |layout| ==> entries[j] == PlacementOf(layout, j, kept, slides, animated)
    {
      ghost var before := textViews;
      var pos := first;
      entries := [];
      for j := 0 to |layout|
        invariant pos == TextOrigin(first, layout, j)
        invariant Placing(textViews, before, layout, first, j)
        invariant EntriesBefore(entries, layout, j, kept, slides, animated)
      {
        var piece := layout[j].text;
        PlacingStep(textViews, before, layout, first, j);
        var placement := PlacePiece(piece, pos, slides, animated);
        EntriesStep(entries, layout, j, kept, slides, animated, placement);
        entries := entries + [placement];
        TitleWidthStep(layout, j);
        pos := Point(pos.x + layout[j].size.width, pos.y);
      }
    }

    /** One turn of the second loop of `update`: move the view of `piece` to `pos`, or create it there. */
    method PlacePiece(piece: Text, pos: Point, slides: map<int, Direction>, animated: bool) returns (placement: Placement)
      modifies this`textViews
      ensures textViews == Placed(old(textViews), piece, pos)
      ensures placement == if piece in old(textViews) then Moved else Created(EnterOf(piece, slides, animated))
    {
      if piece in textViews {
        textViews := textViews[piece := textViews[piece].(origin := pos)];
        placement := Moved;
      } else {
        var enter: Transition;
        if !animated {
          enter := Instant;
        } else if piece.animation == CrossFade {
          enter := Fade;
        } else if piece.index in slides {
          enter := FadeSlide(slides[piece.index]);
        } else {
          enter := Fade;
        }
        textViews := textViews[piece := TextField(piece, pos)];
        placement := Created(enter);
      }
    }
  }

  /**
   * Once the layout has been measured, the table holds one view per new piece and no
   * other: its keys are the new pieces, and so the slots it covers are the new indices.
   */
  lemma TableFollowsTitle(keys: set<Text>, title: seq<Text>, layout: seq<Layout>)
    requires |layout| == |title| && forall k :: 0 <= k < |title| ==> layout[k].text == title[k]
    ensures Kept(keys, title) + Pieces(layout) == set t | t in title
    ensures (set t | t in Kept(keys, title) + Pieces(layout) :: t.index) == (set t | t in title :: t.index)
  {
    var all := Kept(keys, title) + Pieces(layout);
    assert all == set t | t in title by {
      forall t | t in title ensures t in Pieces(layout) {
        var k :| 0 <= k < |title| && title[k] == t;
        assert layout[k].text == t;
      }
    }
  }

  /**
   * When no two old pieces share a slot, the direction recorded for a changed slot is
   * exactly the comparison of its new piece with its old piece.
   */
  lemma SlidesDeterminate(slides: map<int, Direction>, keys: set<Text>, title: seq<Text>, key: Text)
    requires SlidesFor(slides, keys, title)
    requires forall a, b :: a in keys && b in keys && a.index == b.index ==> a == b
    requires key in keys && !Keeps(title, key) && FirstInSlot(title, key.index).Some?
    ensures slides[key.index] == Slide(FirstInSlot(title, key.index).value, key)
  {
  }
}
