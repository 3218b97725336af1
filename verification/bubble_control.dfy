/**
 * `ChannelCommentsBubbleControl`: the comments control at the bottom of a channel
 * post bubble. Besides the counter it keeps a cluster of commenter avatars, diffed
 * against the new avatars by a merge script, and an unread dot after the counter.
 */
module BubbleControls {
  import opened Options
  import opened Geometry
  import opened CounterText
  import opened RenderModel
  import opened TextSlots

  /**
   * An avatar view of the cluster: the peer it was created for, its x origin inside the
   * cluster (its y origin is always 0 and its size 22 x 22), whether it is drawn clipped
   * (overlapped by its left neighbour), and its z position.
   */
  datatype AvatarView = AvatarView(peer: Peer, x: int, clipped: bool, z: int)

  /**
   * One insertion or update of a merge script: the position in the new list, the new
   * avatar, and the position it had in the old list, if any.
   */
  datatype MergeItem = MergeItem(at: int, avatar: Avatar, previous: Option<int>)

  /**
   * What `mergeListsStableWithUpdates` reports for the old and the new avatars: positions
   * to remove (in the old list, applied from the last one back), insertions (applied in
   * order) and updates (positions in the final list).
   */
  datatype MergeScript = MergeScript(removed: seq<int>, inserted: seq<MergeItem>, updated: seq<MergeItem>)

  /** Avatars overlap: each starts 19 points right of the previous one. */
  const AvatarStep: int := 19

  /** The z position of the first avatar; each following one is one lower. */
  const TopZ: int := 10

  /** The cluster sits 13 + 6 points from the left edge of the control. */
  const ClusterX: int := 13 + 6

  /** The gap between the end of the counter and the unread dot, and after the chevron. */
  const Gap: int := 6

  /** The unread dot is 6 x 6. */
  const DotSize: Size := Size(6, 6)

  // ---------------------------------------------------------------------------
  // Array edits, as `Array.remove(at:)` and `Array.insert(_:at:)` do them

  function RemoveAt<T>(s: seq<T>, i: int): (r: seq<T>)
    requires 0 <= i < |s|
    ensures |r| == |s| - 1
    ensures forall k :: 0 <= k < i ==> r[k] == s[k]
    ensures forall k :: i <= k < |r| ==> r[k] == s[k + 1]
  {
    s[..i] + s[i + 1..]
  }

  function InsertAt<T>(s: seq<T>, i: int, x: T): (r: seq<T>)
    requires 0 <= i <= |s|
    ensures |r| == |s| + 1 && r[i] == x
    ensures forall k :: 0 <= k < i ==> r[k] == s[k]
    ensures forall k :: i < k < |r| ==> r[k] == s[k - 1]
  {
    s[..i] + [x] + s[i..]
  }

  /**
   * The removals can be applied from the last one back to a list of n items without
   * trapping: when `removed[k]` is applied, the |removed| - 1 - k later ones are gone.
   */
  predicate CanRemove(n: int, removed: seq<int>) {
    forall k :: 0 <= k < |removed| ==> 0 <= removed[k] < n - (|removed| - 1 - k)
  }

  /** The insertions can be applied in order to a list of n items without trapping. */
  predicate CanInsert(n: int, inserted: seq<MergeItem>) {
    forall k :: 0 <= k < |inserted| ==> 0 <= inserted[k].at <= n + k
  }

  /** Every update names a position of the list of n items. */
  predicate CanUpdate(n: int, updated: seq<MergeItem>) {
    forall k :: 0 <= k < |updated| ==> 0 <= updated[k].at < n
  }

  /** The script applies to a cluster of n avatars without trapping. */
  predicate Fits(n: int, script: MergeScript) {
    && CanRemove(n, script.removed)
    && CanInsert(n - |script.removed|, script.inserted)
    && CanUpdate(n - |script.removed| + |script.inserted|, script.updated)
  }

  /** `for removed in removed.reversed() { remove(at: removed) }`. */
  function RemoveAll<T>(s: seq<T>, removed: seq<int>): (r: seq<T>)
    requires CanRemove(|s|, removed)
    ensures |r| == |s| - |removed|
    decreases |removed|
  {
    if removed == [] then s
    else RemoveAll(RemoveAt(s, removed[|removed| - 1]), removed[..|removed| - 1])
  }

  /** `for inserted in inserted { insert(make(inserted), at: inserted.at) }`. */
  function InsertAll<T>(s: seq<T>, inserted: seq<MergeItem>, make: MergeItem -> T): (r: seq<T>)
    requires CanInsert(|s|, inserted)
    ensures |r| == |s| + |inserted|
    decreases |inserted|
  {
    if inserted == [] then s
    else
      var last := inserted[|inserted| - 1];
      InsertAt(InsertAll(s, inserted[..|inserted| - 1], make), last.at, make(last))
  }

  /** `for updated in updated { s[updated.at] = relay(s[updated.at], updated.at) }`. */
  function UpdateAll<T>(s: seq<T>, updated: seq<MergeItem>, relay: (T, int) -> T): (r: seq<T>)
    requires CanUpdate(|s|, updated)
    ensures |r| == |s|
    decreases |updated|
  {
    if updated == [] then s
    else
      var last := updated[|updated| - 1];
      var t := UpdateAll(s, updated[..|updated| - 1], relay);
      t[last.at := relay(t[last.at], last.at)]
  }

  // ---------------------------------------------------------------------------
  // The avatar cluster

  /** A view drawn for position p: 19·p points from the left, clipped unless it is the first. */
  predicate LaidAt(v: AvatarView, p: int) {
    v.x == AvatarStep * p && v.clipped == (p != 0)
  }

  /** Every view of the cluster is drawn for the position it is at. */
  predicate LaidOut(views: seq<AvatarView>) {
    forall i :: 0 <= i < |views| ==> LaidAt(views[i], i)
  }

  /** The view created for an insertion: the new avatar's peer, drawn for the inserted position. */
  function NewView(item: MergeItem): (v: AvatarView)
    ensures v.peer == item.avatar.peer && LaidAt(v, item.at)
  {
    AvatarView(item.avatar.peer, AvatarStep * item.at, item.at != 0, 0)
  }

  /** An updated view keeps its peer and is drawn again for position `at`. */
  function Relaid(v: AvatarView, at: int): (r: AvatarView)
    ensures r.peer == v.peer && r.z == v.z && LaidAt(r, at)
  {
    v.(x := AvatarStep * at, clipped := at != 0)
  }

  /** The removals, insertions and updates of the script applied to the cluster. */
  function Arranged(views: seq<AvatarView>, script: MergeScript): (r: seq<AvatarView>)
    requires Fits(|views|, script)
    ensures |r| == |views| - |script.removed| + |script.inserted|
  {
    UpdateAll(InsertAll(RemoveAll(views, script.removed), script.inserted, NewView), script.updated, Relaid)
  }

  /**
   * The z positions given in subview order: 10 for the first view, one less for each
   * next, so that every avatar is drawn over its right neighbour. Nothing else changes.
   */
  function Stacked(views: seq<AvatarView>): (r: seq<AvatarView>)
    ensures |r| == |views|
    ensures forall k :: 0 <= k < |r| ==> r[k] == views[k].(z := r[k].z)
    ensures forall i, j :: 0 <= i < j < |r| ==> r[i].z > r[j].z
    ensures |r| > 0 ==> r[0].z == TopZ
    ensures forall k :: 0 <= k < |r| ==> r[k].z == TopZ - k
  {
    seq(|views|, k requires 0 <= k < |views| => views[k].(z := TopZ - k))
  }

  /** Stacking does not move a view or change its clipping. */
  lemma StackedKeepsLayout(views: seq<AvatarView>)
    requires LaidOut(views)
    ensures LaidOut(Stacked(views))
  {
    var r := Stacked(views);
    forall i | 0 <= i < |r| ensures LaidAt(r[i], i) {
      assert r[i] == views[i].(z := r[i].z);
    }
  }

  // ---------------------------------------------------------------------------
  // Which position each view was last drawn for

  /** Positions 0 .. n-1. */
  function Range(n: nat): (r: seq<int>)
    ensures |r| == n && forall i :: 0 <= i < n ==> r[i] == i
  {
    seq(n, i => i)
  }

  function At(item: MergeItem): int { item.at }

  function Redrawn(p: int, at: int): int { at }

  /**
   * The position each view of the arranged cluster was last drawn for: the same edits
   * applied to the old positions, an inserted or updated view being drawn for its
   * own position.
   */
  function Origins(n: nat, script: MergeScript): (r: seq<int>)
    requires Fits(n, script)
    ensures |r| == n - |script.removed| + |script.inserted|
  {
    UpdateAll(InsertAll(RemoveAll(Range(n), script.removed), script.inserted, At), script.updated, Redrawn)
  }

  /**
   * The promise asked of the merge: every view that ends up at a new position is
   * reported as inserted or updated there.
   */
  predicate Stable(n: nat, script: MergeScript)
    requires Fits(n, script)
  {
    var origins := Origins(n, script);
    forall i :: 0 <= i < |origins| ==> origins[i] == i
  }

  /** View i is drawn for position origins[i], for every i. */
  predicate Tracks(views: seq<AvatarView>, origins: seq<int>) {
    |views| == |origins| && forall i :: 0 <= i < |views| ==> LaidAt(views[i], origins[i])
  }

  lemma {:induction false} RemoveAllTracks(views: seq<AvatarView>, origins: seq<int>, removed: seq<int>)
    requires Tracks(views, origins) && CanRemove(|views|, removed)
    ensures Tracks(RemoveAll(views, removed), RemoveAll(origins, removed))
    decreases |removed|
  {
    if removed != [] {
      var i := removed[|removed| - 1];
      var v, o := RemoveAt(views, i), RemoveAt(origins, i);
      assert Tracks(v, o) by {
        forall k | 0 <= k < |v| ensures LaidAt(v[k], o[k]) {
          if k >= i { assert v[k] == views[k + 1] && o[k] == origins[k + 1]; }
        }
      }
      RemoveAllTracks(v, o, removed[..|removed| - 1]);
    }
  }

  lemma {:induction false} InsertAllTracks(views: seq<AvatarView>, origins: seq<int>, inserted: seq<MergeItem>)
    requires Tracks(views, origins) && CanInsert(|views|, inserted)
    ensures Tracks(InsertAll(views, inserted, NewView), InsertAll(origins, inserted, At))
    decreases |inserted|
  {
    if inserted != [] {
      var prefix := inserted[..|inserted| - 1];
      var last := inserted[|inserted| - 1];
      InsertAllTracks(views, origins, prefix);
      var v, o := InsertAll(views, prefix, NewView), InsertAll(origins, prefix, At);
      var v', o' := InsertAt(v, last.at, NewView(last)), InsertAt(o, last.at, At(last));
      forall k | 0 <= k < |v'| ensures LaidAt(v'[k], o'[k]) {
        if k > last.at { assert v'[k] == v[k - 1] && o'[k] == o[k - 1]; }
      }
    }
  }

  lemma {:induction false} UpdateAllTracks(views: seq<AvatarView>, origins: seq<int>, updated: seq<MergeItem>)
    requires Tracks(views, origins) && CanUpdate(|views|, updated)
    ensures Tracks(UpdateAll(views, updated, Relaid), UpdateAll(origins, updated, Redrawn))
    decreases |updated|
  {
    if updated != [] {
      UpdateAllTracks(views, origins, updated[..|updated| - 1]);
    }
  }

  /**
   * After the update, avatar i sits 19·i points into the cluster and is clipped exactly
   * when i != 0, provided it was so before and the merge reported every moved avatar.
   */
  lemma ClusterLaidOut(views: seq<AvatarView>, script: MergeScript)
    requires LaidOut(views) && Fits(|views|, script) && Stable(|views|, script)
    ensures LaidOut(Stacked(Arranged(views, script)))
  {
    var origins := Range(|views|);
    assert Tracks(views, origins);
    RemoveAllTracks(views, origins, script.removed);
    InsertAllTracks(RemoveAll(views, script.removed), RemoveAll(origins, script.removed), script.inserted);
    UpdateAllTracks(InsertAll(RemoveAll(views, script.removed), script.inserted, NewView),
                    InsertAll(RemoveAll(origins, script.removed), script.inserted, At), script.updated);
    var arranged, final := Arranged(views, script), Origins(|views|, script);
    assert Tracks(arranged, final);
    assert LaidOut(arranged) by {
      forall i | 0 <= i < |arranged| ensures LaidAt(arranged[i], i) {
        assert LaidAt(arranged[i], final[i]);
      }
    }
    StackedKeepsLayout(arranged);
  }

  /** A new commenter added at the end needs no update: the script is stable. */
  lemma AppendIsStable(n: nat, avatar: Avatar)
    ensures Fits(n, MergeScript([], [MergeItem(n, avatar, None)], []))
    ensures Stable(n, MergeScript([], [MergeItem(n, avatar, None)], []))
  {
    var item := MergeItem(n, avatar, None);
    assert [item][..0] == [];
    assert InsertAll(Range(n), [item], At) == InsertAt(Range(n), n, n);
  }

  /**
   * A commenter added in front moves the first old avatar; a script that does not report
   * it as updated is not stable, and that avatar would stay drawn, unclipped, at x = 0.
   */
  lemma PrependWithoutUpdateIsUnstable(avatar: Avatar, first: AvatarView)
    requires LaidAt(first, 0)
    ensures Fits(1, MergeScript([], [MergeItem(0, avatar, None)], []))
    ensures !Stable(1, MergeScript([], [MergeItem(0, avatar, None)], []))
    ensures var r := Arranged([first], MergeScript([], [MergeItem(0, avatar, None)], []));
      |r| == 2 && r[1] == first && !LaidAt(r[1], 1)
  {
    var item := MergeItem(0, avatar, None);
    assert [item][..0] == [];
    assert InsertAll(Range(1), [item], At) == InsertAt(Range(1), 0, 0);
    assert Origins(1, MergeScript([], [item], [])) == InsertAt(Range(1), 0, 0);
    assert InsertAt(Range(1), 0, 0)[1] == Range(1)[0];
    assert InsertAll([first], [item], NewView) == InsertAt([first], 0, NewView(item));
  }

  // ---------------------------------------------------------------------------
  // The unread dot

  /** Where `layout()` puts the dot: 6 points after the counter, one below centre. */
  function DotOrigin(last: Point, focus: Size -> Point): (p: Point)
    ensures p.x == last.x + Gap
    ensures p.y == focus(DotSize).y + 1
  {
    Point(last.x + Gap, focus(DotSize).y + 1)
  }

  /**
   * The dot after `update`: present exactly when there is something unread. A dot that
   * already exists stays where it is (it only animates towards the new place, which
   * `layout()` then assigns); a new dot appears where the counter used to end, or at its
   * target when there was no counter.
   */
  function NextDot(dot: Option<Point>, hasUnread: bool, previousLast: Point, target: Point): (r: Option<Point>)
    ensures r.Some? <==> hasUnread
    ensures hasUnread && dot.Some? ==> r == dot
    ensures hasUnread && dot.None? && previousLast != Zero ==> r == Some(previousLast)
    ensures hasUnread && dot.None? && previousLast == Zero ==> r == Some(target)
  {
    if hasUnread then
      if dot.None? then Some(if previousLast != Zero then previousLast else target) else dot
    else None
  }

  /** The dot never survives an update without unread comments, and a second update with them keeps it in place. */
  lemma DotTwoStates(dot: Option<Point>, previousLast: Point, target: Point, previousLast': Point, target': Point)
    ensures NextDot(NextDot(dot, false, previousLast, target), true, previousLast', target').Some?
    ensures NextDot(NextDot(dot, true, previousLast, target), true, previousLast', target')
         == NextDot(dot, true, previousLast, target)
    ensures NextDot(NextDot(dot, true, previousLast, target), false, previousLast', target').None?
  {
  }

  // ---------------------------------------------------------------------------
  // The control

  class BubbleControl {
    const base: CommentsControl
    var peers: seq<Avatar>
    var avatars: seq<AvatarView>
    var dot: Option<Point>
    var clusterX: int
    var arrowX: int

    constructor ()
      ensures Valid() && fresh(base)
      ensures base.textViews == map[] && base.renderData == null
      ensures peers == [] && avatars == [] && dot == None
    {
      base := new CommentsControl(Bubble);
      peers := [];
      avatars := [];
      dot := None;
      clusterX := 0;
      arrowX := 0;
    }

    /** The counter part is a bubble control whose table is well formed. */
    ghost predicate Valid()
      reads this, base
    {
      base.kind == Bubble && base.Valid()
    }

    /** `lastTextPosition` as the base control currently answers it. */
    function LastText(theme: Theme, focus: Size -> Point): Point
      reads base, base.renderData
    {
      LastTextPosition(Bubble, base.Shown(), theme, focus)
    }

    /**
     * `update(data:size:animated:)`: the counter as the base control updates it; the
     * avatar cluster edited by the merge script and restacked; the peers replaced; the
     * unread dot created, kept or dropped.
     */
    method Update(data: RenderData, theme: Theme, focus: Size -> Point, animated: bool, script: MergeScript)
      returns (slides: map<int, Direction>, exits: map<Text, Transition>, entries: seq<Placement>)
      requires Valid() && Fits(|avatars|, script)
      modifies this, base
      ensures Valid() && base.renderData == data
      ensures base.textViews.Keys == Kept(old(base.textViews).Keys, data.title) + Pieces(data.titleLayout)
      ensures forall k :: k in Kept(old(base.textViews).Keys, data.title) && k !in Pieces(data.titleLayout) ==>
                base.textViews[k] == old(base.textViews)[k]
      ensures forall j :: 0 <= j < |data.titleLayout| && LastOf(data.titleLayout, j) ==>
                base.textViews[data.titleLayout[j].text].origin
                  == TextOrigin(FirstTextPosition(Bubble, base.Shown(), theme, focus), data.titleLayout, j)
      ensures exits.Keys == old(base.textViews).Keys - Kept(old(base.textViews).Keys, data.title)
      ensures forall k :: k in exits ==> exits[k] == ExitOf(data.title, k, animated)
      ensures SlidesFor(slides, old(base.textViews).Keys, data.title)
      ensures |entries| == |data.titleLayout|
      ensures forall j :: 0 <= j < |entries| ==>
                entries[j] == PlacementOf(data.titleLayout, j, Kept(old(base.textViews).Keys, data.title), slides, animated)
      ensures clusterX == old(clusterX) && arrowX == old(arrowX)
      ensures avatars == Stacked(Arranged(old(avatars), script))
      ensures peers == data.peers
      ensures dot == NextDot(old(dot), data.hasUnread, old(LastText(theme, focus)), DotOrigin(LastText(theme, focus), focus))
    {
      var previousLast := LastText(theme, focus);
      slides, exits, entries := base.Update(data, theme, focus, animated);
      EditCluster(script);
      peers := data.peers;
      var last := LastText(theme, focus);
      dot := NextDot(dot, data.hasUnread, previousLast, DotOrigin(last, focus));
    }

    /** The avatar part of `update`: the three loops of the merge script, then the z-order loop. */
    method EditCluster(script: MergeScript)
      requires Fits(|avatars|, script)
      modifies this`avatars
      ensures avatars == Stacked(Arranged(old(avatars), script))
    {
      RemoveViews(script.removed);
      InsertViews(script.inserted);
      RelayViews(script.updated);
      Restack();
    }

    /** The removal loop: from the last removed position back to the first. */
    method RemoveViews(removed: seq<int>)
      requires CanRemove(|avatars|, removed)
      modifies this`avatars
      ensures avatars == RemoveAll(old(avatars), removed)
    {
      var k := |removed|;
      assert removed[..k] == removed;
      while k > 0
        invariant 0 <= k <= |removed|
        invariant CanRemove(|avatars|, removed[..k])
        invariant RemoveAll(avatars, removed[..k]) == RemoveAll(old(avatars), removed)
      {
        assert removed[..k][..k - 1] == removed[..k - 1];
        avatars := RemoveAt(avatars, removed[k - 1]);
        k := k - 1;
      }
    }

    /** The insertion loop: a new view for each inserted avatar, in order. */
    method InsertViews(inserted: seq<MergeItem>)
      requires CanInsert(|avatars|, inserted)
      modifies this`avatars
      ensures avatars == InsertAll(old(avatars), inserted, NewView)
    {
      for k := 0 to |inserted|
        invariant avatars == InsertAll(old(avatars), inserted[..k], NewView)
      {
        assert inserted[..k + 1][..k] == inserted[..k];
        var item := inserted[k];
        avatars := InsertAt(avatars, item.at, NewView(item));
      }
      assert inserted[..|inserted|] == inserted;
    }

    /** The update loop: each updated view is drawn again for its position. */
    method RelayViews(updated: seq<MergeItem>)
      requires CanUpdate(|avatars|, updated)
      modifies this`avatars
      ensures avatars == UpdateAll(old(avatars), updated, Relaid)
    {
      for k := 0 to |updated|
        invariant avatars == UpdateAll(old(avatars), updated[..k], Relaid)
      {
        assert updated[..k + 1][..k] == updated[..k];
        var at := updated[k].at;
        avatars := avatars[at := Relaid(avatars[at], at)];
      }
      assert updated[..|updated|] == updated;
    }

    /** The z-order loop: 10, 9, 8, ... in subview order. */
    method Restack()
      modifies this`avatars
      ensures avatars == Stacked(old(avatars))
    {
      var index := TopZ;
      for k := 0 to |avatars|
        invariant index == TopZ - k && |avatars| == |old(avatars)|
        invariant forall p :: 0 <= p < k ==> avatars[p] == old(avatars)[p].(z := TopZ - p)
        invariant forall p :: k <= p < |avatars| ==> avatars[p] == old(avatars)[p]
      {
        avatars := avatars[k := avatars[k].(z := index)];
        index := index - 1;
      }
    }

    /**
     * `layout()`: the cluster 19 points from the left, the chevron 6 points from the
     * right edge of a control `width` wide, the dot after the counter.
     */
    method Layout(width: int, theme: Theme, focus: Size -> Point)
      modifies this`clusterX, this`arrowX, this`dot
      ensures clusterX == ClusterX
      ensures arrowX == width - Gap - theme.bubbleNextIcon.width
      ensures dot == if old(dot).Some? then Some(DotOrigin(LastText(theme, focus), focus)) else None
    {
      clusterX := ClusterX;
      arrowX := width - Gap - theme.bubbleNextIcon.width;
      if dot.Some? {
        dot := Some(DotOrigin(LastText(theme, focus), focus));
      }
    }
  }
}
