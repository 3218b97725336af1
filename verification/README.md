# Channel comments controls, modelled in Dafny

This project models the bookkeeping and layout arithmetic behind Telegram for macOS's
channel-comments controls. These are the "N comments" button under a channel post, in
three variants:

- the bubble control, with an avatar cluster, the counter, an unread dot and a chevron;
- the list control, with the counter and a list icon;
- the small round overlay button, with an icon above the counter.

What is modelled:

- **Counter pieces** (`ChannelCommentsRenderData.Text`). A piece has a text, an
  animation kind and an `index`; the index is its slot, since it is all the hash
  combines. `<` compares two pieces numerically, and only when both texts read as
  64-bit integers the way Swift's `Int(String)` reads them (`counter_text.dfy`).
- **Render data** (`render_data.dfy`):
  - avatar numbering in `init`;
  - `makeSize`, which measures the pieces against a shrinking width budget;
  - `titleSize`;
  - the size each mode asks for (`size(_:_:)`).
- **The text-view table** of `CommentsBasicControl` (`text_slots.dfy`). `update` runs
  two loops over it:
  - the first drops every view whose piece vanished or changed, and records a slide
    direction for each changed slot;
  - the second walks the new layout left to right, moving the views it keeps and
    creating the missing ones.

  The same file holds the `firstTextPosition` of every subclass, `lastTextPosition`
  and the overlay's `imagePosition`.
- **The bubble control** (`bubble_control.dfy`):
  - the avatar cluster, edited by the script that `mergeListsStableWithUpdates`
    reports: removals from the back, insertions, then updates;
  - restacking in z;
  - the unread dot;
  - `layout()`.
- **The small control** (`small_control.dfy`): how its update and its layout place the
  icon.
- **Fit lemmas** (`layout_fit.dfy`): in each mode, the pieces fit in the size the
  control asks for.

The loops of the source are modelled as methods with loop invariants, each proved
against a function that specifies it:

- `makeSize`;
- both loops of `update`;
- the removal, insertion, update and z-order loops of the bubble control.

The controls are classes whose fields those methods update. The subclasses are modelled
by composition: a bubble or small control owns a `CommentsControl` of the matching
`Kind`, and the list control is a `CommentsControl` of kind `List`.

Some things the controls do not compute themselves, so the model takes them as
parameters:

- `focus`: the origin that centres a frame of a given size in the control's bounds;
- the text measurement (`measure`);
- the theme's icon sizes and the chat-row heights (`Theme`);
- the merge script.

## Model

| member | source | states |
|---|---|---|
| CounterText.ParseInt | Telegram-Mac/ChannelCommentsControls.swift:228-229 | `Int(String)`: a result lies in the signed 64-bit range, and the text is an optional sign followed by one or more digits |
| CounterText.Less | Telegram-Mac/ChannelCommentsControls.swift:227-235 | `<` holds only when both texts parse as integers and the left value is the smaller |
| CounterText.LessIrreflexive | Telegram-Mac/ChannelCommentsControls.swift:227-235 | no piece is less than itself |
| CounterText.LessAsymmetric | Telegram-Mac/ChannelCommentsControls.swift:227-235 | `<` never holds in both directions |
| CounterText.LessTransitive | Telegram-Mac/ChannelCommentsControls.swift:227-235 | `<` is transitive |
| CounterText.NonNumeralsAreUnordered | Telegram-Mac/ChannelCommentsControls.swift:231-234 | when either text is not an integer, neither piece is less than the other |
| CounterText.ParseShow | Telegram-Mac/ChannelCommentsControls.swift:228-229 | parsing a 64-bit number written in decimal gives back that number |
| CounterText.LessOnNumerals | Telegram-Mac/ChannelCommentsControls.swift:227-235 | on decimal counters, `<` holds exactly when the numbers are in order (both directions) |
| CounterText.FirstInSlot | Telegram-Mac/ChannelCommentsControls.swift:118 | the piece found for a key is a new piece with the key's index |
| CounterText.FirstInSlotIsFirst | Telegram-Mac/ChannelCommentsControls.swift:118 | the piece found is the earliest with that index, and nothing is found exactly when no piece has that index |
| CounterText.Slide | Telegram-Mac/ChannelCommentsControls.swift:121-123 | the direction is backward exactly when the new piece is less than the old one, forward otherwise |
| CounterText.SlideOnNumerals | Telegram-Mac/ChannelCommentsControls.swift:121-123 | for decimal counters, the direction is backward exactly when the new number is smaller |
| RenderModel.AvatarOrder | Telegram-Mac/ChannelCommentsControls.swift:244-246 | `Avatar.<` compares indices: it is irreflexive, asymmetric and transitive, and two avatars are ordered one way or the other exactly when their indices differ |
| RenderModel.NumberAvatars | Telegram-Mac/ChannelCommentsControls.swift:288-293 | avatar i carries peer i and index i, so the avatars are strictly ordered by `Avatar.<` |
| RenderModel.RenderData.constructor | Telegram-Mac/ChannelCommentsControls.swift:284-297 | `init` keeps the pieces and flags, numbers the peers in order, and measures nothing |
| RenderModel.TallestPiece | Telegram-Mac/ChannelCommentsControls.swift:270 | the height is never negative, no piece is taller, and it is the height of some piece unless it is 0 |
| RenderModel.ReduceSize | Telegram-Mac/ChannelCommentsControls.swift:267-272 | the fold adds every piece's width to the start width; its height is at least the start height and each piece's height, and is one of them |
| RenderModel.TitleSize | Telegram-Mac/ChannelCommentsControls.swift:266-273 | `titleSize` is the sum of the piece widths by the height of the tallest piece |
| RenderModel.ReduceSizeFrom | Telegram-Mac/ChannelCommentsControls.swift:267-272 | the fold from any starting size adds the piece widths and takes the greatest height |
| RenderModel.TitleSizeSpansPieces | Telegram-Mac/ChannelCommentsControls.swift:266-273 | `titleSize` is as wide as the pieces put together and as tall as the tallest; it is 0 x 0 for no pieces |
| RenderModel.Measured | Telegram-Mac/ChannelCommentsControls.swift:299-308 | one layout per piece, in order, each for its own piece |
| RenderModel.MeasuredBudget | Telegram-Mac/ChannelCommentsControls.swift:303-307 | piece k is measured with 200, less the widths of the pieces before it, plus 2 for each of them |
| RenderModel.RenderData.MakeSize | Telegram-Mac/ChannelCommentsControls.swift:299-308 | the measuring loop leaves exactly the layout `Measured` defines, so every piece is measured, in order |
| RenderModel.ContentSize | Telegram-Mac/ChannelCommentsControls.swift:310-345 | overlay: 31 x 31 without a title; otherwise at least 31 wide and at least 10 wider than the title (room for 5 points on each side), never wider than tall, with room for icon, title and 10. Bubble: title + 37 + cluster (21 per avatar, or the bubble icon) + chevron, plus 10 when unread. List: title + 3 + icon. Anything else without a title: 0 x 0 |
| TextSlots.FirstTextPosition | Telegram-Mac/ChannelCommentsControls.swift:367-388 | bubble: 6 points after the cluster that starts at x = 19, one point above centre. Also the list override (lines 534-541): x = 0, centred. Also the overlay override (lines 592-603): centred, right below the icon. Zero without data, and for the base class |
| TextSlots.ReduceWidth | Telegram-Mac/ChannelCommentsControls.swift:202-204 | the width fold adds every piece's width to its start value |
| TextSlots.LastTextPosition | Telegram-Mac/ChannelCommentsControls.swift:197-205 | zero without pieces; otherwise the first position moved right by the total width |
| TextSlots.ListIconOrigin | Telegram-Mac/ChannelCommentsControls.swift:549-558 | the list icon starts 3 points after the title's total width and is centred vertically |
| TextSlots.ImagePosition | Telegram-Mac/ChannelCommentsControls.swift:605-617 | the overlay icon is 5 points from the top above a counter, centred without one, and at zero without data |
| TextSlots.Kept | Telegram-Mac/ChannelCommentsControls.swift:117-125 | the surviving keys are old keys and new pieces; every other old key's piece is not the first new piece of its slot; a key survives exactly when it is an old key whose piece is the first new piece of its slot |
| TextSlots.ExitOf | Telegram-Mac/ChannelCommentsControls.swift:128-148 | a dropped view goes at once exactly when not animated; it also slides exactly when its slot has a new piece that is numeric, in the direction that new piece compares with the old one; otherwise it fades |
| TextSlots.EnterOf | Telegram-Mac/ChannelCommentsControls.swift:168-186 | a new view appears at once exactly when not animated; it also slides exactly when it is numeric and its slot recorded a direction, in that direction; otherwise it fades |
| TextSlots.PlacementOf | Telegram-Mac/ChannelCommentsControls.swift:156-188 | piece j's view is moved exactly when one exists already, a surviving view or one made for an earlier occurrence of the same piece; a created view enters as `EnterOf` says |
| TextSlots.SlidesStep | Telegram-Mac/ChannelCommentsControls.swift:119-123 | handling one more old key keeps the direction table as described: one entry per changed slot that has a new piece, from a comparison with a dropped old piece of that slot |
| TextSlots.DroppingStep | Telegram-Mac/ChannelCommentsControls.swift:117-153 | one turn of the first loop keeps its invariant: untouched views stay, dropped keys have their exit, the directions match the keys handled |
| TextSlots.PlacingStep | Telegram-Mac/ChannelCommentsControls.swift:154-190 | one turn of the second loop keeps its invariant: surviving views plus one per piece placed, the rest untouched, each last occurrence at its origin |
| TextSlots.CommentsControl.constructor | Telegram-Mac/ChannelCommentsControls.swift:93-96 | a new control has an empty table and no render data |
| TextSlots.CommentsControl.Update | Telegram-Mac/ChannelCommentsControls.swift:98-191 | afterwards the table holds exactly the surviving old keys plus the new pieces. Surviving keys not in the layout are untouched. When piece j is the last occurrence of its text, that text's view sits at `firstTextPosition` plus the widths of pieces 0..j-1. Exactly the dropped keys exit, each as `ExitOf` says. The directions are as `SlidesFor` describes. Each piece is moved or created as `PlacementOf` says |
| TextSlots.CommentsControl.DropStale | Telegram-Mac/ChannelCommentsControls.swift:117-153 | the first loop keeps exactly the surviving keys with their views unchanged, gives each dropped key its exit, and records the directions |
| TextSlots.CommentsControl.DropKey | Telegram-Mac/ChannelCommentsControls.swift:118-151 | one old key: dropped unless its stored piece is the first new piece of its slot; a direction recorded when the slot still has a piece; fade, or fade and slide for a numeric piece |
| TextSlots.CommentsControl.PlaceLayout | Telegram-Mac/ChannelCommentsControls.swift:154-190 | the second loop leaves one view per new piece next to the survivors, places each last occurrence at its origin, and moves or creates as `PlacementOf` says |
| TextSlots.CommentsControl.PlacePiece | Telegram-Mac/ChannelCommentsControls.swift:156-188 | an existing view is moved to the position; otherwise a view is created there, appearing at once, fading, or fading and sliding in its slot's direction |
| TextSlots.TableFollowsTitle | Telegram-Mac/ChannelCommentsControls.swift:117-168 | once measured, the table's keys are exactly the new pieces, so the slots it covers are exactly the new indices |
| TextSlots.SlidesDeterminate | Telegram-Mac/ChannelCommentsControls.swift:119-123 | when no two old pieces share a slot, a changed slot's direction is the comparison of its new piece with its old piece |
| BubbleControls.RemoveAt | Telegram-Mac/ChannelCommentsControls.swift:419 | `remove(at:)`: one item shorter, items after the position shift left by one |
| BubbleControls.InsertAt | Telegram-Mac/ChannelCommentsControls.swift:436 | `insert(_:at:)`: the item sits at the position, items after it shift right by one |
| BubbleControls.RemoveAll | Telegram-Mac/ChannelCommentsControls.swift:418-419 | the removals shorten the cluster by their number |
| BubbleControls.InsertAll | Telegram-Mac/ChannelCommentsControls.swift:430-437 | the insertions lengthen the cluster by their number |
| BubbleControls.UpdateAll | Telegram-Mac/ChannelCommentsControls.swift:447-455 | the updates keep the cluster's length |
| BubbleControls.NewView | Telegram-Mac/ChannelCommentsControls.swift:431-435 | an inserted avatar's view shows its peer, drawn for its position: x = 19·position, clipped unless first |
| BubbleControls.Relaid | Telegram-Mac/ChannelCommentsControls.swift:448-454 | an updated view keeps its peer and z and is drawn again for its new position |
| BubbleControls.Arranged | Telegram-Mac/ChannelCommentsControls.swift:416-455 | the edited cluster has the old count, less the removals, plus the insertions |
| BubbleControls.Stacked | Telegram-Mac/ChannelCommentsControls.swift:456-460 | subview k gets z = 10 - k, so z positions start at 10 and strictly decrease in subview order; nothing but z changes |
| BubbleControls.StackedKeepsLayout | Telegram-Mac/ChannelCommentsControls.swift:456-460 | restacking moves no avatar and changes no clipping |
| BubbleControls.Origins | Telegram-Mac/ChannelCommentsControls.swift:416 | tracks the position each view was last drawn for, through the same edits; one entry per view |
| BubbleControls.ClusterLaidOut | Telegram-Mac/ChannelCommentsControls.swift:432-454 | after the update, avatar i sits at x = 19·i and is clipped exactly when i != 0. This holds whenever it held before and the merge reports every moved avatar |
| BubbleControls.AppendIsStable | Telegram-Mac/ChannelCommentsControls.swift:430-437 | a commenter added at the end needs no update for the cluster to stay laid out |
| BubbleControls.PrependWithoutUpdateIsUnstable | Telegram-Mac/ChannelCommentsControls.swift:430-454 | a commenter added in front without updating the old first avatar leaves it unclipped at x = 0 in position 1 |
| BubbleControls.DotOrigin | Telegram-Mac/ChannelCommentsControls.swift:478-481 | the dot's target is 6 points after the counter's end and one point below the vertical centre (also line 521) |
| BubbleControls.NextDot | Telegram-Mac/ChannelCommentsControls.swift:477-511 | the dot exists exactly when there is something unread. An existing dot keeps its place. A new dot appears where the counter used to end, or at its target when there was no counter |
| BubbleControls.DotTwoStates | Telegram-Mac/ChannelCommentsControls.swift:477-511 | an update with something unread always shows the dot, a repeated one keeps it in place, and one without removes it |
| BubbleControls.BubbleControl.constructor | Telegram-Mac/ChannelCommentsControls.swift:354-364 | a new bubble control has no avatars, no peers and no dot |
| BubbleControls.BubbleControl.Update | Telegram-Mac/ChannelCommentsControls.swift:411-515 | the counter is updated with everything the base `update` promises: surviving keys plus new pieces, untouched survivors, last occurrences at their origins from the bubble's `firstTextPosition`, exits, directions and placements. The cluster is edited by the script and restacked; the peers are replaced; the dot follows `NextDot`, aimed 6 points after the new counter end; the cluster and chevron x positions do not change |
| BubbleControls.BubbleControl.EditCluster | Telegram-Mac/ChannelCommentsControls.swift:416-460 | the avatar part of `update` leaves exactly the cluster the script arranges, restacked |
| BubbleControls.BubbleControl.RemoveViews | Telegram-Mac/ChannelCommentsControls.swift:418-429 | the removal loop leaves exactly `RemoveAll` of the old cluster |
| BubbleControls.BubbleControl.InsertViews | Telegram-Mac/ChannelCommentsControls.swift:430-446 | the insertion loop leaves exactly `InsertAll`, each new view drawn for its position |
| BubbleControls.BubbleControl.RelayViews | Telegram-Mac/ChannelCommentsControls.swift:447-455 | the update loop leaves exactly `UpdateAll`, each updated view drawn again for its position |
| BubbleControls.BubbleControl.Restack | Telegram-Mac/ChannelCommentsControls.swift:456-460 | the z loop leaves exactly `Stacked` of the cluster |
| BubbleControls.BubbleControl.Layout | Telegram-Mac/ChannelCommentsControls.swift:517-522 | cluster at x = 19, chevron 6 points from the right edge, an existing dot 6 points after the counter and one below centre |
| SmallControls.SmallControl.constructor | Telegram-Mac/ChannelCommentsControls.swift:586-590 | a new overlay control has an empty table and the given frame |
| SmallControls.SmallControl.Update | Telegram-Mac/ChannelCommentsControls.swift:620-647 | the counter is updated with everything the base `update` promises, origins measured from the overlay's `firstTextPosition`. The icon goes 5 points from the top when there is a counter, else centred in the new size, which agrees with `imagePosition`. The frame takes the new size |
| SmallControls.SmallControl.Layout | Telegram-Mac/ChannelCommentsControls.swift:649-652 | the icon is put at `imagePosition` |
| LayoutFit.BubbleChevronAfterCounter | Telegram-Mac/ChannelCommentsControls.swift:517-522 | in a bubble control as wide as it asked, the chevron starts 6 points after the counter (16 when unread); the unread dot ends 4 points before it |
| LayoutFit.AvatarsBeforeCounter | Telegram-Mac/ChannelCommentsControls.swift:373-386 | every avatar of a laid-out cluster ends before the counter begins |
| LayoutFit.OverlayCounterFits | Telegram-Mac/ChannelCommentsControls.swift:592-617 | the overlay icon sits right above the counter, which keeps 5 points of margin below within the size asked for; when `focus` centres the title across that width, also 5 points on its left and on its right |
| LayoutFit.ListIconAtEnd | Telegram-Mac/ChannelCommentsControls.swift:549-558 | the list icon starts 3 points after the counter and ends at the right edge of the size asked for |

## Left out

- Text attributes: a piece's text is its plain string. Equality of pieces compares that
  string where the source compares attributed strings.
- Hash collisions: a slot is a piece's `index`, because the hash combines only that.
  Two different indices whose hash values collide are not modelled.
- `mergeListsStableWithUpdates` is not part of this model. Its result is a parameter
  (`MergeScript`). `Fits` requires its positions to be valid, since Swift traps
  otherwise.
- BubbleControls.ClusterLaidOut: "avatar i sits at 19·i, clipped iff i != 0" is proved
  under the hypothesis `Stable`, because only the merge, whose source is not part of
  this model, can promise that every moved avatar is reported as updated.
- TextSlots.CommentsControl.Update: the recorded directions are stated through
  `SlidesFor`, which says only that some dropped old piece of the slot gave the direction.
  When several old pieces share a slot, the one visited last wins, and dictionary order
  is unspecified. `SlidesDeterminate` pins the direction down when slots are not shared.
- Animations: the `animate*` calls and their timing are left out.
  - For text views, the model records which branch runs: the exit and entry transitions
    and the slide direction.
  - For avatars, the fade-in or slide from the previous position is not modelled. The
    `previous` field of a merge item only feeds it.
  - The animated chevron move of `update` is not modelled either, so its `size`
    argument is dropped in the bubble control.
- Views that fade out stay in the view hierarchy until their animation completes. The
  model drops them at once, and the cluster's subviews are taken to be the `avatars`
  array.
- Drawing: `draw`, image fetching for avatars and the clipping masks are pixel work.
  An avatar view records only its peer, x origin, clipping and z position.
- Layout helpers: `focus`, `NSRect.focus` and `centerY` are parameters (`focus`,
  `focusIn`). The y origins of the cluster and the chevron are not modelled.
- Lengths are integers: CGFloat arithmetic is modelled as exact integer arithmetic.
- Unused values: `previousTextPos` and `prevPos` in `CommentsBasicControl.update` are
  computed but never used, and so is that method's `previousLastTextPosition`.
  None of the three is modelled.
- UI state: click handlers, `needsDisplay`/`needsLayout`, corner radius, interaction
  flags and which overlay image the small control shows are left out.
