/** The optional value the controls use for "no render data yet", "no dot view" and lookups. */
module Options {
  datatype Option<T> = None | Some(value: T)
}

/**
 * Points, sizes and the theme metrics the comments controls are laid out with.
 * AppKit lengths are floating point; every length the controls compute is a sum,
 * a small integer multiple or a maximum of given lengths, so integers model them.
 */
module Geometry {

  datatype Point = Point(x: int, y: int)

  datatype Size = Size(width: int, height: int)

  const Zero: Point := Point(0, 0)

  function Max(a: int, b: int): int { if a < b then b else a }

  /**
   * The metrics that the controls read from the theme and from the chat row:
   * icon sizes (`backingSize` of the theme images) and the two fixed row heights.
   */
  datatype Theme = Theme(
    overlayIcon: Size,        // chat_comments_overlay
    bubbleIcon: Size,         // icons.channel_comments_bubble
    bubbleNextIcon: Size,     // icons.channel_comments_bubble_next (the chevron)
    listIcon: Size,           // icons.channel_comments_list
    bubbleHeight: int,        // ChatRowItem.channelCommentsBubbleHeight
    listHeight: int           // ChatRowItem.channelCommentsHeight
  )
}
