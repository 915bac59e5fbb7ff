/** Optional values and the outcome of a move. */
module Results {

  /** A value that may be absent: an empty foundation slot, an empty waste pile. */
  datatype Option<+T> = None | Some(value: T)

  /** A move either yields the next game state or is refused as illegal; an
      illegal move is reported before anything is clicked or dragged. */
  datatype Result<+T> = Ok(value: T) | IllegalMove
}
