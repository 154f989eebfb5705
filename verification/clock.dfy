/** Clock readings, shared by the dialogue store's timestamps and the frames' datetime cells. */
module Clock {

  /** A point in time, in microseconds. */
  type Instant = int
}
