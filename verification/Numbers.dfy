/** The number of slots of a buffer or of members of a team: at least one. */
module Numbers {
  type Positive = c: int | 1 <= c witness 1
}
