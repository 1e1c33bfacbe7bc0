/** Configuration constants of the simulator (main.py:6-15). */
module Config {
  /** Number of tracks of the simulated disk. */
  const TRACKS: int := 500
  /** Sectors (blocks) per track; requests draw blocks from [0, TRACKS * SECTORS_PER_TRACK). */
  const SECTORS_PER_TRACK: int := 100
  /** Seek time charged for the full-stroke distance TRACKS - 1, in ms. */
  const MAX_SEEK_TIME: int := 130
  /** Seek time per unit of head travel, in ms. */
  const TRACK_SEEK_TIME: int := 10
  /** Fixed settle time added to every read or write, in ms. */
  const ROTATIONAL_LATENCY: int := 8
  /** Number of arrival/drain rounds of one simulation run. */
  const MAX_REQUESTS: int := 20
}
