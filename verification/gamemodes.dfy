/** The three quiz modes (`GameMode` in threadfn.rs). */
module GameModes {
  /** Guess by flag, guess by capital, and the unfinished flag-and-capital mode. */
  datatype GameMode = Flags | Capitals | Fandc
}
