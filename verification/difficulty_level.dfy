/** The difficulty a pose is rated at, or the wildcard used only for filtering. */
module DifficultyLevel {

  datatype Difficulty = AllLevels | Beginner | Intermediate | Advanced

  /** The levels a pose itself can carry; `AllLevels` only ever selects. */
  predicate IsPoseLevel(d: Difficulty) {
    d != AllLevels
  }
}
