/** The optional-value datatype shared by the game models: `None` stands for
    JavaScript's `null` (no selected bet, no current colour). */
module Wrappers {
  datatype Option<+T> = None | Some(value: T)
}
