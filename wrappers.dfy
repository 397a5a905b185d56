/** The absence marker the analysis step returns in place of a summary. */
module Wrappers {

  /** `None` stands for the `None` that `analyze_data` returns when it cannot summarise. */
  datatype Option<+T> = None | Some(value: T)
}
