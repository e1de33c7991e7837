/** The optional-value datatype shared by the storage model and the upload form. */
module Wrappers {

  /** `None` stands for a missing value: an absent storage entry, no chosen file. */
  datatype Option<+T> = None | Some(value: T)
}
