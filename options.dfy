/** The Some/None wrapper that stands in for pandas' NaN ("no value") in the model. */
module Options {
  datatype Option<+T> = None | Some(value: T)
}
