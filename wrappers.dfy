/** Option: the model's stand-in for a pandas NaN and for the `None` that
    `get_stock_analysis` returns on any failure. */
module Wrappers {

  datatype Option<+T> = None | Some(value: T)
}
