/** A nullable column or an absent form field. */
module Nullable {

  datatype Option<+T> = None | Some(value: T)
}
