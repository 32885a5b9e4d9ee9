/** The optional values the modelled code uses (`None` or a value). */
module Wrappers {

  datatype Option<+T> = None | Some(value: T)
}
