/** The conventional optional value, used for the generator's optional strings
    and for the parsers that serve as inverses of the printed text. */
module Wrappers {

  datatype Option<+T> = None | Some(value: T)
}
