/** The nullable values of the source (a C# `string` that may be null, a DOM
    element that may be missing) are modelled as `Option`. */
module Wrappers {

  datatype Option<+T> = None | Some(value: T)

}
