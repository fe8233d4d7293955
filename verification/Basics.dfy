/** Small shared datatypes. */
module Basics {

  datatype Option<+T> = None | Some(value: T)

}
