/** The optional value used for "found / not found" and for the result of
    parsing the path identifier ("parsed / malformed"). */
module Wrappers {

  datatype Option<+T> = None | Some(value: T)

}
