/** The optional value used for nullable columns, absent JSON keys and
    "no match" query results. */
module Wrappers {

  datatype Option<+T> = None | Some(value: T)
}
