/** Optional values: absent props, missing document fields, empty inputs. */
module Wrappers {

  datatype Option<+T> = None | Some(value: T)
}
