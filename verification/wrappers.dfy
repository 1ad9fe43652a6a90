/** Optional value, used wherever the modelled code can produce "no value"
    (an out-of-range read, a NaN average, a missing sub-filter). */
module Wrappers {

  datatype Option<+T> = None | Some(value: T)
}
