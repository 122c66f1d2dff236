/** Optional values, used for the sensor sample (which may not be ready) and
    for the cached environment reading (which is unset until the first
    successful sample). */
module Wrappers {

  datatype Option<+T> = None | Some(value: T)
}
