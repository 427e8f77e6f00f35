/** Optional values: `None` stands for JavaScript's `NaN` where the service
    converts a URL segment with `Number`. */
module Wrappers {

  datatype Option<+T> = None | Some(value: T)
}
