/** Optional values, standing for the TypeScript `T | undefined` fields and parameters. */
module Wrappers {

  datatype Option<+T> = None | Some(value: T)
}
