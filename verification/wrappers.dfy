/**
  Optional values and the settled outcome of a call into the remote admin
  service, the two wrappers every other module of the console uses.
 */
module Wrappers {

  /** A TypeScript optional (`T | undefined`) or nullable (`T | null`) value. */
  datatype Option<+T> = None | Some(value: T)

  /** The settled outcome of one promise returned by the admin service client:
      resolved with a value, or rejected. The views only log the rejection
      reason, so it is not carried. */
  datatype Remote<+T> = Ok(value: T) | Fail
}
