/** The answers that calls to the API server may get. */
module Calls {
  /** An object that was asked for by name. */
  datatype Fetch<+T> = Got(value: T) | Absent | Unreadable

  /** A cached read may miss an object that exists, and may fail; it never finds one that does not exist. */
  datatype View = Fresh | Stale | Broken

  datatype Lookup = Found | NotFound | Failure

  /** A write may be refused by a fault, or take effect and have its reply lost. */
  datatype Fault = NoFault | Refused | ReplyLost

  /** What a reconcile returns: a delay after which to run again, if it is positive, or an error. */
  datatype Reply = Requeue(after: int) | Error
}
