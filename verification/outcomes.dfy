/** Optional values, results, and the exceptions the managers and converters raise. */
module Outcomes {

  /** A value that may be absent: a Java reference that may be null. */
  datatype Option<+T> = None | Some(value: T)

  /**
   * The Java exceptions of the modelled code, by class.
   * ResourceNotFoundException is a subclass of CloudProviderException.
   */
  datatype Error =
    | ResourceNotFound(message: string)  // ResourceNotFoundException
    | CloudProvider(message: string)     // CloudProviderException
    | NumberFormat(input: string)        // NumberFormatException from Integer.valueOf
    | NullPointer                        // NullPointerException
    | ClassCast                          // ClassCastException from an untyped attribute map

  /** The outcome of a call that may throw: its value, or the exception it raises. */
  datatype Result<+T> = Ok(value: T) | Err(error: Error)

  /** True for the exceptions that a `catch (CloudProviderException e)` intercepts. */
  predicate IsCloudProviderException(e: Error)
  {
    e.ResourceNotFound? || e.CloudProvider?
  }
}
