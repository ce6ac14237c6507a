/**
 * How a service call ends, as the controllers and services see it: a returned
 * value, or one of the exception classes they throw or catch by name.
 */
module Outcomes {
  import opened Wrappers

  /** The exception classes the core distinguishes; `message` is getMessage(), which may be null. */
  datatype Exception =
    | IllegalArgument(message: Option<string>)   // IllegalArgumentException and its subclasses
    | Security(message: Option<string>)          // SecurityException
    | Other(message: Option<string>)             // every other Exception, RuntimeException included

  datatype Outcome<+T> = Returned(value: T) | Threw(exception: Exception)
}
