/** Names and the errors the library reports. Messages and stack traces carry no
    behaviour and are dropped; the fields that other code reads are kept. */
module Errors {
  type Name = string

  datatype Option<+T> = None | Some(value: T)

  /** What a start or stop failure wraps: the context's error, or the error of the
      service's own attempt number n. */
  datatype Cause = ContextDone | Attempt(n: nat)

  datatype Error =
    // raised as panics while registering
    | AlreadyExists(service: Name)
    | DependsOnItself(service: Name)
    | DuplicateDependency(service: Name, dependency: Name)
    // the two graph checks
    | DependencyMissing(service: Name, dependency: Name)
    | DependencyCircular(service: Name, path: seq<Name>)
    // one service failing because of another
    | DependencyUnavailable(service: Name, dependency: Name)
    | ParentUnavailable(service: Name, parent: Name)
    // a service failing on its own
    | StartFailure(service: Name, cause: Cause)
    | StopFailure(service: Name, cause: Cause)
    // the bare error of a cancelled context
    | ContextError
}
