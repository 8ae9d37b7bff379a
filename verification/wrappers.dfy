/** The optional-value datatype used for the nullable references of the filter:
    an exception's message and stack trace, the context's exception and result,
    and the problem-details `detail` member. */
module Wrappers {

  datatype Option<+T> = None | Some(value: T) {

    /** The encapsulated value, or `default` when there is none
        (the C# `??` operator on a nullable reference). */
    function GetOr(default: T): T
    {
      match this
      case Some(v) => v
      case None => default
    }
  }
}
