/** The goal's ways of finishing: a Java null or a value, a value or a
    MojoFailureException carrying its message, and the same for steps that
    return nothing. */
module Results {

  datatype Option<+T> = None | Some(value: T)

  /** A value, or the message of the MojoFailureException that aborts the goal. */
  datatype Result<+T> = Success(value: T) | Failure(message: string)

  /** A step that returns nothing: it completes, or it throws with a message. */
  datatype Status = Ok | Failed(message: string)
}
