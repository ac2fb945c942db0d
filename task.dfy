/**
 * Vocabulary shared by every part of the bridge: the optional value held by
 * the rendezvous cell, the result of polling a future, and the two fatal
 * misuse conditions (the crate reports both with `panic!`/`assert!`).
 */
module Task {

  datatype Option<T> = None | Some(value: T)

  /** `std::task::Poll`: a future either completed with a value or is still pending. */
  datatype Poll<T> = Ready(value: T) | Pending

  /** The two ways a misused bridge aborts the current operation. */
  datatype Fatal =
    | NotAwaited     // a value was stored while the previous one was still unconsumed
    | RetNotCalled   // the synchronous iterator saw a suspension that was not a `ret`
  {
    /** The panic message the crate prints for this condition. */
    function Message(): string {
      match this
      case NotAwaited => "The result of `ret` is not await."
      case RetNotCalled => "`YieldContext::ret` is not called."
    }
  }

  /** Either the operation returned normally, or it panicked. */
  datatype Outcome<T> = Ok(value: T) | Panic(fatal: Fatal)
}
