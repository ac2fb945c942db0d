/**
 * The rendezvous cell: the `Option<T>` slot shared between the producer's
 * context (`Sender`) and the driver (`Data::value`). The thread-confined
 * flavour wraps it in `Rc<RefCell<..>>`, the thread-safe one in
 * `Arc<Mutex<..>>`; sequentially both behave as one mutable object that two
 * owners reference, which is what this class is.
 */
module Rendezvous {
  import opened Task

  class Slot<T> {
    var value: Option<T>

    /** `Rc::new(RefCell::new(None))`: every bridge starts with an empty cell. */
    constructor ()
      ensures value == None
    {
      value := None;
    }

    /**
     * `Sender::set`: store a produced value. Storing into an occupied cell
     * is the "value produced but never awaited" misuse and panics, leaving
     * the cell as it was.
     */
    method Set(v: T) returns (r: Outcome<()>)
      modifies this
      ensures old(value).None? ==> r == Ok(()) && value == Some(v)
      ensures old(value).Some? ==> r == Panic(NotAwaited) && value == old(value)
    {
      if value.Some? {
        return Panic(NotAwaited);
      }
      value := Some(v);
      return Ok(());
    }

    /**
     * `Future for Sender::poll`: the yield token is pending exactly while the
     * cell still holds the produced value, and ready once the consumer has
     * emptied it. Polling never changes the cell.
     */
    method PollToken() returns (p: Poll<()>)
      ensures p.Pending? <==> value.Some?
      ensures p.Ready? <==> value.None?
    {
      if value.Some? {
        return Pending;
      }
      return Ready(());
    }

    /** `Option::take` on the cell, as `Data::poll_next` does: hand out the content and leave it empty. */
    method Take() returns (v: Option<T>)
      modifies this
      ensures v == old(value) && value == None
    {
      v := value;
      value := None;
    }
  }
}
