/**
 * The thread-safe flavour (`Arc<Mutex<Option<T>>>` cell): `Iter` and
 * `AsyncIter`, both driving the shared `Data` bridge. Unlike the local
 * flavour it offers no `from_iter`.
 */
module SendVariant {
  import opened Task
  import opened Body
  import opened Driver

  /** `Iter`: the synchronous iterator over a bridge. */
  class Iter<T> {
    const data: Data<T>

    /** `Iter::new`: the body built by the user's closure, an empty cell, a live future. */
    constructor New(body: seq<Action<T>>)
      ensures fresh(data) && fresh(data.value)
      ensures data.Model() == Init(body)
    {
      data := new Data(body);
    }
    /**
     * `Iterator::next`: one `poll_next` with the no-op waker. A pending poll
     * can never be woken, so it panics instead of blocking; a fused iterator
     * keeps answering None once the body has finished.
     */
    method Next() returns (r: Outcome<Option<T>>)
      modifies data, data.value
      ensures Nexted(data.Model(), r) == NextSpec(old(data.Model()))
      ensures r == Panic(RetNotCalled) <==> Step(old(data.Model())).out == Ok(Pending)
      ensures old(data.fut).None? ==> r == Ok(None) && data.fut.None?
      ensures r == Ok(None) <==> data.fut.None?
    {
      var p := data.PollNext();
      match p {
        case Panic(e) =>
          return Panic(e);
        case Ok(Ready(v)) =>
          return Ok(v);
        case Ok(Pending) =>
          return Panic(RetNotCalled);
      }
    }
  }

  /** `AsyncIter`: the same bridge exposed as a stream. */
  class AsyncIter<T> {
    const inner: Iter<T>

    /** `AsyncIter::new`: wraps `Iter::new` around the user's closure. */
    constructor New(body: seq<Action<T>>)
      ensures fresh(inner) && fresh(inner.data) && fresh(inner.data.value)
      ensures inner.data.Model() == Init(body)
    {
      inner := new Iter.New(body);
    }
    /**
     * `Stream::poll_next`: forwards the caller's real context, so a pending
     * step is handed back to the executor instead of panicking.
     */
    method PollNext() returns (r: Outcome<Poll<Option<T>>>)
      modifies inner.data, inner.data.value
      ensures Polled(inner.data.Model(), r) == Step(old(inner.data.Model()))
      ensures old(inner.data.fut).None? ==> r == Ok(Ready(None)) && inner.data.fut.None?
    {
      r := inner.data.PollNext();
    }

    /** `FusedStream::is_terminated`: the body has finished and been dropped. */
    method IsTerminated() returns (b: bool)
      ensures b <==> inner.data.fut.None?
      ensures b ==> Step(inner.data.Model()) == Polled(inner.data.Model(), Ok(Ready(None)))
    {
      return inner.data.fut.None?;
    }
  }
}
