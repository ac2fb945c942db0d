/**
 * The bridge driver, `Data` in both source files: it owns the boxed body
 * (`fut`, cleared once the body has finished) and the driver's handle on the
 * shared cell (`value`). `poll_next` resumes the body once and then looks at
 * the cell to decide what the step produced. The two adapters that expose
 * it (the synchronous `Iterator::next` and the asynchronous
 * `Stream::poll_next`) differ only in what they do with `Pending`.
 */
module Driver {
  import opened Task
  import opened Rendezvous
  import opened Body

  /** The driver's state: the body (None once finished) and the cell's content. */
  datatype State<T> = State(fut: Option<Future<T>>, cell: Option<T>)

  /** The state right after `new`: an empty cell and a live, unpolled body. */
  function Init<T>(body: seq<Action<T>>): State<T> {
    State(Some(Start(body)), None)
  }

  datatype Polled<T> = Polled(state: State<T>, out: Outcome<Poll<Option<T>>>)
  datatype Nexted<T> = Nexted(state: State<T>, out: Outcome<Option<T>>)

  /** Measure of the remaining work of a state; zero once the body is gone. */
  function Remaining<T>(st: State<T>): nat {
    if st.fut.Some? then Work(st.fut.value) else 0
  }

  /**
   * `Data::poll_next`, as a function of the state: the reference behaviour
   * of method Data.PollNext.
   */
  function Step<T>(st: State<T>): (r: Polled<T>)
    // fused: with the body gone, nothing is stepped and the answer is end-of-sequence
    ensures st.fut.None? ==> r == Polled(st, Ok(Ready(None)))
    // end-of-sequence is reported exactly when the body is (now) gone
    ensures r.out == Ok(Ready(None)) <==> r.state.fut.None?
    // every step that does not panic leaves the cell empty, so an empty cell stays empty
    ensures st.fut.Some? && r.out.Ok? ==> r.state.cell == None
    ensures st.cell.None? && r.out.Ok? ==> r.state.cell == None
    // a produced element is the value the body stored into the cell during this step
    ensures r.out.Ok? && r.out.value.Ready? && r.out.value.value.Some? ==>
      st.fut.Some? && ResumeSpec(st.fut.value, st.cell).cell == r.out.value.value
    // the only failure is an unconsumed value: stored twice, or left behind by a finished body
    ensures r.out.Panic? ==> r.out.fatal == NotAwaited
    // a body that completes with a value still in the cell trips the driver's assertion
    ensures (st.fut.Some? && ResumeSpec(st.fut.value, st.cell).poll == Ok(Ready(()))
             && ResumeSpec(st.fut.value, st.cell).cell.Some?) ==> r.out == Panic(NotAwaited)
    // a pending body yields the value it left in the cell, and is passed on as pending otherwise
    ensures st.fut.Some? && ResumeSpec(st.fut.value, st.cell).poll == Ok(Pending) ==>
      r.out == Ok(if ResumeSpec(st.fut.value, st.cell).cell.Some?
                  then Ready(ResumeSpec(st.fut.value, st.cell).cell) else Pending)
    // from an empty cell, every step that leaves the body alive makes progress
    ensures st.cell.None? && r.out.Ok? && r.state.fut.Some? ==> Remaining(r.state) < Remaining(st)
  {
    match st.fut
    case None => Polled(st, Ok(Ready(None)))
    case Some(f) =>
      var res := ResumeSpec(f, st.cell);
      match res.poll
      case Panic(e) => Polled(State(Some(res.fut), res.cell), Panic(e))
      case Ok(Ready(_)) =>
        if res.cell.Some? then Polled(State(Some(res.fut), res.cell), Panic(NotAwaited))
        else Polled(State(None, None), Ok(Ready(None)))
      case Ok(Pending) =>
        if res.cell.Some? then Polled(State(Some(res.fut), None), Ok(Ready(res.cell)))
        else Polled(State(Some(res.fut), None), Ok(Pending))
  }

  /**
   * `Iterator::next` of the synchronous flavours: one `poll_next` with a
   * waker that never wakes anything, so a pending step can never be resumed
   * and is reported as a panic.
   */
  function NextSpec<T>(st: State<T>): (r: Nexted<T>)
    ensures Step(st).out == Ok(Pending) ==> r.out == Panic(RetNotCalled)
    ensures Step(st).out.Panic? ==> r.out == Panic(Step(st).out.fatal)
    ensures Step(st).out.Ok? && Step(st).out.value.Ready? ==>
      r == Nexted(Step(st).state, Ok(Step(st).out.value.value))
  {
    var p := Step(st);
    match p.out
    case Panic(e) => Nexted(p.state, Panic(e))
    case Ok(Ready(v)) => Nexted(p.state, Ok(v))
    case Ok(Pending) => Nexted(p.state, Panic(RetNotCalled))
  }

  /** `struct Data`: the boxed body and the driver's handle on the shared cell. */
  class Data<T> {
    const value: Slot<T>
    var fut: Option<Future<T>>

    ghost function Model(): State<T>
      reads this, value
    {
      State(fut, value.value)
    }

    /**
     * The body of `new`: a fresh empty cell, a context sharing it handed to
     * the user's closure (which is why the body may store into `value`), and
     * the resulting future kept in `fut`.
     */
    constructor (body: seq<Action<T>>)
      ensures fresh(value)
      ensures Model() == Init(body)
      ensures Model().cell == None && Model().fut.Some?
    {
      value := new Slot();
      fut := Some(Start(body));
    }

    /** `Data::poll_next`. */
    method PollNext() returns (r: Outcome<Poll<Option<T>>>)
      modifies this, value
      ensures Polled(Model(), r) == Step(old(Model()))
      ensures old(fut).None? ==> r == Ok(Ready(None)) && fut == old(fut) && value.value == old(value.value)
      ensures old(fut).Some? && r.Ok? ==> value.value == None
      ensures r == Ok(Ready(None)) <==> fut.None?
    {
      match fut {
        case None =>
          return Ok(Ready(None));
        case Some(f) =>
          var p, g := Resume(value, f);
          match p {
            case Panic(e) =>
              fut := Some(g);
              return Panic(e);
            case Ok(Ready(_)) =>
              // assert!(self.value.borrow().is_none(), ...)
              if value.value.Some? {
                fut := Some(g);
                return Panic(NotAwaited);
              }
              fut := None;
              return Ok(Ready(None));
            case Ok(Pending) =>
              var v := value.Take();
              fut := Some(g);
              if v.Some? {
                return Ok(Ready(v));
              }
              return Ok(Pending);
          }
      }
    }
  }
}
