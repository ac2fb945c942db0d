/**
 * The user's `async` body, seen from the bridge. The crate type-erases it to
 * `Pin<Box<dyn Future<Output = ()>>>`; here it is a script of the
 * operations that matter to the bridge, and its suspended state is the part
 * of the script that has not run yet together with what it is awaiting.
 * Polling it runs the script until it suspends, finishes, or panics inside
 * `Sender::set`; the producer-context operations `ret`, `ret_iter` and
 * `ret_stream` are the actions it runs.
 */
module Body {
  import opened Task
  import opened Rendezvous

  /** One step of the user's body, written as the crate's user writes it. */
  datatype Action<T> =
    | Ret(v: T)                   // y.ret(v).await
    | RetNoAwait(v: T)            // y.ret(v);  (the returned token is dropped)
    | RetIter(items: seq<T>)      // y.ret_iter(items).await
    | RetStream(items: seq<T>)    // y.ret_stream(stream yielding items).await
    | External(polls: nat)        // await a foreign future that is pending `polls` times, then ready

  /** What a suspended body is waiting for. */
  datatype Wait =
    | Running                     // not suspended: about to run the next action
    | OnToken                     // awaiting the token returned by `ret`
    | OnExternal(left: nat)       // awaiting a foreign future that will be pending `left` more times

  /** The state of the boxed future: the rest of its body and its current suspension. */
  datatype Future<T> = Future(rest: seq<Action<T>>, wait: Wait)

  /** The result of one `poll` of the body: its answer, its new state, the new cell content. */
  datatype Resumed<T> = Resumed(poll: Outcome<Poll<()>>, fut: Future<T>, cell: Option<T>)

  /** A freshly created body that has not been polled yet. */
  function Start<T>(body: seq<Action<T>>): Future<T> {
    Future(body, Running)
  }

  /** The action of a `ret_iter`/`ret_stream` loop that still has `items` to forward. */
  function WithItems<T>(a: Action<T>, items: seq<T>): (b: Action<T>)
    requires a.RetIter? || a.RetStream?
    ensures b.RetIter? == a.RetIter? && b.RetStream? == a.RetStream? && b.items == items
  {
    if a.RetIter? then RetIter(items) else RetStream(items)
  }

  // ---- termination measure: every internal step of a poll strictly decreases Work ----

  function Weight<T>(a: Action<T>): nat {
    match a
    case Ret(_) => 2
    case RetNoAwait(_) => 1
    case RetIter(xs) => 1 + 2 * |xs|
    case RetStream(xs) => 1 + 2 * |xs|
    case External(k) => k + 2
  }

  function W<T>(s: seq<Action<T>>): nat {
    if |s| == 0 then 0 else Weight(s[0]) + W(s[1..])
  }

  lemma WCons<T>(a: Action<T>, s: seq<Action<T>>)
    ensures W([a] + s) == Weight(a) + W(s)
  {
    assert ([a] + s)[0] == a;
    assert ([a] + s)[1..] == s;
  }

  function WaitWeight(w: Wait): nat {
    match w
    case Running => 1
    case OnToken => 2
    case OnExternal(left) => left + 2
  }

  function Work<T>(f: Future<T>): nat {
    W(f.rest) + WaitWeight(f.wait)
  }

  /** The outcome of one turn of a poll: the body goes on running, or the poll returns. */
  datatype Turn<T> = Continue(fut: Future<T>, cell: Option<T>) | Stop(res: Resumed<T>)

  /**
   * One turn of a `poll` of the body with the cell holding `cell`:
   *  - awaiting the token: pending while the cell is occupied, otherwise the
   *    body continues;
   *  - awaiting a foreign future: pending until it has been pending `left`
   *    times, then the body continues;
   *  - `ret(v)` stores v (panicking if the cell is occupied) and awaits the
   *    token, which is pending at once because the cell is now occupied;
   *  - `ret(v)` without `.await` stores v and goes on;
   *  - `ret_iter`/`ret_stream` run one turn of their loop: store the next
   *    element and await the token, or leave the loop when none is left;
   *  - the end of the body completes the future.
   */
  function Exec<T>(f: Future<T>, cell: Option<T>): (t: Turn<T>)
    // every turn that does not return makes progress
    ensures t.Continue? ==> Work(t.fut) < Work(f)
    // the only failure inside the body is the assertion of `Sender::set`, which leaves the cell alone
    ensures t.Stop? && t.res.poll.Panic? ==> t.res.poll.fatal == NotAwaited && t.res.cell == cell && cell.Some?
    // completion means the whole body has run
    ensures t.Stop? && t.res.poll == Ok(Ready(())) ==> t.res.fut.rest == [] && t.res.cell == cell
    // a pending body is suspended on an occupied token, or on a foreign future that was not ready
    ensures t.Stop? && t.res.poll == Ok(Pending) ==>
      t.res.cell == cell &&
      ((t.res.fut == f && f.wait.OnToken? && cell.Some?) ||
       (f.wait.OnExternal? && f.wait.left > 0 && t.res.fut == Future(f.rest, OnExternal(f.wait.left - 1))))
  {
    match f.wait
    case OnToken =>
      if cell.Some? then Stop(Resumed(Ok(Pending), f, cell))
      else Continue(Future(f.rest, Running), cell)
    case OnExternal(left) =>
      if left > 0 then Stop(Resumed(Ok(Pending), Future(f.rest, OnExternal(left - 1)), cell))
      else Continue(Future(f.rest, Running), cell)
    case Running =>
      if |f.rest| == 0 then Stop(Resumed(Ok(Ready(())), f, cell))
      else
        var a, rest := f.rest[0], f.rest[1..];
        match a
        case Ret(v) =>
          if cell.Some? then Stop(Resumed(Panic(NotAwaited), f, cell))
          else Continue(Future(rest, OnToken), Some(v))
        case RetNoAwait(v) =>
          if cell.Some? then Stop(Resumed(Panic(NotAwaited), f, cell))
          else Continue(Future(rest, Running), Some(v))
        case External(k) =>
          Continue(Future(rest, OnExternal(k)), cell)
        case RetIter(_) | RetStream(_) =>
          var xs := a.items;
          if |xs| == 0 then Continue(Future(rest, Running), cell)
          else if cell.Some? then Stop(Resumed(Panic(NotAwaited), f, cell))
          else
            WCons(WithItems(a, xs[1..]), rest);
            Continue(Future([WithItems(a, xs[1..])] + rest, OnToken), Some(xs[0]))
  }

  /** One whole `poll` of the body: turns until it returns. The reference behaviour of method Resume. */
  function ResumeSpec<T>(f: Future<T>, cell: Option<T>): (r: Resumed<T>)
    // the only failure inside the body is the assertion of `Sender::set`
    ensures r.poll.Panic? ==> r.poll.fatal == NotAwaited
    // completion means the whole body has run
    ensures r.poll == Ok(Ready(())) ==> r.fut.rest == []
    // a pending body is suspended on an occupied token, or on a foreign future
    ensures r.poll == Ok(Pending) ==> (r.fut.wait.OnToken? && r.cell.Some?) || r.fut.wait.OnExternal?
    // a poll never moves the body backwards, and one started on an empty cell makes progress
    ensures r.poll == Ok(Pending) ==> Work(r.fut) <= Work(f)
    ensures r.poll == Ok(Pending) && cell.None? ==> Work(r.fut) < Work(f)
    decreases Work(f)
  {
    match Exec(f, cell)
    case Continue(g, c) => ResumeSpec(g, c)
    case Stop(r) => r
  }

  /**
   * `fut.as_mut().poll(cx)`: run the body from where it is suspended until it
   * suspends again, finishes, or panics. The body shares `slot` with the
   * driver (it captured the context, whose `Sender` holds the same cell).
   */
  method Resume<T>(slot: Slot<T>, f: Future<T>) returns (p: Outcome<Poll<()>>, g: Future<T>)
    modifies slot
    ensures Resumed(p, g, slot.value) == ResumeSpec(f, old(slot.value))
  {
    g := f;
    while true
      invariant ResumeSpec(g, slot.value) == ResumeSpec(f, old(slot.value))
      decreases Work(g)
    {
      match g.wait {
        case OnToken =>
          var t := slot.PollToken();
          if t.Pending? {
            return Ok(Pending), g;
          }
          g := Future(g.rest, Running);
        case OnExternal(left) =>
          if left > 0 {
            return Ok(Pending), Future(g.rest, OnExternal(left - 1));
          }
          g := Future(g.rest, Running);
        case Running =>
          if |g.rest| == 0 {
            return Ok(Ready(())), g;
          }
          var a, rest := g.rest[0], g.rest[1..];
          match a {
            case Ret(v) =>
              var r := slot.Set(v);
              if r.Panic? {
                return Panic(r.fatal), g;
              }
              g := Future(rest, OnToken);
            case RetNoAwait(v) =>
              var r := slot.Set(v);
              if r.Panic? {
                return Panic(r.fatal), g;
              }
              g := Future(rest, Running);
            case External(k) =>
              g := Future(rest, OnExternal(k));
            case RetIter(_) | RetStream(_) =>
              // one turn of the `for value in iter` / `while let Some(value)` loop
              var xs := a.items;
              if |xs| == 0 {
                g := Future(rest, Running);
              } else {
                var r := slot.Set(xs[0]);
                if r.Panic? {
                  return Panic(r.fatal), g;
                }
                WCons(WithItems(a, xs[1..]), rest);
                g := Future([WithItems(a, xs[1..])] + rest, OnToken);
              }
          }
      }
    }
  }
}
