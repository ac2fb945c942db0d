/**
 * The consumer side that the crate's tests use to observe a bridge: one
 * pull is `Iterator::next` for the synchronous flavours, and
 * `StreamExt::next().await` (poll until not pending, the executor being
 * woken by whatever the body awaits) for the asynchronous ones; `Collect`
 * pulls until the end, as `collect()` does; `Pulls` records n pulls.
 */
module Consumer {
  import opened Task
  import opened Body
  import opened Driver
  import opened Reference

  /** `StreamExt::next().await`: poll the stream until it answers something other than Pending. */
  function AwaitNext<T>(st: State<T>): (r: Nexted<T>)
    requires st.cell.None?
    ensures r.out.Ok? ==> r.state.cell == None
    ensures r.out == Ok(None) <==> r.state.fut.None?
    ensures r.out.Ok? && r.state.fut.Some? ==> Remaining(r.state) < Remaining(st)
    decreases Remaining(st)
  {
    var p := Step(st);
    match p.out
    case Panic(e) => Nexted(p.state, Panic(e))
    case Ok(Ready(v)) => Nexted(p.state, Ok(v))
    case Ok(Pending) => AwaitNext(p.state)
  }

  /** One pull of the consumer of the given flavour. */
  function Pull<T>(st: State<T>, sync: bool): (r: Nexted<T>)
    requires st.cell.None?
    ensures r.out.Ok? ==> r.state.cell == None
    ensures r.out == Ok(None) <==> r.state.fut.None?
    ensures r.out.Ok? && r.state.fut.Some? ==> Remaining(r.state) < Remaining(st)
  {
    if sync then NextSpec(st) else AwaitNext(st)
  }

  /** `collect()`: pull until the end of the sequence or a panic. */
  function Collect<T>(st: State<T>, sync: bool): Collected<T>
    requires st.cell.None?
    decreases Remaining(st)
  {
    var p := Pull(st, sync);
    match p.out
    case Panic(e) => Panicked([], e)
    case Ok(None) => Done([])
    case Ok(Some(v)) => Prepend(v, Collect(p.state, sync))
  }

  /** The answers of n successive pulls (none after a panic, which ends the consumer). */
  function Pulls<T>(st: State<T>, n: nat, sync: bool): seq<Outcome<Option<T>>>
    requires st.cell.None?
    decreases n
  {
    if n == 0 then []
    else
      var p := Pull(st, sync);
      if p.out.Panic? then [p.out] else [p.out] + Pulls(p.state, n - 1, sync)
  }

  /** The answers `Some(x)` for each x of xs, in order. */
  function Somes<T>(xs: seq<T>): seq<Outcome<Option<T>>> {
    seq(|xs|, i requires 0 <= i < |xs| => Ok(Some(xs[i])))
  }

  /** n answers `None`. */
  function Nones<T>(n: nat): seq<Outcome<Option<T>>> {
    seq(n, _ => Ok(None))
  }
}
