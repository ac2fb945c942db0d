/**
 * What a consumer observes when it pulls a bridge to the end, defined
 * directly on the body's script, with no cell, token, waker or driver
 * state: each awaited `ret` delivers its value; `ret_iter`/`ret_stream`
 * deliver their elements as a chain of `ret(x).await`; storing a value while
 * another is still unconsumed (or finishing with one) is the
 * `NotAwaited` failure; a foreign suspension hands over the unconsumed
 * value, if any, and is otherwise invisible to an asynchronous consumer,
 * while a synchronous consumer, whose waker never wakes, fails with
 * `RetNotCalled` at the first pending answer that carries no value.
 */
module Reference {
  import opened Task
  import opened Body

  /** The result of pulling a bridge to the end: the elements seen, and the failure that ended it if any. */
  datatype Collected<T> = Done(items: seq<T>) | Panicked(items: seq<T>, fatal: Fatal)

  function PrependAll<T>(xs: seq<T>, c: Collected<T>): Collected<T> {
    match c
    case Done(ys) => Done(xs + ys)
    case Panicked(ys, e) => Panicked(xs + ys, e)
  }

  function Prepend<T>(v: T, c: Collected<T>): Collected<T> {
    PrependAll([v], c)
  }

  /** `ret_iter(xs)` spelled out: `ret(x).await` for each element, in order. */
  function Rets<T>(xs: seq<T>): (s: seq<Action<T>>)
    ensures |s| == |xs|
  {
    if |xs| == 0 then [] else [Ret(xs[0])] + Rets(xs[1..])
  }

  lemma {:induction false} WAppend<T>(a: seq<Action<T>>, b: seq<Action<T>>)
    ensures W(a + b) == W(a) + W(b)
    decreases |a|
  {
    if |a| > 0 {
      assert (a + b)[0] == a[0];
      assert (a + b)[1..] == a[1..] + b;
      WAppend(a[1..], b);
    } else {
      assert a + b == b;
    }
  }

  lemma {:induction false} WRets<T>(xs: seq<T>)
    ensures W(Rets(xs)) == 2 * |xs|
    decreases |xs|
  {
    if |xs| > 0 {
      WCons(Ret(xs[0]), Rets(xs[1..]));
      WRets(xs[1..]);
    }
  }

  /**
   * The observation of a consumer that pulls the rest `s` of a body to the
   * end, when `held` is a value stored by a `ret` that was not awaited and
   * not yet consumed, and `sync` says whether the consumer is the
   * synchronous iterator (no-op waker) or an asynchronous stream consumer.
   */
  function Expect<T>(s: seq<Action<T>>, held: Option<T>, sync: bool): Collected<T>
    decreases W(s)
  {
    if |s| == 0 then
      if held.Some? then Panicked([], NotAwaited) else Done([])
    else
      var rest := s[1..];
      match s[0]
      case Ret(v) =>
        if held.Some? then Panicked([], NotAwaited) else Prepend(v, Expect(rest, None, sync))
      case RetNoAwait(v) =>
        if held.Some? then Panicked([], NotAwaited) else Expect(rest, Some(v), sync)
      case RetIter(xs) =>
        WAppend(Rets(xs), rest); WRets(xs);
        Expect(Rets(xs) + rest, held, sync)
      case RetStream(xs) =>
        WAppend(Rets(xs), rest); WRets(xs);
        Expect(Rets(xs) + rest, held, sync)
      case External(k) =>
        if k == 0 then Expect(rest, held, sync)
        else if !sync then
          if held.Some? then Prepend(held.value, Expect(rest, None, sync)) else Expect(rest, None, sync)
        else if held.None? then Panicked([], RetNotCalled)
        else Prepend(held.value, if k == 1 then Expect(rest, None, sync) else Panicked([], RetNotCalled))
  }

  /** The values a body hands to `ret`, `ret_iter` and `ret_stream`, in program order. */
  function Yields<T>(s: seq<Action<T>>): seq<T> {
    if |s| == 0 then []
    else
      (match s[0]
       case Ret(v) => [v]
       case RetNoAwait(v) => [v]
       case RetIter(xs) => xs
       case RetStream(xs) => xs
       case External(_) => []) + Yields(s[1..])
  }

  /** Every `ret` of the body is awaited. */
  predicate Awaited<T>(s: seq<Action<T>>) {
    forall i :: 0 <= i < |s| ==> !s[i].RetNoAwait?
  }

  /** The body never suspends on anything but a yield token. */
  predicate NoSuspend<T>(s: seq<Action<T>>) {
    forall i :: 0 <= i < |s| ==> s[i].External? ==> s[i].polls == 0
  }

  /** The next action after an un-awaited `ret` stores a value (or the body ends), exposing the misuse. */
  predicate StoresNext<T>(s: seq<Action<T>>) {
    |s| == 0 || s[0].Ret? || s[0].RetNoAwait? || ((s[0].RetIter? || s[0].RetStream?) && |s[0].items| > 0)
  }
}
