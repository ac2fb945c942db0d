/**
 * The crate's own test scenarios, stated as theorems about the model.
 * `sync` ranges over the synchronous iterators (`LocalIter`, `Iter`) and the
 * asynchronous streams (`LocalAsyncIter`, `AsyncIter`); a timed sleep or
 * `pending()` is a foreign future that is pending `k` times.
 */
module Scenarios {
  import opened Task
  import opened Body
  import opened Driver
  import opened Reference
  import opened Consumer
  import opened Theorems

  /** `no_value`: an empty body ends the sequence at once, without failing. */
  lemma NoValue(sync: bool)
    ensures Collect(Init<int>([]), sync) == Done([])
  {
    CollectYields<int>([], sync);
  }

  /** `values`: `ret(1).await; ret(2).await` collects to [1, 2]. */
  lemma Values(sync: bool)
    ensures Collect(Init([Ret(1), Ret(2)]), sync) == Done([1, 2])
  {
    CollectYields([Ret(1), Ret(2)], sync);
  }

  /** `values_ret_iter` and `from_iter`: `ret_iter([1, 2]).await` collects to [1, 2]. */
  lemma ValuesRetIter(sync: bool)
    ensures Collect(Init([RetIter([1, 2])]), sync) == Done([1, 2])
  {
    CollectYields([RetIter([1, 2])], sync);
  }

  /** `values_ret_stream`: `ret_stream(stream::iter([1, 2])).await` collects to [1, 2]. */
  lemma ValuesRetStream()
    ensures Collect(Init([RetStream([1, 2])]), false) == Done([1, 2])
  {
    CollectYields([RetStream([1, 2])], false);
  }

  /** `fused`: the answers are 1, 2, then end-of-sequence, and end-of-sequence again. */
  lemma FusedScenario(sync: bool)
    ensures Pulls(Init([Ret(1), Ret(2)]), 4, sync) == [Ok(Some(1)), Ok(Some(2)), Ok(None), Ok(None)]
  {
    Values(sync);
    CollectThenFused(Init([Ret(1), Ret(2)]), [1, 2], 2, sync);
  }

  /** `use_pending`: with the synchronous iterator, awaiting a future that is not a token fails after 1. */
  lemma UsePending(k: nat)
    requires k > 0
    ensures Collect(Init([Ret(1), External(k), Ret(2)]), true) == Panicked([1], RetNotCalled)
  {
    assert [Ret(1), External(k), Ret(2)] == [Ret(1)] + [External(k)] + [Ret(2)];
    CollectSuspendSync([Ret(1)], k, [Ret(2)]);
  }

  /** `invalid_await`: a body that only awaits `pending()` fails on the first `next`. */
  lemma InvalidAwait(k: nat)
    requires k > 0
    ensures Collect(Init<int>([External(k)]), true) == Panicked([], RetNotCalled)
  {
    var none: seq<Action<int>> := [];
    assert [External(k)] == none + [External(k)] + none;
    CollectSuspendSync(none, k, none);
  }

  /** `use_sleep`: an asynchronous consumer waits out a sleep between two values and gets both. */
  lemma UseSleep(k: nat)
    ensures Collect(Init([Ret(1), External(k), Ret(2)]), false) == Done([1, 2])
  {
    var body := [Ret(1), External(k), Ret(2)];
    assert Awaited(body);
    CollectYields(body, false);
    assert body[1..][1..] == [Ret(2)] && body[1..][1..][1..] == [];
    assert Yields(body[1..][1..]) == [2];
    assert Yields(body[1..]) == [2];
    assert Yields(body) == [1] + [2];
  }

  /** `no_await_1`: a `ret` that is never awaited is detected when the body finishes. */
  lemma NoAwait1(sync: bool)
    ensures Collect(Init([RetNoAwait(1)]), sync) == Panicked([], NotAwaited)
  {
    var none: seq<Action<int>> := [];
    assert [RetNoAwait(1)] == none + [RetNoAwait(1)] + none;
    CollectNoAwait(none, 1, none, sync);
  }

  /** `no_await_2`: two un-awaited `ret`s are detected when the second one stores its value. */
  lemma NoAwait2(sync: bool)
    ensures Collect(Init([RetNoAwait(1), RetNoAwait(2)]), sync) == Panicked([], NotAwaited)
  {
    var none: seq<Action<int>> := [];
    assert [RetNoAwait(1), RetNoAwait(2)] == none + [RetNoAwait(1)] + [RetNoAwait(2)];
    CollectNoAwait(none, 1, [RetNoAwait(2)], sync);
  }

  /**
   * The limit of the misuse check: an un-awaited `ret` followed by a
   * suspension on a foreign future looks like an ordinary yield to the
   * driver (pending with an occupied cell), so the value is delivered and
   * nothing fails.
   */
  lemma NoAwaitBeforeSuspension(v: int)
    ensures Collect(Init([RetNoAwait(v), External(1)]), true) == Done([v])
    ensures Collect(Init([RetNoAwait(v), External(1)]), false) == Done([v])
  {
    var body := [RetNoAwait(v), External(1)];
    CollectMatchesReference(body, true);
    CollectMatchesReference(body, false);
    assert body[1..] == [External(1)] && body[1..][1..] == [];
    assert Expect(body[1..], Some(v), true) == Prepend(v, Expect([], None, true));
    assert Expect(body[1..], Some(v), false) == Prepend(v, Expect([], None, false));
  }
}
