/**
 * The bridge, driven by either consumer, observes exactly what the
 * reference semantics of the body says (CollectMatchesReference); from that
 * follow the crate's promises: values arrive once each and in program
 * order, `ret_iter`/`ret_stream` are chains of `ret(x).await`, misuse is
 * reported and not silently dropped, and the iterator is fused.
 */
module Theorems {
  import opened Task
  import opened Body
  import opened Driver
  import opened Reference
  import opened Consumer

  /**
   * What remains to be observed from a body in state f when the cell holds
   * `cell`: a body awaiting its token with an occupied cell is about to
   * hand that value over; one awaiting a foreign future still has that
   * future in front of it.
   */
  function ExpectAt<T>(f: Future<T>, cell: Option<T>, sync: bool): Collected<T> {
    match f.wait
    case Running => Expect(f.rest, cell, sync)
    case OnToken =>
      if cell.Some? then Prepend(cell.value, Expect(f.rest, None, sync)) else Expect(f.rest, None, sync)
    case OnExternal(left) => Expect([External(left)] + f.rest, cell, sync)
  }

  /** A poll that returned r, started in state f with the cell holding c, agrees with the reference. */
  ghost predicate Agrees<T>(f: Future<T>, c: Option<T>, sync: bool, r: Resumed<T>) {
    && (r.poll.Panic? ==> ExpectAt(f, c, sync) == Panicked([], r.poll.fatal))
    && (r.poll.Ok? && r.poll.value.Ready? ==> ExpectAt(f, c, sync) == Expect([], r.cell, sync))
    && (r.poll.Ok? && r.poll.value.Pending? && r.cell.Some? ==>
          ExpectAt(f, c, sync) == Prepend(r.cell.value, ExpectAt(r.fut, None, sync)))
    && (r.poll.Ok? && r.poll.value.Pending? && r.cell.None? ==>
          ExpectAt(f, c, sync) == if sync then Panicked([], RetNotCalled) else ExpectAt(r.fut, None, sync))
  }

  /** A turn that waits (on the token or on a foreign future) agrees with the reference. */
  lemma WaitAgrees<T>(f: Future<T>, c: Option<T>, sync: bool)
    requires !f.wait.Running?
    ensures match Exec(f, c)
      case Continue(g, d) => ExpectAt(f, c, sync) == ExpectAt(g, d, sync)
      case Stop(r) => Agrees(f, c, sync, r)
  {
    if f.wait.OnExternal? {
      var left := f.wait.left;
      assert ([External(left)] + f.rest)[0] == External(left);
      assert ([External(left)] + f.rest)[1..] == f.rest;
      if left > 0 {
        assert ([External(left - 1)] + f.rest)[0] == External(left - 1);
        assert ([External(left - 1)] + f.rest)[1..] == f.rest;
      }
    }
  }

  /** A turn of `ret_iter`/`ret_stream` agrees with the reference, which spells them out as `ret`s. */
  lemma RetEachAgrees<T>(f: Future<T>, c: Option<T>, sync: bool)
    requires f.wait.Running? && |f.rest| > 0 && (f.rest[0].RetIter? || f.rest[0].RetStream?)
    ensures match Exec(f, c)
      case Continue(g, d) => ExpectAt(f, c, sync) == ExpectAt(g, d, sync)
      case Stop(r) => Agrees(f, c, sync, r)
  {
    var a, rest := f.rest[0], f.rest[1..];
    var xs := a.items;
    assert Expect(f.rest, c, sync) == Expect(Rets(xs) + rest, c, sync);
    if |xs| == 0 {
      assert Rets(xs) + rest == rest;
    } else {
      var b := WithItems(a, xs[1..]);
      assert Rets(xs) + rest == [Ret(xs[0])] + (Rets(xs[1..]) + rest);
      assert ([Ret(xs[0])] + (Rets(xs[1..]) + rest))[1..] == Rets(xs[1..]) + rest;
      assert ([b] + rest)[0] == b;
      assert ([b] + rest)[1..] == rest;
    }
  }

  /** Every single turn of a poll agrees with the reference semantics. */
  lemma ExecAgrees<T>(f: Future<T>, c: Option<T>, sync: bool)
    ensures match Exec(f, c)
      case Continue(g, d) => ExpectAt(f, c, sync) == ExpectAt(g, d, sync)
      case Stop(r) => Agrees(f, c, sync, r)
  {
    if !f.wait.Running? {
      WaitAgrees(f, c, sync);
    } else if |f.rest| > 0 {
      var a, rest := f.rest[0], f.rest[1..];
      if a.RetIter? || a.RetStream? {
        RetEachAgrees(f, c, sync);
      } else if a.External? {
        assert f.rest == [External(a.polls)] + rest;
      }
    }
  }

  /** One whole poll of the body agrees with the reference semantics, whatever it answers. */
  lemma {:induction false} ResumeAgrees<T>(f: Future<T>, c: Option<T>, sync: bool)
    ensures Agrees(f, c, sync, ResumeSpec(f, c))
    decreases Work(f)
  {
    ExecAgrees(f, c, sync);
    match Exec(f, c) {
      case Continue(g, d) =>
        ResumeAgrees(g, d, sync);
      case Stop(r) =>
    }
  }

  /** Pulling a live bridge with an empty cell to the end observes what remains of its body. */
  lemma {:induction false} CollectAgrees<T>(f: Future<T>, sync: bool)
    ensures Collect(State(Some(f), None), sync) == ExpectAt(f, None, sync)
    decreases Work(f)
  {
    var st := State(Some(f), None);
    var r := ResumeSpec(f, None);
    ResumeAgrees(f, None, sync);
    if r.poll.Ok? && r.poll.value.Pending? {
      var st' := State(Some(r.fut), None);
      assert Step(st).state == st';
      if r.cell.Some? {
        CollectAgrees(r.fut, sync);
      } else if !sync {
        assert AwaitNext(st) == AwaitNext(st');
        assert Collect(st, sync) == Collect(st', sync);
        CollectAgrees(r.fut, sync);
      }
    }
  }

  /**
   * The central theorem: for every body, synchronous or asynchronous
   * pulling of a new bridge to the end observes exactly the reference
   * semantics of that body.
   */
  lemma CollectMatchesReference<T>(body: seq<Action<T>>, sync: bool)
    ensures Collect(Init(body), sync) == Expect(body, None, sync)
  {
    CollectAgrees(Start(body), sync);
  }

  // ---- consequences at the level of the reference semantics ----

  /** An awaited `ret(v)` at the head of the body is observed as v followed by the rest. */
  lemma ExpectRetHead<T>(v: T, rest: seq<Action<T>>, sync: bool)
    ensures Expect([Ret(v)] + rest, None, sync) == Prepend(v, Expect(rest, None, sync))
  {
    var s := [Ret(v)] + rest;
    assert s[0] == Ret(v) && s[1..] == rest;
  }

  lemma PrependAllAppend<T>(xs: seq<T>, ys: seq<T>, c: Collected<T>)
    ensures PrependAll(xs, PrependAll(ys, c)) == PrependAll(xs + ys, c)
  {
    assert xs + (ys + c.items) == (xs + ys) + c.items;
  }

  /** `ret_iter(xs)` (and `ret_stream`) observed as the elements of xs followed by the rest. */
  lemma {:induction false} ExpectRets<T>(xs: seq<T>, rest: seq<Action<T>>, sync: bool)
    ensures Expect(Rets(xs) + rest, None, sync) == PrependAll(xs, Expect(rest, None, sync))
    decreases |xs|
  {
    if |xs| == 0 {
      assert Rets(xs) + rest == rest;
      assert xs + Expect(rest, None, sync).items == Expect(rest, None, sync).items;
    } else {
      var x, tail := xs[0], xs[1..];
      assert Rets(xs) + rest == [Ret(x)] + (Rets(tail) + rest);
      ExpectRetHead(x, Rets(tail) + rest, sync);
      ExpectRets(tail, rest, sync);
      PrependAllAppend([x], tail, Expect(rest, None, sync));
      assert [x] + tail == xs;
    }
  }

  /**
   * A body whose every `ret` is awaited is observed as exactly the values
   * it produces, in order, by an asynchronous consumer; also by the
   * synchronous one when the body never suspends on anything but a token.
   */
  lemma {:induction false} ExpectAwaited<T>(s: seq<Action<T>>, sync: bool)
    requires Awaited(s)
    requires sync ==> NoSuspend(s)
    ensures Expect(s, None, sync) == Done(Yields(s))
    decreases |s|
  {
    if |s| > 0 {
      var rest := s[1..];
      assert Awaited(rest) && (sync ==> NoSuspend(rest)) by {
        forall i | 0 <= i < |rest| ensures rest[i] == s[i + 1] { }
      }
      ExpectAwaited(rest, sync);
      match s[0] {
        case Ret(v) =>
        case RetNoAwait(v) => assert false;
        case RetIter(xs) => ExpectRets(xs, rest, sync);
        case RetStream(xs) => ExpectRets(xs, rest, sync);
        case External(k) => assert sync ==> k == 0;
      }
    }
  }

  /**
   * With the synchronous iterator, a body that suspends on a foreign
   * future that is not ready delivers what it produced before and then
   * fails with `RetNotCalled`.
   */
  lemma {:induction false} ExpectSuspendSync<T>(pre: seq<Action<T>>, k: nat, post: seq<Action<T>>)
    requires Awaited(pre) && NoSuspend(pre) && k > 0
    ensures Expect(pre + [External(k)] + post, None, true) == Panicked(Yields(pre), RetNotCalled)
    decreases |pre|
  {
    var s := pre + [External(k)] + post;
    if |pre| == 0 {
      assert s == [External(k)] + post;
      assert s[0] == External(k);
    } else {
      var rest := pre[1..];
      assert s[0] == pre[0] && s[1..] == rest + [External(k)] + post;
      assert Awaited(rest) && NoSuspend(rest) by {
        forall i | 0 <= i < |rest| ensures rest[i] == pre[i + 1] { }
      }
      ExpectSuspendSync(rest, k, post);
      match pre[0] {
        case Ret(v) =>
        case RetNoAwait(v) => assert false;
        case RetIter(xs) =>
          ExpectRets(xs, rest + [External(k)] + post, true);
          assert xs + Yields(rest) == Yields(pre);
        case RetStream(xs) =>
          ExpectRets(xs, rest + [External(k)] + post, true);
          assert xs + Yields(rest) == Yields(pre);
        case External(j) => assert j == 0;
      }
    }
  }

  /**
   * A `ret` that is not awaited, followed by another stored value or by the
   * end of the body, makes the consumer fail with `NotAwaited` after the
   * values produced before it: the value is never silently dropped.
   */
  lemma {:induction false} ExpectNoAwait<T>(pre: seq<Action<T>>, v: T, post: seq<Action<T>>, sync: bool)
    requires Awaited(pre) && (sync ==> NoSuspend(pre)) && StoresNext(post)
    ensures Expect(pre + [RetNoAwait(v)] + post, None, sync) == Panicked(Yields(pre), NotAwaited)
    decreases |pre|
  {
    var s := pre + [RetNoAwait(v)] + post;
    if |pre| == 0 {
      assert s == [RetNoAwait(v)] + post;
      assert s[0] == RetNoAwait(v) && s[1..] == post;
      if |post| > 0 && (post[0].RetIter? || post[0].RetStream?) {
        var xs := post[0].items;
        assert Expect(post, Some(v), sync) == Expect(Rets(xs) + post[1..], Some(v), sync);
        assert (Rets(xs) + post[1..])[0] == Ret(xs[0]);
      }
    } else {
      var rest := pre[1..];
      assert s[0] == pre[0] && s[1..] == rest + [RetNoAwait(v)] + post;
      assert Awaited(rest) && (sync ==> NoSuspend(rest)) by {
        forall i | 0 <= i < |rest| ensures rest[i] == pre[i + 1] { }
      }
      ExpectNoAwait(rest, v, post, sync);
      match pre[0] {
        case Ret(w) =>
        case RetNoAwait(w) => assert false;
        case RetIter(xs) =>
          ExpectRets(xs, rest + [RetNoAwait(v)] + post, sync);
          assert xs + Yields(rest) == Yields(pre);
        case RetStream(xs) =>
          ExpectRets(xs, rest + [RetNoAwait(v)] + post, sync);
          assert xs + Yields(rest) == Yields(pre);
        case External(j) => assert sync ==> j == 0;
      }
    }
  }

  /** A `ret_iter`/`ret_stream` at the head of the body reads as its chained rets. */
  lemma ExpectRetIterHead<T>(b: Action<T>, rest: seq<Action<T>>, held: Option<T>, sync: bool)
    requires b.RetIter? || b.RetStream?
    ensures Expect([b] + rest, held, sync) == Expect(Rets(b.items) + rest, held, sync)
  {
    assert ([b] + rest)[0] == b && ([b] + rest)[1..] == rest;
  }

  /** Regrouping a body split in four parts around its head part. */
  lemma Regroup<T>(x: seq<T>, y: seq<T>, m: seq<T>, z: seq<T>)
    ensures x + y + m + z == x + (y + m + z)
  {
  }

  /** The inductive step when the body starts with a `ret_iter`/`ret_stream` b: its expansion carries the claim. */
  lemma ExpandedHead<T>(b: Action<T>, rest: seq<Action<T>>, a: Action<T>, post: seq<Action<T>>,
                        held: Option<T>, sync: bool)
    requires b.RetIter? || b.RetStream?
    requires a.RetIter? || a.RetStream?
    requires Expect(Rets(b.items) + rest + [a] + post, held, sync)
          == Expect(Rets(b.items) + rest + Rets(a.items) + post, held, sync)
    ensures Expect([b] + rest + [a] + post, held, sync) == Expect([b] + rest + Rets(a.items) + post, held, sync)
  {
    var t1, t2 := rest + [a] + post, rest + Rets(a.items) + post;
    Regroup([b], rest, [a], post);
    Regroup([b], rest, Rets(a.items), post);
    Regroup(Rets(b.items), rest, [a], post);
    Regroup(Rets(b.items), rest, Rets(a.items), post);
    ExpectRetIterHead(b, t1, held, sync);
    ExpectRetIterHead(b, t2, held, sync);
  }

  /** The inductive step for any other head action b: the tails read the same for every pending value. */
  lemma OtherHead<T>(b: Action<T>, rest: seq<Action<T>>, a: Action<T>, post: seq<Action<T>>,
                     held: Option<T>, sync: bool)
    requires !b.RetIter? && !b.RetStream?
    requires a.RetIter? || a.RetStream?
    requires forall h :: Expect(rest + [a] + post, h, sync) == Expect(rest + Rets(a.items) + post, h, sync)
    ensures Expect([b] + rest + [a] + post, held, sync) == Expect([b] + rest + Rets(a.items) + post, held, sync)
  {
    var t1, t2 := rest + [a] + post, rest + Rets(a.items) + post;
    assert [b] + rest + [a] + post == [b] + t1;
    assert [b] + rest + Rets(a.items) + post == [b] + t2;
    assert ([b] + t1)[0] == b && ([b] + t1)[1..] == t1;
    assert ([b] + t2)[0] == b && ([b] + t2)[1..] == t2;
  }

  /**
   * Replacing a `ret_iter(xs)` or `ret_stream(xs)` anywhere in a body by
   * `ret(x).await` for each x in turn changes nothing that any consumer
   * can observe, whatever surrounds it and whatever value is pending.
   */
  lemma {:induction false} ExpectRetIterInContext<T>(pre: seq<Action<T>>, a: Action<T>, post: seq<Action<T>>,
                                                     held: Option<T>, sync: bool)
    requires a.RetIter? || a.RetStream?
    ensures Expect(pre + [a] + post, held, sync) == Expect(pre + Rets(a.items) + post, held, sync)
    decreases W(pre)
  {
    if |pre| == 0 {
      assert pre + [a] + post == [a] + post;
      assert pre + Rets(a.items) + post == Rets(a.items) + post;
      ExpectRetIterHead(a, post, held, sync);
    } else {
      var b, rest := pre[0], pre[1..];
      assert pre == [b] + rest;
      WCons(b, rest);
      if b.RetIter? || b.RetStream? {
        WAppend(Rets(b.items), rest); WRets(b.items);
        ExpectRetIterInContext(Rets(b.items) + rest, a, post, held, sync);
        ExpandedHead(b, rest, a, post, held, sync);
      } else {
        forall h: Option<T>
          ensures Expect(rest + [a] + post, h, sync) == Expect(rest + Rets(a.items) + post, h, sync)
        {
          ExpectRetIterInContext(rest, a, post, h, sync);
        }
        OtherHead(b, rest, a, post, held, sync);
      }
    }
  }

  // ---- the same facts about the bridge itself ----

  /** Pulling to the end yields exactly the produced values, in order, each once. */
  lemma CollectYields<T>(body: seq<Action<T>>, sync: bool)
    requires Awaited(body)
    requires sync ==> NoSuspend(body)
    ensures Collect(Init(body), sync) == Done(Yields(body))
  {
    CollectMatchesReference(body, sync);
    ExpectAwaited(body, sync);
  }

  /** The synchronous iterator fails on a suspension that is not a yield token. */
  lemma CollectSuspendSync<T>(pre: seq<Action<T>>, k: nat, post: seq<Action<T>>)
    requires Awaited(pre) && NoSuspend(pre) && k > 0
    ensures Collect(Init(pre + [External(k)] + post), true) == Panicked(Yields(pre), RetNotCalled)
  {
    CollectMatchesReference(pre + [External(k)] + post, true);
    ExpectSuspendSync(pre, k, post);
  }

  /** An un-awaited `ret` followed by another store, or by the end of the body, is a fatal error. */
  lemma CollectNoAwait<T>(pre: seq<Action<T>>, v: T, post: seq<Action<T>>, sync: bool)
    requires Awaited(pre) && (sync ==> NoSuspend(pre)) && StoresNext(post)
    ensures Collect(Init(pre + [RetNoAwait(v)] + post), sync) == Panicked(Yields(pre), NotAwaited)
  {
    CollectMatchesReference(pre + [RetNoAwait(v)] + post, sync);
    ExpectNoAwait(pre, v, post, sync);
  }

  /** `ret_iter(xs).await` and `ret_stream(xs).await` behave as `ret(x).await` for each x, in any body. */
  lemma CollectRetIter<T>(pre: seq<Action<T>>, a: Action<T>, post: seq<Action<T>>, sync: bool)
    requires a.RetIter? || a.RetStream?
    ensures Collect(Init(pre + [a] + post), sync) == Collect(Init(pre + Rets(a.items) + post), sync)
  {
    CollectMatchesReference(pre + [a] + post, sync);
    CollectMatchesReference(pre + Rets(a.items) + post, sync);
    ExpectRetIterInContext(pre, a, post, None, sync);
  }

  /** Fused: once the body is gone, every pull answers end-of-sequence, forever. */
  lemma {:induction false} FusedAfterEnd<T>(st: State<T>, n: nat, sync: bool)
    requires st.fut.None? && st.cell.None?
    ensures Pulls(st, n, sync) == Nones(n)
    decreases n
  {
    if n > 0 {
      assert Step(st) == Polled(st, Ok(Ready(None)));
      assert Pull(st, sync) == Nexted(st, Ok(None));
      FusedAfterEnd(st, n - 1, sync);
    }
  }

  /** One pull that does not panic is the first of n pulls. */
  lemma PullsUnfold<T>(st: State<T>, n: nat, sync: bool)
    requires st.cell.None? && n > 0 && Pull(st, sync).out.Ok?
    ensures Pulls(st, n, sync) == [Pull(st, sync).out] + Pulls(Pull(st, sync).state, n - 1, sync)
  {
  }

  /** Reading a completed `collect()` one pull at a time. */
  lemma PullOfDone<T>(st: State<T>, xs: seq<T>, sync: bool)
    requires st.cell.None?
    requires Collect(st, sync) == Done(xs)
    ensures xs == [] ==> Pull(st, sync).out == Ok(None) && Pull(st, sync).state.fut.None?
    ensures xs != [] ==> Pull(st, sync).out == Ok(Some(xs[0]))
                         && Collect(Pull(st, sync).state, sync) == Done(xs[1..])
    ensures Pull(st, sync).state.cell.None?
  {
    var p := Pull(st, sync);
    assert p.out.Ok?;
    if xs != [] {
      var r := Collect(p.state, sync);
      assert Collect(st, sync) == Prepend(p.out.value.value, r);
      assert r.Done? && xs == [p.out.value.value] + r.items;
    }
  }

  /** A pull that answers end-of-sequence is followed by end-of-sequence on every later pull. */
  lemma EndThenFused<T>(st: State<T>, n: nat, sync: bool)
    requires st.cell.None? && Pull(st, sync).out == Ok(None)
    ensures Pulls(st, n, sync) == Nones(n)
  {
    if n > 0 {
      PullsUnfold(st, n, sync);
      FusedAfterEnd(Pull(st, sync).state, n - 1, sync);
    }
  }

  /** A pull that answers x puts x in front of the answers of the pulls after it. */
  lemma PullsCons<T>(st: State<T>, x: T, m: nat, answers: seq<Outcome<Option<T>>>, sync: bool)
    requires st.cell.None? && m > 0 && Pull(st, sync).out == Ok(Some(x))
    requires Pulls(Pull(st, sync).state, m - 1, sync) == answers
    ensures Pulls(st, m, sync) == [Ok(Some(x))] + answers
  {
    PullsUnfold(st, m, sync);
  }

  lemma SomesCons<T>(xs: seq<T>, n: nat)
    requires xs != []
    ensures [Ok(Some(xs[0]))] + (Somes(xs[1..]) + Nones(n)) == Somes(xs) + Nones(n)
  {
  }

  /** The successive pulls from st answer the elements of xs, then end-of-sequence. */
  ghost predicate Answers<T>(st: State<T>, xs: seq<T>, sync: bool)
    requires st.cell.None?
    decreases |xs|
  {
    var p := Pull(st, sync);
    if xs == [] then p.out == Ok(None)
    else p.out == Ok(Some(xs[0])) && Answers(p.state, xs[1..], sync)
  }

  lemma {:induction false} CollectAnswers<T>(st: State<T>, xs: seq<T>, sync: bool)
    requires st.cell.None?
    requires Collect(st, sync) == Done(xs)
    ensures Answers(st, xs, sync)
    decreases |xs|
  {
    PullOfDone(st, xs, sync);
    if xs != [] {
      CollectAnswers(Pull(st, sync).state, xs[1..], sync);
    }
  }

  lemma {:induction false} AnswersPulls<T>(st: State<T>, xs: seq<T>, n: nat, sync: bool)
    requires st.cell.None?
    requires Answers(st, xs, sync)
    ensures Pulls(st, |xs| + n, sync) == Somes(xs) + Nones(n)
    decreases |xs|
  {
    if xs == [] {
      EndThenFused(st, n, sync);
    } else {
      var ys := xs[1..];
      AnswersPulls(Pull(st, sync).state, ys, n, sync);
      assert |xs| + n - 1 == |ys| + n;
      PullsCons(st, xs[0], |xs| + n, Somes(ys) + Nones(n), sync);
      SomesCons(xs, n);
    }
  }

  /** A bridge that collects to xs answers the elements of xs and then end-of-sequence on every later pull. */
  lemma CollectThenFused<T>(st: State<T>, xs: seq<T>, n: nat, sync: bool)
    requires st.cell.None?
    requires Collect(st, sync) == Done(xs)
    ensures Pulls(st, |xs| + n, sync) == Somes(xs) + Nones(n)
  {
    CollectAnswers(st, xs, sync);
    AnswersPulls(st, xs, n, sync);
  }
}
