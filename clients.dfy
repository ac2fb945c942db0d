/**
 * Two of the crate's tests written against the classes, as a user of the
 * crate would drive them: what the method contracts of the adapters let a
 * caller conclude.
 */
module Clients {
  import opened Task
  import opened Body
  import opened Driver
  import opened Consumer
  import opened Reference
  import opened Scenarios
  import opened LocalVariant
  import opened SendVariant

  /** `fused` on `LocalIter`: 1, 2, then None on every later call. */
  method FusedLocalIter() returns (a: Outcome<Option<int>>, b: Outcome<Option<int>>,
                                   c: Outcome<Option<int>>, d: Outcome<Option<int>>)
    ensures a == Ok(Some(1)) && b == Ok(Some(2)) && c == Ok(None) && d == Ok(None)
  {
    var it := new LocalIter.New([Ret(1), Ret(2)]);
    ghost var s0 := it.data.Model();
    a := it.Next();
    ghost var s1 := it.data.Model();
    b := it.Next();
    ghost var s2 := it.data.Model();
    c := it.Next();
    ghost var s3 := it.data.Model();
    d := it.Next();
    FusedScenario(true);
    assert Pulls(s0, 4, true) == [a] + Pulls(s1, 3, true);
    assert Pulls(s1, 3, true) == [b] + Pulls(s2, 2, true);
    assert Pulls(s2, 2, true) == [c] + Pulls(s3, 1, true);
    assert Pulls(s3, 1, true) == [d];
  }

  /** `use_pending` on `Iter`: 1 is delivered, then the suspension on `pending()` panics. */
  method UsePendingIter(k: nat) returns (a: Outcome<Option<int>>, b: Outcome<Option<int>>)
    requires k > 0
    ensures a == Ok(Some(1)) && b == Panic(RetNotCalled)
  {
    var it := new Iter.New([Ret(1), External(k), Ret(2)]);
    ghost var s0 := it.data.Model();
    a := it.Next();
    ghost var s1 := it.data.Model();
    b := it.Next();
    UsePending(k);
    PullOfPanicked(s0, true, [1], RetNotCalled);
    PullOfPanicked(s1, true, [], RetNotCalled);
  }

  /**
   * Reading a panicking `collect()` one pull at a time: each pull answers the
   * next collected value, and the pull after the last one panics.
   */
  lemma PullOfPanicked<T>(st: State<T>, sync: bool, xs: seq<T>, e: Fatal)
    requires st.cell.None?
    requires Collect(st, sync) == Panicked(xs, e)
    ensures xs == [] ==> Pull(st, sync).out == Panic(e)
    ensures xs != [] ==> Pull(st, sync).out == Ok(Some(xs[0]))
                         && Collect(Pull(st, sync).state, sync) == Panicked(xs[1..], e)
  {
    var p := Pull(st, sync);
    if xs != [] {
      assert p.out.Ok? && p.out.value.Some?;
      var r := Collect(p.state, sync);
      assert Collect(st, sync) == Prepend(p.out.value.value, r);
      assert r.Panicked? && xs == [p.out.value.value] + r.items;
    }
  }
}
