# yield-return: the generator bridge, in Dafny

The crate `yield_return` turns an `async` block into an iterator or a stream.
The user writes a body that calls `y.ret(v).await`, `y.ret_iter(xs).await`
or `y.ret_stream(s).await`. The bridge hands the values over, one per poll of
the boxed future, through a shared one-value cell. There are two copies of
the bridge:

- `src/local_iter.rs`: thread-confined. The cell is an `Rc<RefCell<Option<T>>>`.
  It offers `LocalIter` (an `Iterator`) and `LocalAsyncIter` (a `Stream`).
- `src/iter.rs`: thread-safe. The cell is an `Arc<Mutex<Option<T>>>`.
  It offers `Iter` and `AsyncIter`.

Their driving logic is identical, so the model has one driver and two
adapter modules.

How each part is modelled:

- **The cell** (`Rendezvous.Slot`) is a class with one field. It is
  shared by reference between the driver and the body's context, as in the
  crate.
  - `Set` is `Sender::set`.
  - `PollToken` is `<Sender as Future>::poll`, the token that `ret`
    returns.
  - `Take` is the driver's `take()`.
- **The user's body** (`Body`) is a script of five actions:
  - `Ret(v)`: `ret(v).await`.
  - `RetNoAwait(v)`: `ret(v)` whose token is dropped.
  - `RetIter(xs)`: `ret_iter(xs).await`.
  - `RetStream(xs)`: `ret_stream` over a stream of `xs`.
  - `External(k)`: awaiting a foreign future that is pending `k` times and then ready, such as a sleep or `pending()`.

  A suspended body is the rest of its script together with what it is
  awaiting. `Body.Resume` is one `poll` of the boxed future. It is a loop
  that runs the turns that `Body.Exec` describes against the shared cell until the body
  suspends, completes, or panics in `Sender::set`. It is proved equal to
  the recursive function `Body.ResumeSpec`.
- **The driver** (`Driver.Data`) is a class. Its fields are the cell and
  `fut: Option<future>`. `PollNext` is `Data::poll_next`, proved equal to
  the function `Driver.Step` on the abstract state `Driver.State`.
  `Driver.NextSpec` is the synchronous `next`: a Pending answer becomes the
  panic "`YieldContext::ret` is not called.".
- **The adapters** are classes that own the driver:
  - `LocalVariant.LocalIter` and `LocalVariant.LocalAsyncIter`;
  - `SendVariant.Iter` and `SendVariant.AsyncIter`.
- **Panics** are results: `Task.Outcome.Panic(f)`. `Task.Fatal` names the
  crate's two panic messages: NotAwaited (the `assert!`s of `Sender::set`
  and of `Data::poll_next`) and RetNotCalled (the `panic!` of `next`).
- **The consumer** (`Consumer`) is how the crate's tests read the bridge.
  - A pull is `Iterator::next` (synchronous) or `StreamExt::next().await`,
    which polls until the answer is not Pending (asynchronous).
  - `Collect` is `collect()`.
  - `Pulls` records n successive pulls.
- **The partner of the whole bridge** is `Reference.Expect`, a
  denotational reading of a script. It says what `collect()` must return
  for each flavour:
  - the yielded values in order;
  - the panic for an un-awaited `ret`;
  - the panic for a synchronous suspension on a foreign future.

  `Theorems.CollectMatchesReference` proves that driver, body and consumer
  together compute exactly `Expect`, for every script and both flavours.
  The consequences are proved separately:
  - ordering;
  - fusedness;
  - `ret_iter`/`ret_stream` being chained `ret`s;
  - the two failure modes.

  `Scenarios` and `Clients` replay the crate's tests on the model.

`Data::poll_next` does not itself fail when the body is pending with an
empty cell: it returns `Poll::Pending` (src/local_iter.rs:79,
src/iter.rs:81). Only the synchronous `next` turns that into a panic; the
stream adapters pass it to their executor.

One behaviour of the code is easy to miss. Suppose a `ret(v)` is not
awaited, but the body then suspends on a foreign future before it stores
another value or finishes. The driver takes v at that suspension and
delivers it, with no panic (`Scenarios.NoAwaitBeforeSuspension`).

## Model

| member | source | states |
|---|---|---|
| Rendezvous.Slot.constructor | src/local_iter.rs:105 | the cell starts empty |
| Rendezvous.Slot.Set | src/local_iter.rs:17-21 | on an empty cell it stores the value and succeeds; on an occupied cell it panics with "The result of `ret` is not await." and leaves the cell as it was (same code in src/iter.rs:16-20) |
| Rendezvous.Slot.PollToken | src/local_iter.rs:26-32 | the token is Pending exactly when the cell is occupied and Ready exactly when it is empty; the cell is not changed |
| Rendezvous.Slot.Take | src/local_iter.rs:76 | returns the previous content of the cell and leaves it empty |
| Body.Exec | src/local_iter.rs:43-53 | one turn of the body that does not return strictly decreases the remaining work; the only panic is `Sender::set` finding the cell occupied, which leaves the cell unchanged; completion happens only when the whole body has run and leaves the cell unchanged; Pending means the body awaits the token with the cell occupied, or a foreign future that has one fewer pending poll left |
| Body.ResumeSpec | src/iter.rs:45-55 | a poll of the body panics only with NotAwaited; it is Ready only when the whole body has run; when Pending, it awaits the token with the cell occupied or a foreign future; a Pending poll never increases the remaining work, and strictly decreases it when the cell is empty afterwards |
| Body.Resume | src/local_iter.rs:65 | polling the boxed future on the shared cell gives the answer, body state and cell content that ResumeSpec gives from the old cell content |
| Driver.Step | src/local_iter.rs:61-83 | a finished bridge answers Ready(None) and stays finished; Ready(None) is answered exactly when the future is dropped; every non-panicking step of a live bridge leaves the cell empty; a produced element is exactly the value the body left in the cell during this poll; the only panic is NotAwaited, and a body that completes with a value still in the cell gets it; a pending body answers Ready with the value it left in the cell, or Pending if it left none; from an empty cell, every non-panicking step that keeps the body alive strictly decreases the remaining work |
| Driver.NextSpec | src/local_iter.rs:124-128 | the synchronous `next` gives the driver's Ready value, passes its panic on, and turns Pending into the panic "`YieldContext::ret` is not called." |
| Driver.Data.constructor | src/local_iter.rs:104-110 | a new driver owns a fresh empty cell and the unpolled body |
| Driver.Data.PollNext | src/iter.rs:63-85 | updates the future and the cell exactly as Step does; once finished it answers Ready(None) and changes nothing; without a panic the cell is empty afterwards; Ready(None) is answered exactly when the future has been dropped |
| LocalVariant.LocalIter.New | src/local_iter.rs:104-110 | the iterator's driver starts from the unpolled body and an empty cell |
| LocalVariant.LocalIter.FromIter | src/local_iter.rs:113-118 | the iterator's body is a single `ret_iter` over the given items |
| LocalVariant.LocalIter.Next | src/local_iter.rs:124-128 | the answer and the new state are NextSpec of the old state; the call panics with RetNotCalled exactly when the driver answered Pending; it answers None exactly when the future has been dropped, and then every later call does too |
| LocalVariant.LocalAsyncIter.New | src/local_iter.rs:179-183 | the stream wraps a LocalIter built from the same body |
| LocalVariant.LocalAsyncIter.FromIter | src/local_iter.rs:186-191 | the stream's body is a single `ret_iter` over the given items |
| LocalVariant.LocalAsyncIter.PollNext | src/local_iter.rs:197-199 | the answer and the new state are Step of the old state, so Pending is passed to the executor; once finished it answers Ready(None) and changes nothing |
| LocalVariant.LocalAsyncIter.IsTerminated | src/local_iter.rs:202-204 | true exactly when the future has been dropped, and then the next poll answers Ready(None) |
| SendVariant.Iter.New | src/iter.rs:107-115 | the iterator's driver starts from the unpolled body and an empty cell |
| SendVariant.Iter.Next | src/iter.rs:121-126 | the answer and the new state are NextSpec of the old state; it panics with RetNotCalled exactly when the driver answered Pending; it answers None exactly when the future has been dropped, and then every later call does too |
| SendVariant.AsyncIter.New | src/iter.rs:177-181 | the stream wraps an Iter built from the same body |
| SendVariant.AsyncIter.PollNext | src/iter.rs:187-189 | the answer and the new state are Step of the old state; once finished it answers Ready(None) and changes nothing |
| SendVariant.AsyncIter.IsTerminated | src/iter.rs:192-194 | true exactly when the future has been dropped, and then the next poll answers Ready(None) |
| Consumer.AwaitNext | tests/local_async_iter.rs:51-54 | awaiting the next element, which polls until the answer is not Pending, terminates on every body; without a panic it leaves the cell empty; it answers None exactly when the future has been dropped |
| Theorems.CollectMatchesReference | src/local_iter.rs:61-83 | for every body and both flavours, `collect()` over the bridge returns exactly what the reference reading of the body prescribes: the values in order, and the panic and the prefix before it |
| Theorems.ResumeAgrees | src/local_iter.rs:65-81 | each poll of the body followed by the driver's reaction preserves the agreement with the reference reading of the remaining body |
| Theorems.CollectYields | src/local_iter.rs:75-81 | a body whose every `ret` is awaited, and which never waits on a foreign future in the synchronous flavour, collects exactly the values it yields, in program order |
| Theorems.CollectSuspendSync | src/iter.rs:121-126 | in the synchronous flavour, a body that waits on a not-ready foreign future delivers the values yielded before it and then panics with "`YieldContext::ret` is not called." |
| Theorems.CollectNoAwait | src/local_iter.rs:67-74 | a `ret` whose token is dropped, followed by another store or by the end of the body, makes collect panic with "The result of `ret` is not await." after the earlier values |
| Theorems.CollectRetIter | src/local_iter.rs:140-145 | `ret_iter(xs)` or `ret_stream(xs)` anywhere in a body collects the same as the `ret(x).await` for each x in order |
| Theorems.ExpectRetIterInContext | src/iter.rs:51-55 | in the reference reading, a ret_iter/ret_stream action anywhere in a body, with any held value and either flavour, reads the same as the chained single rets |
| Theorems.ExpectRets | src/local_iter.rs:49-53 | a run of awaited rets reads as exactly its values put in front of whatever the rest of the body reads as |
| Theorems.FusedAfterEnd | src/local_iter.rs:62-64 | once the future has been dropped, every further pull answers None |
| Theorems.CollectThenFused | src/local_iter.rs:131 | a bridge that collects xs answers each element of xs on the first pulls and None on every pull after them |
| Scenarios.NoValue | tests/local_iter.rs:5-10 | an empty body collects nothing, in both flavours |
| Scenarios.Values | tests/local_iter.rs:12-20 | `ret(1).await; ret(2).await` collects [1, 2] in both flavours |
| Scenarios.ValuesRetIter | tests/local_iter.rs:22-29 | `ret_iter([1, 2])` collects [1, 2] in both flavours |
| Scenarios.ValuesRetStream | tests/local_async_iter.rs:36-43 | `ret_stream` of a stream of 1 and 2 collects [1, 2] |
| Scenarios.FusedScenario | tests/iter.rs:31-41 | four pulls give 1, 2, None, None in both flavours |
| Scenarios.UsePending | tests/local_iter.rs:55-64 | the synchronous flavour delivers 1 and then panics on the body awaiting `pending()` |
| Scenarios.InvalidAwait | tests/tests.rs:55-62 | a body that only awaits `pending()` panics on the first synchronous pull |
| Scenarios.UseSleep | tests/local_async_iter.rs:69-78 | the asynchronous flavour waits out a sleep between two values and collects [1, 2], whatever the sleep's number of pending polls |
| Scenarios.NoAwait1 | tests/local_iter.rs:66-74 | an un-awaited `ret(1)` at the end of the body panics with NotAwaited in both flavours |
| Scenarios.NoAwait2 | tests/local_iter.rs:76-85 | two un-awaited rets panic with NotAwaited in both flavours |
| Scenarios.NoAwaitBeforeSuspension | src/local_iter.rs:75-77 | an un-awaited `ret(v)` followed by a suspension on a foreign future that is pending once delivers v without a panic, in both flavours |
| Clients.FusedLocalIter | tests/local_iter.rs:31-41 | driving a LocalIter object through four `next` calls gives 1, 2, None, None |
| Clients.UsePendingIter | tests/iter.rs:55-64 | driving an Iter object: the first `next` gives 1, the second panics with RetNotCalled |
| Clients.PullOfPanicked | tests/iter.rs:63 | when `collect()` yields xs and then panics, each pull answers the next element of xs, and the pull after the last one panics with the same message |

## Left out

- Wakers and `Context` are left out. The synchronous flavour's no-op waker is the rule that a Pending answer is final. The asynchronous flavour's executor is `Consumer.AwaitNext`, which polls again until the answer is not Pending.
- `Pin`, `Box<dyn Future>`, lifetimes and the `'a` bounds are left out. They only make the erased future storable; they have no run-time behaviour.
- `Rc`/`Arc`, `RefCell`/`Mutex`, `Send`/`Sync` and the tests that check these bounds at the type level are not modelled: `check_not_send`, `check_send` and `check_sync_send`. The mutex is poisoned only by a panic in `Sender::set`, after which the object is not used; a double `RefCell` borrow cannot occur, and the model is sequential.
- The element type is a generic `T`. Values are moved through the cell unchanged, which covers the tests with borrowed values or values that are not `Sync` (`values_with_lifetime`, `ret_not_sync`).
- The `Deref`/`DerefMut` impls of the stream contexts are not separate members. They make `ret` and `ret_iter` of the inner context available, and in a body these are the same actions.
- The user's body is a straight-line script. Arbitrary control flow in the body, computation of the values, and nested futures other than the bridge's own token and foreign futures are not modelled.
- A foreign future is pending a fixed number of times and then ready. Real time, wake-up order and a future that never completes are not modelled. `pending()` in the synchronous flavour fails at its first pending poll, so its length does not matter there.
- `Body.Action.RetStream` forwards a finite stream whose items are ready at once. A stream that is itself pending between items would be an External action between the rets. The model also accepts `RetStream` in a body driven synchronously, although only the stream contexts offer `ret_stream`.
- Dropping a bridge before its body finishes is not modelled. No method runs afterwards, so no further step of the body runs.
- After a panic, the model's state is the state just before the failing assertion. In the crate the panic unwinds, and the object is not used again.
- Caller locations attached to panics by `#[track_caller]` are not modelled. Only the two messages are.
- The aliases of src/lib.rs and the fake waker of src/utils.rs are not part of this model.
