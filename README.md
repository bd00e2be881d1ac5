# ctxio readers in Dafny

A model of the cancellable readers of the Go package `ctxio`. Each
`ReadContext(ctx, p)` call can be abandoned when its context is done. The
design intent is that nothing is lost or corrupted when that happens. The
code as written falls short of that in the ways listed under "## Findings":
a partial drain re-delivers bytes and drops others, and the older reader
never hands over an abandoned read's bytes and then keeps its token.

- **GoroutineReader** (`GoroutineReaderModel`) is the buffering reader. A call
  either hands over bytes that an abandoned background read left behind, or
  starts at most one background read. It then races that read's completion
  against the context. The state is a one-slot token (`busy`), the pending
  bytes `buf` with the capacity of their storage (`cap`), the stored `err`,
  and the caller length captured by the running read (`readLen`). The ghost
  sequences `produced` and `delivered` record every byte the source produced
  and every byte handed to a caller.
- **Reader** (`ReaderModel`) is the older variant, modelled as written. It
  allocates a fresh buffer per read and drops a fully drained buffer to nil.
  It copies from the caller's buffer instead of into it. Its drain path
  returns while still holding the token.
- **DeadlineReader** (`DeadlineReaderModel`) is for connections whose pending
  read can be aborted by setting a read deadline to "now". The connection is
  a `deadlineArmed` flag plus the result its `Read` reports.
- **MockReader** (`MockReaderModel`) is the scripted FIFO source used by the
  tests. **ByteFillReader** (`ByteFillReaderModel`) fills every buffer with
  one byte.
- `Scenarios` replays three cases of reader_test.go on these models: the
  deadline case, the cancel case and the end-of-stream case. It also replays
  a scripted stand-in for the deadline reader's retry loop over TCP. The
  resume test's no-loss check is the lemma `RunInOrder`, not a scenario.

The goroutines and `select` races are replaced by inputs:

- `Ctx(cancellable, doneAtEntry, reason)` says what a call sees of its
  context.
- `Wait` says which side won the final wait: `ReadDone(data, e)` (the
  background read finished with these bytes and this error) or `CtxDone`.
- A background read that finishes between calls is the event method
  `CompleteBackgroundRead`.
- For the deadline reader, `watcherWins` (the watcher saw the context done
  first) and `doneAtCheck` (the context is done at the final check) are inputs.

Most class methods are proved against a pure transition function:
`ReadContext` against `Call` (both buffering readers) or `CallResult` (the
deadline reader), `AwaitRead` against `Await`, `ReadCancellable` against
`SelectResult`, `MoveReadResult` against `Drain` or `Move`,
`CompleteBackgroundRead` against `Complete`, and `MockReader.Read` against
`Pop`. `ByteFillReader.Read` and `MockReader.Mock` state their effect
directly. The properties are stated on those functions and on lemmas over
whole runs.

The code returns the stored error with every drain, partial drains included.
The buffering readers have no pass-through for a context that can never be
done; only the deadline reader has one. The model follows the code in both.

## Model

| member | source | states |
|---|---|---|
| `MockReaderModel.Pop` | mock_reader_test.go:22-40 | A read removes exactly the head and reports its length and error. An empty queue reports `(0, io.EOF)` and stays empty. The count never exceeds the caller's length, which the panic guard enforces. |
| `MockReaderModel.ReplayIsFifo` | mock_reader_test.go:18-40 | Successive reads, each with a buffer at least as long as the response it is served, return the scripted responses in the order they were mocked. Every read after the last response returns `(0, io.EOF)`. |
| `MockReaderModel.MockReader.constructor` | mock_reader_test.go:14-16 | A new mock has an empty queue. |
| `MockReaderModel.MockReader.Mock` | mock_reader_test.go:18-20 | Appends exactly one response at the end; the earlier responses are unchanged. |
| `MockReaderModel.MockReader.Read` | mock_reader_test.go:22-40 | Behaves as `Pop`; `len(resp.buf) <= len(p)` is required (the code panics otherwise). `p` is outside the frame, so the caller's buffer is never written. |
| `MockReaderModel.MockReader.ReadIntended` | mock_reader_test.go:30 | The same queue behaviour, and the served payload lands in `p[..n]` with the rest of `p` unchanged. |
| `ByteFillReaderModel.ByteFillReader.Read` | byte_fill_reader_test.go:5-10 | Every byte of `p` equals the reader's byte, `n == len(p)`, and the error is nil. |
| `GoroutineReaderModel.Drain` | goroutine_reader.go:67-77 | `n = min(len(p), len(buf))`; the caller gets `buf[..n]` and always the stored error. A partial drain keeps `buf[:n]`. A full drain empties `buf`: storage is kept when its capacity is at most 4096 and dropped otherwise, leaving capacity 0. Token, error and captured length are untouched. |
| `GoroutineReaderModel.DrainIntended` | goroutine_reader.go:69-70 | The drain with `buf[n:]` kept: handed-over bytes followed by what stays pending equal the pending bytes. |
| `GoroutineReaderModel.Complete` | goroutine_reader.go:41-52 | The finished background read leaves `buf` equal to the bytes read (at most `len(p)` of the starting call) and `err` equal to the source's error, and frees the token. Capacity is reused when `len(p) <= cap`, otherwise it becomes `len(p)`. |
| `GoroutineReaderModel.Call` | goroutine_reader.go:23-65 | Done at entry gives `(0, ctx.Err())` with nothing changed. Leftover bytes are drained, the token is released and no read starts. A read starts iff the token is free and `buf` is empty (single flight). If the context wins the wait, the call returns `(0, ctx.Err())`, the running read keeps the token, and `buf`/`err` are kept for a later call. If the read wins, its bytes and error are returned and the token is released. Without a partial drain, bytes handed over plus bytes still pending equal the bytes pending before plus the bytes read during the call. |
| `GoroutineReaderModel.Await` | goroutine_reader.go:56-64 | The final wait, entered while a read holds the token. If the context wins, the call returns `(0, ctx.Err())` and the state is unchanged, so the read keeps the token. If the read wins, the call returns its first `min(len(p), n)` bytes and its error and frees the token. Without a partial drain, bytes handed over plus bytes still pending equal the bytes the read produced. |
| `GoroutineReaderModel.PartialDrainRedelivers` | goroutine_reader.go:69-70 | With `[1, 2]` pending and a one-byte buffer, the call hands over `[1]` and keeps `[1]` pending, so byte 2 is lost and byte 1 comes again. |
| `GoroutineReaderModel.DrainIntendedDeliversAll` | goroutine_reader.go:67-77 | Repeated intended drains with enough total room hand over exactly the pending bytes, in order. |
| `GoroutineReaderModel.RunInOrder` | goroutine_reader.go:23-77 | Take any sequence of calls (completed or abandoned) and background completions with no partial drain. Bytes delivered plus bytes still pending equal the initial pending bytes plus everything the source produced, in order. This is the no-loss property of the resume test, reader_test.go:68-101. |
| `GoroutineReaderModel.AbandonedErrorWithoutBytesIsReplaced` | goroutine_reader.go:35-49 | An abandoned read that finished with no bytes leaves `buf` empty. The next call then starts a new read and returns that read's error, so the earlier error is never reported. |
| `GoroutineReaderModel.GoroutineReader.constructor` | goroutine_reader.go:18-21 | A new reader has a free token, no pending bytes, no storage and a nil error. |
| `GoroutineReaderModel.GoroutineReader.CompleteBackgroundRead` | goroutine_reader.go:41-52 | The state becomes `Complete(old state)`. `produced` grows by the bytes read. One in-flight read finishes. |
| `GoroutineReaderModel.GoroutineReader.MoveReadResult` | goroutine_reader.go:67-77 | The state becomes `Drain(old state)`. The handed-over bytes are written to `p[..n]` and the rest of `p` is unchanged. `delivered` grows by exactly those bytes. |
| `GoroutineReaderModel.GoroutineReader.AwaitRead` | goroutine_reader.go:56-64 | State, result and bytes written to `p` follow `Await`. No new read starts. The invariants are kept: at most one read in flight, and `delivered + buf == produced` while no drain has been partial. |
| `GoroutineReaderModel.GoroutineReader.ReadContext` | goroutine_reader.go:23-65 | State, result and bytes written to `p` follow `Call`. It keeps the invariants: at most one read in flight, and `delivered + buf == produced` while no drain has been partial. |
| `ReaderModel.Move` | reader.go:60-68 | `n = min(len(buf), len(p))` and the stored error is always returned. The caller's buffer is only read. A partial drain leaves the caller's own first `n` bytes in `buf`; a full drain sets `buf` to nil. |
| `ReaderModel.MoveDeliversNothing` | reader.go:61 | With `[7]` pending and a one-byte caller buffer, the call reports one byte and drops the pending byte, which the caller never receives. |
| `ReaderModel.Complete` | reader.go:38-45 | A finished read frees the token, leaves no read in flight, and stores the source's error. The buffer holds the bytes read, at most `len(p)` of the starting call. It is non-nil even when no byte was read, because `make` never yields nil. The result satisfies the invariant and is not stuck. |
| `ReaderModel.Call` | reader.go:21-58 | Done at entry gives `(0, ctx.Err())` with nothing changed. Leftover bytes are moved and the token stays held with no read to release it. A read starts only from a free token and a nil buffer. If the context wins, `buf`/`err` are untouched. If the read wins, its result is moved and the token released. Once stuck, every call returns `(0, ctx.Err())` and changes nothing. |
| `ReaderModel.StuckReaderOnlyCancels` | reader.go:31-35 | Once a drain-path call has kept the token, every later call that returns at all returns `(0, ctx.Err())`. |
| `ReaderModel.AbandonedReadStrandsReader` | reader.go:31-45 | Take a read abandoned by its context that then finishes, even with no bytes. The next call takes the drain path and returns `(min(n, len(p)), err)`, but it keeps the token. Every later call that returns at all then returns `(0, ctx.Err())`. |
| `ReaderModel.Reader.constructor` | reader.go:16-19 | A new reader has a free token, a nil buffer and a nil error. |
| `ReaderModel.Reader.CompleteBackgroundRead` | reader.go:38-45 | The state becomes `Complete(old state)`. |
| `ReaderModel.Reader.MoveReadResult` | reader.go:60-68 | The state and result follow `Move`; `p` is outside the frame. |
| `ReaderModel.Reader.ReadContext` | reader.go:21-58 | State and result follow `Call`; a running read always holds the token. |
| `DeadlineReaderModel.SelectResult` | deadline_reader.go:59-71 | A read without error is returned as is, even after a late cancellation. A failed read returns the context's error if the context is done at the check, and the read's error otherwise. `n` is never changed. |
| `DeadlineReaderModel.CallResult` | deadline_reader.go:23-72 | With no Done channel, the result is the plain read. Done at entry gives `(0, ctx.Err())`. Otherwise the result is the read's result under the selection policy. |
| `DeadlineReaderModel.DeadlineReader.constructor` | deadline_reader.go:15-21 | A new reader's connection has no read deadline. |
| `DeadlineReaderModel.DeadlineReader.Read` | deadline_reader.go:49 | One connection read is counted. It returns the scripted result, unless a deadline is already armed when it starts; then it times out with no bytes. |
| `DeadlineReaderModel.DeadlineReader.ReadContext` | deadline_reader.go:23-29 | The result is `CallResult`. Exactly one connection read happens unless the context is done at entry. The deadline is armed at most once, and only when the watcher wins. No call leaves it armed. |
| `DeadlineReaderModel.DeadlineReader.ReadCancellable` | deadline_reader.go:31-72 | Done at entry gives `(0, ctx.Err())` with no read. Otherwise there is exactly one read and its result goes through `SelectResult`. The deadline is armed only if the watcher wins and is cleared before returning. |
| `Scenarios.SourceRead` | goroutine_reader.go:42-49 | A background read served by the mock delivers the scripted payload (corrected mock) or the zeroed buffer (mock as written), with the scripted length and error. |
| `Scenarios.DeadlineCase` | reader_test.go:15-43 | The first call returns `(13, nil)`; the second returns `(0, context.DeadlineExceeded)`. The abandoned read's 14 bytes go to the third call. The payloads arrive only with the corrected mock. |
| `Scenarios.CancelCase` | reader_test.go:46-66 | A context cancelled before the call gives `(0, context.Canceled)`. No background read starts and the source produces nothing. The token stays free and nothing is pending. |
| `Scenarios.EofCase` | reader_test.go:103-128 | With a context that is never done, the first call returns `(13, nil)` and the second returns `(0, io.EOF)`. The 13 bytes in `p` are the payload only with the corrected scripted source. With the source as written they are zeros, so they differ from the payload. |
| `Scenarios.DeadlineRetryCase` | reader_test.go:204-214 | A call aborted by its deadline returns `(0, context.DeadlineExceeded)`. The retry with a fresh cancellable context returns its scripted `(5, nil)`, because the abort was cleared. A later call whose context can never be done then returns `(7, nil)` on the plain path. |

## Left out

- Goroutines, channels used as a mutex and `select` races: each race outcome is an input, and a background read finishing is an event method. Concurrent callers of one reader are not modelled; calls are sequential.
- `context.Context` internals, timers and `time.Now`: a context is `Ctx(cancellable, doneAtEntry, reason)` plus the per-call race inputs.
- `net.Conn` and `SetReadDeadline`: a deadline flag plus a scripted read result. Which result a read reports when the deadline fires during it is the connection's choice, so it is an input. The bytes a connection writes into `p` are not modelled, only their count.
- The mock's `time.Sleep` delays: kept as data; timing is what the race inputs stand for.
- Go slice aliasing: `buf` is a sequence plus a capacity. The goroutine reader resizes `buf` when its background read finishes rather than when it starts; no caller can see `buf` in between. The mock's write into the caller's own payload slice is not modelled.
- Calls that never return: a source read that never finishes, or the stuck older reader with a context that is never done, have no outcome in the model.
- tcp_rand_server_test.go and benchmark_test.go: network load generation and benchmarks, not part of this model.
- TestGoroutineReaderTCP (reader_test.go:151-184) is not replayed as a scenario, because it depends on a random TCP server. Its property, that the bytes received equal the bytes sent, is what `RunInOrder` states for runs without a partial drain.
- `ctxio.WithContext` and the `InterruptableReader` interface are not part of this model: their source is not among the modelled files.
- `GoroutineReaderModel.RunInOrder`: it states in-order delivery only for runs without a partial drain, because the code loses bytes on a partial drain (see Findings).

## Findings

| source | as written | input that shows it | evidently intended | confidence | as-written member | corrected member |
|---|---|---|---|---|---|---|
| goroutine_reader.go:69-70 | a partial drain keeps `buf[:n]`, the bytes just handed over | `[1, 2]` pending and a one-byte `p`: `[1]` is returned and `[1]` stays pending, so the next call returns 1 again and 2 is lost | keep `buf[n:]` | not executed | `GoroutineReaderModel.PartialDrainRedelivers` | `GoroutineReaderModel.DrainIntendedDeliversAll` |
| reader.go:61 | `copy(r.buf, p)` copies the caller's buffer into the pending one | `[7]` pending and `p = [0]`: returns `n = 1`, `p` still `[0]`, and 7 is dropped | `copy(p, r.buf)`, as at goroutine_reader.go:68 | not executed | `ReaderModel.MoveDeliversNothing` | `GoroutineReaderModel.Drain` |
| reader.go:33-34 | the drain path returns while still holding the token | a read abandoned by its context, then finished: the next call drains and keeps the token; every later call returns `(0, ctx.Err())`, or blocks for ever with a context that is never done | release the token first, as at goroutine_reader.go:36 | not executed | `ReaderModel.AbandonedReadStrandsReader` | `GoroutineReaderModel.Call` |
| mock_reader_test.go:30 | `copy(resp.buf, p)` copies the caller's buffer into the scripted response | scripted "Hello, world\n" and a zeroed `p`: returns 13, and `p` stays zero | `copy(p, resp.buf)` | not executed | `Scenarios.DeadlineCase` | `MockReaderModel.MockReader.ReadIntended` |
