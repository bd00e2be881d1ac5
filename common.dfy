/**
 * Values shared by every reader of the ctxio package: bytes, the errors a read
 * can report, and what one call observes of its cancellation context.
 */
module Common {

  /** A Go `byte`. */
  newtype byte = b: int | 0 <= b < 256

  /** Why a context ended: `context.Canceled` or `context.DeadlineExceeded`. */
  datatype Reason = Canceled | DeadlineExceeded

  /**
   * The `error` values that travel through the readers: `nil`, `io.EOF`, the
   * context's own error, the timeout a connection reports once its read
   * deadline has passed, and any other error of the wrapped source.
   */
  datatype Error = Nil | EOF | CtxErr(reason: Reason) | Timeout | Other(code: int)

  /**
   * What one call sees of its `context.Context`: whether `Done()` is a real
   * channel at all (`cancellable`), whether it is already closed when the call
   * starts, and the value `ctx.Err()` reports once it is closed.
   */
  datatype Ctx = Ctx(cancellable: bool, doneAtEntry: bool, reason: Reason) {
    /** A context whose `Done()` is nil can never be done. */
    predicate WellFormed() {
      doneAtEntry ==> cancellable
    }
  }

  /**
   * Which side wins the final wait of a buffering reader's call: the
   * background read, with the bytes and error it produced, or the context.
   */
  datatype Wait = ReadDone(data: seq<byte>, e: Error) | CtxDone

  /** The result pair `(n, err)` of a Go `Read`. */
  datatype ReadResult = ReadResult(n: nat, err: Error)

  function Min(a: nat, b: nat): nat {
    if a <= b then a else b
  }

  function Max(a: nat, b: nat): nat {
    if a <= b then b else a
  }

  /**
   * Go's `copy(dst, src)` into an array: copies the common prefix and returns
   * its length; the rest of `dst` is untouched.
   */
  method Copy(dst: array<byte>, src: seq<byte>) returns (n: nat)
    modifies dst
    ensures n == Min(dst.Length, |src|)
    ensures dst[..n] == src[..n]
    ensures dst[n..] == old(dst[n..])
  {
    n := Min(dst.Length, |src|);
    var i := 0;
    while i < n
      invariant 0 <= i <= n
      invariant dst[..i] == src[..i]
      invariant dst[n..] == old(dst[n..])
    {
      dst[i] := src[i];
      i := i + 1;
    }
  }
}
