/**
 * The older buffering reader, as written: a fresh buffer per background read,
 * a full drain drops the buffer to nil, `moveReadResult` copies from the
 * caller's buffer into the pending one, and the path that hands over leftover
 * bytes returns without giving the token back.
 */
module ReaderModel {
  import opened Common

  /** A Go `[]byte` whose nil-ness is observed: `r.buf != nil` decides the drain path. */
  datatype Slice = NilSlice | Bytes(s: seq<byte>)

  function Len(b: Slice): nat {
    if b.NilSlice? then 0 else |b.s|
  }

  /**
   * The reader's state: the token, the pending slice, the stored error, the
   * captured `len(p)` of the running background read and whether such a read
   * exists (`inFlight`, the goroutine, which is not a field of the source).
   */
  datatype RState = RState(busy: bool, inFlight: bool, buf: Slice, err: Error, readLen: nat)

  /** A running read holds the token and started from a nil buffer. */
  predicate Inv(s: RState) {
    s.inFlight ==> s.busy && s.buf.NilSlice?
  }

  /** The token is held but no read will ever give it back. */
  predicate Stuck(s: RState) {
    s.busy && !s.inFlight
  }

  datatype Moved = Moved(after: RState, n: nat, err: Error)

  /**
   * `moveReadResult(p)` as written: `copy(r.buf, p)` writes the caller's bytes
   * over the pending ones, so the caller receives nothing; `n` is still
   * `min(len(buf), len(p))`. A partial drain keeps `buf[:n]`, which now holds
   * the caller's own first `n` bytes; a full drain sets the buffer to nil.
   */
  function Move(s: RState, p: seq<byte>): (m: Moved)
    ensures m.n == Min(Len(s.buf), |p|) && m.err == s.err
    ensures |p| < Len(s.buf) ==> m.after.buf == Bytes(p)
    ensures Len(s.buf) <= |p| ==> m.after.buf == NilSlice
    ensures m.after == s.(buf := m.after.buf)
  {
    var n := Min(Len(s.buf), |p|);
    if Len(s.buf) > n then
      assert p[..n] == p;
      Moved(s.(buf := Bytes(p[..n])), n, s.err)
    else Moved(s.(buf := NilSlice), n, s.err)
  }

  /**
   * A pending byte is lost, not delivered: with `[7]` pending and a caller
   * buffer holding `[0]`, the call reports one byte read, the caller's buffer
   * still holds `[0]`, and the pending byte is gone.
   */
  lemma MoveDeliversNothing()
    ensures var m := Move(RState(false, false, Bytes([7]), Nil, 0), [0]);
      m.n == 1 && m.after.buf == NilSlice
  {
  }

  /**
   * The background read finishing: a fresh buffer of the captured length
   * truncated to the `n` bytes read, the source's error stored, token released.
   * `make` never yields nil, so the buffer is non-nil even when nothing was
   * read, and the next call takes the drain path.
   */
  function Complete(s: RState, data: seq<byte>, e: Error): (t: RState)
    requires s.inFlight && |data| <= s.readLen
    ensures !t.busy && !t.inFlight && t.err == e && t.readLen == s.readLen
    ensures t.buf.Bytes? && t.buf.s == data && Len(t.buf) <= s.readLen
    ensures Inv(t) && !Stuck(t)
  {
    RState(false, false, Bytes(data), e, s.readLen)
  }

  /**
   * Which outcomes of the final wait can happen. When the token is held and no
   * read is running the token can never be taken again: only the context can
   * end the wait (a context that never fires blocks the call for ever, which
   * the model has no outcome for).
   */
  predicate WaitOk(s: RState, room: nat, ctx: Ctx, wait: Wait) {
    && ctx.WellFormed()
    && (ctx.doneAtEntry || (!ctx.cancellable ==> wait.ReadDone?))
    && (!ctx.doneAtEntry && wait.ReadDone? ==>
          if s.busy then s.inFlight && |wait.data| <= s.readLen
          else s.buf.Bytes? || |wait.data| <= room)
  }

  /** The new state and the `(n, err)` one call returns. */
  datatype ROutcome = ROutcome(after: RState, n: nat, err: Error)

  function Call(s: RState, p: seq<byte>, ctx: Ctx, wait: Wait): (o: ROutcome)
    requires Inv(s) && WaitOk(s, |p|, ctx, wait)
    // already done at entry: (0, ctx.Err()) and nothing changes
    ensures ctx.doneAtEntry ==> o == ROutcome(s, 0, CtxErr(ctx.reason))
    // leftover bytes: moveReadResult, and the token stays taken with no read to release it
    ensures !ctx.doneAtEntry && !s.busy && s.buf.Bytes? ==>
      var m := Move(s, p);
      o.n == m.n && o.err == s.err && o.after == m.after.(busy := true) && Stuck(o.after)
    // a new read starts only when the token is free and the buffer is nil
    ensures !ctx.doneAtEntry && !s.busy && s.buf.NilSlice? && wait.CtxDone? ==>
      o == ROutcome(RState(true, true, NilSlice, s.err, |p|), 0, CtxErr(ctx.reason))
    // the context wins: (0, ctx.Err()), buf and err untouched
    ensures !ctx.doneAtEntry && s.busy ==> wait.CtxDone? ==> o == ROutcome(s, 0, CtxErr(ctx.reason))
    // the read wins: moveReadResult on its result, then the token is released
    ensures !ctx.doneAtEntry && (s.busy || s.buf.NilSlice?) && wait.ReadDone? ==>
      var m := Move(Complete(s.(inFlight := true, readLen := if s.busy then s.readLen else |p|), wait.data, wait.e), p);
      o == ROutcome(m.after, m.n, wait.e) && !o.after.busy && !o.after.inFlight
    // once stuck, every call reports the context's error and changes nothing
    ensures Stuck(s) ==> o == ROutcome(s, 0, CtxErr(ctx.reason))
    ensures o.n <= |p| && Inv(o.after)
  {
    if ctx.doneAtEntry then ROutcome(s, 0, CtxErr(ctx.reason))
    else if !s.busy && s.buf.Bytes? then
      var m := Move(s.(busy := true), p);
      ROutcome(m.after, m.n, m.err)
    else
      var s1 := if s.busy then s else s.(busy := true, inFlight := true, readLen := |p|);
      match wait
      case CtxDone => ROutcome(s1, 0, CtxErr(ctx.reason))
      case ReadDone(data, e) =>
        var m := Move(Complete(s1, data, e).(busy := true), p);
        ROutcome(m.after.(busy := false), m.n, m.err)
  }

  /** A call: the caller's buffer contents, the context and the outcome of the wait. */
  datatype Request = Request(p: seq<byte>, ctx: Ctx, wait: Wait)

  /**
   * The results of successive calls with no background read finishing in
   * between; the replay ends at the first call whose wait cannot end.
   */
  function Replay(s: RState, reqs: seq<Request>): (r: seq<ReadResult>)
    requires Inv(s)
    ensures |r| <= |reqs|
    decreases |reqs|
  {
    if reqs == [] then []
    else
      var q := reqs[0];
      if !WaitOk(s, |q.p|, q.ctx, q.wait) then []
      else
        var o := Call(s, q.p, q.ctx, q.wait);
        [ReadResult(o.n, o.err)] + Replay(o.after, reqs[1..])
  }

  /**
   * After leftover bytes were handed over the reader never reads again: every
   * later call that returns at all returns `(0, ctx.Err())`.
   */
  lemma {:induction false} StuckReaderOnlyCancels(s: RState, reqs: seq<Request>)
    requires Inv(s) && Stuck(s)
    ensures forall k :: 0 <= k < |Replay(s, reqs)| ==>
      Replay(s, reqs)[k] == ReadResult(0, CtxErr(reqs[k].ctx.reason))
    decreases |reqs|
  {
    if reqs != [] {
      var q := reqs[0];
      if WaitOk(s, |q.p|, q.ctx, q.wait) {
        StuckReaderOnlyCancels(s, reqs[1..]);
        var o := Call(s, q.p, q.ctx, q.wait);
        assert o.after == s;
        var rest := Replay(s, reqs[1..]);
        assert Replay(s, reqs) == [ReadResult(0, CtxErr(q.ctx.reason))] + rest;
        forall k | 0 < k < |Replay(s, reqs)|
          ensures Replay(s, reqs)[k] == ReadResult(0, CtxErr(reqs[k].ctx.reason))
        {
          assert Replay(s, reqs)[k] == rest[k - 1] && reqs[k] == reqs[1..][k - 1];
        }
      }
    }
  }

  /**
   * A read abandoned by its context and then finished strands the reader: the
   * next call hands over the leftover bytes with the stored error (none of them
   * reach the caller, see `Move`) and keeps the token, so every later call that
   * returns at all reports `(0, ctx.Err())`. This holds even when the read
   * produced no bytes.
   */
  lemma {:induction false} AbandonedReadStrandsReader(s: RState, data: seq<byte>, e: Error, reqs: seq<Request>)
    requires Inv(s) && s.inFlight && |data| <= s.readLen
    requires reqs != [] && !reqs[0].ctx.doneAtEntry
    requires WaitOk(Complete(s, data, e), |reqs[0].p|, reqs[0].ctx, reqs[0].wait)
    ensures var t := Complete(s, data, e);
      Stuck(Call(t, reqs[0].p, reqs[0].ctx, reqs[0].wait).after)
      && Replay(t, reqs)[0] == ReadResult(Min(|data|, |reqs[0].p|), e)
      && forall k :: 1 <= k < |Replay(t, reqs)| ==>
           Replay(t, reqs)[k] == ReadResult(0, CtxErr(reqs[k].ctx.reason))
  {
    var t := Complete(s, data, e);
    var q := reqs[0];
    var o := Call(t, q.p, q.ctx, q.wait);
    StuckReaderOnlyCancels(o.after, reqs[1..]);
    var rest := Replay(o.after, reqs[1..]);
    assert Replay(t, reqs) == [ReadResult(o.n, o.err)] + rest;
    forall k | 1 <= k < |Replay(t, reqs)|
      ensures Replay(t, reqs)[k] == ReadResult(0, CtxErr(reqs[k].ctx.reason))
    {
      assert Replay(t, reqs)[k] == rest[k - 1] && reqs[k] == reqs[1..][k - 1];
    }
  }

  class Reader {
    var busy: bool
    var buf: Slice
    var err: Error
    /** `len(p)` captured by the running background read. */
    var readLen: nat
    /** Whether a background read is running (the goroutine itself). */
    ghost var inFlight: bool

    ghost function State(): RState
      reads this
    {
      RState(busy, inFlight, buf, err, readLen)
    }

    /** `NewReader`: token free, nil buffer, nil error. */
    constructor ()
      ensures State() == RState(false, false, NilSlice, Nil, 0) && Inv(State())
    {
      busy, buf, err, readLen := false, NilSlice, Nil, 0;
      inFlight := false;
    }

    /** The background read finishing; `data` is what the source put in the fresh buffer. */
    method CompleteBackgroundRead(data: seq<byte>, e: Error)
      requires Inv(State()) && inFlight && |data| <= readLen
      modifies this
      ensures State() == Complete(old(State()), data, e) && Inv(State())
    {
      buf := Bytes(data);
      err := e;
      inFlight := false;
      busy := false;
    }

    /** `moveReadResult(p)`: `p` is only read, never written. */
    method MoveReadResult(p: array<byte>) returns (n: nat, e: Error)
      modifies this
      ensures var m := Move(old(State()), p[..]);
        State() == m.after && n == m.n && e == m.err
    {
      var len := if buf.NilSlice? then 0 else |buf.s|;
      n := Min(len, p.Length);
      if len > n {
        buf := Bytes(p[..n]);
      } else {
        buf := NilSlice;
      }
      e := err;
    }

    /** `ReadContext(ctx, p)`, with the race outcomes as inputs. */
    method ReadContext(p: array<byte>, ctx: Ctx, wait: Wait) returns (n: nat, e: Error)
      requires Inv(State()) && WaitOk(State(), p.Length, ctx, wait)
      modifies this
      ensures var o := Call(old(State()), p[..], ctx, wait);
        State() == o.after && n == o.n && e == o.err
      ensures Inv(State())
    {
      if ctx.doneAtEntry {
        return 0, CtxErr(ctx.reason);
      }
      if !busy {
        busy := true;            // token acquired
        if buf.Bytes? {
          n, e := MoveReadResult(p);   // returns still holding the token
          return;
        }
        readLen := p.Length;
        inFlight := true;
      }
      match wait
      case CtxDone =>
        return 0, CtxErr(ctx.reason);
      case ReadDone(data, readErr) =>
        CompleteBackgroundRead(data, readErr);
        busy := true;
        n, e := MoveReadResult(p);
        busy := false;           // token cleared
    }
  }
}
