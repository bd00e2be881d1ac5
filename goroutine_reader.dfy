/**
 * The buffering cancellable reader: each call either hands over the bytes a
 * background read left behind, or starts (at most one) background read and
 * races its completion against the context.
 *
 * The race is an input: `Wait` says which side won the final wait of a call,
 * and a background read that finishes between calls is the event
 * `CompleteBackgroundRead`.
 */
module GoroutineReaderModel {
  import opened Common

  /** `maxGoroutineReaderBufSize`: the largest capacity kept after a full drain. */
  const MaxBufSize: nat := 4096

  /**
   * The reader's state. `busy` is the one-slot token (a background read holds
   * it while it runs), `buf` the pending bytes with `cap` the capacity of their
   * storage, `err` the stored error, and `readLen` the length of the caller
   * buffer captured by the running background read.
   */
  datatype Pending = Pending(busy: bool, buf: seq<byte>, cap: nat, err: Error, readLen: nat)

  /** Idle, InFlight or ResultReady: an in-flight read always started from an empty buffer. */
  predicate Inv(s: Pending) {
    |s.buf| <= s.cap && (s.busy ==> s.buf == [])
  }

  /** What `moveReadResult` hands over and leaves behind. */
  datatype Drained = Drained(after: Pending, n: nat, out: seq<byte>, err: Error)

  /**
   * `moveReadResult` with a caller buffer of `room` bytes: the first
   * `min(room, len(buf))` pending bytes go to the caller with the stored error.
   * A partial drain keeps `buf[:n]`, the prefix just handed over; a full drain
   * empties the buffer and keeps its storage only up to `MaxBufSize`.
   */
  function Drain(s: Pending, room: nat): (d: Drained)
    requires |s.buf| <= s.cap
    ensures d.n == Min(room, |s.buf|) && d.out == s.buf[..Min(room, |s.buf|)]
    ensures d.err == s.err
    ensures room < |s.buf| ==> d.after.buf == s.buf[..room] && d.after.cap == s.cap
    ensures |s.buf| <= room ==> d.after.buf == [] && d.after.cap <= MaxBufSize
    ensures |s.buf| <= room && s.cap <= MaxBufSize ==> d.after.cap == s.cap
    ensures |s.buf| <= room && s.cap > MaxBufSize ==> d.after.cap == 0
    ensures |d.after.buf| <= d.after.cap
    ensures d.after.busy == s.busy && d.after.err == s.err && d.after.readLen == s.readLen
  {
    var n := Min(room, |s.buf|);
    if |s.buf| > n then Drained(s.(buf := s.buf[..n]), n, s.buf[..n], s.err)
    else if s.cap <= MaxBufSize then Drained(s.(buf := []), n, s.buf, s.err)
    else Drained(s.(buf := [], cap := 0), n, s.buf, s.err)
  }

  /**
   * The drain the callers rely on: a partial drain keeps what was NOT handed
   * over, so handed-over bytes followed by what stays pending are exactly the
   * bytes that were pending.
   */
  function DrainIntended(s: Pending, room: nat): (d: Drained)
    requires |s.buf| <= s.cap
    ensures d.n == Min(room, |s.buf|) && d.out == s.buf[..Min(room, |s.buf|)]
    ensures d.out + d.after.buf == s.buf
    ensures d.err == s.err && |d.after.buf| <= d.after.cap
  {
    var n := Min(room, |s.buf|);
    if |s.buf| > n then Drained(s.(buf := s.buf[n..]), n, s.buf[..n], s.err)
    else Drained(s.(buf := [], cap := if s.cap <= MaxBufSize then s.cap else 0), n, s.buf, s.err)
  }

  /**
   * The background read finishing: the buffer was sized to the captured caller
   * length, reusing the old storage when it was large enough; it now holds the
   * `n` bytes the source produced, the source's error is stored and the token
   * released.
   */
  function Complete(s: Pending, data: seq<byte>, e: Error): (t: Pending)
    requires s.busy && |data| <= s.readLen
    ensures !t.busy && t.buf == data && t.err == e && t.readLen == s.readLen
    ensures t.cap == Max(s.cap, s.readLen)
    ensures |t.buf| <= s.readLen <= t.cap
  {
    var cap := if s.readLen <= s.cap then s.cap else s.readLen;
    Pending(false, data, cap, e, s.readLen)
  }

  /** Which outcomes of the final wait can happen in state `s`. */
  predicate WaitOk(s: Pending, room: nat, ctx: Ctx, wait: Wait) {
    && ctx.WellFormed()
    && (!ctx.cancellable ==> wait.ReadDone?)
    && (wait.ReadDone? ==> |wait.data| <= if s.busy then s.readLen else room)
  }

  /**
   * The outcome of one `ReadContext` call: the new state, the bytes written to
   * the caller's buffer (`out`, of length `n`) with the error, the bytes the
   * source produced during the call (`sourced`), whether the call started a
   * background read, and whether it drained only part of the pending bytes.
   */
  datatype Outcome = Outcome(after: Pending, n: nat, out: seq<byte>, err: Error,
                             sourced: seq<byte>, started: bool, partial: bool)

  /** The drain path: the token is free and a previous read left bytes behind. */
  predicate Leftover(s: Pending) {
    !s.busy && s.buf != []
  }

  /**
   * The final wait of a call, with a background read holding the token: the
   * context wins and the read keeps running, or the read wins and its result
   * is handed over.
   */
  function Await(s: Pending, room: nat, ctx: Ctx, wait: Wait): (a: Outcome)
    requires Inv(s) && s.busy && (wait.ReadDone? ==> |wait.data| <= s.readLen)
    ensures wait.CtxDone? ==> a.after == s && a.n == 0 && a.err == CtxErr(ctx.reason) && a.sourced == [] && !a.partial
    ensures wait.ReadDone? ==>
      && a.sourced == wait.data && a.err == wait.e && !a.after.busy
      && a.n == Min(room, |wait.data|) && a.out == wait.data[..Min(room, |wait.data|)]
      && (a.partial <==> room < |wait.data|)
    ensures a.n == |a.out| <= room && Inv(a.after) && !a.started
    ensures !a.partial ==> a.out + a.after.buf == a.sourced
  {
    match wait
    case CtxDone => Outcome(s, 0, [], CtxErr(ctx.reason), [], false, false)
    case ReadDone(data, e) =>
      var d := Drain(Complete(s, data, e), room);
      Outcome(d.after, d.n, d.out, d.err, data, false, room < |data|)
  }

  /**
   * One `ReadContext` call with a caller buffer of `room` bytes: the entry
   * check, then either the drain of bytes left behind (releasing the token
   * first) or the wait on the background read, started here when none runs.
   */
  function Call(s: Pending, room: nat, ctx: Ctx, wait: Wait): (o: Outcome)
    requires Inv(s) && WaitOk(s, room, ctx, wait)
    // already done at entry: (0, ctx.Err()) and nothing changes
    ensures ctx.doneAtEntry ==> o.after == s && o.n == 0 && o.err == CtxErr(ctx.reason) && o.sourced == []
    // bytes left behind are handed over at once; the token is released and no read starts
    ensures !ctx.doneAtEntry && Leftover(s) ==>
      !o.after.busy && o.sourced == [] && o.n == Min(room, |s.buf|) && o.out == s.buf[..Min(room, |s.buf|)] && o.err == s.err
    // single flight: a read starts only when the token is free and nothing is pending
    ensures o.started <==> !ctx.doneAtEntry && !s.busy && s.buf == []
    // the context wins the wait: (0, ctx.Err()), the read keeps running and keeps the token
    ensures !ctx.doneAtEntry && !Leftover(s) && wait.CtxDone? ==>
      o.n == 0 && o.err == CtxErr(ctx.reason) && o.after.busy && o.after.buf == s.buf && o.after.err == s.err
      && o.after.readLen == (if s.busy then s.readLen else room)
    // the read wins the wait: its bytes and error are handed over and the token released
    ensures !ctx.doneAtEntry && !Leftover(s) && wait.ReadDone? ==>
      !o.after.busy && o.sourced == wait.data && o.err == wait.e
      && o.n == Min(room, |wait.data|) && o.out == wait.data[..Min(room, |wait.data|)]
    ensures o.partial <==> !ctx.doneAtEntry && |s.buf + o.sourced| > room
    ensures o.n == |o.out| <= room && Inv(o.after)
    // in order and without loss, unless the drain was partial
    ensures !o.partial ==> o.out + o.after.buf == s.buf + o.sourced
  {
    if ctx.doneAtEntry then Outcome(s, 0, [], CtxErr(ctx.reason), [], false, false)
    else if Leftover(s) then
      var d := Drain(s, room);
      Outcome(d.after, d.n, d.out, d.err, [], false, room < |s.buf|)
    else
      var s1 := if s.busy then s else s.(busy := true, readLen := room);
      Await(s1, room, ctx, wait).(started := !s.busy)
  }

  /**
   * A partial drain re-delivers: with two bytes pending and a one-byte buffer,
   * the call hands over the first byte and keeps that same byte pending.
   */
  lemma PartialDrainRedelivers()
    ensures var s := Pending(false, [1, 2], 2, Nil, 0);
      var o := Call(s, 1, Ctx(true, false, Canceled), CtxDone);
      o.out == [1] && o.after.buf == [1] && o.out + o.after.buf != s.buf
  {
  }

  /**
   * Repeated intended drains hand over everything that was pending, in order,
   * whatever the buffer sizes, as long as each buffer has room.
   */
  function DrainAll(s: Pending, rooms: seq<nat>): seq<byte>
    requires |s.buf| <= s.cap
    decreases |rooms|
  {
    if rooms == [] then []
    else
      var d := DrainIntended(s, rooms[0]);
      d.out + DrainAll(d.after, rooms[1..])
  }

  lemma {:induction false} DrainIntendedDeliversAll(s: Pending, rooms: seq<nat>)
    requires |s.buf| <= s.cap
    requires |s.buf| <= Sum(rooms)
    ensures DrainAll(s, rooms) == s.buf
    decreases |rooms|
  {
    if rooms != [] {
      var d := DrainIntended(s, rooms[0]);
      assert |d.after.buf| == |s.buf| - d.n;
      DrainIntendedDeliversAll(d.after, rooms[1..]);
    }
  }

  function Sum(rooms: seq<nat>): nat {
    if rooms == [] then 0 else rooms[0] + Sum(rooms[1..])
  }

  /** An event in the life of one reader: a `ReadContext` call, or a background read finishing between calls. */
  datatype Event = Read(room: nat, ctx: Ctx, wait: Wait) | Finish(data: seq<byte>, e: Error)

  /** The end state of a run, every byte handed to callers, every byte the source produced, and whether any drain was partial. */
  datatype Trace = Trace(final: Pending, delivered: seq<byte>, produced: seq<byte>, partial: bool)

  /** Runs the events in order; an event that cannot happen in the state it meets is skipped. */
  function Run(s: Pending, evs: seq<Event>): Trace
    requires Inv(s)
    decreases |evs|
  {
    if evs == [] then Trace(s, [], [], false)
    else match evs[0]
      case Read(room, ctx, wait) =>
        if WaitOk(s, room, ctx, wait) then
          var o := Call(s, room, ctx, wait);
          var t := Run(o.after, evs[1..]);
          Trace(t.final, o.out + t.delivered, o.sourced + t.produced, o.partial || t.partial)
        else Run(s, evs[1..])
      case Finish(data, e) =>
        if s.busy && |data| <= s.readLen then
          var t := Run(Complete(s, data, e), evs[1..]);
          Trace(t.final, t.delivered, data + t.produced, t.partial)
        else Run(s, evs[1..])
  }

  /**
   * No bytes are lost or reordered across any mix of completed and abandoned
   * calls: what callers received, followed by what is still pending, is what
   * was pending at the start followed by everything the source produced, as
   * long as no drain was partial.
   */
  lemma {:induction false} RunInOrder(s: Pending, evs: seq<Event>)
    requires Inv(s)
    ensures var t := Run(s, evs);
      !t.partial ==> t.delivered + t.final.buf == s.buf + t.produced
    decreases |evs|
  {
    if evs != [] {
      match evs[0]
      case Read(room, ctx, wait) =>
        if WaitOk(s, room, ctx, wait) {
          var o := Call(s, room, ctx, wait);
          RunInOrder(o.after, evs[1..]);
          var t := Run(o.after, evs[1..]);
          InOrderStep(o.out, o.after.buf, t.delivered, t.final.buf, s.buf, o.sourced, t.produced,
                      !o.partial && !t.partial);
        } else {
          RunInOrder(s, evs[1..]);
        }
      case Finish(data, e) =>
        if s.busy && |data| <= s.readLen {
          RunInOrder(Complete(s, data, e), evs[1..]);
          assert s.buf == [];
        } else {
          RunInOrder(s, evs[1..]);
        }
    }
  }

  /**
   * A background read that was abandoned and then produced no bytes leaves
   * nothing pending, so the next call starts a new read and reports that
   * read's error: the abandoned read's error is never reported.
   */
  lemma AbandonedErrorWithoutBytesIsReplaced(s: Pending, e: Error, room: nat, ctx: Ctx, data: seq<byte>, e2: Error)
    requires s.busy && Inv(s) && ctx.WellFormed() && !ctx.doneAtEntry
    requires |data| <= room
    ensures var t := Complete(s, [], e);
      var o := Call(t, room, ctx, ReadDone(data, e2));
      t.err == e && o.started && o.err == e2
  {
  }

  /** One call keeps `delivered + buf == produced` when its own hand-over is in order. */
  lemma LosslessStep(delivered: seq<byte>, buf: seq<byte>, out: seq<byte>, rest: seq<byte>,
                     produced: seq<byte>, sourced: seq<byte>, intact: bool)
    requires intact ==> delivered + buf == produced && out + rest == buf + sourced
    ensures intact ==> (delivered + out) + rest == produced + sourced
  {
    if intact {
      calc {
        (delivered + out) + rest;
        delivered + (out + rest);
        delivered + (buf + sourced);
        (delivered + buf) + sourced;
      }
    }
  }

  /** A call in order followed by a run in order is a run in order. */
  lemma InOrderStep(out: seq<byte>, mid: seq<byte>, delivered: seq<byte>, final: seq<byte>,
                    pending: seq<byte>, sourced: seq<byte>, produced: seq<byte>, intact: bool)
    requires intact ==> out + mid == pending + sourced && delivered + final == mid + produced
    ensures intact ==> (out + delivered) + final == pending + (sourced + produced)
  {
    if intact {
      calc {
        (out + delivered) + final;
        out + (delivered + final);
        out + (mid + produced);
        (out + mid) + produced;
        (pending + sourced) + produced;
      }
    }
  }

  class GoroutineReader {
    var busy: bool
    var buf: seq<byte>
    var cap: nat
    var err: Error
    /** `len(p)` of the call whose background read is running (the closure's `p`). */
    var readLen: nat

    /** Every byte the source produced, in order. */
    ghost var produced: seq<byte>
    /** Every byte handed to a caller, in order. */
    ghost var delivered: seq<byte>
    /** No drain so far was partial. */
    ghost var intact: bool
    /** Background reads started and finished so far. */
    ghost var started: nat
    ghost var finished: nat

    function State(): Pending
      reads this
    {
      Pending(busy, buf, cap, err, readLen)
    }

    ghost predicate Valid()
      reads this
    {
      && Inv(State())
      // at most one background read is ever in flight, and it holds the token
      && started == finished + (if busy then 1 else 0)
      && (intact ==> delivered + buf == produced)
    }

    /** `NewGoroutineReader`: token free, no pending bytes, no storage. */
    constructor ()
      ensures Valid() && State() == Pending(false, [], 0, Nil, 0)
      ensures produced == [] && delivered == [] && intact && started == 0
    {
      busy, buf, cap, err, readLen := false, [], 0, Nil, 0;
      produced, delivered, intact := [], [], true;
      started, finished := 0, 0;
    }

    /**
     * The background read finishing, possibly after its caller has given up:
     * `data` is what the source left in the first `n` bytes of `buf`.
     */
    method CompleteBackgroundRead(data: seq<byte>, e: Error)
      requires Valid() && busy && |data| <= readLen
      modifies this
      ensures Valid()
      ensures State() == Complete(old(State()), data, e)
      ensures produced == old(produced) + data && delivered == old(delivered) && intact == old(intact)
      ensures started == old(started) && finished == old(finished) + 1
    {
      if readLen > cap {
        cap := readLen;
      }
      buf := data;
      err := e;
      produced := produced + data;
      finished := finished + 1;
      busy := false;
    }

    /** `moveReadResult`: copies pending bytes into `p` and returns them with the stored error. */
    method MoveReadResult(p: array<byte>) returns (n: nat, e: Error)
      requires |buf| <= cap
      modifies this, p
      ensures var d := Drain(old(State()), p.Length);
        State() == d.after && n == d.n && e == d.err && p[..n] == d.out
      ensures p[n..] == old(p[n..])
      ensures delivered == old(delivered) + p[..n] && produced == old(produced)
      ensures intact == (old(intact) && |old(buf)| <= p.Length)
      ensures started == old(started) && finished == old(finished)
    {
      n := Copy(p, buf);
      delivered := delivered + buf[..n];
      intact := intact && |buf| <= n;
      if |buf| > n {
        buf := buf[..n];
      } else if cap <= MaxBufSize {
        buf := [];
      } else {
        buf, cap := [], 0;
      }
      e := err;
    }

    /**
     * The final `select` of a call, entered holding the token of a running
     * background read: either the context is done first, or the read finishes
     * and its result is handed over.
     */
    method AwaitRead(p: array<byte>, ctx: Ctx, wait: Wait) returns (n: nat, e: Error)
      requires Valid() && busy && (wait.ReadDone? ==> |wait.data| <= readLen)
      modifies this, p
      ensures Valid()
      ensures var a := Await(old(State()), p.Length, ctx, wait);
        State() == a.after && n == a.n && e == a.err && p[..n] == a.out
        && produced == old(produced) + a.sourced
        && intact == (old(intact) && !a.partial)
        && started == old(started)
      ensures p[n..] == old(p[n..])
      ensures delivered == old(delivered) + p[..n]
    {
      match wait
      case CtxDone =>
        return 0, CtxErr(ctx.reason);
      case ReadDone(data, readErr) =>
        CompleteBackgroundRead(data, readErr);
        busy := true;            // token acquired after the read finished
        n, e := MoveReadResult(p);
        LosslessStep(old(delivered), [], p[..n], buf, old(produced), data, intact);
        busy := false;
    }

    /**
     * `ReadContext(ctx, p)`. `ctx` and `wait` stand for what the two `select`s
     * of the call observe; when the read wins, its completion happens inside
     * the call.
     */
    method ReadContext(p: array<byte>, ctx: Ctx, wait: Wait) returns (n: nat, e: Error)
      requires Valid() && WaitOk(State(), p.Length, ctx, wait)
      modifies this, p
      ensures Valid()
      ensures var o := Call(old(State()), p.Length, ctx, wait);
        State() == o.after && n == o.n && e == o.err && p[..n] == o.out
        && produced == old(produced) + o.sourced
        && intact == (old(intact) && !o.partial)
        && started == old(started) + (if o.started then 1 else 0)
      ensures p[n..] == old(p[n..])
      ensures delivered == old(delivered) + p[..n]
    {
      ghost var s := State();
      if ctx.doneAtEntry {
        return 0, CtxErr(ctx.reason);
      }
      if !busy {
        busy := true;            // token acquired
        if |buf| > 0 {
          busy := false;         // released before draining
          n, e := MoveReadResult(p);
          LosslessStep(old(delivered), s.buf, p[..n], buf, old(produced), [], intact);
          return;
        }
        readLen := p.Length;     // the background read takes the token with it
        started := started + 1;
      }
      n, e := AwaitRead(p, ctx, wait);
    }
  }
}
