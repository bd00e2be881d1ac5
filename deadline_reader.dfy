/**
 * The deadline reader: for a connection whose pending read can be aborted by
 * setting its read deadline to "now". The watcher goroutine's race is one
 * input (`watcherWins`: the context was done before the read finished); the
 * connection is its read-deadline flag plus the result its `Read` reports.
 */
module DeadlineReaderModel {
  import opened Common

  /**
   * What the connection's `Read` reports: the scripted result, unless a read
   * deadline is already armed when the read starts, in which case the read
   * times out at once without reading anything.
   */
  function ConnRead(armed: bool, scripted: ReadResult): (r: ReadResult)
    ensures !armed ==> r == scripted
    ensures armed ==> r.n == 0 && r.err == Timeout
  {
    if armed then ReadResult(0, Timeout) else scripted
  }

  /**
   * The result policy after the read: a read without error is returned as it
   * is even if the context has been cancelled since; a failed read reports the
   * context's error when the context is done at that check, and the read's own
   * error otherwise. The byte count is never changed.
   */
  function SelectResult(read: ReadResult, doneAtCheck: bool, reason: Reason): (r: ReadResult)
    ensures r.n == read.n
    ensures read.err == Nil ==> r.err == Nil
    ensures read.err != Nil && doneAtCheck ==> r.err == CtxErr(reason)
    ensures read.err != Nil && !doneAtCheck ==> r.err == read.err
    ensures r.err == Nil <==> read.err == Nil
  {
    if read.err == Nil then read
    else if doneAtCheck then ReadResult(read.n, CtxErr(reason))
    else read
  }

  /** The race inputs of one cancellable call are consistent with a context that stays done once done. */
  predicate RaceOk(ctx: Ctx, watcherWins: bool, doneAtCheck: bool) {
    && ctx.WellFormed()
    && (watcherWins ==> ctx.cancellable && doneAtCheck)
    && (ctx.doneAtEntry ==> doneAtCheck)
    && (!ctx.cancellable ==> !doneAtCheck)
  }

  /** The outcome of one `ReadContext` call on a reader whose deadline is clear on entry. */
  function CallResult(ctx: Ctx, watcherWins: bool, doneAtCheck: bool, scripted: ReadResult): (r: ReadResult)
    requires RaceOk(ctx, watcherWins, doneAtCheck)
    // no Done channel: the plain read, untouched
    ensures !ctx.cancellable ==> r == scripted
    // already done: (0, ctx.Err()) without reading
    ensures ctx.doneAtEntry ==> r == ReadResult(0, CtxErr(ctx.reason))
    // a completed read wins over a late cancellation
    ensures !ctx.doneAtEntry && scripted.err == Nil ==> r == scripted
    ensures ctx.cancellable && !ctx.doneAtEntry && scripted.err != Nil ==>
      r.n == scripted.n && r.err == (if doneAtCheck then CtxErr(ctx.reason) else scripted.err)
  {
    if !ctx.cancellable then ConnRead(false, scripted)
    else if ctx.doneAtEntry then ReadResult(0, CtxErr(ctx.reason))
    else SelectResult(ConnRead(false, scripted), doneAtCheck, ctx.reason)
  }

  class DeadlineReader {
    /** Whether the connection's read deadline is currently set. */
    var deadlineArmed: bool
    /** `Read` calls issued on the connection and deadlines set to "now", so far. */
    ghost var connReads: nat
    ghost var armings: nat

    /** No call leaves the connection with a deadline armed. */
    ghost predicate Valid()
      reads this
    {
      !deadlineArmed
    }

    /** `NewDeadlineReader`: the connection starts without a read deadline. */
    constructor ()
      ensures Valid() && connReads == 0 && armings == 0
    {
      deadlineArmed := false;
      connReads, armings := 0, 0;
    }

    /** One `Read` on the connection; the result depends on the deadline in force when it starts. */
    method Read(scripted: ReadResult) returns (r: ReadResult)
      modifies this`connReads
      ensures r == ConnRead(deadlineArmed, scripted)
      ensures connReads == old(connReads) + 1
    {
      r := ConnRead(deadlineArmed, scripted);
      connReads := connReads + 1;
    }

    /**
     * `ReadContext`: without a Done channel, a single plain read that never
     * touches the deadline; otherwise the cancellable path.
     */
    method ReadContext(ctx: Ctx, watcherWins: bool, doneAtCheck: bool, scripted: ReadResult)
      returns (n: nat, err: Error)
      requires Valid() && RaceOk(ctx, watcherWins, doneAtCheck)
      modifies this
      ensures Valid()
      ensures ReadResult(n, err) == CallResult(ctx, watcherWins, doneAtCheck, scripted)
      ensures connReads == old(connReads) + (if ctx.doneAtEntry then 0 else 1)
      ensures armings == old(armings) + (if watcherWins && !ctx.doneAtEntry then 1 else 0)
    {
      if !ctx.cancellable {
        var r := Read(scripted);
        return r.n, r.err;
      }
      n, err := ReadCancellable(ctx, watcherWins, doneAtCheck, scripted);
    }

    /**
     * `readContext`: the entry check, one read raced by the watcher, which arms
     * the deadline only when it sees the context done first; an armed deadline
     * is cleared before the result is chosen.
     */
    method ReadCancellable(ctx: Ctx, watcherWins: bool, doneAtCheck: bool, scripted: ReadResult)
      returns (n: nat, err: Error)
      requires Valid() && RaceOk(ctx, watcherWins, doneAtCheck) && ctx.cancellable
      modifies this
      ensures Valid()
      ensures ctx.doneAtEntry ==> n == 0 && err == CtxErr(ctx.reason) && connReads == old(connReads)
      ensures !ctx.doneAtEntry ==>
        ReadResult(n, err) == SelectResult(scripted, doneAtCheck, ctx.reason)
        && connReads == old(connReads) + 1
      ensures armings == old(armings) + (if watcherWins && !ctx.doneAtEntry then 1 else 0)
    {
      if ctx.doneAtEntry {
        return 0, CtxErr(ctx.reason);
      }
      var r := Read(scripted);     // the read is already blocked when the watcher fires
      var armed := false;
      if watcherWins {
        deadlineArmed := true;     // SetReadDeadline(time.Now())
        armings := armings + 1;
        armed := true;
      }
      if armed {
        deadlineArmed := false;    // SetReadDeadline(time.Time{})
      }
      r := SelectResult(r, doneAtCheck, ctx.reason);
      n, err := r.n, r.err;
    }
  }
}
