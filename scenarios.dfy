/**
 * The cases of reader_test.go replayed on the models: a scripted source feeds
 * the buffering reader, and the outcome of each race is fixed the way the
 * test's delays and deadlines fix it.
 */
module Scenarios {
  import opened Common
  import opened MockReaderModel
  import opened GoroutineReaderModel
  import opened DeadlineReaderModel

  /** "Hello, world\n" */
  const Hello: seq<byte> := [72, 101, 108, 108, 111, 44, 32, 119, 111, 114, 108, 100, 10]
  /** "This was slow\n" */
  const Slow: seq<byte> := [84, 104, 105, 115, 32, 119, 97, 115, 32, 115, 108, 111, 119, 10]
  /** "Goodbye\n" */
  const Goodbye: seq<byte> := [71, 111, 111, 100, 98, 121, 101, 10]

  /**
   * One background read served by the scripted source: `gr.buf` is sized to
   * the caller's `len(p)` (fresh, zeroed storage here) and the source reads
   * into it; the first `n` bytes of that buffer are the read's data.
   */
  method SourceRead(mr: MockReader, room: nat, intended: bool) returns (data: seq<byte>, e: Error)
    requires Fits(mr.responses, room)
    modifies mr
    ensures var r := Pop(old(mr.responses), room);
      mr.responses == r.rest && |data| == r.result.n && e == r.result.err
    ensures intended && old(mr.responses) != [] ==> data == old(mr.responses)[0].buf
    ensures !intended ==> forall i :: 0 <= i < |data| ==> data[i] == 0
  {
    var scratch := new byte[room](_ => 0);
    var n: nat;
    if intended {
      n, e := mr.ReadIntended(scratch);
    } else {
      n, e := mr.Read(scratch);
    }
    data := scratch[..n];
  }

  /**
   * reader_test.go, the deadline case: the first response arrives at once and
   * is returned whole; the second is a second late, so the 100ms deadline wins
   * and the call returns `(0, context.DeadlineExceeded)`. The late read still
   * finishes and a third call receives its bytes. With the scripted source as
   * written the 13 bytes handed over are the zeroed buffer, not the payload.
   */
  method DeadlineCase(intended: bool)
    returns (n1: nat, e1: Error, first: seq<byte>, n2: nat, e2: Error, n3: nat, e3: Error, third: seq<byte>)
    ensures n1 == 13 && e1 == Nil
    ensures n2 == 0 && e2 == CtxErr(DeadlineExceeded)
    ensures n3 == 14 && e3 == Nil
    ensures intended ==> first == Hello && third == Slow
    ensures !intended ==> first != Hello && third != Slow
  {
    var mr := new MockReader();
    mr.Mock(Hello, Nil, 0);
    mr.Mock(Slow, Nil, 1000);
    mr.Mock(Goodbye, Nil, 0);
    var gr := new GoroutineReader();
    var buf := new byte[1024](_ => 0);
    var ctx := Ctx(true, false, DeadlineExceeded);

    assert mr.responses == [Response(Hello, Nil, 0), Response(Slow, Nil, 1000), Response(Goodbye, Nil, 0)];
    var data, e := SourceRead(mr, buf.Length, intended);
    assert mr.responses == [Response(Slow, Nil, 1000), Response(Goodbye, Nil, 0)];
    assert |data| == 13 && e == Nil;
    n1, e1 := gr.ReadContext(buf, ctx, ReadDone(data, e));
    first := buf[..n1];
    assert !intended ==> first[0] == 0;
    assert gr.State() == Pending(false, [], 1024, Nil, 1024);

    n2, e2 := gr.ReadContext(buf, ctx, CtxDone);
    assert gr.busy && gr.readLen == 1024;
    data, e := SourceRead(mr, gr.readLen, intended);
    gr.CompleteBackgroundRead(data, e);
    assert |data| == 14 && e == Nil;

    var later := Ctx(true, false, DeadlineExceeded);
    n3, e3 := gr.ReadContext(buf, later, CtxDone);
    third := buf[..n3];
    assert !intended ==> third[0] == 0;
  }

  /**
   * reader_test.go, the cancel case: a context cancelled before the call gives
   * `(0, context.Canceled)`; no background read is started, so the source is
   * never asked for anything, and the token stays free.
   */
  method CancelCase() returns (n: nat, e: Error, gr: GoroutineReader)
    ensures n == 0 && e == CtxErr(Canceled)
    ensures gr.Valid() && !gr.busy && gr.buf == [] && gr.started == 0 && gr.produced == []
  {
    gr := new GoroutineReader();
    var buf := new byte[1024](_ => 0);
    n, e := gr.ReadContext(buf, Ctx(true, true, Canceled), CtxDone);
  }

  /**
   * reader_test.go, the end-of-stream case: with a context that can never be
   * done, the first call reports 13 bytes and the second `(0, io.EOF)`. The
   * 13 bytes handed over are the scripted payload only with the corrected
   * scripted source; as written it leaves the zeroed buffer.
   */
  method EofCase(intended: bool) returns (n1: nat, e1: Error, first: seq<byte>, n2: nat, e2: Error)
    ensures n1 == 13 && e1 == Nil
    ensures intended ==> first == Hello
    ensures !intended ==> first != Hello
    ensures n2 == 0 && e2 == EOF
  {
    var mr := new MockReader();
    mr.Mock(Hello, Nil, 0);
    var gr := new GoroutineReader();
    var buf := new byte[1024](_ => 0);
    var background := Ctx(false, false, Canceled);

    var data, e := SourceRead(mr, buf.Length, intended);
    n1, e1 := gr.ReadContext(buf, background, ReadDone(data, e));
    first := buf[..n1];
    assert !intended ==> first[0] == 0;

    data, e := SourceRead(mr, buf.Length, intended);
    n2, e2 := gr.ReadContext(buf, background, ReadDone(data, e));
  }

  /**
   * reader_test.go, the deadline reader's retry loop: a call whose deadline
   * fires while the read is blocked aborts it and reports
   * `context.DeadlineExceeded`; the retry, with a fresh context that is not
   * done in time, reads normally because the abort was cleared. A later call
   * with a context that can never be done takes the plain path and reads
   * normally too.
   */
  method DeadlineRetryCase() returns (n1: nat, e1: Error, n2: nat, e2: Error, n3: nat, e3: Error)
    ensures n1 == 0 && e1 == CtxErr(DeadlineExceeded)
    ensures n2 == 5 && e2 == Nil
    ensures n3 == 7 && e3 == Nil
  {
    var dr := new DeadlineReader();
    n1, e1 := dr.ReadContext(Ctx(true, false, DeadlineExceeded), true, true, ReadResult(0, Timeout));
    n2, e2 := dr.ReadContext(Ctx(true, false, DeadlineExceeded), false, false, ReadResult(5, Nil));
    n3, e3 := dr.ReadContext(Ctx(false, false, Canceled), false, false, ReadResult(7, Nil));
  }
}
