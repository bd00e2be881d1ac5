/**
 * The scripted source of the tests: a FIFO queue of responses, each one the
 * payload, error and delay one `Read` call reports.
 */
module MockReaderModel {
  import opened Common

  /** One scripted response. The delay only changes timing and is kept as data. */
  datatype Response = Response(buf: seq<byte>, err: Error, delay: nat)

  /** The queue left after one `Read`, and what that `Read` reports. */
  datatype Reply = Reply(rest: seq<Response>, result: ReadResult)

  /** Whether a `Read` with `room` bytes returns instead of panicking. */
  predicate Fits(queue: seq<Response>, room: nat) {
    queue != [] ==> |queue[0].buf| <= room
  }

  /**
   * What a `Read` with a caller buffer of `room` bytes does to the queue and
   * reports: the head is removed and its length and error returned; an empty
   * queue reports `(0, io.EOF)` and stays empty.
   */
  function Pop(queue: seq<Response>, room: nat): (r: Reply)
    requires Fits(queue, room)
    ensures queue == [] ==> r.rest == [] && r.result == ReadResult(0, EOF)
    ensures queue != [] ==> [queue[0]] + r.rest == queue
    ensures queue != [] ==> r.result == ReadResult(|queue[0].buf|, queue[0].err)
    ensures r.result.n <= room
  {
    if queue == [] then Reply([], ReadResult(0, EOF))
    else Reply(queue[1..], ReadResult(|queue[0].buf|, queue[0].err))
  }

  /** The results of `Read` calls with the given buffer lengths, one after another. */
  function Replay(queue: seq<Response>, rooms: seq<nat>): seq<ReadResult>
    decreases |rooms|
  {
    if rooms == [] || !Fits(queue, rooms[0]) then []
    else
      var r := Pop(queue, rooms[0]);
      [r.result] + Replay(r.rest, rooms[1..])
  }

  /**
   * Reading the queue back, each response with a buffer large enough for it,
   * returns the scripted responses in the order they were mocked, and
   * `(0, io.EOF)` for every call after the last of them.
   */
  lemma {:induction false} ReplayIsFifo(queue: seq<Response>, rooms: seq<nat>)
    requires forall k :: 0 <= k < |rooms| && k < |queue| ==> |queue[k].buf| <= rooms[k]
    ensures |Replay(queue, rooms)| == |rooms|
    ensures forall k :: 0 <= k < |rooms| && k < |queue| ==>
      Replay(queue, rooms)[k] == ReadResult(|queue[k].buf|, queue[k].err)
    ensures forall k :: |queue| <= k < |rooms| ==> Replay(queue, rooms)[k] == ReadResult(0, EOF)
    decreases |rooms|
  {
    if rooms != [] {
      assert Fits(queue, rooms[0]);
      var r := Pop(queue, rooms[0]);
      assert r.rest == if queue == [] then [] else queue[1..];
      forall k | 0 <= k < |rooms[1..]| && k < |r.rest|
        ensures |r.rest[k].buf| <= rooms[1..][k]
      {
        assert r.rest[k] == queue[k + 1] && rooms[1..][k] == rooms[k + 1];
      }
      ReplayIsFifo(r.rest, rooms[1..]);
      var tail := Replay(r.rest, rooms[1..]);
      assert Replay(queue, rooms) == [r.result] + tail;
      forall k | 0 < k < |rooms| && k < |queue|
        ensures Replay(queue, rooms)[k] == ReadResult(|queue[k].buf|, queue[k].err)
      {
        assert queue[k] == r.rest[k - 1];
      }
    }
  }

  class MockReader {
    /** The responses still to be served, the next one first. */
    var responses: seq<Response>

    constructor ()
      ensures responses == []
    {
      responses := [];
    }

    /** Adds one response at the end of the queue. */
    method Mock(buf: seq<byte>, err: Error, delay: nat)
      modifies this
      ensures responses == old(responses) + [Response(buf, err, delay)]
    {
      responses := responses + [Response(buf, err, delay)];
    }

    /**
     * Serves the next response. The source copies from `p` into the response
     * it has already dropped, so the caller's buffer is never written: `p` is
     * not in the frame. A response longer than `p` panics, so callers must
     * not ask with a smaller buffer.
     */
    method Read(p: array<byte>) returns (n: nat, err: Error)
      requires Fits(responses, p.Length)
      modifies this
      ensures var r := Pop(old(responses), p.Length);
        responses == r.rest && n == r.result.n && err == r.result.err
    {
      if |responses| > 0 {
        var resp := responses[0];
        responses := responses[1..];
        n, err := |resp.buf|, resp.err;
        return;
      }
      n, err := 0, EOF;
    }

    /**
     * `Read` with the copy in the direction its callers rely on: the payload
     * of the served response lands in `p[..n]`.
     */
    method ReadIntended(p: array<byte>) returns (n: nat, err: Error)
      requires Fits(responses, p.Length)
      modifies this, p
      ensures var r := Pop(old(responses), p.Length);
        responses == r.rest && n == r.result.n && err == r.result.err
      ensures old(responses) != [] ==> p[..n] == old(responses)[0].buf
      ensures p[n..] == old(p[n..])
    {
      if |responses| > 0 {
        var resp := responses[0];
        responses := responses[1..];
        n := Copy(p, resp.buf);
        err := resp.err;
        return;
      }
      n, err := 0, EOF;
    }
  }
}
