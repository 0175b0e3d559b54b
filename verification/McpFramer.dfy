/** The line framer of the MCP stdio transport, and its independence of how the stream is cut into chunks. */
module McpFramer {
  import opened Options

  type Bytes = seq<int>

  const NEWLINE: int := 10
  const MAX_MESSAGE_BYTES: nat := 512 * 1024

  // ---- what a stream means

  /** The bytes before the first newline. */
  function FirstLine(stream: Bytes): (line: Bytes)
    requires NEWLINE in stream
    ensures NEWLINE !in line && |line| < |stream|
  {
    if stream[0] == NEWLINE then [] else [stream[0]] + FirstLine(stream[1..])
  }

  /** The bytes after the first newline. */
  function After(stream: Bytes): (rest: Bytes)
    requires NEWLINE in stream
    ensures |rest| < |stream|
  {
    if stream[0] == NEWLINE then stream[1..] else After(stream[1..])
  }

  lemma {:induction false} CutAtNewline(stream: Bytes)
    requires NEWLINE in stream
    ensures stream == FirstLine(stream) + [NEWLINE] + After(stream)
  {
    if stream[0] != NEWLINE {
      CutAtNewline(stream[1..]);
      assert stream == [stream[0]] + stream[1..];
    }
  }

  /** `subarray` up to and behind the first newline. */
  lemma LineSlices(stream: Bytes)
    requires NEWLINE in stream
    ensures |FirstLine(stream)| < |stream|
    ensures stream[..|FirstLine(stream)|] == FirstLine(stream) && stream[|FirstLine(stream)| + 1..] == After(stream)
  {
    hide FirstLine, After;
    CutAtNewline(stream);
  }

  lemma {:induction false} CutConcat(a: Bytes, b: Bytes)
    requires NEWLINE in a
    ensures NEWLINE in a + b && FirstLine(a + b) == FirstLine(a) && After(a + b) == After(a) + b
  {
    if a[0] == NEWLINE {
      assert (a + b)[1..] == a[1..] + b;
    } else {
      CutConcat(a[1..], b);
      assert (a + b)[1..] == a[1..] + b;
    }
  }

  /** A stream as its complete lines and the unfinished rest. */
  function Lines(stream: Bytes): (lines: seq<Bytes>)
    ensures forall k :: 0 <= k < |lines| ==> NEWLINE !in lines[k]
    decreases |stream|
  {
    if NEWLINE !in stream then [] else [FirstLine(stream)] + Lines(After(stream))
  }

  function Rest(stream: Bytes): (rest: Bytes)
    ensures NEWLINE !in rest
    decreases |stream|
  {
    if NEWLINE !in stream then stream else Rest(After(stream))
  }

  function Joined(lines: seq<Bytes>): Bytes {
    if lines == [] then [] else lines[0] + [NEWLINE] + Joined(lines[1..])
  }

  /** Nothing of the stream is lost in the cutting. */
  lemma {:induction false} LinesAndRest(stream: Bytes)
    ensures stream == Joined(Lines(stream)) + Rest(stream)
    decreases |stream|
  {
    hide FirstLine, After;
    if NEWLINE in stream {
      CutAtNewline(stream);
      LinesAndRest(After(stream));
      assert Lines(stream)[1..] == Lines(After(stream));
    }
  }

  /** A line that is delivered: short enough and decodable. */
  predicate Good<M>(line: Bytes, decode: Bytes -> Option<M>) { |line| <= MAX_MESSAGE_BYTES && decode(line).Some? }

  /** How many lines come before the first that is too long or undecodable. */
  function GoodLines<M>(lines: seq<Bytes>, decode: Bytes -> Option<M>): (n: nat)
    ensures n <= |lines| && (forall k :: 0 <= k < n ==> Good(lines[k], decode))
    ensures n < |lines| ==> !Good(lines[n], decode)
  {
    if lines == [] || !Good(lines[0], decode) then 0 else 1 + GoodLines(lines[1..], decode)
  }

  // ---- what the transport makes of it

  /** The messages delivered, whether the transport has failed and closed, and the bytes it still holds. */
  datatype Framed<M> = Framed(messages: seq<M>, failed: bool, buffer: Bytes)

  /** The loop of the data handler, from the start of a buffer. */
  function Frame<M>(buffer: Bytes, decode: Bytes -> Option<M>): Framed<M>
    decreases |buffer|
  {
    if NEWLINE !in buffer then
      if |buffer| > MAX_MESSAGE_BYTES then Framed([], true, []) else Framed([], false, buffer)
    else if |FirstLine(buffer)| > MAX_MESSAGE_BYTES then Framed([], true, [])
    else
      var message := decode(FirstLine(buffer));
      if message.None? then Framed([], true, []) else
      var rest := Frame(After(buffer), decode);
      rest.(messages := [message.value] + rest.messages)
  }

  /** Framing a buffer after some messages have been delivered. */
  function Resumed<M>(messages: seq<M>, buffer: Bytes, decode: Bytes -> Option<M>): Framed<M> {
    Frame(buffer, decode).(messages := messages + Frame(buffer, decode).messages)
  }

  function Feed<M>(state: Framed<M>, chunk: Bytes, decode: Bytes -> Option<M>): Framed<M> {
    if state.failed then state else Resumed(state.messages, state.buffer + chunk, decode)
  }

  function FeedAll<M>(state: Framed<M>, chunks: seq<Bytes>, decode: Bytes -> Option<M>): Framed<M> {
    if chunks == [] then state else Feed(FeedAll(state, chunks[..|chunks| - 1], decode), chunks[|chunks| - 1], decode)
  }

  function Concatenated(chunks: seq<Bytes>): Bytes {
    if chunks == [] then [] else Concatenated(chunks[..|chunks| - 1]) + chunks[|chunks| - 1]
  }

  /**
   Exactly the good lines are delivered, up to the first bad one; the transport fails if there
   is a bad line or the unfinished rest is already too long; otherwise the rest is kept.
   */
  lemma {:induction false} FrameMeaning<M>(stream: Bytes, decode: Bytes -> Option<M>)
    ensures var n := GoodLines(Lines(stream), decode);
      && |Frame(stream, decode).messages| == n
      && (forall k :: 0 <= k < n ==> decode(Lines(stream)[k]) == Some(Frame(stream, decode).messages[k]))
      && (Frame(stream, decode).failed <==> n < |Lines(stream)| || |Rest(stream)| > MAX_MESSAGE_BYTES)
      && Frame(stream, decode).buffer == (if Frame(stream, decode).failed then [] else Rest(stream))
    decreases |stream|
  {
    hide FirstLine, After;
    if NEWLINE in stream && Good(FirstLine(stream), decode) {
      FrameMeaning(After(stream), decode);
      assert Lines(stream)[1..] == Lines(After(stream));
    }
  }

  /** Framing one more piece after a first: as if both had come together. */
  lemma {:induction false} FrameConcat<M>(a: Bytes, b: Bytes, decode: Bytes -> Option<M>)
    ensures Frame(a + b, decode) == Feed(Frame(a, decode), b, decode)
    decreases |a|
  {
    hide FirstLine, After;
    if NEWLINE in a {
      CutConcat(a, b);
      if Good(FirstLine(a), decode) {
        FrameConcat(After(a), b, decode);
      }
    } else if |a| > MAX_MESSAGE_BYTES {
      LongLineFails(a, b, decode);
    }
  }

  lemma LongLineFails<M>(a: Bytes, b: Bytes, decode: Bytes -> Option<M>)
    requires NEWLINE !in a && |a| > MAX_MESSAGE_BYTES
    ensures Frame(a + b, decode) == Framed([], true, [])
  {
    hide FirstLine, After;
    if NEWLINE in a + b {
      CutAtNewline(a + b);
      LongFirstLine(a, b);
    }
  }

  lemma {:induction false} LongFirstLine(a: Bytes, b: Bytes)
    requires NEWLINE !in a && NEWLINE in a + b
    ensures |FirstLine(a + b)| >= |a|
  {
    if a != [] {
      assert (a + b)[1..] == a[1..] + b;
      LongFirstLine(a[1..], b);
    }
  }

  /**
   Chunking independence: for every stream and every way to cut it, the messages, the failure
   and the bytes held back depend on the concatenation only.
   */
  lemma {:induction false} ChunkingIndependent<M>(chunks: seq<Bytes>, decode: Bytes -> Option<M>)
    ensures FeedAll(Framed([], false, []), chunks, decode) == Frame(Concatenated(chunks), decode)
  {
    if chunks != [] {
      var front, last := chunks[..|chunks| - 1], chunks[|chunks| - 1];
      ChunkingIndependent(front, decode);
      FrameConcat(Concatenated(front), last, decode);
    }
  }

  /** What one turn of the loop does: the transport before it, with `messages` delivered, ends up like the one after it. */
  lemma FrameTurn<M>(messages: seq<M>, buffer: Bytes, message: M, decode: Bytes -> Option<M>)
    requires NEWLINE in buffer && |FirstLine(buffer)| <= MAX_MESSAGE_BYTES && decode(FirstLine(buffer)) == Some(message)
    ensures Resumed(messages, buffer, decode) == Resumed(messages + [message], After(buffer), decode)
  {
    var rest := Frame(After(buffer), decode).messages;
    assert messages + ([message] + rest) == messages + [message] + rest;
  }

  /** The end of the loop, in each of its cases. */
  lemma FrameEnds<M>(messages: seq<M>, buffer: Bytes, decode: Bytes -> Option<M>)
    ensures NEWLINE !in buffer && |buffer| <= MAX_MESSAGE_BYTES ==> Resumed(messages, buffer, decode) == Framed(messages, false, buffer)
    ensures NEWLINE !in buffer && |buffer| > MAX_MESSAGE_BYTES ==> Resumed(messages, buffer, decode) == Framed(messages, true, [])
    ensures NEWLINE in buffer && !Good(FirstLine(buffer), decode) ==> Resumed(messages, buffer, decode) == Framed(messages, true, [])
  {
    assert messages + [] == messages;
  }

  // ---- the data handler

  /** The transport's own fields, with the messages it has delivered. */
  class OwnedStdioTransport<M> {
    const decode: Bytes -> Option<M>
    var buffer: Bytes
    var closed: bool
    var failure: bool
    var messages: seq<M>

    function State(): Framed<M>
      reads this
    {
      Framed(messages, failure, buffer)
    }

    constructor (decode: Bytes -> Option<M>)
      ensures State() == Framed([], false, []) && !closed && this.decode == decode
    {
      this.decode := decode;
      buffer, closed, failure, messages := [], false, false, [];
    }

    /** The handler of one `data` event: nothing after the close, otherwise what the specification says. */
    method Data(chunk: Bytes)
      requires failure ==> closed
      modifies this`buffer, this`closed, this`failure, this`messages
      ensures failure ==> closed
      ensures old(closed) ==> State() == old(State()) && closed
      ensures !old(closed) ==> State() == Feed(old(State()), chunk, decode) && closed == failure
    {
      hide FirstLine, After, Frame, Resumed;
      if closed {
        return;
      }
      buffer := buffer + chunk;
      while true
        invariant !closed && !failure
        invariant Feed(old(State()), chunk, decode) == Resumed(messages, buffer, decode)
        decreases |buffer|
      {
        FrameEnds(messages, buffer, decode);
        if NEWLINE !in buffer {
          if |buffer| > MAX_MESSAGE_BYTES {
            Fail();
          }
          return;
        }
        var newline := |FirstLine(buffer)|;
        if newline > MAX_MESSAGE_BYTES {
          Fail();
          return;
        }
        LineSlices(buffer);
        var line := buffer[..newline];
        ghost var before := buffer;
        buffer := buffer[newline + 1..];
        var message := decode(line);
        if message.None? {
          Fail();
          return;
        }
        FrameTurn(messages, before, message.value, decode);
        messages := messages + [message.value];
      }
    }

    /** The catch block: record the failure and `close`, which drops the buffer. */
    method Fail()
      requires !closed
      modifies this`failure, this`closed, this`buffer
      ensures failure && closed && buffer == []
    {
      failure := true;
      Finished();
    }

    /** `#finished`. */
    method Finished()
      modifies this`closed, this`buffer
      ensures closed && buffer == if old(closed) then old(buffer) else []
    {
      if closed {
        return;
      }
      closed, buffer := true, [];
    }
  }
}
