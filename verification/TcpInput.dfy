/** Reading answers from a TCP connection: a two-byte length word, then as many bytes, whatever each read returns. */
module TcpInput {
  import opened Common
  import QueryEngine

  /** The bytes of the length word and of the answer read so far; `head` is tcp_lenbuf up to tcp_lenbuf_pos. */
  datatype Input = Input(head: Bytes, body: Bytes)

  function Length(head: Bytes): nat
    requires |head| >= 2
  {
    head[0] as int * 256 + head[1]
  }

  predicate InputOk(i: Input) {
    |i.head| <= 2 && (if |i.head| < 2 then i.body == [] else i.body == [] || |i.body| < Length(i.head))
  }

  /** How many bytes the next read asks for. */
  function Wanted(i: Input): (n: nat)
    requires InputOk(i)
  {
    if |i.head| < 2 then 2 - |i.head| else Length(i.head) - |i.body|
  }

  datatype Taken = Taken(input: Input, answers: seq<Bytes>)

  /** One read that returned bytes: never more than it asked for. */
  function Take(i: Input, chunk: Bytes): (r: Taken)
    requires InputOk(i) && 1 <= |chunk| <= Wanted(i)
    ensures InputOk(r.input)
  {
    if |i.head| < 2 then Taken(Input(i.head + chunk, []), [])
    else if |i.body| + |chunk| == Length(i.head) then Taken(Input([], []), [i.body + chunk])
    else Taken(Input(i.head, i.body + chunk), [])
  }

  /** The reads may have returned these chunks, one after the other, without the connection being closed. */
  predicate Readable(i: Input, chunks: seq<Bytes>)
    requires InputOk(i)
    decreases |chunks|
  {
    chunks == [] || (1 <= |chunks[0]| <= Wanted(i) && Readable(Take(i, chunks[0]).input, chunks[1..]))
  }

  function Feed(i: Input, chunks: seq<Bytes>): (r: Taken)
    requires InputOk(i) && Readable(i, chunks)
    ensures InputOk(r.input)
    decreases |chunks|
  {
    if chunks == [] then Taken(i, []) else
    var first := Take(i, chunks[0]);
    var rest := Feed(first.input, chunks[1..]);
    Taken(rest.input, first.answers + rest.answers)
  }

  function Joined(chunks: seq<Bytes>): Bytes {
    if chunks == [] then [] else chunks[0] + Joined(chunks[1..])
  }

  /** The bytes of a message that is not complete yet. */
  function Pending(i: Input): Bytes {
    i.head + i.body
  }

  datatype Parsed = Parsed(answers: seq<Bytes>, rest: Bytes)

  /** Does the stream start with a whole message that is not empty? */
  predicate WholeMessage(s: Bytes) {
    |s| >= 2 && 0 < Length(s) <= |s| - 2
  }

  /** The length-prefixed reading of a byte stream; it stops for good at an empty message. */
  function Parse(s: Bytes): Parsed
    decreases |s|
  {
    if !WholeMessage(s) then Parsed([], s) else
    var n := 2 + Length(s);
    var more := Parse(s[n..]);
    Parsed([s[2..n]] + more.answers, more.rest)
  }

  lemma ParseOne(head: Bytes, body: Bytes, t: Bytes)
    requires |head| == 2 && body != [] && |body| == Length(head)
    ensures Parse(head + body + t) == Parsed([body] + Parse(t).answers, Parse(t).rest)
  {
    var s := head + body + t;
    assert Length(s) == Length(head);
    assert s[2..2 + |body|] == body && s[2 + |body|..] == t;
  }

  lemma ParseNone(i: Input)
    requires InputOk(i)
    ensures Parse(Pending(i)) == Parsed([], Pending(i))
  {
    if |i.head| == 2 {
      assert Length(Pending(i)) == Length(i.head);
    }
  }

  lemma TakeParses(i: Input, chunk: Bytes, t: Bytes)
    requires InputOk(i) && 1 <= |chunk| <= Wanted(i)
    ensures var r := Take(i, chunk);
            Parse(Pending(i) + (chunk + t))
            == Parsed(r.answers + Parse(Pending(r.input) + t).answers, Parse(Pending(r.input) + t).rest)
  {
    hide Parse;
    var r := Take(i, chunk);
    if |i.head| < 2 {
      assert Pending(i) + (chunk + t) == Pending(r.input) + t;
    } else if |i.body| + |chunk| == Length(i.head) {
      ParseOne(i.head, i.body + chunk, t);
      assert Pending(i) + (chunk + t) == i.head + (i.body + chunk) + t;
      assert Pending(r.input) + t == t;
    } else {
      assert Pending(i) + (chunk + t) == Pending(r.input) + t;
    }
  }

  lemma {:induction false} FeedParses(i: Input, chunks: seq<Bytes>)
    requires InputOk(i) && Readable(i, chunks)
    ensures Parse(Pending(i) + Joined(chunks)) == Parsed(Feed(i, chunks).answers, Pending(Feed(i, chunks).input))
    decreases |chunks|
  {
    if chunks == [] {
      ParseNone(i);
      assert Pending(i) + [] == Pending(i);
    } else {
      TakeParses(i, chunks[0], Joined(chunks[1..]));
      FeedParses(Take(i, chunks[0]).input, chunks[1..]);
    }
  }

  /**
   * Whatever the reads return, the answers handed on are those of the stream read in one piece, in order, and
   * what is left over is the rest of that reading.
   */
  lemma ReassemblyFollowsTheStream(chunks: seq<Bytes>)
    requires Readable(Input([], []), chunks)
    ensures Feed(Input([], []), chunks).answers == Parse(Joined(chunks)).answers
    ensures Pending(Feed(Input([], []), chunks).input) == Parse(Joined(chunks)).rest
  {
    FeedParses(Input([], []), chunks);
    assert [] + Joined(chunks) == Joined(chunks);
  }

  /** Two ways to cut the same stream into reads lead to the same answers and the same state. */
  lemma CutsDoNotMatter(a: seq<Bytes>, b: seq<Bytes>)
    requires Readable(Input([], []), a) && Readable(Input([], []), b) && Joined(a) == Joined(b)
    ensures Feed(Input([], []), a) == Feed(Input([], []), b)
  {
    ReassemblyFollowsTheStream(a);
    ReassemblyFollowsTheStream(b);
    SplitUnique(Feed(Input([], []), a).input, Feed(Input([], []), b).input);
  }

  lemma SplitUnique(i: Input, j: Input)
    requires InputOk(i) && InputOk(j) && Pending(i) == Pending(j)
    ensures i == j
  {
    assert i.head == if |Pending(i)| < 2 then Pending(i) else Pending(i)[..2];
    assert j.head == if |Pending(j)| < 2 then Pending(j) else Pending(j)[..2];
    assert i.body == Pending(i)[|i.head|..] && j.body == Pending(j)[|j.head|..];
  }

  /** Only an empty message leaves a read with nothing to ask for; that read returns 0 and counts as an error. */
  lemma StuckOnlyAtAnEmptyMessage(i: Input)
    requires InputOk(i)
    ensures Wanted(i) == 0 <==> |Pending(i)| == 2 && Length(Pending(i)) == 0
  {
    if |i.head| == 2 {
      assert Pending(i)[0] == i.head[0] && Pending(i)[1] == i.head[1];
    }
  }

  // ---------------------------------------------------------------- the sender's framing

  predicate Framable(m: Bytes) {
    0 < |m| < 0x1_0000
  }

  predicate AllFramable(ms: seq<Bytes>) {
    forall m :: m in ms ==> Framable(m)
  }

  /** A sender's stream: each message behind its length. */
  function Framed(ms: seq<Bytes>): Bytes
    requires AllFramable(ms)
  {
    if ms == [] then [] else
    assert ms[0] in ms;
    QueryEngine.Frame(ms[0]) + Framed(ms[1..])
  }

  /** Reading undoes framing. */
  lemma {:induction false} ParseInvertsFraming(ms: seq<Bytes>)
    requires AllFramable(ms)
    ensures Parse(Framed(ms)) == Parsed(ms, [])
    decreases |ms|
  {
    if ms != [] {
      var m := ms[0];
      assert Framable(m);
      var head := QueryEngine.Frame(m)[..2];
      assert QueryEngine.Frame(m) == head + m && Length(head) == |m|;
      ParseInvertsFraming(ms[1..]);
      ParseOne(head, m, Framed(ms[1..]));
    }
  }

  /** However a framed stream is cut up, exactly its messages arrive, and nothing is left over. */
  lemma FramedMessagesArrive(ms: seq<Bytes>, chunks: seq<Bytes>)
    requires AllFramable(ms) && Readable(Input([], []), chunks) && Joined(chunks) == Framed(ms)
    ensures Feed(Input([], []), chunks) == Taken(Input([], []), ms)
  {
    ParseInvertsFraming(ms);
    ReassemblyFollowsTheStream(chunks);
    var i := Feed(Input([], []), chunks).input;
    assert |Pending(i)| == 0;
  }

  /** More of the stream adds answers and takes none back. */
  lemma {:induction false} AnswersOnlyGrow(s: Bytes, t: Bytes)
    ensures Parse(s).answers <= Parse(s + t).answers
    decreases |s|
  {
    if WholeMessage(s) {
      var n := 2 + Length(s);
      assert Length(s + t) == Length(s);
      assert (s + t)[2..n] == s[2..n] && (s + t)[n..] == s[n..] + t;
      AnswersOnlyGrow(s[n..], t);
    }
  }

  // ---------------------------------------------------------------- the fields that the source updates

  /** The input side of `struct server_state`. */
  class Connection {
    const lenbuf: array<Byte>
    var lenbufPos: nat
    var length: nat
    var buffer: array?<Byte>
    var bufferPos: nat

    ghost predicate Valid()
      reads this, lenbuf, buffer
    {
      && lenbuf.Length == 2 && lenbufPos <= 2
      && (lenbufPos < 2 ==> buffer == null && bufferPos == 0)
      && (lenbufPos == 2 ==>
            && buffer != null && buffer.Length == length == Length(lenbuf[..])
            && (bufferPos == 0 || bufferPos < length) && buffer != lenbuf)
    }

    ghost function Value(): (i: Input)
      requires Valid()
      reads this, lenbuf, buffer
      ensures InputOk(i)
    {
      Input(lenbuf[..lenbufPos], if buffer == null then [] else buffer[..bufferPos])
    }

    constructor ()
      ensures Valid() && Value() == Input([], []) && fresh(lenbuf)
    {
      lenbuf := new Byte[2];
      lenbufPos, length, buffer, bufferPos := 0, 0, null, 0;
    }

    /** The count that the source passes to sread. */
    method Room() returns (n: nat)
      requires Valid()
      ensures n == Wanted(Value())
    {
      n := if lenbufPos != 2 then 2 - lenbufPos else length - bufferPos;
    }

    /** What sread does: the bytes it returns land behind those already there. */
    static method Fill(dst: array<Byte>, at: nat, chunk: Bytes)
      requires at + |chunk| <= dst.Length
      modifies dst
      ensures dst[..] == old(dst[..at]) + chunk + old(dst[at + |chunk|..])
    {
      var k := 0;
      while k < |chunk|
        invariant k <= |chunk|
        invariant dst[..] == old(dst[..at]) + chunk[..k] + old(dst[at + k..])
      {
        dst[at + k] := chunk[k];
        k := k + 1;
      }
      assert chunk[..k] == chunk;
    }

    /** The body of read_tcp_data's loop for a read that returned bytes; `answer` goes to process_answer. */
    method Read(chunk: Bytes) returns (answer: Option<Bytes>)
      requires Valid() && 1 <= |chunk| <= Wanted(Value())
      modifies this, lenbuf, buffer
      ensures Valid() && (buffer == old(buffer) || buffer == null || fresh(buffer))
      ensures Value() == Take(old(Value()), chunk).input
      ensures Take(old(Value()), chunk).answers == if answer.Some? then [answer.value] else []
    {
      if lenbufPos != 2 {
        Fill(lenbuf, lenbufPos, chunk);
        assert lenbuf[..lenbufPos + |chunk|] == old(lenbuf[..lenbufPos]) + chunk;
        lenbufPos := lenbufPos + |chunk|;
        if lenbufPos == 2 {
          length := lenbuf[0] as int * 256 + lenbuf[1];
          buffer := new Byte[length];
          bufferPos := 0;
        }
        return None;
      }
      Fill(buffer, bufferPos, chunk);
      assert buffer[..bufferPos + |chunk|] == old(buffer[..bufferPos]) + chunk;
      bufferPos := bufferPos + |chunk|;
      if bufferPos != length {
        return None;
      }
      assert buffer[..] == buffer[..bufferPos];
      answer := Some(buffer[..]);
      buffer, lenbufPos, bufferPos := null, 0, 0;
    }
  }
}
