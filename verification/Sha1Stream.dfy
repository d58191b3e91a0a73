/** Streaming SHA-1 around an abstract compression function: any way to cut the message gives the padded fold. */
module Sha1Stream {
  import opened Common

  const BLOCK: nat := 64
  const TWO_32: nat := 0x1_0000_0000

  /** The five words of the chaining value. */
  datatype Words = Words(a: nat, b: nat, c: nat, d: nat, e: nat)

  /** What one block does to the words. */
  type Compression = (Words, Bytes) -> Words

  const INITIAL := Words(0x67452301, 0xEFCDAB89, 0x98BADCFE, 0x10325476, 0xC3D2E1F0)

  /** The compression function folded over the whole blocks of s. */
  function Fold(f: Compression, w: Words, s: Bytes): Words
    decreases |s|
  {
    if |s| < BLOCK then w else Fold(f, f(w, s[..BLOCK]), s[BLOCK..])
  }

  /** How far n is past a block boundary, and that boundary. */
  function Rest(n: nat): (r: nat)
    ensures r < BLOCK && r <= n
  {
    n % BLOCK
  }

  function Whole(n: nat): (m: nat)
    ensures m + Rest(n) == n
  {
    n - Rest(n)
  }

  /** A length as two words. */
  function Low(n: nat): (r: nat)
    ensures r < TWO_32
  {
    n % TWO_32
  }

  function High(n: nat): nat {
    n / TWO_32
  }

  function Be32(n: nat): Bytes {
    [n / 0x100_0000 % 256, n / 0x1_0000 % 256, n / 256 % 256, n % 256]
  }

  function Zeros(n: nat): (s: Bytes)
    ensures |s| == n && forall i :: 0 <= i < n ==> s[i] == 0
  {
    seq(n, _ => 0)
  }

  /** Section 4 of RFC 3174: a one bit, zeros up to 56 modulo 64, and the length in bits as two words. */
  function Padding(n: nat): Bytes {
    var zeros := if Rest(n) < 56 then 55 - Rest(n) else 119 - Rest(n);
    [0x80] + Zeros(zeros) + Be32(Low(High(8 * n))) + Be32(Low(8 * n))
  }

  lemma PaddedIsWhole(s: Bytes)
    ensures Rest(|s + Padding(|s|)|) == 0
  {
    hide Rest, Be32;
    var n := |s|;
    var zeros := if Rest(n) < 56 then 55 - Rest(n) else 119 - Rest(n);
    EightBytes(Low(High(8 * n)), Low(8 * n));
    assert |s + Padding(n)| == n + zeros + 9;
    PadFills(n, zeros + 9);
  }

  lemma PadFills(n: nat, k: nat)
    requires k == 64 - Rest(n) || k == 128 - Rest(n)
    ensures Rest(n + k) == 0
  {
    assert n == n / BLOCK * BLOCK + Rest(n);
    if k == 64 - Rest(n) {
      assert n + k == (n / BLOCK + 1) * BLOCK;
    } else {
      assert n + k == (n / BLOCK + 2) * BLOCK;
    }
  }

  function Digest(w: Words): Bytes {
    Be32(w.a) + Be32(w.b) + Be32(w.c) + Be32(w.d) + Be32(w.e)
  }

  /** SHA-1 of a message, said at once. */
  function Hash(f: Compression, s: Bytes): Bytes {
    Digest(Fold(f, INITIAL, s + Padding(|s|)))
  }

  // ---------------------------------------------------------------- the context

  /** `sha1_context`; the first word of the total is kept below 2^32. */
  datatype Context = Context(low: nat, high: nat, words: Words, buffer: Bytes)

  function Start(): Context {
    Context(0, 0, INITIAL, Zeros(BLOCK))
  }

  predicate ContextOk(c: Context) {
    c.low < TWO_32 && |c.buffer| == BLOCK
  }

  function Left(c: Context): nat {
    Rest(c.low)
  }

  /** memcpy into the buffer */
  function Put(buffer: Bytes, at: nat, s: Bytes): Bytes
    requires at + |s| <= |buffer|
  {
    buffer[..at] + s + buffer[at + |s|..]
  }

  /** sha1_update */
  function Updated(f: Compression, c: Context, input: Bytes): (r: Context)
    requires ContextOk(c) && |input| < TWO_32
    ensures ContextOk(r)
  {
    if input == [] then c else
    var left, fill := Left(c), BLOCK - Left(c);
    var low := Low(c.low + |input|);
    var high := if low < |input| then c.high + 1 else c.high;
    if left > 0 && |input| >= fill then
      var buffer := Put(c.buffer, left, input[..fill]);
      var rest := input[fill..];
      var n := Whole(|rest|);
      Context(low, high, Fold(f, f(c.words, buffer), rest[..n]), Put(buffer, 0, rest[n..]))
    else if left == 0 then
      var n := Whole(|input|);
      Context(low, high, Fold(f, c.words, input[..n]), Put(c.buffer, 0, input[n..]))
    else
      Context(low, high, c.words, Put(c.buffer, left, input))
  }

  /** sha1_finish: the padding bytes, the eight length bytes, and the words. */
  function Finished(f: Compression, c: Context): Bytes
    requires ContextOk(c)
  {
    var high := Low(c.low / 0x2000_0000 + c.high * 8);
    var low := Low(c.low * 8);
    var last := Left(c);
    var n := if last < 56 then 56 - last else 120 - last;
    var c1 := Updated(f, c, [0x80] + Zeros(n - 1));
    Digest(Updated(f, c1, Be32(high) + Be32(low)).words)
  }

  /** The context stands for the message s. */
  predicate Holds(f: Compression, c: Context, s: Bytes) {
    && ContextOk(c)
    && c.low == Low(|s|) && c.high == High(|s|)
    && c.words == Fold(f, INITIAL, s[..Whole(|s|)])
    && c.buffer[..Rest(|s|)] == s[Whole(|s|)..]
  }

  lemma {:induction false} FoldAppend(f: Compression, w: Words, a: Bytes, b: Bytes)
    requires Rest(|a|) == 0
    ensures Fold(f, w, a + b) == Fold(f, Fold(f, w, a), b)
    decreases |a|
  {
    if |a| < BLOCK {
      assert a + b == b;
    } else {
      assert (a + b)[..BLOCK] == a[..BLOCK] && (a + b)[BLOCK..] == a[BLOCK..] + b;
      FoldAppend(f, f(w, a[..BLOCK]), a[BLOCK..], b);
    }
  }

  lemma FoldOne(f: Compression, w: Words, block: Bytes)
    requires |block| == BLOCK
    ensures Fold(f, w, block) == f(w, block)
  {
    assert block[..BLOCK] == block && block[BLOCK..] == [];
  }

  lemma CountsAdd(m: nat, n: nat)
    requires n < TWO_32
    ensures var low := Low(Low(m) + n);
            low == Low(m + n) && High(m + n) == if low < n then High(m) + 1 else High(m)
  {
  }

  lemma RestOfLow(m: nat)
    ensures Rest(Low(m)) == Rest(m)
  {
  }

  lemma RestIsShort(m: nat)
    ensures m < BLOCK ==> Rest(m) == m
  {
  }

  /** Behind a block boundary. */
  lemma WholeSplit(m: nat, k: nat)
    requires Rest(m) == 0
    ensures Rest(m + k) == Rest(k)
  {
  }

  lemma RestOfWhole(m: nat)
    ensures Rest(Whole(m)) == 0
  {
  }

  /** The message reached a block boundary; what follows is folded and buffered. */
  lemma HoldsAfter(f: Compression, s: Bytes, rest: Bytes, words: Words, buffer: Bytes, low: nat, high: nat)
    requires Rest(|s|) == 0 && |buffer| == BLOCK && words == Fold(f, INITIAL, s)
    requires low == Low(|s| + |rest|) && high == High(|s| + |rest|)
    ensures var n := Whole(|rest|);
            Holds(f, Context(low, high, Fold(f, words, rest[..n]), Put(buffer, 0, rest[n..])), s + rest)
  {
    hide Fold, Whole, Rest, Low, High, Put;
    var n := Whole(|rest|);
    WholeSplit(|s|, |rest|);
    Seam(s, rest, n);
    FoldAppend(f, INITIAL, s, rest[..n]);
    PutFirst(buffer, rest[n..]);
  }

  lemma Seam(s: Bytes, rest: Bytes, n: nat)
    requires n <= |rest|
    ensures (s + rest)[..|s| + n] == s + rest[..n] && (s + rest)[|s| + n..] == rest[n..]
  {
  }

  lemma PutFirst(buffer: Bytes, s: Bytes)
    requires |s| <= |buffer|
    ensures |Put(buffer, 0, s)| == |buffer| && Put(buffer, 0, s)[..|s|] == s
  {
  }

  /** Feeding more input keeps the context standing for what was fed, in order. */
  lemma UpdateHolds(f: Compression, c: Context, s: Bytes, input: Bytes)
    requires Holds(f, c, s) && |input| < TWO_32
    ensures Holds(f, Updated(f, c, input), s + input)
  {
    hide Fold, Whole, Rest, Low, High, Put;
    if input == [] {
      assert s + input == s;
    } else {
      RestOfLow(|s|);
      if Left(c) > 0 && |input| >= BLOCK - Left(c) {
        FillsUp(f, c, s, input);
      } else if Left(c) == 0 {
        CountsAdd(|s|, |input|);
        assert s[..Whole(|s|)] == s;
        HoldsAfter(f, s, input, c.words, c.buffer, Low(|s| + |input|), High(|s| + |input|));
      } else {
        StaysShort(f, c, s, input);
      }
    }
  }

  lemma FillsUp(f: Compression, c: Context, s: Bytes, input: Bytes)
    requires Holds(f, c, s) && 0 < |input| < TWO_32 && Left(c) > 0 && |input| >= BLOCK - Left(c)
    ensures Holds(f, Updated(f, c, input), s + input)
  {
    hide Fold, Whole, Rest, Low, High, Put, Holds, Updated;
    assert ContextOk(c) by { HoldsOk(f, c, s); }
    var fill := BLOCK - Left(c);
    var buffer := Put(c.buffer, Left(c), input[..fill]);
    var head := s + input[..fill];
    FullBuffer(f, c, s, input[..fill]);
    assert s + input == head + input[fill..];
    assert |s + input| == |s| + |input|;
    HoldsAfter(f, head, input[fill..], f(c.words, buffer), buffer, Low(|s| + |input|), High(|s| + |input|));
    UpdatedFills(f, c, s, input);
  }

  lemma UpdatedFills(f: Compression, c: Context, s: Bytes, input: Bytes)
    requires Holds(f, c, s) && 0 < |input| < TWO_32 && Left(c) > 0 && |input| >= BLOCK - Left(c)
    ensures var fill := BLOCK - Left(c);
      var buffer := Put(c.buffer, Left(c), input[..fill]);
      var rest := input[fill..];
      var n := Whole(|rest|);
      |buffer| == BLOCK && |rest[n..]| <= BLOCK
      && Updated(f, c, input) == Context(Low(|s| + |input|), High(|s| + |input|), Fold(f, f(c.words, buffer), rest[..n]),
                                         Put(buffer, 0, rest[n..]))
  {
    hide Fold, Whole, Rest, Low, High;
    CountsAdd(|s|, |input|);
  }

  /** The buffer completed by the first part of the input is the block the message reaches. */
  lemma FullBuffer(f: Compression, c: Context, s: Bytes, first: Bytes)
    requires Holds(f, c, s) && Left(c) > 0 && |first| == BLOCK - Left(c)
    ensures var buffer := Put(c.buffer, Left(c), first);
      |buffer| == BLOCK && Rest(|s + first|) == 0 && f(c.words, buffer) == Fold(f, INITIAL, s + first)
  {
    hide Fold, Whole, Rest, Low, High;
    RestOfLow(|s|);
    RestOfWhole(|s|);
    var m := Whole(|s|);
    var buffer := Put(c.buffer, Left(c), first);
    assert buffer == s[m..] + first;
    assert s + first == s[..m] + buffer;
    PadFills(|s|, |first|);
    FoldAppend(f, INITIAL, s[..m], buffer);
    FoldOne(f, c.words, buffer);
  }

  lemma StaysShort(f: Compression, c: Context, s: Bytes, input: Bytes)
    requires Holds(f, c, s) && 0 < |input| < BLOCK - Left(c) && Left(c) > 0
    ensures Holds(f, Updated(f, c, input), s + input)
  {
    hide Fold, Whole, Rest, Low, High;
    RestOfLow(|s|);
    RestOfWhole(|s|);
    CountsAdd(|s|, |input|);
    var m := Whole(|s|);
    assert |s| + |input| == m + (Rest(|s|) + |input|);
    WholeSplit(m, Rest(|s|) + |input|);
    RestIsShort(Rest(|s|) + |input|);
    ShortParts(s, input, m);
    PutAppends(c.buffer, Left(c), input);
  }

  lemma ShortParts(s: Bytes, input: Bytes, m: nat)
    requires m <= |s|
    ensures (s + input)[..m] == s[..m] && (s + input)[m..] == s[m..] + input
  {
  }

  lemma PutAppends(buffer: Bytes, at: nat, s: Bytes)
    requires at + |s| <= |buffer|
    ensures |Put(buffer, at, s)| == |buffer| && Put(buffer, at, s)[..at + |s|] == buffer[..at] + s
  {
  }

  lemma StartHolds(f: Compression)
    ensures Holds(f, Start(), [])
  {
    assert Fold(f, INITIAL, []) == INITIAL;
  }

  function Feed(f: Compression, c: Context, chunks: seq<Bytes>): (r: Context)
    requires ContextOk(c) && forall i :: 0 <= i < |chunks| ==> |chunks[i]| < TWO_32
    ensures ContextOk(r)
    decreases |chunks|
  {
    if chunks == [] then c else Feed(f, Updated(f, c, chunks[0]), chunks[1..])
  }

  function Joined(chunks: seq<Bytes>): Bytes {
    if chunks == [] then [] else chunks[0] + Joined(chunks[1..])
  }

  lemma {:induction false} FeedHolds(f: Compression, c: Context, s: Bytes, chunks: seq<Bytes>)
    requires Holds(f, c, s) && forall i :: 0 <= i < |chunks| ==> |chunks[i]| < TWO_32
    ensures Holds(f, Feed(f, c, chunks), s + Joined(chunks))
    decreases |chunks|
  {
    hide Updated, Holds, Fold;
    assert ContextOk(c) by { HoldsOk(f, c, s); }
    if chunks == [] {
      assert s + [] == s;
    } else {
      UpdateHolds(f, c, s, chunks[0]);
      FeedHolds(f, Updated(f, c, chunks[0]), s + chunks[0], chunks[1..]);
      assert s + (chunks[0] + Joined(chunks[1..])) == s + chunks[0] + Joined(chunks[1..]);
    }
  }

  lemma HoldsOk(f: Compression, c: Context, s: Bytes)
    requires Holds(f, c, s)
    ensures ContextOk(c) && c.low == Low(|s|) && c.high == High(|s|) && Left(c) == Rest(|s|)
  {
    hide Low, High, Rest, Whole, Fold;
    RestOfLow(|s|);
  }

  /** The two words of the length are those of the number of bits. */
  lemma LengthWords(n: nat)
    ensures Low(Low(n) / 0x2000_0000 + High(n) * 8) == Low(High(8 * n))
    ensures Low(Low(n) * 8) == Low(8 * n)
  {
    var q, r := n / TWO_32, n % TWO_32;
    assert n == q * TWO_32 + r;
    assert 8 * n == 8 * q * TWO_32 + 8 * r;
    assert 8 * n / TWO_32 == 8 * q + 8 * r / TWO_32;
  }

  /** Finishing a context that stands for s gives the hash of s. */
  lemma FinishHashes(f: Compression, c: Context, s: Bytes)
    requires Holds(f, c, s)
    ensures Finished(f, c) == Hash(f, s)
  {
    hide Fold, Updated, Digest, Be32, Low, High, Rest, Whole;
    HoldsOk(f, c, s);
    LengthWords(|s|);
    var last := Left(c);
    var n := if last < 56 then 56 - last else 120 - last;
    var pad: Bytes := [0x80] + Zeros(n - 1);
    var high, low := Low(High(8 * |s|)), Low(8 * |s|);
    var length := Be32(high) + Be32(low);
    var c1 := Updated(f, c, pad);
    assert |length| == 8 by { EightBytes(high, low); }
    UpdateHolds(f, c, s, pad);
    UpdateHolds(f, c1, s + pad, length);
    var t := s + pad + length;
    assert t == s + Padding(|s|);
    PaddedIsWhole(s);
    assert t[..Whole(|t|)] == t;
  }

  lemma EightBytes(a: nat, b: nat)
    ensures |Be32(a) + Be32(b)| == 8
  {
  }

  /**
   * However a message is cut into updates, each shorter than 2^32 bytes, finishing yields its hash: the compression
   * function folded over the message padded with its length in bits modulo 2^64.
   */
  lemma StreamedHash(f: Compression, chunks: seq<Bytes>)
    requires forall i :: 0 <= i < |chunks| ==> |chunks[i]| < TWO_32
    ensures Finished(f, Feed(f, Start(), chunks)) == Hash(f, Joined(chunks))
  {
    hide Holds, Finished, Hash, Feed;
    StartHolds(f);
    FeedHolds(f, Start(), [], chunks);
    assert [] + Joined(chunks) == Joined(chunks);
    FinishHashes(f, Feed(f, Start(), chunks), Joined(chunks));
  }

  // ---------------------------------------------------------------- what the digest is

  /** Bytes read as a number, high byte first. */
  function BigEndian(s: Bytes): nat {
    if s == [] then 0 else BigEndian(s[..|s| - 1]) * 256 + s[|s| - 1]
  }

  lemma BigEndian4(s: Bytes)
    requires |s| == 4
    ensures BigEndian(s) == ((s[0] as int * 256 + s[1]) * 256 + s[2]) * 256 + s[3]
  {
    var t, u, v := s[..3], s[..2], s[..1];
    assert t[..2] == u && u[..1] == v && v[..0] == [];
    assert BigEndian(v) == s[0] as int && BigEndian(u) == BigEndian(v) * 256 + s[1] && BigEndian(t) == BigEndian(u) * 256 + s[2];
  }

  lemma Be32Reads(n: nat)
    ensures |Be32(n)| == 4 && BigEndian(Be32(n)) == n % 0x1_0000_0000
  {
    BigEndian4(Be32(n));
    FourBytes(n);
  }

  lemma FourBytes(n: nat)
    ensures ((n / 0x100_0000 % 256 * 256 + n / 0x1_0000 % 256) * 256 + n / 256 % 256) * 256 + n % 256 == n % 0x1_0000_0000
  {
    var a, b, c := n / 256, n / 0x1_0000, n / 0x100_0000;
    OneByteUp(n);
    assert n == a * 256 + n % 256 && a == b * 256 + a % 256 && b == c * 256 + b % 256;
    assert c == n / 0x1_0000_0000 * 256 + c % 256;
  }

  lemma OneByteUp(n: nat)
    ensures n / 0x1_0000 == n / 256 / 256 && n / 0x100_0000 == n / 0x1_0000 / 256 && n / 0x1_0000_0000 == n / 0x100_0000 / 256
  {
  }

  lemma {:induction false} BigEndianAppend(a: Bytes, b: Bytes)
    requires |b| == 4
    ensures BigEndian(a + b) == BigEndian(a) * 0x1_0000_0000 + BigEndian(b)
  {
    BigEndian4(b);
    var s, t, u, v := a + b, a + b[..3], a + b[..2], a + b[..1];
    assert s[..|a| + 3] == t && t[..|a| + 2] == u && u[..|a| + 1] == v && v[..|a|] == a;
    assert BigEndian(v) == BigEndian(a) * 256 + b[0] && BigEndian(u) == BigEndian(v) * 256 + b[1]
        && BigEndian(t) == BigEndian(u) * 256 + b[2] && BigEndian(s) == BigEndian(t) * 256 + b[3];
  }

  /** p is the message, a byte of 128, as few zeros as will do, and the length in bits modulo 2^64 in eight bytes. */
  predicate Padded(s: Bytes, p: Bytes) {
    && |p| % 64 == 0 && |s| + 9 <= |p| < |s| + 73
    && p[..|s|] == s && p[|s|] == 128
    && (forall i :: |s| < i < |p| - 8 ==> p[i] == 0)
    && BigEndian(p[|p| - 8..]) == 8 * |s| % 0x1_0000_0000_0000_0000
  }

  /** The words after the first k blocks of p, from the constants of section 6.1 of RFC 3174. */
  function AfterBlocks(f: Compression, p: Bytes, k: nat): Words
    requires 64 * k <= |p|
  {
    if k == 0 then Words(0x67452301, 0xEFCDAB89, 0x98BADCFE, 0x10325476, 0xC3D2E1F0)
    else f(AfterBlocks(f, p, k - 1), p[64 * (k - 1)..64 * k])
  }

  lemma LengthReads(n: nat)
    ensures BigEndian(Be32(Low(High(8 * n))) + Be32(Low(8 * n))) == 8 * n % 0x1_0000_0000_0000_0000
  {
    hide Be32, BigEndian;
    var b := 8 * n;
    Be32Reads(Low(High(b)));
    Be32Reads(Low(b));
    BigEndianAppend(Be32(Low(High(b))), Be32(Low(b)));
    TwoWords(b);
  }

  lemma TwoWords(b: nat)
    ensures Low(Low(High(b))) == Low(High(b)) && Low(Low(b)) == Low(b)
    ensures Low(High(b)) * 0x1_0000_0000 + Low(b) == b % 0x1_0000_0000_0000_0000
  {
    var q, r := b / 0x1_0000_0000, b % 0x1_0000_0000;
    assert b == q / 0x1_0000_0000 * 0x1_0000_0000_0000_0000 + (q % 0x1_0000_0000 * 0x1_0000_0000 + r);
  }

  lemma PaddingPads(s: Bytes)
    ensures Padded(s, s + Padding(|s|))
  {
    hide Be32, Low, High, BigEndian;
    var n := |s|;
    var zeros := if Rest(n) < 56 then 55 - Rest(n) else 119 - Rest(n);
    var length := Be32(Low(High(8 * n))) + Be32(Low(8 * n));
    EightBytes(Low(High(8 * n)), Low(8 * n));
    LengthReads(n);
    PaddedIsWhole(s);
    var p := s + Padding(n);
    assert p == s + [128] + Zeros(zeros) + length;
    assert p[|p| - 8..] == length && p[..n] == s;
  }

  lemma {:induction false} FoldIsBlocks(f: Compression, p: Bytes, k: nat)
    requires |p| % 64 == 0 && 64 * k <= |p|
    ensures Fold(f, INITIAL, p) == Fold(f, AfterBlocks(f, p, k), p[64 * k..])
  {
    if k == 0 {
      assert p[0..] == p;
    } else {
      FoldIsBlocks(f, p, k - 1);
      var rest := p[64 * (k - 1)..];
      assert rest[..BLOCK] == p[64 * (k - 1)..64 * k] && rest[BLOCK..] == p[64 * k..];
    }
  }

  /**
   * What comes of a message however it is cut: 20 bytes that are, high byte first, the five words after all blocks of the
   * padded message.
   */
  lemma StreamedDigest(f: Compression, chunks: seq<Bytes>)
    requires forall i :: 0 <= i < |chunks| ==> |chunks[i]| < TWO_32
    ensures var digest := Finished(f, Feed(f, Start(), chunks));
      exists p :: Padded(Joined(chunks), p)
        && var w := AfterBlocks(f, p, |p| / 64);
           |digest| == 20
           && BigEndian(digest[..4]) == w.a % 0x1_0000_0000 && BigEndian(digest[4..8]) == w.b % 0x1_0000_0000
           && BigEndian(digest[8..12]) == w.c % 0x1_0000_0000 && BigEndian(digest[12..16]) == w.d % 0x1_0000_0000
           && BigEndian(digest[16..]) == w.e % 0x1_0000_0000
  {
    hide Finished, Feed, Padding, Be32, BigEndian, Padded, AfterBlocks, Fold;
    StreamedHash(f, chunks);
    var s := Joined(chunks);
    var p := s + Padding(|s|);
    PaddingPads(s);
    WholeBlocks(f, s, p);
    DigestReads(AfterBlocks(f, p, |p| / 64));
  }

  lemma WholeBlocks(f: Compression, s: Bytes, p: Bytes)
    requires Padded(s, p)
    ensures 64 * (|p| / 64) <= |p| && Fold(f, INITIAL, p) == AfterBlocks(f, p, |p| / 64)
  {
    hide AfterBlocks;
    FoldIsBlocks(f, p, |p| / 64);
  }

  lemma DigestReads(w: Words)
    ensures var d := Digest(w);
      && |d| == 20
      && BigEndian(d[..4]) == w.a % 0x1_0000_0000 && BigEndian(d[4..8]) == w.b % 0x1_0000_0000
      && BigEndian(d[8..12]) == w.c % 0x1_0000_0000 && BigEndian(d[12..16]) == w.d % 0x1_0000_0000
      && BigEndian(d[16..]) == w.e % 0x1_0000_0000
  {
    hide Be32, BigEndian;
    Be32Reads(w.a);
    Be32Reads(w.b);
    Be32Reads(w.c);
    Be32Reads(w.d);
    Be32Reads(w.e);
    var d := Digest(w);
    assert d[..4] == Be32(w.a) && d[4..8] == Be32(w.b) && d[8..12] == Be32(w.c) && d[12..16] == Be32(w.d) && d[16..] == Be32(w.e);
  }

  // ---------------------------------------------------------------- the context, updated in place

  lemma Cut(s: Bytes, i: nat, j: nat)
    requires i <= j <= |s|
    ensures s[i..j] == s[i..][..j - i] && s[j..] == s[i..][j - i..]
  {
  }

  lemma PutNothing(buffer: Bytes, at: nat)
    requires at <= |buffer|
    ensures Put(buffer, at, []) == buffer
  {
  }

  class Sha1Context {
    const compress: Compression
    var low: nat
    var high: nat
    var words: Words
    const buffer: array<Byte>

    ghost predicate Valid()
      reads this
    {
      buffer.Length == BLOCK && low < TWO_32
    }

    ghost function Value(): (c: Context)
      reads this, buffer
      ensures Valid() ==> ContextOk(c)
    {
      Context(low, high, words, buffer[..])
    }

    /** sha1_starts */
    constructor (compress: Compression)
      ensures Valid() && this.compress == compress && Value() == Start() && fresh(buffer)
    {
      this.compress := compress;
      low, high, words := 0, 0, INITIAL;
      buffer := new Byte[BLOCK](_ => 0);
      new;
      assert buffer[..] == Zeros(BLOCK);
    }

    /** memcpy into the buffer */
    method Copy(at: nat, input: Bytes)
      requires Valid() && at + |input| <= BLOCK
      modifies buffer
      ensures buffer[..] == Put(old(buffer[..]), at, input)
    {
      var k := 0;
      while k < |input|
        invariant 0 <= k <= |input|
        invariant forall j :: 0 <= j < k ==> buffer[at + j] == input[j]
        invariant forall j :: 0 <= j < BLOCK && !(at <= j < at + k) ==> buffer[j] == old(buffer[j])
      {
        buffer[at + k] := input[k];
        k := k + 1;
      }
      assert buffer[..] == Put(old(buffer[..]), at, input);
    }

    /** The loop over the whole blocks of the input from position i on; it stops at the part that is left over. */
    method Blocks(input: Bytes, start: nat) returns (i: nat)
      requires start <= |input|
      modifies this`words
      ensures i == start + Whole(|input| - start)
      ensures words == Fold(compress, old(words), input[start..i])
    {
      i := start;
      assert input[start..i] == [];
      while |input| - i >= BLOCK
        invariant start <= i <= |input| && Rest(i - start) == 0
        invariant words == Fold(compress, old(words), input[start..i])
      {
        var block := input[i..i + BLOCK];
        FoldAppend(compress, old(words), input[start..i], block);
        FoldOne(compress, words, block);
        assert input[start..i] + block == input[start..i + BLOCK];
        words := compress(words, block);
        WholeSplit(i - start, BLOCK);
        i := i + BLOCK;
      }
      WholeSplit(i - start, |input| - i);
      RestIsShort(|input| - i);
    }

    /** sha1_update */
    method Update(input: Bytes)
      requires Valid() && |input| < TWO_32
      modifies this, buffer
      ensures Valid() && Value() == Updated(compress, old(Value()), input)
    {
      hide Fold, Low, Rest, Whole, Put;
      if input == [] {
        return;
      }
      var left, fill := Rest(low), BLOCK - Rest(low);
      low := Low(low + |input|);
      if low < |input| {
        high := high + 1;
      }
      var i := 0;
      if left > 0 && |input| >= fill {
        Copy(left, input[..fill]);
        words := compress(words, buffer[..]);
        i, left := fill, 0;
      }
      if left == 0 {
        var j := Blocks(input, i);
        Cut(input, i, j);
        i := j;
      }
      if i < |input| {
        Copy(left, input[i..]);
      } else {
        PutNothing(buffer[..], left);
        assert input[i..] == [];
      }
      assert input[0..] == input;
    }

    /** sha1_finish */
    method Finish() returns (digest: Bytes)
      requires Valid()
      modifies this, buffer
      ensures digest == Finished(compress, old(Value()))
    {
      hide Updated, Fold, Low, Rest;
      var h := Low(low / 0x2000_0000 + high * 8);
      var l := Low(low * 8);
      var last := Rest(low);
      var padn := if last < 56 then 56 - last else 120 - last;
      Update([0x80] + Zeros(padn - 1));
      Update(Be32(h) + Be32(l));
      digest := Digest(words);
    }
  }

  /** sha1_csum, for a message that fits one update. */
  method Checksum(f: Compression, input: Bytes) returns (digest: Bytes)
    requires |input| < TWO_32
    ensures digest == Hash(f, input)
  {
    hide Finished, Updated, Hash;
    var c := new Sha1Context(f);
    c.Update(input);
    digest := c.Finish();
    StreamedHash(f, [input]);
    assert Joined([input]) == input by { JoinedOne(input); }
    FedOnce(f, input);
  }

  lemma JoinedOne(s: Bytes)
    ensures Joined([s]) == s
  {
    assert [s][1..] == [] && s + [] == s;
  }

  lemma FedOnce(f: Compression, input: Bytes)
    requires |input| < TWO_32
    ensures Feed(f, Start(), [input]) == Updated(f, Start(), input)
  {
    hide Updated;
    assert [input][1..] == [];
    assert Feed(f, Updated(f, Start(), input), []) == Updated(f, Start(), input);
  }
}
