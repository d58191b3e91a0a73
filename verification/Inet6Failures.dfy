/** Two ways in which parsing an IPv6 network number fails without saying so, and exactly which texts they befall. */
module Inet6Failures {
  import opened Common
  import opened Inet6
  import opened Inet6Parse

  /** The text that the loop reads; None where a single colon comes first. */
  function Body(s: string): Option<string> {
    if s == "" || s[0] != ':' then Some(s)
    else if |s| == 1 || s[1] != ':' then None
    else Some(s[1..])
  }

  /** What may stand between two colons. */
  predicate Token(w: string) {
    |w| <= 4 && forall i :: 0 <= i < |w| ==> HexValue(w[i]).Some?
  }

  predicate Tokens(ws: seq<string>) {
    ws != [] && (forall k :: 0 <= k < |ws| ==> Token(ws[k])) && ws[|ws| - 1] != ""
  }

  function Join(ws: seq<string>): string
    requires ws != []
  {
    if |ws| == 1 then ws[0] else ws[0] + ":" + Join(ws[1..])
  }

  /** The groups, and the places where "::" leaves some out. */
  function Filled(ws: seq<string>): (n: nat)
    ensures n <= |ws|
  {
    if ws == [] then 0 else (if ws[0] == "" then 0 else 1) + Filled(ws[1..])
  }

  function Gaps(ws: seq<string>): nat {
    if ws == [] then 0 else (if ws[0] == "" then 1 else 0) + Gaps(ws[1..])
  }

  /** The groups behind the first "::". */
  function BehindGap(ws: seq<string>): nat {
    if ws == [] then 0 else if ws[0] == "" then Filled(ws[1..]) else BehindGap(ws[1..])
  }

  // ---------------------------------------------------------------- reading tokens

  /** Ready for a token. */
  predicate Idle(r: Reader) {
    ReaderOk(r) && !r.saw && r.val == 0 && r.digits == 0
  }

  function HexOf(ch: char): nat {
    match HexValue(ch) case None => 0 case Some(d) => d
  }

  /** The reader behind more digits of a token. */
  function Digits(r: Reader, w: string): Reader
    decreases |w|
  {
    if w == "" then r
    else Digits(r.(val := r.val * 16 + HexOf(w[0]), digits := r.digits + 1, saw := true), w[1..])
  }

  lemma {:induction false} ReadDigits(r: Reader, w: string, rest: string)
    requires ReaderOk(r) && Token(w) && r.digits + |w| <= 4
    ensures ReaderOk(Digits(r, w)) && Scanned(r, w + rest) == Scanned(Digits(r, w), rest)
    ensures Digits(r, w).out == r.out && Digits(r, w).colon == r.colon && Digits(r, w).token == r.token
    ensures Digits(r, w).digits == r.digits + |w| && (Digits(r, w).saw <==> r.saw || w != "")
    decreases |w|
  {
    if w == "" {
      assert w + rest == rest;
    } else {
      HexValueSmall(w[0]);
      ReadStaysOk(r, HexOf(w[0]));
      assert (w + rest)[0] == w[0] && (w + rest)[1..] == w[1..] + rest;
      ReadDigits(r.(val := r.val * 16 + HexOf(w[0]), digits := r.digits + 1, saw := true), w[1..], rest);
    }
  }

  /** A fifth digit is refused. */
  lemma {:induction false} TooManyDigits(r: Reader, w: string, rest: string)
    requires ReaderOk(r) && (forall i :: 0 <= i < |w| ==> HexValue(w[i]).Some?) && r.digits + |w| > 4
    ensures Scanned(r, w + rest) == NoEntry
    decreases |w|
  {
    assert (w + rest)[0] == w[0] && (w + rest)[1..] == w[1..] + rest;
    if r.digits + 1 <= 4 {
      HexValueSmall(w[0]);
      ReadStaysOk(r, HexOf(w[0]));
      TooManyDigits(r.(val := r.val * 16 + HexOf(w[0]), digits := r.digits + 1, saw := true), w[1..], rest);
    }
  }

  /** A token and its colon: the reader behind them, if there is one. */
  function Closed(r: Reader, w: string, rest: string): Loop
    requires Idle(r) && Token(w)
  {
    if w == "" then
      if r.colon.Some? then NoEntry else Over(r.(colon := Some(|r.out|), token := rest), 0, false)
    else if rest == "" then NoEntry
    else if |r.out| + 2 > 16 then Zero
    else ReadDigits(r, w, rest); Over(Pushed(Digits(r, w), rest), 0, false)
  }

  lemma ReadToken(r: Reader, w: string, rest: string)
    requires Idle(r) && Token(w)
    ensures var l := Closed(r, w, rest);
      && (l.Over? ==> Idle(l.r))
      && Scanned(r, w + (":" + rest)) == if l.Over? then Scanned(l.r, rest) else l
  {
    ReadDigits(r, w, ":" + rest);
    ReadDigits(r, w, rest);
    var q := Digits(r, w);
    assert (":" + rest)[0] == ':' && (":" + rest)[1..] == rest && HexValue(':') == None;
  }

  /** The hexadecimal digits at the front of a text. */
  function Front(s: string): (n: nat)
    ensures n <= |s| && (forall i :: 0 <= i < n ==> HexValue(s[i]).Some?) && (n < |s| ==> HexValue(s[n]).None?)
  {
    if s == "" || HexValue(s[0]).None? then 0 else 1 + Front(s[1..])
  }

  // ---------------------------------------------------------------- the return of 0

  /** A ninth group is ended by a colon that is not the last character. */
  ghost predicate NinthGroup(s: string, ws: seq<string>, tail: string) {
    && Tokens(ws) && Filled(ws) == 9 && Gaps(ws) <= 1 && tail != ""
    && Body(s) == Some(Join(ws) + (":" + tail))
  }

  function Seen(r: Reader): nat {
    if r.colon.Some? then 1 else 0
  }

  lemma JoinCons(w: string, ws: seq<string>)
    requires ws != []
    ensures Join([w] + ws) == w + (":" + Join(ws))
    ensures Filled([w] + ws) == (if w == "" then 0 else 1) + Filled(ws)
    ensures Gaps([w] + ws) == (if w == "" then 1 else 0) + Gaps(ws)
    ensures BehindGap([w] + ws) == if w == "" then Filled(ws) else BehindGap(ws)
    ensures Tokens([w] + ws) <==> Token(w) && Tokens(ws)
  {
    var l := [w] + ws;
    assert l[0] == w && l[1..] == ws;
    assert w + ":" + Join(ws) == w + (":" + Join(ws));
    assert l[|l| - 1] == ws[|ws| - 1];
    assert forall k :: 0 <= k < |ws| ==> ws[k] == l[k + 1];
  }

  lemma JoinOne(w: string)
    ensures Join([w]) == w && Filled([w]) == (if w == "" then 0 else 1) && Gaps([w]) == (if w == "" then 1 else 0)
    ensures BehindGap([w]) == 0 && (Tokens([w]) <==> Token(w) && w != "")
  {
    assert [w][1..] == [];
  }

  lemma Split(ws: seq<string>)
    requires |ws| > 1
    ensures ws == [ws[0]] + ws[1..]
  {
  }

  lemma Associate(w: string, a: string, b: string)
    ensures w + (":" + a) + b == w + (":" + (a + b))
  {
  }

  lemma {:induction false} LastIsFilled(ws: seq<string>)
    requires Tokens(ws)
    ensures Filled(ws) >= 1
    decreases |ws|
  {
    if |ws| > 1 {
      Split(ws);
      JoinCons(ws[0], ws[1..]);
      LastIsFilled(ws[1..]);
    } else {
      assert ws == [ws[0]];
      JoinOne(ws[0]);
    }
  }

  lemma {:induction false} ZeroHolds(r: Reader, ws: seq<string>, tail: string)
    requires Idle(r) && Tokens(ws) && tail != "" && |r.out| + 2 * Filled(ws) == 18 && Gaps(ws) + Seen(r) <= 1
    ensures Scanned(r, Join(ws) + (":" + tail)) == Zero
    decreases |ws|
  {
    hide Scanned, Tokens, Filled, Gaps, Join, Digits, Closed;
    TokensFirst(ws);
    if |ws| == 1 {
      JoinOne(ws[0]);
      assert ws == [ws[0]];
      ReadToken(r, ws[0], tail);
      ClosedIs(r, ws[0], tail);
    } else {
      Split(ws);
      JoinCons(ws[0], ws[1..]);
      LastIsFilled(ws[1..]);
      var rest := Join(ws[1..]) + (":" + tail);
      Associate(ws[0], Join(ws[1..]), ":" + tail);
      ReadToken(r, ws[0], rest);
      ClosedIs(r, ws[0], rest);
      ZeroHolds(Closed(r, ws[0], rest).r, ws[1..], tail);
    }
  }

  lemma TokensFirst(ws: seq<string>)
    requires Tokens(ws)
    ensures ws != [] && Token(ws[0])
  {
  }

  lemma ClosedIs(r: Reader, w: string, rest: string)
    requires Idle(r) && Token(w)
    ensures var l := Closed(r, w, rest);
      && (w == "" ==> if r.colon.Some? then l == NoEntry else l.Over? && l.r == r.(colon := Some(|r.out|), token := rest))
      && (w != "" && rest == "" ==> l == NoEntry)
      && (w != "" && rest != "" && |r.out| + 2 > 16 ==> l == Zero)
      && (w != "" && rest != "" && |r.out| + 2 <= 16 ==>
            l.Over? && |l.r.out| == |r.out| + 2 && l.r.colon == r.colon)
      && (l.Over? ==> Idle(l.r))
  {
    ReadDigits(r, w, rest);
  }

  /** How the text goes on behind the token at its front. */
  lemma Fronts(r: Reader, s: string) returns (w: string, rest: string)
    requires Idle(r)
    ensures s == w + rest && w == s[..|w|] && (rest != "" ==> HexValue(rest[0]).None?)
    ensures !Token(w) ==> Scanned(r, s) == NoEntry
    ensures Token(w) ==> ReaderOk(Digits(r, w)) && Scanned(r, s) == Scanned(Digits(r, w), rest)
    ensures Token(w) ==> Digits(r, w).out == r.out && Digits(r, w).colon == r.colon && (Digits(r, w).saw <==> w != "")
  {
    w, rest := s[..Front(s)], s[Front(s)..];
    if Token(w) { ReadDigits(r, w, rest); } else { TooManyDigits(r, w, rest); }
  }

  /** Only a colon can lead to the return of 0. */
  lemma NoColonNoZero(r: Reader, rest: string)
    requires ReaderOk(r) && (rest != "" ==> HexValue(rest[0]).None? && rest[0] != ':')
    ensures Scanned(r, rest) != Zero
  {
  }

  lemma {:induction false} ZeroFinds(r: Reader, s: string, k: nat) returns (ws: seq<string>, tail: string)
    requires Idle(r) && |r.out| == 2 * k && Scanned(r, s) == Zero
    ensures Tokens(ws) && Filled(ws) + k == 9 && Gaps(ws) + Seen(r) <= 1 && tail != "" && s == Join(ws) + (":" + tail)
    decreases |s|
  {
    hide Scanned, Tokens, Filled, Gaps, Join, Digits, Closed;
    var w, rest := Fronts(r, s);
    assert Token(w);
    if rest == "" || rest[0] != ':' {
      NoColonNoZero(Digits(r, w), rest);
      assert false;
    }
    var more := rest[1..];
    assert rest == ":" + more;
    ReadToken(r, w, more);
    ClosedIs(r, w, more);
    if w != "" && |r.out| + 2 > 16 {
      JoinOne(w);
      ws, tail := [w], more;
    } else {
      var q := Closed(r, w, more).r;
      var vs, t := ZeroFinds(q, more, if w == "" then k else k + 1);
      TokensFirst(vs);
      JoinCons(w, vs);
      Associate(w, Join(vs), ":" + t);
      ws, tail := [w] + vs, t;
    }
  }

  lemma ConcludedZero(l: Loop, size: nat)
    requires (l.Over? ==> ReaderOk(l.r)) && Concluded(l, size) == ReturnsZero
    ensures l == Zero
  {
  }

  /** inet_net_pton_ipv6 returns 0, with no error set, exactly when a ninth group is ended by a colon that is not the last character. */
  lemma ReturnsZeroIff(s: string, size: nat)
    ensures Parse(s, size) == ReturnsZero <==> exists ws, tail :: NinthGroup(s, ws, tail)
  {
    hide Scanned, Tokens, Filled, Gaps, Join, Settled;
    if Parse(s, size) == ReturnsZero {
      ConcludedZero(Scanned(Start(Body(s).value), Body(s).value), size);
      var ws, tail := ZeroFinds(Start(Body(s).value), Body(s).value, 0);
      assert NinthGroup(s, ws, tail);
    }
    if ws, tail :| NinthGroup(s, ws, tail) {
      ZeroHolds(Start(Body(s).value), ws, tail);
    }
  }

  lemma NineTokens(ws: seq<string>)
    requires ws == ["1", "2", "3", "4", "5", "6", "7", "8", "9"]
    ensures Tokens(ws) && Filled(ws) == 9 && Gaps(ws) == 0 && BehindGap(ws) == 0 && Join(ws) == "1:2:3:4:5:6:7:8:9"
  {
    hide Tokens, Filled, Gaps, BehindGap, Join, Colons;
    var a := LastThree("7", "8", "9");
    var b := ThreeMore("4", "5", "6", a);
    var c := ThreeMore("1", "2", "3", b);
    assert c == ws;
    OneToNine();
  }

  lemma OneToNine()
    ensures Colons("1", "2", "3" + (":" + Colons("4", "5", "6" + (":" + Colons("7", "8", "9"))))) == "1:2:3:4:5:6:7:8:9"
  {
    assert Colons("7", "8", "9") == "7:8:9";
    assert Colons("4", "5", "6" + (":" + "7:8:9")) == "4:5:6:7:8:9";
  }

  function Colons(x: string, y: string, z: string): string {
    x + (":" + (y + (":" + z)))
  }

  predicate Digit(w: string) {
    |w| == 1 && HexValue(w[0]).Some?
  }

  lemma LastThree(x: string, y: string, z: string) returns (ws: seq<string>)
    requires Digit(x) && Digit(y) && Digit(z)
    ensures ws == [x, y, z] && Tokens(ws) && Filled(ws) == 3 && Gaps(ws) == 0 && BehindGap(ws) == 0
    ensures Join(ws) == Colons(x, y, z)
  {
    hide Tokens, Filled, Gaps, BehindGap, Join;
    JoinOne(z);
    JoinCons(y, [z]);
    JoinCons(x, [y] + [z]);
    ws := [x] + ([y] + [z]);
    assert ws == [x, y, z];
  }

  lemma ThreeMore(x: string, y: string, z: string, rest: seq<string>) returns (ws: seq<string>)
    requires Digit(x) && Digit(y) && Digit(z) && Tokens(rest)
    ensures ws == [x, y, z] + rest && Tokens(ws) && Filled(ws) == 3 + Filled(rest) && Gaps(ws) == Gaps(rest)
    ensures BehindGap(ws) == BehindGap(rest) && Join(ws) == Colons(x, y, z + (":" + Join(rest)))
  {
    hide Tokens, Filled, Gaps, BehindGap, Join;
    TokensFirst(rest);
    JoinCons(z, rest);
    JoinCons(y, [z] + rest);
    JoinCons(x, [y] + ([z] + rest));
    ws := [x] + ([y] + ([z] + rest));
    Prepended(x, y, z, rest);
  }

  lemma Prepended(x: string, y: string, z: string, rest: seq<string>)
    ensures [x] + ([y] + ([z] + rest)) == [x, y, z] + rest
  {
  }

  /** Such a text. */
  lemma NineGroups(size: nat)
    ensures Parse("1:2:3:4:5:6:7:8:9:a", size) == ReturnsZero
  {
    hide Tokens, Filled, Gaps, Join, Parse;
    var ws := ["1", "2", "3", "4", "5", "6", "7", "8", "9"];
    NineTokens(ws);
    ReturnsZeroIff("1:2:3:4:5:6:7:8:9:a", size);
    assert "1:2:3:4:5:6:7:8:9:a" == "1:2:3:4:5:6:7:8:9" + (":" + "a");
    assert NinthGroup("1:2:3:4:5:6:7:8:9:a", ws, "a");
  }

  // ---------------------------------------------------------------- a shift that begins in front of the buffer

  /** The words that a network number with this prefix length fills. */
  function Words(bits: nat): nat {
    Larger(2, (bits + 15) / 16)
  }

  /** More groups stand behind "::" than the prefix length leaves words for; a colon may stand before the slash. */
  ghost predicate Overfull(s: string, ws: seq<string>, stop: string, b: string, bits: nat) {
    && Tokens(ws) && Gaps(ws) == 1 && Filled(ws) <= 8 && (stop == "" || stop == ":")
    && GetBits(b, 0, 0) == Some(bits) && Words(bits) < BehindGap(ws)
    && Body(s) == Some(Join(ws) + (stop + ("/" + b)))
  }

  /** The bytes that the loop leaves, with the group it was reading. */
  function Total(r: Reader): nat {
    |r.out| + if r.saw then 2 else 0
  }

  lemma {:induction false} BitsFit(s: string, val: nat, n: nat)
    requires val <= 128
    ensures GetBits(s, val, n).Some? ==> GetBits(s, val, n).value <= 128
    decreases |s|
  {
    if s != "" && DecValue(s[0]).Some? && val * 10 + DecValue(s[0]).value <= 128 {
      BitsFit(s[1..], val * 10 + DecValue(s[0]).value, n + 1);
    }
  }

  lemma ReadSlash(r: Reader, b: string)
    requires ReaderOk(r)
    ensures Scanned(r, "/" + b) == match GetBits(b, 0, 0) case None => NoEntry case Some(bits) => Over(r, bits, false)
  {
    assert ("/" + b)[0] == '/' && ("/" + b)[1..] == b && HexValue('/') == None;
  }

  lemma {:induction false} BehindGapIs(ws: seq<string>)
    ensures BehindGap(ws) <= Filled(ws) && (Gaps(ws) == 0 ==> BehindGap(ws) == 0)
    decreases |ws|
  {
    if ws != [] { BehindGapIs(ws[1..]); }
  }

  /** What the loop leaves behind the last group. */
  ghost predicate Leaves(l: Loop, r: Reader, ws: seq<string>, k: nat, bits: nat) {
    && l.Over? && l.bits == bits && !l.ipv4 && Total(l.r) == 2 * (k + Filled(ws))
    && l.r.colon == if Gaps(ws) == 0 then r.colon else Some(2 * (k + Filled(ws) - BehindGap(ws)))
  }

  lemma {:induction false} SlashHolds(r: Reader, ws: seq<string>, stop: string, b: string, k: nat)
    requires Idle(r) && |r.out| == 2 * k && Tokens(ws) && Gaps(ws) + Seen(r) <= 1 && k + Filled(ws) <= 8
    requires (stop == "" || stop == ":") && GetBits(b, 0, 0).Some?
    ensures Filled(ws) >= BehindGap(ws)
    ensures Leaves(Scanned(r, Join(ws) + (stop + ("/" + b))), r, ws, k, GetBits(b, 0, 0).value)
    decreases |ws|
  {
    hide Scanned, Tokens, Filled, Gaps, BehindGap, Join, Digits, Closed, GetBits;
    BehindGapIs(ws);
    TokensFirst(ws);
    if |ws| == 1 {
      assert ws == [ws[0]];
      JoinOne(ws[0]);
      if stop == "" {
        assert stop + ("/" + b) == "/" + b;
        ReadDigits(r, ws[0], "/" + b);
        ReadSlash(Digits(r, ws[0]), b);
      } else {
        ReadToken(r, ws[0], "/" + b);
        ClosedIs(r, ws[0], "/" + b);
        ReadSlash(Closed(r, ws[0], "/" + b).r, b);
      }
    } else {
      Split(ws);
      JoinCons(ws[0], ws[1..]);
      BehindGapIs(ws[1..]);
      LastIsFilled(ws[1..]);
      var rest := Join(ws[1..]) + (stop + ("/" + b));
      Associate(ws[0], Join(ws[1..]), stop + ("/" + b));
      ReadToken(r, ws[0], rest);
      ClosedIs(r, ws[0], rest);
      SlashHolds(Closed(r, ws[0], rest).r, ws[1..], stop, b, if ws[0] == "" then k else k + 1);
    }
  }

  /** Which ends of the loop are not behind a slash. */
  lemma NoSlash(r: Reader, rest: string)
    requires ReaderOk(r) && (rest != "" ==> HexValue(rest[0]).None? && rest[0] != ':' && rest[0] != '/')
    ensures var l := Scanned(r, rest); l.Over? ==> l.bits == -1 || l.ipv4
  {
  }

  /** The text behind a reader that leaves groups behind "::", up to a slash; nothing, if the slash comes at once. */
  lemma {:induction false} SlashFinds(r: Reader, s: string, k: nat) returns (ws: seq<string>, stop: string, b: string)
    requires Idle(r) && |r.out| == 2 * k
    requires Scanned(r, s).Over? && Scanned(r, s).bits != -1 && !Scanned(r, s).ipv4
    requires var q := Scanned(r, s).r; q.colon.Some? && q.colon.value < Total(q) <= 16
    ensures GetBits(b, 0, 0).Some? && GetBits(b, 0, 0).value == Scanned(r, s).bits
    ensures ws == [] ==> s == "/" + b && Scanned(r, s).r == r
    ensures ws != [] ==>
      && Tokens(ws) && Gaps(ws) + Seen(r) == 1 && k + Filled(ws) <= 8 && (stop == "" || stop == ":")
      && s == Join(ws) + (stop + ("/" + b)) && BehindGap(ws) <= Filled(ws)
      && Leaves(Scanned(r, s), r, ws, k, GetBits(b, 0, 0).value)
    decreases |s|
  {
    hide Scanned, Tokens, Filled, Gaps, BehindGap, Join, Digits, Closed, GetBits;
    var w, rest := Fronts(r, s);
    assert Token(w);
    if rest == "" || (rest[0] != ':' && rest[0] != '/') {
      NoSlash(Digits(r, w), rest);
      assert false;
    }
    var more := rest[1..];
    if rest[0] == '/' {
      assert rest == "/" + more;
      ReadSlash(Digits(r, w), more);
      b, stop := more, "";
      if w == "" {
        ws := [];
        assert s == "/" + b;
        DigitsNone(r);
      } else {
        ws := [w];
        JoinOne(w);
        assert stop + ("/" + b) == "/" + b;
      }
    } else {
      assert rest == ":" + more;
      ReadToken(r, w, more);
      ClosedIs(r, w, more);
      var vs;
      vs, stop, b := SlashFinds(Closed(r, w, more).r, more, if w == "" then k else k + 1);
      if vs == [] {
        ws, stop := [w], ":";
        JoinOne(w);
        assert ":" + ("/" + b) == ":" + more;
      } else {
        ws := [w] + vs;
        JoinCons(w, vs);
        TokensFirst(vs);
        BehindGapIs(vs);
        Associate(w, Join(vs), stop + ("/" + b));
      }
    }
  }

  lemma DigitsNone(r: Reader)
    ensures Digits(r, "") == r
  {
  }

  lemma {:induction false} ScannedBits(r: Reader, s: string)
    requires ReaderOk(r)
    ensures var l := Scanned(r, s); l.Over? && !l.ipv4 ==> l.bits <= 128
    decreases |s|
  {
    hide GetV4, GetBits;
    if s != "" {
      var ch, rest := s[0], s[1..];
      HexValueSmall(ch);
      BitsFit(rest, 0, 0);
      if HexValue(ch).Some? {
        if r.digits + 1 <= 4 {
          ReadStaysOk(r, HexOf(ch));
          ScannedBits(r.(val := r.val * 16 + HexOf(ch), digits := r.digits + 1, saw := true), rest);
        }
      } else if ch == ':' {
        if !r.saw && r.colon.None? {
          ScannedBits(r.(colon := Some(|r.out|), token := rest), rest);
        } else if r.saw && rest != "" && |r.out| + 2 <= 16 {
          ScannedBits(Pushed(r, rest), rest);
        }
      }
    }
  }

  /** What follows the loop begins its shift in front of the buffer. */
  lemma ConcludedLong(l: Loop, size: nat)
    requires l.Over? ==> ReaderOk(l.r) && (!l.ipv4 ==> l.bits <= 128)
    ensures Concluded(l, size) == Overlong <==>
      && l.Over? && l.bits >= 0 && !l.ipv4 && l.r.colon.Some? && Total(l.r) <= 16
      && 2 * Words(l.bits) + l.r.colon.value < Total(l.r)
  {
    hide Shuffled, Widened;
  }

  /** The shift by hand begins in front of its buffer exactly when more groups stand behind "::" than the prefix
      length leaves words for. */
  lemma OverlongIff(s: string, size: nat)
    ensures Parse(s, size) == Overlong <==> exists ws, stop, b, bits :: Overfull(s, ws, stop, b, bits)
  {
    hide Scanned, Tokens, Filled, Gaps, BehindGap, Join, Concluded, GetBits;
    if Body(s).Some? {
      var t := Body(s).value;
      var l := Scanned(Start(t), t);
      ScannedBits(Start(t), t);
      ConcludedLong(l, size);
      if Parse(s, size) == Overlong {
        var ws, stop, b := SlashFinds(Start(t), t, 0);
        assert Overfull(s, ws, stop, b, GetBits(b, 0, 0).value);
      }
      if ws, stop, b, bits :| Overfull(s, ws, stop, b, bits) {
        SlashHolds(Start(t), ws, stop, b, 0);
        BitsFit(b, 0, 0);
      }
    }
  }

  lemma EightBehind(ws: seq<string>)
    requires ws == ["", "1", "2", "3", "4", "5", "6", "7", "8"]
    ensures Tokens(ws) && Filled(ws) == 8 && Gaps(ws) == 1 && BehindGap(ws) == 8 && Join(ws) == ":1:2:3:4:5:6:7:8"
  {
    hide Tokens, Filled, Gaps, BehindGap, Join, Colons;
    var a := LastThree("6", "7", "8");
    var b := ThreeMore("3", "4", "5", a);
    JoinCons("2", b);
    JoinCons("1", ["2"] + b);
    JoinCons("", ["1"] + (["2"] + b));
    assert ws == [""] + (["1"] + (["2"] + b));
    OneToEight();
  }

  lemma OneToEight()
    ensures "" + (":" + ("1" + (":" + ("2" + (":" + Colons("3", "4", "5" + (":" + Colons("6", "7", "8"))))))))
         == ":1:2:3:4:5:6:7:8"
  {
    assert Colons("6", "7", "8") == "6:7:8";
    assert Colons("3", "4", "5" + (":" + "6:7:8")) == "3:4:5:6:7:8";
  }

  lemma SixteenBits()
    ensures GetBits("16", 0, 0) == Some(16)
  {
    assert "16"[0] == '1' && "16"[1..] == "6" && "6"[0] == '6' && "6"[1..] == "";
  }

  /** Such a text: eight groups behind "::" and room for two words. */
  lemma TooManyBehind(size: nat)
    ensures Parse("::1:2:3:4:5:6:7:8/16", size) == Overlong
  {
    hide Tokens, Filled, Gaps, BehindGap, Join, Parse, GetBits;
    var ws := ["", "1", "2", "3", "4", "5", "6", "7", "8"];
    EightBehind(ws);
    SixteenBits();
    OverlongIff("::1:2:3:4:5:6:7:8/16", size);
    assert "::1:2:3:4:5:6:7:8/16"[1..] == ":1:2:3:4:5:6:7:8/16" == ":1:2:3:4:5:6:7:8" + ("" + ("/" + "16"));
    assert Overfull("::1:2:3:4:5:6:7:8/16", ws, "", "16", 16);
  }
}
