/**
  UTF-8 decoding by codepoint and terminal columns (apps/araya/src/metrics.hpp:83-180), over any byte
  string. A byte that starts no valid sequence is a segment of its own.
 */
module Utf8 {

  type Byte = n: nat | n < 256

  type Bytes = seq<Byte>

  // ---------------------------------------------------------------------------------------------
  // Decoding

  datatype Rune = Rune(cp: nat, len: nat)

  /** Continuation bytes a lead byte calls for; 0 when it is no lead byte. */
  function Need(first: Byte): nat {
    if first / 32 == 6 then 1 else if first / 16 == 14 then 2 else if first / 8 == 30 then 3 else 0
  }

  predicate Continuation(b: Byte) {
    b / 64 == 2
  }

  function Lead(first: Byte): nat {
    if first / 32 == 6 then first % 32 else if first / 16 == 14 then first % 16 else first % 8
  }

  /** The value of a lead byte's bits followed by `k` continuation bytes. */
  function Value(s: Bytes, k: nat): nat
    requires k < |s|
  {
    if k == 0 then Lead(s[0]) else Value(s, k - 1) * 64 + s[k] % 64
  }

  /** Overlong, surrogate and out-of-range encodings are no codepoints. */
  predicate Scalar(cp: nat, need: nat) {
    && (need == 1 ==> cp >= 0x80) && (need == 2 ==> cp >= 0x800) && (need == 3 ==> cp >= 0x1_0000)
    && cp <= 0x10_FFFF && !(0xD800 <= cp <= 0xDFFF)
  }

  /** The codepoint at the front of a byte string. */
  function Decoded(s: Bytes): (r: Rune)
    requires s != []
    ensures 1 <= r.len <= |s|
  {
    var need := Need(s[0]);
    if s[0] < 0x80 || need == 0 || need >= |s| then Rune(s[0], 1)
    else if exists i :: 1 <= i <= need && !Continuation(s[i]) then Rune(s[0], 1)
    else if !Scalar(Value(s, need), need) then Rune(s[0], 1)
    else Rune(Value(s, need), need + 1)
  }

  method Decode(text: Bytes, pos: nat) returns (cp: nat, len: nat)
    requires pos < |text|
    ensures Rune(cp, len) == Decoded(text[pos..])
  {
    ghost var s := text[pos..];
    var first := text[pos];
    if first < 0x80 {
      return first, 1;
    }
    var need := 0;
    cp := 0;
    if first / 32 == 6 {
      need, cp := 1, first % 32;
    } else if first / 16 == 14 {
      need, cp := 2, first % 16;
    } else if first / 8 == 30 {
      need, cp := 3, first % 8;
    } else {
      return first, 1;
    }
    if pos + need >= |text| {
      return first, 1;
    }
    for i := 1 to need + 1
      invariant cp == Value(s, i - 1)
      invariant forall j | 1 <= j < i :: Continuation(s[j])
    {
      var next := text[pos + i];
      assert next == s[i];
      if next / 64 != 2 {
        return first, 1;
      }
      cp := cp * 64 + next % 64;
    }
    if (need == 1 && cp < 0x80) || (need == 2 && cp < 0x800) || (need == 3 && cp < 0x1_0000) || cp > 0x10_FFFF
       || (cp >= 0xD800 && cp <= 0xDFFF) {
      return first, 1;
    }
    return cp, need + 1;
  }

  /** The byte sequences of section 4 of RFC 3629 longer than one byte. */
  predicate WellFormed(s: Bytes, len: nat) {
    && len <= |s|
    && (len == 2 ==> 0xC2 <= s[0] <= 0xDF && 0x80 <= s[1] <= 0xBF)
    && (len == 3 ==>
          && 0x80 <= s[2] <= 0xBF
          && ((s[0] == 0xE0 && 0xA0 <= s[1] <= 0xBF) || (0xE1 <= s[0] <= 0xEC && 0x80 <= s[1] <= 0xBF)
              || (s[0] == 0xED && 0x80 <= s[1] <= 0x9F) || (0xEE <= s[0] <= 0xEF && 0x80 <= s[1] <= 0xBF)))
    && (len == 4 ==>
          && 0x80 <= s[2] <= 0xBF && 0x80 <= s[3] <= 0xBF
          && ((s[0] == 0xF0 && 0x90 <= s[1] <= 0xBF) || (0xF1 <= s[0] <= 0xF3 && 0x80 <= s[1] <= 0xBF)
              || (s[0] == 0xF4 && 0x80 <= s[1] <= 0x8F)))
    && 2 <= len <= 4
  }

  lemma TwoBytes(a: Byte, b: Byte)
    ensures Need(a) == 1 && Continuation(b) && Scalar(a % 32 * 64 + b % 64, 1) <==> 0xC2 <= a <= 0xDF && 0x80 <= b <= 0xBF
  {}

  lemma ThreeBytes(a: Byte, b: Byte, c: Byte)
    ensures Need(a) == 2 && Continuation(b) && Continuation(c) && Scalar((a % 16 * 64 + b % 64) * 64 + c % 64, 2) <==>
      && 0x80 <= c <= 0xBF
      && ((a == 0xE0 && 0xA0 <= b <= 0xBF) || (0xE1 <= a <= 0xEC && 0x80 <= b <= 0xBF)
          || (a == 0xED && 0x80 <= b <= 0x9F) || (0xEE <= a <= 0xEF && 0x80 <= b <= 0xBF))
  {}

  lemma FourBytes(a: Byte, b: Byte, c: Byte, d: Byte)
    ensures Need(a) == 3 && Continuation(b) && Continuation(c) && Continuation(d)
            && Scalar(((a % 8 * 64 + b % 64) * 64 + c % 64) * 64 + d % 64, 3) <==>
      && 0x80 <= c <= 0xBF && 0x80 <= d <= 0xBF
      && ((a == 0xF0 && 0x90 <= b <= 0xBF) || (0xF1 <= a <= 0xF3 && 0x80 <= b <= 0xBF) || (a == 0xF4 && 0x80 <= b <= 0x8F))
  {}

  lemma Values(s: Bytes)
    ensures |s| > 1 ==> Value(s, 1) == Lead(s[0]) * 64 + s[1] % 64
    ensures |s| > 2 ==> Value(s, 2) == (Lead(s[0]) * 64 + s[1] % 64) * 64 + s[2] % 64
    ensures |s| > 3 ==> Value(s, 3) == ((Lead(s[0]) * 64 + s[1] % 64) * 64 + s[2] % 64) * 64 + s[3] % 64
  {
    if |s| > 0 {
      assert Value(s, 0) == Lead(s[0]);
    }
    if |s| > 2 {
      assert Value(s, 2) == Value(s, 1) * 64 + s[2] % 64;
    }
    if |s| > 3 {
      assert Value(s, 3) == Value(s, 2) * 64 + s[3] % 64;
    }
  }

  /** When the decoder takes several bytes. */
  lemma DecodesSeveral(s: Bytes, len: nat)
    requires s != [] && len > 1
    ensures Decoded(s).len == len <==>
      len <= |s| && Need(s[0]) == len - 1 && (forall i | 1 <= i < len :: Continuation(s[i])) && Scalar(Value(s, len - 1), len - 1)
    ensures Decoded(s).len == len ==> Decoded(s).cp == Value(s, len - 1)
  {
    hide Value, Scalar, Continuation;
  }

  /** The decoder takes several bytes exactly when they are a well-formed sequence. */
  lemma DecodesWellFormed(s: Bytes, len: nat)
    requires s != [] && len > 1
    ensures Decoded(s).len == len <==> WellFormed(s, len)
  {
    hide Decoded, Value, Scalar, Continuation;
    DecodesSeveral(s, len);
    Values(s);
    if 2 <= len <= 4 && len <= |s| {
      TwoBytes(s[0], s[1]);
      if len >= 3 {
        ThreeBytes(s[0], s[1], s[2]);
      }
      if len == 4 {
        FourBytes(s[0], s[1], s[2], s[3]);
      }
    }
  }

  /** The encoding of section 3 of RFC 3629. */
  function Encoded(cp: nat): (s: Bytes)
    requires Encodable(cp)
    ensures 1 <= |s| <= 4 && (s[0] < 0x80 <==> |s| == 1)
  {
    if cp < 0x80 then [cp]
    else if cp < 0x800 then [0xC0 + cp / 0x40, 0x80 + cp % 0x40]
    else if cp < 0x1_0000 then [0xE0 + cp / 0x1000, 0x80 + cp / 0x40 % 0x40, 0x80 + cp % 0x40]
    else [0xF0 + cp / 0x4_0000, 0x80 + cp / 0x1000 % 0x40, 0x80 + cp / 0x40 % 0x40, 0x80 + cp % 0x40]
  }

  predicate Encodable(cp: nat) {
    cp <= 0x10_FFFF && !(0xD800 <= cp <= 0xDFFF)
  }

  /** Whatever follows, the encoding of a codepoint decodes to it. */
  lemma EncodedReads(cp: nat, rest: Bytes)
    requires Encodable(cp)
    ensures Decoded(Encoded(cp) + rest) == Rune(cp, |Encoded(cp)|)
  {
    hide Value, Scalar, Continuation, Decoded;
    var e := Encoded(cp);
    var s := e + rest;
    if cp < 0x80 {
      Ascii(s);
    } else {
      Values(s);
      if cp < 0x800 {
        SplitTwo(cp, s[0], s[1]);
      } else if cp < 0x1_0000 {
        SplitThree(cp, s[0], s[1], s[2]);
      } else {
        SplitFour(cp, s[0], s[1], s[2], s[3]);
      }
      DecodesSeveral(s, |e|);
    }
  }

  lemma Ascii(s: Bytes)
    requires s != [] && s[0] < 0x80
    ensures Decoded(s) == Rune(s[0], 1)
  {}

  /** Lead and continuation bytes against the value they spell. */
  lemma SplitTwo(cp: nat, a: Byte, b: Byte)
    ensures Need(a) == 1 && Continuation(b) && cp == Lead(a) * 64 + b % 64 && Scalar(cp, 1) <==>
      0x80 <= cp < 0x800 && a == 0xC0 + cp / 0x40 && b == 0x80 + cp % 0x40
  {}

  lemma SplitThree(cp: nat, a: Byte, b: Byte, c: Byte)
    ensures Need(a) == 2 && Continuation(b) && Continuation(c) && cp == (Lead(a) * 64 + b % 64) * 64 + c % 64 && Scalar(cp, 2) <==>
      && 0x800 <= cp < 0x1_0000 && !(0xD800 <= cp <= 0xDFFF)
      && a == 0xE0 + cp / 0x1000 && b == 0x80 + cp / 0x40 % 0x40 && c == 0x80 + cp % 0x40
  {
    var m := cp / 0x40;
    assert cp / 0x1000 == m / 0x40;
    if Continuation(b) && Continuation(c) && cp == (Lead(a) * 64 + b % 64) * 64 + c % 64 {
      assert m == Lead(a) * 64 + b % 64;
    }
  }

  lemma SplitFour(cp: nat, a: Byte, b: Byte, c: Byte, d: Byte)
    ensures Need(a) == 3 && Continuation(b) && Continuation(c) && Continuation(d)
            && cp == ((Lead(a) * 64 + b % 64) * 64 + c % 64) * 64 + d % 64 && Scalar(cp, 3) <==>
      && 0x1_0000 <= cp <= 0x10_FFFF
      && a == 0xF0 + cp / 0x4_0000 && b == 0x80 + cp / 0x1000 % 0x40 && c == 0x80 + cp / 0x40 % 0x40 && d == 0x80 + cp % 0x40
  {
    var m, n := cp / 0x40, cp / 0x1000;
    assert n == m / 0x40 && cp / 0x4_0000 == n / 0x40;
    if Continuation(b) && Continuation(c) && Continuation(d) && cp == ((Lead(a) * 64 + b % 64) * 64 + c % 64) * 64 + d % 64 {
      assert m == (Lead(a) * 64 + b % 64) * 64 + c % 64;
      assert n == Lead(a) * 64 + b % 64;
    }
  }

  /** What is decoded is the encoding of the codepoint, or a single byte taken as it stands. */
  lemma DecodedIsEncoded(s: Bytes)
    requires s != []
    ensures
      var r := Decoded(s);
      if r.len > 1 || s[0] < 0x80 then Encodable(r.cp) && Encoded(r.cp) == s[..r.len] else r.cp == s[0]
  {
    hide Value, Scalar, Continuation, Decoded;
    var r := Decoded(s);
    if r.len == 1 {
      Single(s);
      assert s[..1] == [s[0]];
    } else {
      DecodesSeveral(s, r.len);
      Values(s);
      if r.len == 2 {
        SplitTwo(r.cp, s[0], s[1]);
        assert s[..2] == [s[0], s[1]];
      } else if r.len == 3 {
        SplitThree(r.cp, s[0], s[1], s[2]);
        assert s[..3] == [s[0], s[1], s[2]];
      } else {
        SplitFour(r.cp, s[0], s[1], s[2], s[3]);
        assert s[..4] == [s[0], s[1], s[2], s[3]];
      }
    }
  }

  lemma Single(s: Bytes)
    requires s != [] && Decoded(s).len == 1
    ensures Decoded(s).cp == s[0]
  {}

  // ---------------------------------------------------------------------------------------------
  // Segments

  /** The byte string cut into its codepoints and stray bytes. */
  ghost function Segments(s: Bytes): seq<Bytes>
    decreases |s|
  {
    if s == [] then [] else [s[..Decoded(s).len]] + Segments(s[Decoded(s).len..])
  }

  ghost predicate Boundary(s: Bytes, at: nat)
    decreases |s|
  {
    at == 0 || (s != [] && Decoded(s).len <= at && Boundary(s[Decoded(s).len..], at - Decoded(s).len))
  }

  predicate InRange(cp: nat, lo: nat, hi: nat) {
    lo <= cp <= hi
  }

  /** Terminal columns: none for controls and combining marks, two for East Asian wide characters and
      emoji, one for everything else. */
  function CodepointWidth(cp: nat): (w: nat)
    ensures w <= 2
    ensures cp < 0x0300 ==> (w == 1 <==> 0x20 <= cp <= 0x7E || 0xA0 <= cp) && w <= 1
    ensures 0x0370 <= cp < 0x1100 || 0x1160 <= cp < 0x1AB0 || 0x2010 <= cp <= 0x20CF || 0xD7A4 <= cp < 0xF900 ==> w == 1
    ensures 0x0300 <= cp <= 0x036F || 0x200B <= cp <= 0x200F || 0xFE00 <= cp <= 0xFE0F || cp == 0xFEFF ==> w == 0
    ensures 0x1100 <= cp <= 0x115F || 0x3041 <= cp <= 0x4DBF || 0x4E00 <= cp <= 0xA4CF ==> w == 2
    ensures 0xAC00 <= cp <= 0xD7A3 || 0xF900 <= cp <= 0xFAFF ==> w == 2
    ensures 0xFF00 <= cp <= 0xFFEF ==> (w == 2 <==> cp <= 0xFF60 || 0xFFE0 <= cp <= 0xFFE6)
    ensures cp >= 0x1_0000 ==> (w == 2 <==> 0x1_F300 <= cp <= 0x1_FAFF || 0x2_0000 <= cp <= 0x3_FFFD)
  {
    if cp < 0x20 || InRange(cp, 0x7F, 0x9F) then 0
    else if InRange(cp, 0x0300, 0x036F) || InRange(cp, 0x1AB0, 0x1AFF) || InRange(cp, 0x1DC0, 0x1DFF)
         || InRange(cp, 0x20D0, 0x20FF) || InRange(cp, 0xFE00, 0xFE0F) || InRange(cp, 0xFE20, 0xFE2F)
         || InRange(cp, 0x200B, 0x200F) || cp == 0xFEFF then 0
    else if InRange(cp, 0x1100, 0x115F) || InRange(cp, 0x2329, 0x232A) || InRange(cp, 0x2E80, 0x303E)
         || InRange(cp, 0x3041, 0x33FF) || InRange(cp, 0x3400, 0x4DBF) || InRange(cp, 0x4E00, 0x9FFF)
         || InRange(cp, 0xA000, 0xA4CF) || InRange(cp, 0xA960, 0xA97F) || InRange(cp, 0xAC00, 0xD7A3)
         || InRange(cp, 0xF900, 0xFAFF) || InRange(cp, 0xFE10, 0xFE19) || InRange(cp, 0xFE30, 0xFE6F)
         || InRange(cp, 0xFF00, 0xFF60) || InRange(cp, 0xFFE0, 0xFFE6) || InRange(cp, 0x1_F300, 0x1_FAFF)
         || InRange(cp, 0x2_0000, 0x3_FFFD) then 2
    else 1
  }

  ghost function Columns(s: Bytes): nat
    decreases |s|
  {
    if s == [] then 0 else CodepointWidth(Decoded(s).cp) + Columns(s[Decoded(s).len..])
  }

  // ---------------------------------------------------------------------------------------------
  // Cutting at boundaries

  lemma {:induction false} ValuePrefix(s: Bytes, n: nat, k: nat)
    requires k < n <= |s|
    ensures Value(s[..n], k) == Value(s, k)
  {
    if k > 0 {
      ValuePrefix(s, n, k - 1);
    }
  }

  /** What is decoded does not depend on the bytes behind it. */
  lemma DecodePrefix(s: Bytes, n: nat)
    requires 0 < n <= |s| && Decoded(s).len <= n
    ensures Decoded(s[..n]) == Decoded(s)
  {
    var need := Need(s[0]);
    if s[0] >= 0x80 && 0 < need < n {
      ValuePrefix(s, n, need);
      assert forall i | 1 <= i <= need :: s[..n][i] == s[i];
      if i :| 1 <= i <= need && !Continuation(s[i]) {
        assert !Continuation(s[..n][i]);
      }
    }
  }

  lemma CutStep(s: Bytes, at: nat)
    requires s != [] && 0 < Decoded(s).len <= at <= |s|
    ensures var len := Decoded(s).len;
      && s[..at] != [] && Decoded(s[..at]) == Decoded(s)
      && s[..at][len..] == s[len..][..at - len] && s[at..] == s[len..][at - len..] && s[..at][..len] == s[..len]
  {
    hide Decoded;
    DecodePrefix(s, at);
  }

  lemma {:induction false} BoundaryInside(s: Bytes, at: nat)
    requires Boundary(s, at)
    ensures at <= |s|
    decreases |s|
  {
    hide Decoded;
    if at > 0 {
      BoundaryInside(s[Decoded(s).len..], at - Decoded(s).len);
    }
  }

  lemma SegmentsStep(s: Bytes)
    requires s != []
    ensures Segments(s) == [s[..Decoded(s).len]] + Segments(s[Decoded(s).len..])
  {
    hide Decoded;
  }

  lemma {:induction false} CutSegments(s: Bytes, at: nat)
    requires Boundary(s, at) && at <= |s|
    ensures Segments(s) == Segments(s[..at]) + Segments(s[at..])
    decreases |s|
  {
    hide Decoded, Segments;
    if at == 0 {
      NoSegments();
      assert s[..0] == [] && s[0..] == s;
    } else {
      var len := Decoded(s).len;
      BoundaryInside(s[len..], at - len);
      CutSegments(s[len..], at - len);
      CutStep(s, at);
      SegmentsStep(s);
      SegmentsStep(s[..at]);
    }
  }

  lemma NoSegments()
    ensures Segments([]) == []
  {}

  lemma {:induction false} CutColumns(s: Bytes, at: nat)
    requires Boundary(s, at) && at <= |s|
    ensures Columns(s) == Columns(s[..at]) + Columns(s[at..])
    decreases |s|
  {
    hide Decoded, CodepointWidth;
    if at == 0 {
      assert s[..0] == [] && s[0..] == s;
    } else {
      var len := Decoded(s).len;
      BoundaryInside(s[len..], at - len);
      CutColumns(s[len..], at - len);
      CutStep(s, at);
    }
  }

  /** Cutting at a boundary splits no codepoint. */
  lemma Cut(s: Bytes, at: nat)
    requires Boundary(s, at)
    ensures at <= |s|
    ensures Segments(s) == Segments(s[..at]) + Segments(s[at..])
    ensures Columns(s) == Columns(s[..at]) + Columns(s[at..])
  {
    hide Decoded, CodepointWidth, Segments, Columns;
    BoundaryInside(s, at);
    CutSegments(s, at);
    CutColumns(s, at);
  }

  /** A codepoint never reaches over an ASCII byte. */
  lemma StopsAtAscii(s: Bytes, k: nat)
    requires 0 < k < |s| && s[k] < 0x80
    ensures Decoded(s).len <= k
  {
    if Need(s[0]) >= k {
      assert !Continuation(s[k]);
    }
  }

  lemma AsciiAlone(s: Bytes)
    requires s != [] && s[0] < 0x80
    ensures Decoded(s) == Rune(s[0], 1)
  {}

  /** The place before an ASCII byte, or behind one, is a boundary. */
  lemma {:induction false} Seam(a: Bytes, b: Bytes)
    requires a == [] || b == [] || b[0] < 0x80 || a[|a| - 1] < 0x80
    ensures Boundary(a + b, |a|)
    decreases |a|
  {
    hide Decoded;
    var s := a + b;
    if a != [] {
      if a[0] < 0x80 {
        AsciiAlone(s);
      } else if b != [] && b[0] < 0x80 {
        StopsAtAscii(s, |a|);
      } else if b != [] {
        StopsAtAscii(s, |a| - 1);
      }
      var len := Decoded(s).len;
      assert s[len..] == a[len..] + b;
      Seam(a[len..], b);
    }
  }

  // ---------------------------------------------------------------------------------------------
  // Columns and prefixes

  method DisplayWidth(text: Bytes) returns (width: nat)
    ensures width == Columns(text)
  {
    hide Decoded, CodepointWidth;
    width := 0;
    var pos := 0;
    while pos < |text|
      invariant 0 <= pos <= |text| && width + Columns(text[pos..]) == Columns(text)
    {
      var cp, len := Decode(text, pos);
      width := width + CodepointWidth(cp);
      assert text[pos..][len..] == text[pos + len..];
      pos := pos + len;
    }
  }

  lemma {:induction false} BoundaryNext(s: Bytes, at: nat)
    requires Boundary(s, at) && at < |s|
    ensures Boundary(s, at + Decoded(s[at..]).len)
    decreases |s|
  {
    hide Decoded;
    if at > 0 {
      var len := Decoded(s).len;
      assert s[len..][at - len..] == s[at..];
      BoundaryNext(s[len..], at - len);
    } else {
      assert s[0..] == s;
    }
  }

  /** The longest prefix of whole codepoints within the columns; at least one codepoint. */
  method PrefixBytes(text: Bytes, max: nat) returns (pos: nat)
    ensures Boundary(text, pos) && pos <= |text|
    ensures text != [] ==> pos > 0
    ensures Columns(text[..pos]) <= max || pos == Decoded(text).len
    ensures pos < |text| ==> Columns(text[..pos]) + CodepointWidth(Decoded(text[pos..]).cp) > max
  {
    hide Decoded, CodepointWidth;
    pos := 0;
    var width := 0;
    while pos < |text|
      invariant 0 <= pos <= |text| && Boundary(text, pos) && width == Columns(text[..pos])
      invariant pos > 0 ==> width <= max || pos == Decoded(text).len
    {
      var cp, len := Decode(text, pos);
      var w := CodepointWidth(cp);
      if pos > 0 && width + w > max {
        break;
      }
      ColumnsNext(text, pos);
      BoundaryNext(text, pos);
      if pos == 0 {
        assert text[0..] == text;
      }
      width := width + w;
      pos := pos + len;
    }
  }

  lemma ColumnsNext(s: Bytes, at: nat)
    requires Boundary(s, at) && at < |s|
    ensures Columns(s[..at + Decoded(s[at..]).len]) == Columns(s[..at]) + CodepointWidth(Decoded(s[at..]).cp)
  {
    hide Decoded, CodepointWidth;
    BoundaryNext(s, at);
    var to := at + Decoded(s[at..]).len;
    Cut(s, at);
    Cut(s, to);
    assert s[to..] == s[at..][to - at..];
  }

  lemma {:induction false} BoundaryAdd(s: Bytes, i: nat, j: nat)
    requires Boundary(s, i) && i <= |s| && Boundary(s[i..], j)
    ensures Boundary(s, i + j)
    decreases |s|
  {
    hide Decoded;
    if i == 0 {
      assert s[0..] == s;
    } else {
      var len := Decoded(s).len;
      BoundaryInside(s[len..], i - len);
      assert s[len..][i - len..] == s[i..];
      BoundaryAdd(s[len..], i - len, j);
    }
  }

  /** The boundaries of a prefix that ends at a boundary are boundaries of the whole. */
  lemma {:induction false} BoundaryPrefix(s: Bytes, n: nat, k: nat)
    requires Boundary(s, n) && n <= |s| && Boundary(s[..n], k)
    ensures Boundary(s, k)
    decreases |s|
  {
    hide Decoded;
    if k > 0 {
      BoundaryInside(s[..n], k);
      var len := Decoded(s).len;
      CutStep(s, n);
      BoundaryPrefix(s[len..], n - len, k - len);
    }
  }
}
