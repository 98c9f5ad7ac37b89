/**
  Content-Length framing over a byte stream (plugins/lsp-stdio/src/framing.hpp; the header part of the
  base protocol of the Language Server Protocol 3.17). Bytes are characters here, and a message is its
  serialised body; whether a body parses as JSON is a parameter.
 */
module Framing {
  import opened Basics

  const MAX_HEADER := 0x1_0000
  const TWO_64 := 0x1_0000_0000_0000_0000
  const SEPARATOR := "\r\n\r\n"

  // ---------------------------------------------------------------------------------------------
  // Encoding

  function Digit(d: nat): char
    requires d < 10
  {
    "0123456789"[d]
  }

  function Digits(n: nat): (s: string)
    ensures s != "" && forall c | c in s :: '0' <= c <= '9'
  {
    if n < 10 then [Digit(n)] else Digits(n / 10) + [Digit(n % 10)]
  }

  function Header(n: nat): string {
    "Content-Length: " + Digits(n)
  }

  function Encode(body: string): string {
    Header(|body|) + SEPARATOR + body
  }

  function EncodeAll(bodies: seq<string>): string {
    if bodies == [] then "" else Encode(bodies[0]) + EncodeAll(bodies[1..])
  }

  function Joined(chunks: seq<string>): string {
    if chunks == [] then "" else Joined(chunks[..|chunks| - 1]) + chunks[|chunks| - 1]
  }

  // ---------------------------------------------------------------------------------------------
  // Searching and header fields

  predicate OccursAt(s: string, pattern: string, i: nat) {
    i + |pattern| <= |s| && s[i..i + |pattern|] == pattern
  }

  /** The first occurrence at or after `from`. */
  function Find(s: string, pattern: string, from: nat): (r: Option<nat>)
    ensures r.Some? ==> from <= r.value && OccursAt(s, pattern, r.value) && forall j: nat | from <= j < r.value :: !OccursAt(s, pattern, j)
    ensures r.None? ==> forall j: nat | from <= j :: !OccursAt(s, pattern, j)
    decreases |s| - from
  {
    if from + |pattern| > |s| then None
    else if s[from..from + |pattern|] == pattern then Some(from)
    else if from == |s| then None
    else Find(s, pattern, from + 1)
  }

  datatype Field = NotLength | BadLength | Length(n: nat)

  predicate Space(c: char) {
    c == ' ' || c == '\t'
  }

  function TrimRight(s: string): string {
    if s != "" && Space(s[|s| - 1]) then TrimRight(s[..|s| - 1]) else s
  }

  function TrimLeft(s: string): string {
    if s != "" && Space(s[0]) then TrimLeft(s[1..]) else s
  }

  function Lower(c: char): char {
    if 'A' <= c <= 'Z' then ((c as int) + 32) as char else c
  }

  function Lowered(s: string): (r: string)
    ensures |r| == |s|
  {
    if s == "" then "" else Lowered(s[..|s| - 1]) + [Lower(s[|s| - 1])]
  }

  /** The value of a run of digits, in a 64-bit unsigned counter. */
  function Number(s: string): Option<nat> {
    if s == "" then Some(0)
    else
      var c := s[|s| - 1];
      match Number(s[..|s| - 1])
      case None => None
      case Some(n) => if '0' <= c <= '9' then Some((n * 10 + (c as int - '0' as int)) % TWO_64) else None
  }

  function FieldOf(line: string): Field {
    match Find(line, ":", 0)
    case None => NotLength
    case Some(colon) =>
      if Lowered(TrimRight(line[..colon])) != "content-length" then NotLength
      else match Number(TrimLeft(line[colon + 1..])) case None => BadLength case Some(n) => Length(n)
  }

  /** The first Content-Length field of a header block decides. */
  function HeaderLength(header: string): Field
    decreases |header|
  {
    match Find(header, "\r\n", 0)
    case None => FieldOf(header)
    case Some(end) => if FieldOf(header[..end]) != NotLength then FieldOf(header[..end]) else HeaderLength(header[end + 2..])
  }

  // ---------------------------------------------------------------------------------------------
  // Decoding

  datatype Step = Incomplete | Corrupt | Decoded(body: string, rest: string)

  /** What the bytes at the front of a buffer amount to. */
  function StepOf(buffer: string, max: nat): (s: Step)
    ensures s.Decoded? ==> |s.rest| < |buffer|
  {
    match Find(buffer, SEPARATOR, 0)
    case None => if |buffer| > MAX_HEADER then Corrupt else Incomplete
    case Some(at) =>
      if at > MAX_HEADER then Corrupt
      else
        match HeaderLength(buffer[..at])
        case Length(n) =>
          if n > max then Corrupt
          else if |buffer| < at + 4 + n then Incomplete
          else Decoded(buffer[at + 4..at + 4 + n], buffer[at + 4 + n..])
        case _ => Corrupt
  }

  datatype Outcome = Failed | Received(bodies: seq<string>, rest: string)

  /** Everything complete in a buffer, and what is left. */
  function Drained(buffer: string, max: nat, parses: string -> bool): Outcome
    decreases |buffer|
  {
    match StepOf(buffer, max)
    case Incomplete => Received([], buffer)
    case Corrupt => Failed
    case Decoded(body, rest) =>
      if !parses(body) then Failed
      else match Drained(rest, max, parses)
           case Failed => Failed
           case Received(bodies, left) => Received([body] + bodies, left)
  }

  function After(out: seq<string>, o: Outcome): Outcome {
    match o case Failed => Failed case Received(bodies, rest) => Received(out + bodies, rest)
  }

  lemma DrainStep(out: seq<string>, buffer: string, max: nat, parses: string -> bool)
    requires StepOf(buffer, max).Decoded?
    ensures
      var s := StepOf(buffer, max);
      After(out, Drained(buffer, max, parses)) ==
        if parses(s.body) then After(out + [s.body], Drained(s.rest, max, parses)) else Failed
  {
    hide StepOf;
    var s := StepOf(buffer, max);
    if Drained(s.rest, max, parses).Received? {
      assert out + ([s.body] + Drained(s.rest, max, parses).bodies) == (out + [s.body]) + Drained(s.rest, max, parses).bodies;
    }
  }

  lemma AfterNothing(o: Outcome)
    ensures After([], o) == o
  {}

  lemma DrainStop(out: seq<string>, buffer: string, max: nat, parses: string -> bool)
    requires !StepOf(buffer, max).Decoded?
    ensures After(out, Drained(buffer, max, parses)) == if StepOf(buffer, max).Corrupt? then Failed else Received(out, buffer)
  {
    hide StepOf;
  }

  class MessageDecoder {
    const max: nat
    const parses: string -> bool
    var buffer: string

    constructor (max: nat, parses: string -> bool)
      ensures this.max == max && this.parses == parses && buffer == ""
    {
      this.max, this.parses, buffer := max, parses, "";
    }

    /** Appends a chunk and yields every message that is now complete; `None` is a broken stream. */
    method Push(chunk: string) returns (messages: Option<seq<string>>)
      modifies this
      ensures match Drained(old(buffer) + chunk, max, parses)
              case Failed => messages == None
              case Received(bodies, rest) => messages == Some(bodies) && buffer == rest
    {
      hide StepOf, Drained;
      buffer := buffer + chunk;
      ghost var all := buffer;
      var out := [];
      AfterNothing(Drained(all, max, parses));
      while true
        invariant Drained(all, max, parses) == After(out, Drained(buffer, max, parses))
        decreases |buffer|
      {
        ghost var before := buffer;
        var step := Next();
        if !step.Decoded? {
          DrainStop(out, before, max, parses);
          return if step.Corrupt? then None else Some(out);
        }
        DrainStep(out, before, max, parses);
        if !parses(step.body) {
          return None;
        }
        out := out + [step.body];
      }
    }

    /** Takes one message off the front of the buffer, when it is all there. */
    method Next() returns (step: Step)
      modifies this
      ensures step == StepOf(old(buffer), max)
      ensures buffer == if step.Decoded? then step.rest else old(buffer)
    {
      var separator := Find(buffer, SEPARATOR, 0);
      if separator.None? {
        return if |buffer| > MAX_HEADER then Corrupt else Incomplete;
      }
      if separator.value > MAX_HEADER {
        return Corrupt;
      }
      var length := ParseContentLength(buffer[..separator.value]);
      if length.None? || length.value > max {
        return Corrupt;
      }
      var bodyStart := separator.value + 4;
      if |buffer| < bodyStart + length.value {
        return Incomplete;
      }
      var body := buffer[bodyStart..bodyStart + length.value];
      buffer := buffer[bodyStart + length.value..];
      return Decoded(body, buffer);
    }

    static method ParseContentLength(header: string) returns (length: Option<nat>)
      ensures length == match HeaderLength(header) case Length(n) => Some(n) case _ => None
    {
      hide FieldOf;
      var start := 0;
      while start <= |header|
        invariant 0 <= start <= |header|
        invariant HeaderLength(header) == HeaderLength(header[start..])
        decreases |header| - start
      {
        var rest := header[start..];
        var end := Find(rest, "\r\n", 0);
        var field := ParseLine(if end.None? then rest else rest[..end.value]);
        if field != NotLength {
          return if field.Length? then Some(field.n) else None;
        }
        if end.None? {
          return None;
        }
        assert rest[end.value + 2..] == header[start + end.value + 2..];
        start := start + end.value + 2;
      }
      return None;
    }

    static method ParseLine(line: string) returns (field: Field)
      ensures field == FieldOf(line)
    {
      hide Lowered, Number;
      var colon := Find(line, ":", 0);
      if colon.None? {
        return NotLength;
      }
      var name := line[..colon.value];
      while name != "" && Space(name[|name| - 1])
        invariant TrimRight(name) == TrimRight(line[..colon.value])
        decreases |name|
      {
        name := name[..|name| - 1];
      }
      if Lowered(name) != "content-length" {
        return NotLength;
      }
      var n := ParseNumber(line[colon.value + 1..]);
      return if n.Some? then Length(n.value) else BadLength;
    }

    static method ParseNumber(text: string) returns (n: Option<nat>)
      ensures n == Number(TrimLeft(text))
    {
      var value := text;
      while value != "" && Space(value[0])
        invariant TrimLeft(value) == TrimLeft(text)
        decreases |value|
      {
        value := value[1..];
      }
      var parsed := 0;
      for i := 0 to |value|
        invariant Number(value[..i]) == Some(parsed)
      {
        var c := value[i];
        assert value[..i + 1][..i] == value[..i];
        if c < '0' || c > '9' {
          BadDigit(value, i);
          return None;
        }
        parsed := (parsed * 10 + (c as int - '0' as int)) % TWO_64;
      }
      assert value[..|value|] == value;
      return Some(parsed);
    }
  }

  lemma {:induction false} BadDigit(s: string, i: nat)
    requires i < |s| && !('0' <= s[i] <= '9')
    ensures Number(s) == None
    decreases |s|
  {
    if i < |s| - 1 {
      BadDigit(s[..|s| - 1], i);
    }
  }

  // ---------------------------------------------------------------------------------------------
  // Decoding undoes encoding

  lemma DigitValue(d: nat)
    requires d < 10
    ensures '0' <= Digit(d) <= '9' && Digit(d) as int - '0' as int == d
  {}

  function Pow10(k: nat): nat {
    if k == 0 then 1 else 10 * Pow10(k - 1)
  }

  lemma {:induction false} DigitCount(n: nat, k: nat)
    requires k > 0 && n < Pow10(k)
    ensures |Digits(n)| <= k
  {
    if n >= 10 {
      DigitCount(n / 10, k - 1);
    }
  }

  lemma HeaderShort(n: nat)
    requires n < TWO_64
    ensures |Header(n)| <= 36
  {
    assert Pow10(5) == 100_000 && Pow10(10) == 100_000 * Pow10(5);
    assert Pow10(15) == 100_000 * Pow10(10) && Pow10(20) == 100_000 * Pow10(15);
    DigitCount(n, 20);
  }

  // ---------------------------------------------------------------------------------------------
  // What a header block says, line by line

  const LENGTH_NAME := "content-length"

  /** The name, whatever the case of its letters. */
  predicate Spells(s: string) {
    |s| == |LENGTH_NAME| && forall k | 0 <= k < |s| ::
      s[k] == LENGTH_NAME[k] || ('a' <= LENGTH_NAME[k] <= 'z' && s[k] as int == LENGTH_NAME[k] as int - 32)
  }

  predicate Blanks(s: string) {
    forall k | 0 <= k < |s| :: Space(s[k])
  }

  /** `line` has the name before its first colon, but for blanks between. */
  predicate NamesLength(line: string, j: nat, c: nat) {
    j <= c < |line| && line[c] == ':' && (forall k | 0 <= k < c :: line[k] != ':') && Spells(line[..j]) && Blanks(line[j..c])
  }

  predicate AllDigits(s: string) {
    forall k | 0 <= k < |s| :: '0' <= s[k] <= '9'
  }

  /** The number a run of digits stands for. */
  function ValueOf(s: string): nat
    requires AllDigits(s)
  {
    if s == "" then 0 else ValueOf(s[..|s| - 1]) * 10 + (s[|s| - 1] as int - '0' as int)
  }

  function Block(lines: seq<string>): string
    requires lines != []
  {
    if |lines| == 1 then lines[0] else lines[0] + "\r\n" + Block(lines[1..])
  }

  predicate OneLine(line: string) {
    forall k | 0 <= k < |line| - 1 :: !(line[k] == '\r' && line[k + 1] == '\n')
  }

  lemma {:induction false} LoweredAt(s: string, k: nat)
    requires k < |s|
    ensures Lowered(s)[k] == Lower(s[k])
  {
    if k < |s| - 1 {
      LoweredAt(s[..|s| - 1], k);
    }
  }

  lemma NameIsLower(k: nat)
    requires k < |LENGTH_NAME|
    ensures !('A' <= LENGTH_NAME[k] <= 'Z') && !Space(LENGTH_NAME[k]) && LENGTH_NAME[k] != ':'
  {
    assert forall c | c in LENGTH_NAME :: !('A' <= c <= 'Z') && !Space(c) && c != ':';
    assert LENGTH_NAME[k] in LENGTH_NAME;
  }

  lemma LowersSpells(s: string)
    ensures Lowered(s) == LENGTH_NAME <==> Spells(s)
  {
    forall k | 0 <= k < |s| ensures Lowered(s)[k] == Lower(s[k]) {
      LoweredAt(s, k);
    }
    forall k | 0 <= k < |s| && k < |LENGTH_NAME|
      ensures Lower(s[k]) == LENGTH_NAME[k] <==>
        s[k] == LENGTH_NAME[k] || ('a' <= LENGTH_NAME[k] <= 'z' && s[k] as int == LENGTH_NAME[k] as int - 32)
    {
      NameIsLower(k);
    }
  }

  lemma {:induction false} TrimmedRight(s: string, j: nat)
    requires j <= |s| && Blanks(s[j..]) && (j == 0 || !Space(s[j - 1]))
    ensures TrimRight(s) == s[..j]
    decreases |s|
  {
    if j < |s| {
      assert s[j..][|s| - 1 - j] == s[|s| - 1];
      var t := s[..|s| - 1];
      assert t[..j] == s[..j] && forall k | 0 <= k < |t| - j :: t[j..][k] == s[j..][k];
      TrimmedRight(t, j);
    } else {
      assert s[..j] == s;
    }
  }

  lemma {:induction false} RightEnd(s: string) returns (j: nat)
    ensures j <= |s| && TrimRight(s) == s[..j] && Blanks(s[j..])
  {
    if s != "" && Space(s[|s| - 1]) {
      j := RightEnd(s[..|s| - 1]);
      assert s[..|s| - 1][..j] == s[..j];
      assert forall k | 0 <= k < |s| - j :: s[j..][k] == if k == |s| - 1 - j then s[|s| - 1] else s[..|s| - 1][j..][k];
    } else {
      j := |s|;
      assert s[..j] == s;
    }
  }

  lemma {:induction false} TrimmedLeft(gap: string, s: string)
    requires Blanks(gap) && (s == "" || !Space(s[0]))
    ensures TrimLeft(gap + s) == s
  {
    if gap != "" {
      assert (gap + s)[1..] == gap[1..] + s;
      TrimmedLeft(gap[1..], s);
    } else {
      assert gap + s == s;
    }
  }

  lemma FirstColon(line: string, c: nat)
    requires c < |line| && line[c] == ':' && forall k | 0 <= k < c :: line[k] != ':'
    ensures Find(line, ":", 0) == Some(c)
  {
    assert OccursAt(line, ":", c);
    forall k: nat | k < c ensures !OccursAt(line, ":", k) {
      assert line[k..k + 1][0] == line[k];
    }
  }

  /** A line is a length field exactly when the name comes before its first colon. */
  lemma FieldNamed(line: string)
    ensures FieldOf(line) != NotLength <==> exists j: nat, c: nat :: NamesLength(line, j, c)
  {
    hide Lowered, Number, TrimLeft;
    if j: nat, c: nat :| NamesLength(line, j, c) {
      FirstColon(line, c);
      assert line[..c][..j] == line[..j] && line[..c][j..] == line[j..c];
      NameEnds(line[..j]);
      TrimmedRight(line[..c], j);
      LowersSpells(line[..j]);
    }
    if FieldOf(line) != NotLength {
      var c := Find(line, ":", 0).value;
      assert line[c..c + 1][0] == line[c];
      forall k | 0 <= k < c ensures line[k] != ':' {
        assert !OccursAt(line, ":", k);
        assert line[k..k + 1] == [line[k]];
      }
      var j := RightEnd(line[..c]);
      assert line[..c][..j] == line[..j] && line[..c][j..] == line[j..c];
      LowersSpells(line[..j]);
      assert NamesLength(line, j, c);
    }
  }

  lemma NameEnds(s: string)
    requires Spells(s)
    ensures s != "" && !Space(s[|s| - 1])
  {
    NameIsLower(|s| - 1);
  }

  lemma {:induction false} NumberReads(s: string)
    ensures Number(s) == if AllDigits(s) then Some(ValueOf(s) % TWO_64) else None
  {
    if s != "" {
      var most := s[..|s| - 1];
      NumberReads(most);
      if AllDigits(s) {
        assert AllDigits(most);
        Wraps(ValueOf(most), s[|s| - 1] as int - '0' as int);
      } else if AllDigits(most) {
        assert !('0' <= s[|s| - 1] <= '9');
      }
    }
  }

  lemma Wraps(a: nat, d: nat)
    ensures (a % TWO_64 * 10 + d) % TWO_64 == (a * 10 + d) % TWO_64
  {
    var q := a / TWO_64;
    assert a * 10 + d == (a % TWO_64 * 10 + d) + TWO_64 * (q * 10);
    AddMultiple(a % TWO_64 * 10 + d, q * 10);
  }

  lemma {:induction false} AddMultiple(n: nat, k: nat)
    ensures (n + TWO_64 * k) % TWO_64 == n % TWO_64
  {
    if k > 0 {
      AddMultiple(n, k - 1);
      assert n + TWO_64 * k == n + TWO_64 * (k - 1) + TWO_64;
    }
  }

  /** What a length field says: the digits behind its colon, blanks skipped, in a 64-bit counter. */
  lemma FieldReads(line: string, j: nat, c: nat, gap: string, value: string)
    requires NamesLength(line, j, c) && line[c + 1..] == gap + value && Blanks(gap) && (value == "" || !Space(value[0]))
    ensures FieldOf(line) == if AllDigits(value) then Length(ValueOf(value) % TWO_64) else BadLength
  {
    hide Lowered, Number, TrimLeft, TrimRight, Find, ValueOf;
    FieldNamed(line);
    FirstColon(line, c);
    TrimmedLeft(gap, value);
    NumberReads(value);
  }

  lemma LineEnds(line: string, rest: string)
    requires OneLine(line)
    ensures Find(line + "\r\n" + rest, "\r\n", 0) == Some(|line|) && Find(line, "\r\n", 0) == None
  {
    var s, crlf := line + "\r\n" + rest, "\r\n";
    assert s[|line|..|line| + 2] == crlf && s[|line|] == '\r';
    assert OccursAt(s, crlf, |line|);
    forall k: nat | k < |line| ensures !OccursAt(s, crlf, k) {
      assert s[k..k + 2][0] == s[k] && s[k..k + 2][1] == s[k + 1];
      assert k + 1 < |line| ==> s[k] == line[k] && s[k + 1] == line[k + 1];
    }
    forall k: nat ensures !OccursAt(line, crlf, k) {
      if k + 2 <= |line| {
        assert line[k..k + 2][0] == line[k] && line[k..k + 2][1] == line[k + 1];
      }
    }
  }

  /** The first length field of a block decides, whatever lines stand around it. */
  lemma {:induction false} BlockReads(lines: seq<string>, i: nat)
    requires i < |lines| && forall k | 0 <= k < |lines| :: OneLine(lines[k])
    requires forall k | 0 <= k < i :: FieldOf(lines[k]) == NotLength
    ensures FieldOf(lines[i]) != NotLength || i == |lines| - 1 ==> HeaderLength(Block(lines)) == FieldOf(lines[i])
  {
    hide FieldOf, Find, OneLine;
    if |lines| == 1 {
      LineEnds(lines[0], "");
    } else {
      var rest := Block(lines[1..]);
      LineEnds(lines[0], rest);
      var s := lines[0] + "\r\n" + rest;
      assert s[..|lines[0]|] == lines[0] && s[|lines[0]| + 2..] == rest;
      if i > 0 {
        BlockReads(lines[1..], i - 1);
      }
    }
  }

  /** So a block of lines has the length its first field with that name gives, in any case, and none when no
      line has the name or the value is no number. */
  lemma HeaderOfLines(lines: seq<string>, i: nat, j: nat, c: nat, gap: string, value: string)
    requires i < |lines| && forall k | 0 <= k < |lines| :: OneLine(lines[k])
    requires forall k | 0 <= k < i :: !exists a: nat, b: nat :: NamesLength(lines[k], a, b)
    requires NamesLength(lines[i], j, c) && lines[i][c + 1..] == gap + value && Blanks(gap) && (value == "" || !Space(value[0]))
    ensures HeaderLength(Block(lines)) == if AllDigits(value) then Length(ValueOf(value) % TWO_64) else BadLength
  {
    hide HeaderLength, Block, FieldOf, NamesLength, OneLine;
    forall k | 0 <= k < i ensures FieldOf(lines[k]) == NotLength {
      FieldNamed(lines[k]);
    }
    FieldNamed(lines[i]);
    FieldReads(lines[i], j, c, gap, value);
    BlockReads(lines, i);
  }

  lemma NoHeader(lines: seq<string>)
    requires lines != [] && forall k | 0 <= k < |lines| :: OneLine(lines[k]) && !exists a: nat, b: nat :: NamesLength(lines[k], a, b)
    ensures HeaderLength(Block(lines)) == NotLength
  {
    hide HeaderLength, Block, FieldOf, NamesLength, OneLine;
    forall k | 0 <= k < |lines| ensures FieldOf(lines[k]) == NotLength {
      FieldNamed(lines[k]);
    }
    BlockReads(lines, |lines| - 1);
  }

  lemma {:induction false} ValueOfDigits(n: nat)
    ensures AllDigits(Digits(n)) && ValueOf(Digits(n)) == n
  {
    var s := Digits(n);
    forall k | 0 <= k < |s| ensures '0' <= s[k] <= '9' {
      assert s[k] in s;
    }
    DigitValue(n % 10);
    if n >= 10 {
      ValueOfDigits(n / 10);
      assert s[..|s| - 1] == Digits(n / 10);
    } else {
      assert s[..0] == "";
    }
  }

  /** The header of an encoded message reads as the length it was made with. */
  lemma HeaderReads(n: nat)
    requires n < TWO_64
    ensures HeaderLength(Header(n)) == Length(n)
    ensures forall c | c in Header(n) :: c != '\r'
  {
    hide Header, Digits, Space, ValueOf, FieldOf, HeaderLength, OneLine, NamesLength, Spells;
    var h := Header(n);
    HeaderNames(n);
    ValueOfDigits(n);
    SpacesBetween(Digits(n));
    HeaderOfLines([h], 0, 14, 14, " ", Digits(n));
  }

  /** The header is one line with the name before its colon, and then a blank and digits. */
  lemma HeaderNames(n: nat)
    ensures var h := Header(n);
      && OneLine(h) && (forall c | c in h :: c != '\r') && NamesLength(h, 14, 14) && h[15..] == " " + Digits(n)
  {
    hide Spells, NamesLength, OneLine;
    NameSpells();
    var name := "Content-Length";
    assert Header(n) == name + ": " + Digits(n);
    NamedLine(name, Digits(n));
  }

  lemma NameSpells()
    ensures var name := "Content-Length"; |name| == 14 && Spells(name) && forall c | c in name :: c != ':' && c != '\r'
  {}

  lemma NamedLine(name: string, digits: string)
    requires |name| == 14 && Spells(name) && forall c | c in name :: c != ':' && c != '\r'
    requires forall c | c in digits :: '0' <= c <= '9'
    ensures var h := name + ": " + digits;
      OneLine(h) && (forall c | c in h :: c != '\r') && NamesLength(h, 14, 14) && h[15..] == " " + digits
  {
    hide Spells;
    var h := name + ": " + digits;
    assert h[..14] == name;
    forall k | 0 <= k < |h| ensures h[k] != '\r' && (k < 14 ==> h[k] != ':') {
      assert h[k] in h && (k < 14 ==> h[k] == name[k] && name[k] in name);
    }
  }

  lemma SpacesBetween(digits: string)
    requires digits != "" && forall c | c in digits :: '0' <= c <= '9'
    ensures Blanks(" ") && !Space(digits[0]) && AllDigits(digits)
  {
    assert digits[0] in digits;
    assert forall k | 0 <= k < |digits| :: digits[k] in digits;
  }

  /** The separator is found exactly behind the header, whatever the body holds. */
  lemma SeparatorAt(h: string, rest: string)
    requires forall c | c in h :: c != '\r'
    ensures Find(h + SEPARATOR + rest, SEPARATOR, 0) == Some(|h|)
  {
    var s := h + SEPARATOR + rest;
    assert s[|h|..|h| + 4] == SEPARATOR;
    assert OccursAt(s, SEPARATOR, |h|);
    forall j: nat | j < |h| ensures !OccursAt(s, SEPARATOR, j) {
      assert j + 4 <= |s| ==> s[j..j + 4][0] == h[j] && h[j] in h;
    }
  }

  lemma SeparatorAbsent(h: string, body: string, s: string)
    requires forall c | c in h :: c != '\r'
    requires s <= h + SEPARATOR + body && |s| < |h| + 4
    ensures Find(s, SEPARATOR, 0) == None
  {
    forall j: nat ensures !OccursAt(s, SEPARATOR, j) {
      if j + 4 <= |s| {
        assert s[j..j + 4][0] == s[j] == (h + SEPARATOR + body)[j] == h[j];
        assert h[j] in h;
      }
    }
  }

  /** A whole message at the front of the buffer is decoded, and nothing but it is consumed. */
  lemma WholeMessage(body: string, rest: string, max: nat)
    requires |body| <= max < TWO_64
    ensures StepOf(Encode(body) + rest, max) == Decoded(body, rest)
  {
    var h := Header(|body|);
    HeaderReads(|body|);
    HeaderShort(|body|);
    var s := Encode(body) + rest;
    assert s == h + SEPARATOR + (body + rest);
    SeparatorAt(h, body + rest);
    assert s[..|h|] == h;
    assert s[|h| + 4..|h| + 4 + |body|] == body;
    assert s[|h| + 4 + |body|..] == rest;
  }

  /** A proper part of a message is never an error and never a message. */
  lemma PartMessage(body: string, part: string, max: nat)
    requires |body| <= max < TWO_64 && part < Encode(body)
    ensures StepOf(part, max) == Incomplete
  {
    var h := Header(|body|);
    HeaderReads(|body|);
    HeaderShort(|body|);
    if |part| < |h| + 4 {
      SeparatorAbsent(h, body, part);
    } else {
      var seen := part[|h| + 4..];
      assert Encode(body)[..|h| + 4] == h + SEPARATOR;
      assert part == part[..|h| + 4] + seen;
      assert part[..|h| + 4] == Encode(body)[..|h| + 4];
      SeparatorAt(h, seen);
      assert part[..|h|] == h;
    }
  }

  // ---------------------------------------------------------------------------------------------
  // Whatever the buffer holds

  /** The buffer is a header, the separator where it first occurs, and what follows it. */
  ghost predicate Cut(buffer: string, h: string, tail: string) {
    buffer == h + "\r\n\r\n" + tail && forall i: nat | i < |h| :: !OccursAt(buffer, "\r\n\r\n", i)
  }

  /** There is one way to cut a buffer, and none without a separator. */
  lemma CutOnce(buffer: string, h: string, tail: string)
    ensures Cut(buffer, h, tail) <==>
      Find(buffer, SEPARATOR, 0) == Some(|h|) && h == buffer[..|h|] && tail == buffer[|h| + 4..]
  {
    var found := Find(buffer, SEPARATOR, 0);
    if Cut(buffer, h, tail) {
      assert buffer[|h|..|h| + 4] == SEPARATOR;
      assert OccursAt(buffer, SEPARATOR, |h|);
    }
  }

  /** What a step makes of a buffer that has been cut. */
  lemma StepCut(buffer: string, max: nat, h: string, tail: string)
    requires Cut(buffer, h, tail)
    ensures StepOf(buffer, max) ==
      if |h| > 0x1_0000 || !HeaderLength(h).Length? || HeaderLength(h).n > max then Corrupt
      else if |tail| < HeaderLength(h).n then Incomplete
      else Decoded(tail[..HeaderLength(h).n], tail[HeaderLength(h).n..])
  {
    hide HeaderLength, Cut, Find;
    CutOnce(buffer, h, tail);
    assert |buffer| == |h| + 4 + |tail| by { Lengths(buffer, h, tail); }
    var n := if HeaderLength(h).Length? then HeaderLength(h).n else 0;
    if n <= |tail| {
      assert buffer[|h| + 4..|h| + 4 + n] == tail[..n] && buffer[|h| + 4 + n..] == tail[n..];
    }
  }

  lemma Lengths(buffer: string, h: string, tail: string)
    requires Cut(buffer, h, tail)
    ensures |buffer| == |h| + 4 + |tail|
  {}

  /** Where there is a separator, the buffer can be cut. */
  lemma Cuts(buffer: string) returns (h: string, tail: string)
    requires Find(buffer, SEPARATOR, 0).Some?
    ensures Cut(buffer, h, tail)
  {
    var at := Find(buffer, SEPARATOR, 0).value;
    h, tail := buffer[..at], buffer[at + 4..];
    CutOnce(buffer, h, tail);
  }

  /** A message is taken off exactly when a header within the limit, which reads as the length of a body
      within the limit, is followed by that body. */
  lemma StepDecodes(buffer: string, max: nat, body: string, rest: string)
    ensures StepOf(buffer, max) == Decoded(body, rest) <==>
      exists h :: Cut(buffer, h, body + rest) && |h| <= 0x1_0000 && HeaderLength(h) == Length(|body|) && |body| <= max
  {
    hide HeaderLength, Cut, Find;
    if StepOf(buffer, max) == Decoded(body, rest) {
      var h, tail := Cuts(buffer);
      StepCut(buffer, max, h, tail);
      assert body + rest == tail;
    }
    if h :| Cut(buffer, h, body + rest) && |h| <= 0x1_0000 && HeaderLength(h) == Length(|body|) && |body| <= max {
      StepCut(buffer, max, h, body + rest);
      assert body == (body + rest)[..|body|] && rest == (body + rest)[|body|..];
    }
  }

  /** A stream is broken exactly when its header is too long, unreadable, or asks for too much. */
  lemma StepBreaks(buffer: string, max: nat)
    ensures StepOf(buffer, max).Corrupt? <==>
      || (|buffer| > 0x1_0000 && forall i: nat :: !OccursAt(buffer, "\r\n\r\n", i))
      || exists h, tail :: Cut(buffer, h, tail) && (|h| > 0x1_0000 || !HeaderLength(h).Length? || HeaderLength(h).n > max)
  {
    hide HeaderLength, Cut;
    var found := Find(buffer, SEPARATOR, 0);
    if found.Some? {
      var h, tail := Cuts(buffer);
      StepCut(buffer, max, h, tail);
    }
    if h, tail :| Cut(buffer, h, tail) && (|h| > 0x1_0000 || !HeaderLength(h).Length? || HeaderLength(h).n > max) {
      StepCut(buffer, max, h, tail);
    }
  }

  /** What is left behind is not yet a message, and nothing is yielded from a stream that breaks. */
  lemma {:induction false} BreaksAfter(bodies: seq<string>, tail: string, max: nat, parses: string -> bool)
    requires max < TWO_64 && Sendable(bodies, max, parses)
    ensures
      var s := StepOf(tail, max);
      && (s.Corrupt? || (s.Decoded? && !parses(s.body)) ==> Drained(EncodeAll(bodies) + tail, max, parses) == Failed)
      && (s.Incomplete? ==> Drained(EncodeAll(bodies) + tail, max, parses) == Received(bodies, tail))
  {
    hide Encode, StepOf;
    if bodies == [] {
      assert EncodeAll(bodies) + tail == tail;
    } else {
      var more := EncodeAll(bodies[1..]) + tail;
      assert EncodeAll(bodies) + tail == Encode(bodies[0]) + more;
      WholeMessage(bodies[0], more, max);
      BreaksAfter(bodies[1..], tail, max, parses);
    }
  }

  ghost predicate Sendable(bodies: seq<string>, max: nat, parses: string -> bool) {
    forall b | b in bodies :: |b| <= max && parses(b)
  }

  /** What has arrived: whole messages, then a proper part of the next one. */
  ghost predicate Arrived(bodies: seq<string>, k: nat, rest: string, total: string) {
    && k <= |bodies|
    && total == EncodeAll(bodies[..k]) + rest
    && (if k == |bodies| then rest == "" else rest < Encode(bodies[k]))
  }

  lemma EncodeCons(body: string, rest: seq<string>)
    ensures EncodeAll([]) == "" && EncodeAll([body] + rest) == Encode(body) + EncodeAll(rest)
  {
    hide Encode;
    assert ([body] + rest)[1..] == rest;
  }

  lemma EncodeHead(bodies: seq<string>)
    requires bodies != []
    ensures EncodeAll(bodies) == Encode(bodies[0]) + EncodeAll(bodies[1..])
  {}

  lemma {:induction false} EncodeAllAppend(a: seq<string>, b: seq<string>)
    ensures EncodeAll(a + b) == EncodeAll(a) + EncodeAll(b)
  {
    hide Encode, EncodeAll;
    EncodeCons("", []);
    if a == [] {
      assert a + b == b;
    } else {
      EncodeAllAppend(a[1..], b);
      EncodeCons(a[0], a[1..]);
      EncodeCons(a[0], a[1..] + b);
      assert [a[0]] + a[1..] == a && [a[0]] + (a[1..] + b) == a + b;
    }
  }

  lemma ArrivedShift(bodies: seq<string>, k: nat, j: nat, left: string, total: string, buffer: string)
    requires k <= |bodies| && Arrived(bodies[k..], j, left, buffer) && total == EncodeAll(bodies[..k]) + buffer
    ensures Arrived(bodies, k + j, left, total) && bodies[..k + j] == bodies[..k] + bodies[k..][..j]
  {
    hide Encode, EncodeAll;
    assert bodies[..k + j] == bodies[..k] + bodies[k..][..j];
    EncodeAllAppend(bodies[..k], bodies[k..][..j]);
  }

  /** When everything has arrived, every message has. */
  lemma ArrivedAll(bodies: seq<string>, k: nat, rest: string)
    requires Arrived(bodies, k, rest, EncodeAll(bodies))
    ensures k == |bodies|
  {
    hide Encode, EncodeAll;
    EncodeAllAppend(bodies[..k], bodies[k..]);
    assert bodies == bodies[..k] + bodies[k..];
    FrontOf(EncodeAll(bodies[..k]), rest, EncodeAll(bodies[k..]));
    FrontOf(EncodeAll(bodies[..k]), EncodeAll(bodies[k..]), rest);
    if k < |bodies| {
      EncodeHead(bodies[k..]);
    }
  }

  /** Draining any front part of an encoded sequence yields the whole messages in it. */
  lemma {:induction false} DrainFront(bodies: seq<string>, buffer: string, max: nat, parses: string -> bool)
    requires max < TWO_64 && Sendable(bodies, max, parses) && buffer <= EncodeAll(bodies)
    ensures exists k: nat, rest: string :: Arrived(bodies, k, rest, buffer) && Drained(buffer, max, parses) == Received(bodies[..k], rest)
    decreases |bodies|
  {
    hide Encode, StepOf;
    if bodies == [] {
      EmptyWaits(max);
      assert Arrived(bodies, 0, buffer, buffer);
    } else if buffer < Encode(bodies[0]) {
      PartMessage(bodies[0], buffer, max);
      assert Arrived(bodies, 0, buffer, buffer);
    } else {
      var n := |Encode(bodies[0])|;
      var tail := buffer[n..];
      FirstFront(Encode(bodies[0]), EncodeAll(bodies[1..]), buffer);
      WholeMessage(bodies[0], tail, max);
      DrainFront(bodies[1..], tail, max, parses);
      var k: nat, rest: string :| Arrived(bodies[1..], k, rest, tail) && Drained(tail, max, parses) == Received(bodies[1..][..k], rest);
      assert bodies[..1] == [bodies[0]] && EncodeAll(bodies[..1]) == Encode(bodies[0]) + EncodeAll([]);
      ArrivedShift(bodies, 1, k, rest, buffer, tail);
    }
  }

  lemma EmptyWaits(max: nat)
    ensures StepOf("", max) == Incomplete
  {}

  /** A whole run of the decoder: every chunk pushed in turn. */
  function Run(chunks: seq<string>, max: nat, parses: string -> bool): Outcome {
    if chunks == [] then Received([], "")
    else
      match Run(chunks[..|chunks| - 1], max, parses)
      case Failed => Failed
      case Received(bodies, buffer) => After(bodies, Drained(buffer + chunks[|chunks| - 1], max, parses))
  }

  lemma {:induction false} RunFront(bodies: seq<string>, chunks: seq<string>, max: nat, parses: string -> bool)
    requires max < TWO_64 && Sendable(bodies, max, parses) && Joined(chunks) <= EncodeAll(bodies)
    ensures exists k: nat, rest: string :: Arrived(bodies, k, rest, Joined(chunks)) && Run(chunks, max, parses) == Received(bodies[..k], rest)
    decreases |chunks|
  {
    hide Encode, EncodeAll, StepOf, Drained;
    if chunks == [] {
      NothingYet(bodies);
    } else {
      var most, last := chunks[..|chunks| - 1], chunks[|chunks| - 1];
      assert Joined(most) <= EncodeAll(bodies);
      RunFront(bodies, most, max, parses);
      var k: nat, rest: string :| Arrived(bodies, k, rest, Joined(most)) && Run(most, max, parses) == Received(bodies[..k], rest);
      RestFront(bodies, k, rest, Joined(most), last);
      DrainFront(bodies[k..], rest + last, max, parses);
      var j: nat, left: string :| Arrived(bodies[k..], j, left, rest + last) && Drained(rest + last, max, parses) == Received(bodies[k..][..j], left);
      ArrivedShift(bodies, k, j, left, Joined(chunks), rest + last);
    }
  }

  lemma RestFront(bodies: seq<string>, k: nat, rest: string, before: string, last: string)
    requires Arrived(bodies, k, rest, before) && before + last <= EncodeAll(bodies)
    ensures rest + last <= EncodeAll(bodies[k..]) && before + last == EncodeAll(bodies[..k]) + (rest + last)
  {
    hide Encode, EncodeAll;
    EncodeAllAppend(bodies[..k], bodies[k..]);
    assert bodies == bodies[..k] + bodies[k..];
    assert before + last == EncodeAll(bodies[..k]) + (rest + last);
    FrontOf(EncodeAll(bodies[..k]), rest + last, EncodeAll(bodies[k..]));
  }

  lemma NothingYet(bodies: seq<string>)
    ensures Arrived(bodies, 0, "", "")
  {
    assert bodies != [] ==> "" < Encode(bodies[0]);
  }

  lemma FirstFront(a: string, b: string, buffer: string)
    requires buffer <= a + b && !(buffer < a)
    ensures |a| <= |buffer| && buffer == a + buffer[|a|..] && buffer[|a|..] <= b
  {
    assert buffer == (a + b)[..|buffer|];
    assert |buffer| <= |a| ==> buffer <= a;
    assert buffer[..|a|] == a;
    assert buffer[|a|..] == b[..|buffer| - |a|];
  }

  lemma FrontOf(a: string, b: string, c: string)
    requires a + b <= a + c
    ensures b <= c
  {
    assert b == (a + b)[|a|..] && c == (a + c)[|a|..];
  }

  /** Framing is lossless: an encoded sequence of messages, cut into chunks in any way at all, decodes
      to exactly those messages, in order, and leaves nothing behind. */
  lemma AnyChunking(bodies: seq<string>, chunks: seq<string>, max: nat, parses: string -> bool)
    requires max < TWO_64 && Sendable(bodies, max, parses) && Joined(chunks) == EncodeAll(bodies)
    ensures Run(chunks, max, parses) == Received(bodies, "")
  {
    hide Encode, Run;
    RunFront(bodies, chunks, max, parses);
    var k: nat, rest: string :| Arrived(bodies, k, rest, Joined(chunks)) && Run(chunks, max, parses) == Received(bodies[..k], rest);
    ArrivedAll(bodies, k, rest);
    assert bodies[..|bodies|] == bodies;
  }
}
