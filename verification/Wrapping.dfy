/** Greedy word wrap to display columns (apps/araya/src/metrics.hpp:181-240). */
module Wrapping {
  import opened Utf8

  const NEWLINE: Byte := 10
  const SPACE: Byte := 32
  const TAB: Byte := 9

  predicate Blank(b: Byte) {
    b == SPACE || b == TAB
  }

  /** A segment that is text: neither a space, a tab nor a newline. */
  predicate Visible(seg: Bytes) {
    !(|seg| == 1 && (Blank(seg[0]) || seg[0] == NEWLINE))
  }

  ghost function Kept(segs: seq<Bytes>): seq<Bytes> {
    if segs == [] then [] else (if Visible(segs[0]) then [segs[0]] else []) + Kept(segs[1..])
  }

  /** The codepoints and stray bytes of a text, without its spaces, tabs and newlines. */
  ghost function Ink(s: Bytes): seq<Bytes> {
    Kept(Segments(s))
  }

  ghost function InkOf(lines: seq<Bytes>): seq<Bytes> {
    if lines == [] then [] else InkOf(lines[..|lines| - 1]) + Ink(lines[|lines| - 1])
  }

  /** The first word of a text, its leading blanks skipped. */
  ghost function NextWord(s: Bytes): Bytes {
    if s == [] || s[0] == NEWLINE then [] else if Blank(s[0]) then NextWord(s[1..]) else WordAt(s)
  }

  ghost function WordAt(s: Bytes): (w: Bytes)
    ensures |w| <= |s|
  {
    if s == [] || Blank(s[0]) || s[0] == NEWLINE then [] else [s[0]] + WordAt(s[1..])
  }

  function Limit(width: nat): nat {
    if width < 2 then 2 else width
  }

  predicate SolidByte(b: Byte) {
    !Blank(b) && b != NEWLINE
  }

  /** The words of a stretch of text: its maximal runs of solid bytes, in order. */
  ghost function Runs(s: Bytes): seq<Bytes>
    decreases |s|
  {
    if s == [] then [] else if !SolidByte(s[0]) then Runs(s[1..]) else [WordAt(s)] + Runs(s[|WordAt(s)|..])
  }

  /** Words with one space between neighbours, and nothing else. */
  ghost function Spaced(words: seq<Bytes>): Bytes {
    if words == [] then []
    else if |words| == 1 then words[0]
    else Spaced(words[..|words| - 1]) + [SPACE] + words[|words| - 1]
  }

  /** A cut through a word. */
  predicate Inside(text: Bytes, at: nat) {
    0 < at < |text| && SolidByte(text[at - 1]) && SolidByte(text[at])
  }

  /** A line ends only where it must: at a newline; at the end of the text; inside a word that is wider than
      the line, of which it shows a piece and nothing else, as large as fits; or before a word that it could
      not have held. Only a newline, or a text without any word, makes an empty line. */
  ghost predicate Ends(text: Bytes, line: Bytes, from: nat, to: nat, width: nat)
    requires from <= to <= |text|
  {
    || (from < to && text[to - 1] == NEWLINE)
    || (to == |text| && (line != [] || from == 0))
    || (line != []
        && if Inside(text, to) then
             && Runs(text[from..to]) == [line] && Columns(line + WordAt(text[to..])) > width
             && Columns(line) + CodepointWidth(Decoded(text[to..]).cp) > width
           else Columns(line) > width || (NextWord(text[to..]) != [] && Columns(line) + 1 + Columns(NextWord(text[to..])) > width))
  }

  /** What a line owes to the stretch of text it shows: a stretch of whole codepoints, its words with single
      spaces between them, no newline but as the last byte, columns within the limit; and it ends only
      where it must. */
  ghost predicate LineOk(text: Bytes, line: Bytes, from: nat, to: nat, width: nat) {
    && from <= to <= |text| && Boundary(text[from..], to - from)
    && line == Spaced(Runs(text[from..to]))
    && Ink(line) == Ink(text[from..to])
    && Columns(line) <= Limit(width)
    && (forall i | from <= i < to - 1 :: text[i] != NEWLINE)
    && Ends(text, line, from, to, width)
  }

  /** The lines cover the text, each its own stretch. */
  ghost predicate Covers(text: Bytes, lines: seq<Bytes>, cuts: seq<nat>, width: nat) {
    && |cuts| == |lines| + 1 && cuts[0] == 0
    && (forall i | 0 <= i < |lines| :: LineOk(text, lines[i], cuts[i], cuts[i + 1], width))
  }

  // ---------------------------------------------------------------------------------------------
  // Words add up

  lemma {:induction false} WordJoin(a: Bytes, b: Bytes)
    requires a == [] || b == [] || !SolidByte(a[|a| - 1]) || !SolidByte(b[0])
    ensures a != [] ==> WordAt(a + b) == WordAt(a)
  {
    if a != [] && SolidByte(a[0]) {
      assert (a + b)[1..] == a[1..] + b;
      WordJoin(a[1..], b);
      if a[1..] == [] {
        assert (a + b)[1..] == b;
      }
    }
  }

  lemma {:induction false} RunsJoin(a: Bytes, b: Bytes)
    requires a == [] || b == [] || !SolidByte(a[|a| - 1]) || !SolidByte(b[0])
    ensures Runs(a + b) == Runs(a) + Runs(b)
    decreases |a|
  {
    if a == [] {
      assert a + b == b;
    } else if !SolidByte(a[0]) {
      assert (a + b)[1..] == a[1..] + b;
      RunsJoin(a[1..], b);
    } else {
      WordJoin(a, b);
      var n := |WordAt(a)|;
      assert (a + b)[n..] == a[n..] + b;
      RunsJoin(a[n..], b);
    }
  }

  lemma RunsBlank(b: Byte)
    requires !SolidByte(b)
    ensures Runs([b]) == []
  {
    assert [b][1..] == [];
  }

  lemma {:induction false} SolidWord(w: Bytes)
    requires forall i | 0 <= i < |w| :: SolidByte(w[i])
    ensures WordAt(w) == w
  {
    if w != [] {
      SolidWord(w[1..]);
    }
  }

  lemma RunsOne(w: Bytes)
    requires w != [] && forall i | 0 <= i < |w| :: SolidByte(w[i])
    ensures Runs(w) == [w]
  {
    SolidWord(w);
    assert w[|w|..] == [];
  }

  /** Every word is some solid bytes. */
  predicate Wordy(w: Bytes) {
    w != [] && forall i | 0 <= i < |w| :: SolidByte(w[i])
  }

  lemma {:induction false} WordSolid(s: Bytes)
    ensures forall i | 0 <= i < |WordAt(s)| :: SolidByte(WordAt(s)[i])
  {
    if s != [] && SolidByte(s[0]) {
      WordSolid(s[1..]);
    }
  }

  lemma {:induction false} RunsWordy(s: Bytes)
    ensures forall i | 0 <= i < |Runs(s)| :: Wordy(Runs(s)[i])
    decreases |s|
  {
    if s != [] {
      if !SolidByte(s[0]) {
        RunsWordy(s[1..]);
      } else {
        WordSolid(s);
        RunsWordy(s[|WordAt(s)|..]);
      }
    }
  }

  lemma SpacedMore(words: seq<Bytes>, w: Bytes)
    ensures Spaced(words + [w]) == if words == [] then w else Spaced(words) + [SPACE] + w
  {
    assert (words + [w])[..|words|] == words;
  }

  lemma SpacedEmpty(words: seq<Bytes>)
    requires forall i | 0 <= i < |words| :: Wordy(words[i])
    ensures Spaced(words) == [] <==> words == []
  {}

  /** Read back, words with single spaces between them are those words. */
  lemma {:induction false} SpacedReads(words: seq<Bytes>)
    requires forall i | 0 <= i < |words| :: Wordy(words[i])
    ensures Runs(Spaced(words)) == words
  {
    if words != [] {
      var most, last := words[..|words| - 1], words[|words| - 1];
      assert words == most + [last];
      SpacedReads(most);
      SpacedMore(most, last);
      RunsOne(last);
      if most != [] {
        RunsBlank(SPACE);
        RunsJoin(Spaced(most), [SPACE]);
        RunsJoin(Spaced(most) + [SPACE], last);
        assert most + [] == most;
      }
    }
  }

  /** So a line reads as the words of its stretch, and has nothing but them and the spaces between. */
  lemma LineReads(text: Bytes, line: Bytes, from: nat, to: nat, width: nat)
    requires LineOk(text, line, from, to, width)
    ensures Runs(line) == Runs(text[from..to]) && line == Spaced(Runs(line))
  {
    hide Ink, Columns, Boundary, Ends, Runs, Spaced;
    RunsWordy(text[from..to]);
    SpacedReads(Runs(text[from..to]));
  }

  // ---------------------------------------------------------------------------------------------
  // Ink adds up

  lemma {:induction false} KeptAppend(a: seq<Bytes>, b: seq<Bytes>)
    ensures Kept(a + b) == Kept(a) + Kept(b)
  {
    hide Visible;
    if a == [] {
      assert a + b == b;
    } else {
      assert (a + b)[1..] == a[1..] + b;
      KeptAppend(a[1..], b);
    }
  }

  lemma InkCut(s: Bytes, at: nat)
    requires Boundary(s, at)
    ensures at <= |s| && Ink(s) == Ink(s[..at]) + Ink(s[at..])
  {
    Cut(s, at);
    KeptAppend(Segments(s[..at]), Segments(s[at..]));
  }

  lemma InkSeam(a: Bytes, b: Bytes)
    requires a == [] || b == [] || b[0] < 0x80 || a[|a| - 1] < 0x80
    ensures Ink(a + b) == Ink(a) + Ink(b) && Columns(a + b) == Columns(a) + Columns(b)
  {
    Seam(a, b);
    InkCut(a + b, |a|);
    Cut(a + b, |a|);
    assert (a + b)[..|a|] == a && (a + b)[|a|..] == b;
  }

  lemma InkOne(b: Byte)
    requires Blank(b) || b == NEWLINE
    ensures Ink([b]) == [] && Columns([b]) == if b == SPACE then 1 else 0
  {
    AsciiAlone([b]);
    assert [b][1..] == [] && [b][..1] == [b];
    assert Segments([b]) == [[b]] + Segments([]);
    var segs := Segments([b]);
    assert segs == [[b]] && segs[1..] == [];
    assert !Visible(segs[0]);
    assert Kept(segs) == Kept(segs[1..]);
  }

  /** Behind a blank byte the ink so far is the ink of everything before it. */
  lemma InkSkip(text: Bytes, from: nat, pos: nat)
    requires from <= pos < |text| && (Blank(text[pos]) || text[pos] == NEWLINE)
    ensures Ink(text[from..pos + 1]) == Ink(text[from..pos])
  {
    assert text[from..pos + 1] == text[from..pos] + [text[pos]];
    InkSeam(text[from..pos], [text[pos]]);
    InkOne(text[pos]);
  }

  /** Where a word may be joined to what precedes it. */
  ghost predicate AtSeam(text: Bytes, from: nat, pos: nat) {
    from <= pos <= |text| && (pos == from || pos == |text| || text[pos] < 0x80 || text[pos - 1] < 0x80)
  }

  lemma InkWord(text: Bytes, from: nat, pos: nat, end: nat)
    requires AtSeam(text, from, pos) && pos <= end <= |text|
    ensures Ink(text[from..end]) == Ink(text[from..pos]) + Ink(text[pos..end])
  {
    assert text[from..end] == text[from..pos] + text[pos..end];
    InkSeam(text[from..pos], text[pos..end]);
  }

  lemma Joined(current: Bytes, word: Bytes)
    ensures Ink(current + [SPACE] + word) == Ink(current) + Ink(word)
    ensures Columns(current + [SPACE] + word) == Columns(current) + 1 + Columns(word)
  {
    hide Ink, Columns;
    assert current + [SPACE] + word == current + ([SPACE] + word);
    InkSeam(current, [SPACE] + word);
    InkSeam([SPACE], word);
    InkOne(SPACE);
  }

  lemma {:induction false} WordFound(text: Bytes, pos: nat, end: nat)
    requires pos <= end <= |text| && forall i | pos <= i < end :: !Blank(text[i]) && text[i] != NEWLINE
    requires end == |text| || Blank(text[end]) || text[end] == NEWLINE
    ensures WordAt(text[pos..]) == text[pos..end]
    decreases end - pos
  {
    if pos < end {
      WordFound(text, pos + 1, end);
      assert text[pos..][1..] == text[pos + 1..];
      assert text[pos..end] == [text[pos]] + text[pos + 1..end];
    }
  }

  lemma InkNothing()
    ensures Ink([]) == [] && Columns([]) == 0
  {}

  // ---------------------------------------------------------------------------------------------
  // Steps

  ghost predicate NoNewline(text: Bytes, from: nat, to: nat) {
    forall i | from <= i < to && i < |text| :: text[i] != NEWLINE
  }

  /** Not inside a word, unless that is where the line began. */
  predicate Gap(text: Bytes, from: nat, pos: nat) {
    from <= pos <= |text| && (pos == from || !Inside(text, pos))
  }

  lemma RunsSkip(text: Bytes, from: nat, pos: nat)
    requires from <= pos < |text| && !SolidByte(text[pos])
    ensures Runs(text[from..pos + 1]) == Runs(text[from..pos])
  {
    assert text[from..pos + 1] == text[from..pos] + [text[pos]];
    RunsJoin(text[from..pos], [text[pos]]);
    RunsBlank(text[pos]);
  }

  /** One more word, or the front of one. */
  lemma RunsWord(text: Bytes, from: nat, pos: nat, end: nat)
    requires Gap(text, from, pos) && pos < end <= |text| && forall i | pos <= i < end :: SolidByte(text[i])
    ensures Runs(text[from..end]) == Runs(text[from..pos]) + [text[pos..end]]
  {
    assert text[from..end] == text[from..pos] + text[pos..end];
    RunsJoin(text[from..pos], text[pos..end]);
    RunsOne(text[pos..end]);
  }

  lemma NoLine(text: Bytes, current: Bytes, from: nat, pos: nat, width: nat)
    requires Current(text, current, from, pos, width)
    ensures current == [] <==> Runs(text[from..pos]) == []
  {
    hide Ink, Columns, Runs, Spaced;
    RunsWordy(text[from..pos]);
    SpacedEmpty(Runs(text[from..pos]));
  }

  /** The line being filled shows the text from the last cut up to here. */
  ghost predicate Current(text: Bytes, current: Bytes, from: nat, pos: nat, width: nat) {
    && AtSeam(text, from, pos) && Gap(text, from, pos)
    && current == Spaced(Runs(text[from..pos]))
    && Ink(current) == Ink(text[from..pos])
    && Columns(current) <= Limit(width)
    && NoNewline(text, from, pos)
  }

  lemma Fresh(text: Bytes, at: nat, width: nat)
    requires at <= |text|
    ensures Current(text, [], at, at, width)
  {
    InkNothing();
    assert text[at..at] == [];
  }

  lemma CoversNothing(text: Bytes, width: nat)
    ensures Covers(text, [], [0], width)
  {}

  /** One more finished line. */
  lemma Extend(text: Bytes, lines: seq<Bytes>, cuts: seq<nat>, width: nat, line: Bytes, to: nat)
    requires Covers(text, lines, cuts, width) && LineOk(text, line, cuts[|lines|], to, width)
    ensures Covers(text, lines + [line], cuts + [to], width)
  {
    hide LineOk;
    forall i | 0 <= i < |lines| + 1
      ensures LineOk(text, (lines + [line])[i], (cuts + [to])[i], (cuts + [to])[i + 1], width)
    {
      if i < |lines| {
        assert LineOk(text, lines[i], cuts[i], cuts[i + 1], width);
      }
    }
  }

  lemma SeamHere(text: Bytes, from: nat, pos: nat)
    requires AtSeam(text, from, pos)
    ensures Boundary(text[from..], pos - from)
  {
    hide Boundary;
    assert text[from..] == text[from..pos] + text[pos..];
    Seam(text[from..pos], text[pos..]);
  }

  lemma EndAtNewline(text: Bytes, current: Bytes, from: nat, pos: nat, width: nat)
    requires Current(text, current, from, pos, width) && pos < |text| && text[pos] == NEWLINE
    ensures LineOk(text, current, from, pos + 1, width)
  {
    hide Ink, Columns, NextWord, Boundary, Runs, Spaced, Inside;
    InkSkip(text, from, pos);
    RunsSkip(text, from, pos);
    assert text[from..] == text[from..pos + 1] + text[pos + 1..];
    Seam(text[from..pos + 1], text[pos + 1..]);
  }

  lemma SkipBlank(text: Bytes, current: Bytes, from: nat, pos: nat, width: nat)
    requires Current(text, current, from, pos, width) && pos < |text| && Blank(text[pos])
    ensures Current(text, current, from, pos + 1, width)
  {
    hide Ink, Columns, Runs, Spaced;
    InkSkip(text, from, pos);
    RunsSkip(text, from, pos);
  }

  /** `text[pos..end]` is a whole word. */
  ghost predicate Word(text: Bytes, pos: nat, end: nat) {
    && pos < end <= |text|
    && (forall i | pos <= i < end :: !Blank(text[i]) && text[i] != NEWLINE)
    && (end == |text| || Blank(text[end]) || text[end] == NEWLINE)
  }

  lemma WordEnds(text: Bytes, from: nat, pos: nat, end: nat)
    requires AtSeam(text, from, pos) && Word(text, pos, end) && NoNewline(text, from, pos)
    ensures AtSeam(text, from, end) && NoNewline(text, from, end)
  {}

  lemma TakeWord(text: Bytes, current: Bytes, from: nat, pos: nat, end: nat, width: nat)
    requires Current(text, current, from, pos, width) && Word(text, pos, end)
    ensures
      var more := if current == [] then text[pos..end] else current + [SPACE] + text[pos..end];
      var columns := Columns(current) + (if current == [] then 0 else 1) + Columns(text[pos..end]);
      && Columns(more) == columns
      && (columns <= width ==> Current(text, more, from, end, width))
  {
    hide Ink, Columns, AtSeam, Runs, Spaced;
    NoLine(text, current, from, pos, width);
    RunsWord(text, from, pos, end);
    SpacedMore(Runs(text[from..pos]), text[pos..end]);
    WordEnds(text, from, pos, end);
    InkWord(text, from, pos, end);
    Joined(current, text[pos..end]);
    InkNothing();
  }

  lemma EndAtWord(text: Bytes, current: Bytes, from: nat, pos: nat, end: nat, width: nat)
    requires Current(text, current, from, pos, width) && Word(text, pos, end) && current != []
    requires Columns(current) + 1 + Columns(text[pos..end]) > width
    ensures LineOk(text, current, from, pos, width)
  {
    hide Ink, Columns, NextWord, Boundary, Runs, Spaced;
    NoLine(text, current, from, pos, width);
    assert text[from..from] == [];
    RunsNothing();
    WordRests(text, pos, pos, end);
    SeamHere(text, from, pos);
  }

  lemma EndAtEnd(text: Bytes, current: Bytes, from: nat, width: nat)
    requires Current(text, current, from, |text|, width) && (current != [] || from == 0)
    ensures LineOk(text, current, from, |text|, width)
  {
    hide Columns, NextWord, Segments, Boundary, Runs, Spaced;
    InkNothing();
    assert text[|text|..] == [];
    SeamHere(text, from, |text|);
  }

  /** A piece cut off a word that is too wide: whole codepoints, and the rest would not have fitted. */
  lemma EndAtCut(text: Bytes, from: nat, pos: nat, end: nat, cut: nat, width: nat)
    requires Current(text, [], from, pos, width) && Word(text, pos, end) && 0 < cut <= end - pos
    requires Boundary(text[pos..end], cut) && Columns(text[pos..end]) > width
    requires Columns(text[pos..end][..cut]) <= Limit(width)
    requires cut < end - pos ==> Columns(text[pos..end][..cut]) + CodepointWidth(Decoded(text[pos..end][cut..]).cp) > width
    ensures LineOk(text, text[pos..end][..cut], from, pos + cut, width)
    ensures Current(text, [], pos + cut, pos + cut, width)
    ensures pos + cut < end ==> Word(text, pos + cut, end)
  {
    hide Ink, Columns, Boundary, AtSeam, Word, NoNewline, NextWord, Runs, Spaced, Decoded, CodepointWidth, WordAt, Inside, Ends;
    WordInside(text, pos, end);
    CutOff(text, from, pos, end, cut, width);
    PieceEnds(text, from, pos, end, cut, width);
    Fresh(text, pos + cut, width);
    AfterCut(text, from, pos, end, cut);
    CutLeaves(text, pos, end, cut, width);
    CutBoundary(text, from, pos, end, cut);
  }

  lemma PieceEnds(text: Bytes, from: nat, pos: nat, end: nat, cut: nat, width: nat)
    requires Current(text, [], from, pos, width) && Word(text, pos, end) && 0 < cut <= end - pos
    requires Columns(text[pos..end]) > width
    requires cut < end - pos ==> Columns(text[pos..end][..cut]) + CodepointWidth(Decoded(text[pos..end][cut..]).cp) > width
    ensures from <= pos + cut <= |text| && text[pos..end][..cut] == Spaced(Runs(text[from..pos + cut]))
    ensures Ends(text, text[pos..end][..cut], from, pos + cut, width)
  {
    hide Ink, Columns, Runs, Spaced, NextWord, Decoded, CodepointWidth, WordAt;
    var piece := text[pos..end][..cut];
    assert piece == text[pos..pos + cut];
    NoLine(text, [], from, pos, width);
    RunsWord(text, from, pos, pos + cut);
    SpacedMore([], piece);
    assert [] + [piece] == [piece];
    if pos + cut < end {
      WordFound(text, pos + cut, end);
      assert piece + text[pos + cut..end] == text[pos..end];
      assert text[pos..end][cut..] == text[pos + cut..end];
      WordDecodes(text, pos + cut, end);
    } else {
      assert piece == text[pos..end];
    }
  }

  /** No codepoint reaches over the end of a word. */
  lemma WordDecodes(text: Bytes, at: nat, end: nat)
    requires at < end <= |text| && (end < |text| ==> text[end] < 0x80)
    ensures Decoded(text[at..end]) == Decoded(text[at..])
  {
    hide Decoded;
    var s := text[at..];
    assert s[..end - at] == text[at..end];
    if end < |text| {
      StopsAtAscii(s, end - at);
    } else {
      assert s == text[at..end];
      DecodedInside(s);
    }
    DecodePrefix(s, end - at);
  }

  lemma DecodedInside(s: Bytes)
    requires s != []
    ensures Decoded(s).len <= |s|
  {}

  lemma RunsNothing()
    ensures Runs([]) == [] && Spaced([]) == []
  {}

  lemma CutBoundary(text: Bytes, from: nat, pos: nat, end: nat, cut: nat)
    requires AtSeam(text, from, pos) && Word(text, pos, end) && cut <= end - pos && Boundary(text[pos..end], cut)
    ensures Boundary(text[from..], pos + cut - from)
  {
    hide Boundary;
    SeamHere(text, from, pos);
    SeamHere(text, pos, end);
    assert text[pos..][..end - pos] == text[pos..end];
    BoundaryPrefix(text[pos..], end - pos, cut);
    assert text[from..][pos - from..] == text[pos..];
    BoundaryAdd(text[from..], pos - from, cut);
  }

  /** The piece shows its stretch of the text. */
  lemma CutOff(text: Bytes, from: nat, pos: nat, end: nat, cut: nat, width: nat)
    requires Current(text, [], from, pos, width) && pos < end <= |text| && 0 < cut <= end - pos
    ensures from <= pos + cut <= |text| && Ink(text[pos..end][..cut]) == Ink(text[from..pos + cut])
  {
    hide Ink, Columns;
    InkNothing();
    assert text[pos..end][..cut] == text[pos..pos + cut];
    InkWord(text, from, pos, pos + cut);
  }

  /** What is left of the word would not have fitted behind the piece. */
  lemma CutLeaves(text: Bytes, pos: nat, end: nat, cut: nat, width: nat)
    requires Word(text, pos, end) && 0 < cut <= end - pos && Boundary(text[pos..end], cut)
    requires Columns(text[pos..end]) > width
    ensures Columns(text[pos..end][..cut]) + 1 + Columns(NextWord(text[pos + cut..])) > width
    ensures pos + cut < end ==> Word(text, pos + cut, end)
  {
    hide Columns, Boundary, NextWord, Word, Segments;
    WordInside(text, pos, end);
    var word := text[pos..end];
    Cut(word, cut);
    assert word[cut..] == text[pos + cut..end];
    InkNothing();
    if pos + cut < end {
      WordRests(text, pos, pos + cut, end);
    } else {
      assert word[cut..] == [];
    }
  }

  lemma WordRests(text: Bytes, pos: nat, at: nat, end: nat)
    requires Word(text, pos, end) && pos <= at < end
    ensures Word(text, at, end) && NextWord(text[at..]) == text[at..end]
  {
    WordFound(text, at, end);
    assert text[at..][0] == text[at];
  }

  lemma AfterCut(text: Bytes, from: nat, pos: nat, end: nat, cut: nat)
    requires AtSeam(text, from, pos) && Word(text, pos, end) && 0 < cut <= end - pos && NoNewline(text, from, pos)
    ensures from <= pos + cut <= |text| && forall i | from <= i < pos + cut - 1 :: text[i] != NEWLINE
  {}

  // ---------------------------------------------------------------------------------------------
  // The algorithm

  /**
    Wraps a text: explicit newlines break, runs of blanks collapse, and a word wider than the line is
    cut between codepoints.
   */
  method WrapLines(text: Bytes, columns: nat) returns (lines: seq<Bytes>, ghost cuts: seq<nat>)
    ensures lines != [] && (text == [] ==> lines == [[]])
    ensures Covers(text, lines, cuts, if columns == 0 then 1 else columns)
    ensures cuts[|lines|] <= |text| && Ink(text[cuts[|lines|]..]) == [] && NoNewline(text, cuts[|lines|], |text|)
  {
    hide Ink, Columns, LineOk, Covers, Current, Word, NoNewline;
    var width := if columns == 0 then 1 else columns;
    lines, cuts := [], [0];
    var current: Bytes := [];
    var currentWidth := 0;
    var pos := 0;
    ghost var from := 0;
    CoversNothing(text, width);
    Fresh(text, 0, width);
    InkNothing();
    while pos < |text|
      invariant 0 <= pos <= |text| && |cuts| == |lines| + 1 && from == cuts[|lines|]
      invariant (|text| == 0 ==> lines == [] && current == []) && (lines == [] ==> cuts == [0])
      invariant Covers(text, lines, cuts, width)
      invariant Current(text, current, from, pos, width) && currentWidth == Columns(current)
    {
      if text[pos] == NEWLINE {
        EndAtNewline(text, current, from, pos, width);
        Extend(text, lines, cuts, width, current, pos + 1);
        lines, cuts, from := lines + [current], cuts + [pos + 1], pos + 1;
        current, currentWidth := [], 0;
        Fresh(text, pos + 1, width);
        pos := pos + 1;
      } else if text[pos] == SPACE || text[pos] == TAB {
        SkipBlank(text, current, from, pos, width);
        pos := pos + 1;
      } else {
        var end := WordEnd(text, pos);
        var word := text[pos..end];
        var wordWidth := DisplayWidth(word);
        var extra := if current == [] then 0 else 1;
        TakeWord(text, current, from, pos, end, width);
        if currentWidth + extra + wordWidth <= width {
          current := if current == [] then word else current + [SPACE] + word;
          currentWidth := currentWidth + extra + wordWidth;
        } else {
          if current != [] {
            EndAtWord(text, current, from, pos, end, width);
            Extend(text, lines, cuts, width, current, pos);
            lines, cuts, from := lines + [current], cuts + [pos], pos;
            Fresh(text, pos, width);
            current := [];
          }
          lines, cuts, current := CutWord(text, lines, cuts, pos, end, width);
          from := cuts[|lines|];
          currentWidth := DisplayWidth(current);
        }
        pos := end;
      }
    }
    CurrentFacts(text, current, from, width);
    if current != [] || lines == [] {
      EndAtEnd(text, current, from, width);
      Extend(text, lines, cuts, width, current, |text|);
      lines, cuts := lines + [current], cuts + [|text|];
      NothingLeft(text);
    }
  }

  lemma CurrentFacts(text: Bytes, current: Bytes, from: nat, width: nat)
    requires Current(text, current, from, |text|, width)
    ensures from <= |text| && Ink(current) == Ink(text[from..]) && NoNewline(text, from, |text|)
  {
    assert text[from..|text|] == text[from..];
  }

  lemma NothingLeft(text: Bytes)
    ensures Ink(text[|text|..]) == [] && NoNewline(text, |text|, |text|)
  {
    assert text[|text|..] == [];
    InkNothing();
  }

  /** The end of the word that starts at `pos`. */
  method WordEnd(text: Bytes, pos: nat) returns (end: nat)
    requires pos < |text| && !Blank(text[pos]) && text[pos] != NEWLINE
    ensures Word(text, pos, end)
  {
    end := pos;
    while end < |text| && text[end] != SPACE && text[end] != TAB && text[end] != NEWLINE
      invariant pos <= end <= |text|
      invariant forall i | pos <= i < end :: !Blank(text[i]) && text[i] != NEWLINE
      invariant end == pos ==> !Blank(text[end]) && text[end] != NEWLINE
    {
      end := end + 1;
    }
  }

  /** Cuts whole lines off a word that is too wide, and leaves what fits. */
  method CutWord(text: Bytes, lines0: seq<Bytes>, ghost cuts0: seq<nat>, start: nat, end: nat, width: nat)
    returns (lines: seq<Bytes>, ghost cuts: seq<nat>, rest: Bytes)
    requires |cuts0| == |lines0| + 1 && Covers(text, lines0, cuts0, width) && width > 0
    requires Word(text, start, end) && Current(text, [], cuts0[|lines0|], start, width)
    ensures |cuts| == |lines| + 1 && Covers(text, lines, cuts, width)
    ensures Current(text, rest, cuts[|lines|], end, width)
    ensures lines == [] ==> cuts == cuts0
  {
    hide Ink, Columns, LineOk, Covers, Current, Word, Boundary, Decoded;
    lines, cuts := lines0, cuts0;
    ghost var pos := start;
    WordInside(text, start, end);
    rest := text[start..end];
    var restWidth := DisplayWidth(rest);
    InkNothing();
    while restWidth > width
      invariant start <= pos <= end <= |text| && rest == text[pos..end] && restWidth == Columns(rest)
      invariant |cuts| == |lines| + 1 && Covers(text, lines, cuts, width) && (lines == [] ==> cuts == cuts0)
      invariant Current(text, [], cuts[|lines|], pos, width)
      invariant pos < end ==> Word(text, pos, end)
      decreases end - pos
    {
      var cut := PrefixBytes(rest, width);
      FirstFits(rest, cut, width);
      EndAtCut(text, cuts[|lines|], pos, end, cut, width);
      Extend(text, lines, cuts, width, rest[..cut], pos + cut);
      lines, cuts := lines + [rest[..cut]], cuts + [pos + cut];
      rest := rest[cut..];
      pos := pos + cut;
      restWidth := DisplayWidth(rest);
    }
    RestFits(text, cuts[|lines|], pos, end, width);
  }

  lemma WordInside(text: Bytes, pos: nat, end: nat)
    requires Word(text, pos, end)
    ensures pos < end <= |text|
  {}

  lemma FirstFits(s: Bytes, cut: nat, width: nat)
    requires s != [] && cut <= |s| && (Columns(s[..cut]) <= width || cut == Decoded(s).len)
    ensures Columns(s[..cut]) <= Limit(width)
  {
    hide CodepointWidth;
    if cut == Decoded(s).len {
      DecodePrefix(s, cut);
      assert s[..cut][cut..] == [];
    }
  }

  lemma RestFits(text: Bytes, from: nat, pos: nat, end: nat, width: nat)
    requires Current(text, [], from, pos, width) && pos <= end <= |text| && (pos < end ==> Word(text, pos, end))
    requires Columns(text[pos..end]) <= width
    ensures Current(text, text[pos..end], from, end, width)
  {
    hide Ink, Columns, AtSeam, Runs, Spaced;
    InkNothing();
    NoLine(text, [], from, pos, width);
    if pos < end {
      RunsWord(text, from, pos, end);
      SpacedMore([], text[pos..end]);
      assert [] + [text[pos..end]] == [text[pos..end]];
      WordEnds(text, from, pos, end);
      InkWord(text, from, pos, end);
    } else {
      assert text[pos..end] == [];
    }
  }

  // ---------------------------------------------------------------------------------------------
  // What a wrapped text shows

  lemma {:induction false} CoversInk(text: Bytes, lines: seq<Bytes>, cuts: seq<nat>, width: nat, n: nat)
    requires Covers(text, lines, cuts, width) && n <= |lines|
    ensures cuts[n] <= |text| && Boundary(text, cuts[n]) && InkOf(lines[..n]) == Ink(text[..cuts[n]])
  {
    hide Ink, Columns, Boundary, NextWord;
    if n == 0 {
      InkNothing();
      Seam([], text);
      assert [] + text == text && text[..0] == [];
    } else {
      var from, to := cuts[n - 1], cuts[n];
      CoversInk(text, lines, cuts, width, n - 1);
      assert LineOk(text, lines[n - 1], cuts[n - 1], cuts[n - 1 + 1], width);
      BoundaryAdd(text, from, to - from);
      StretchBoundary(text, from, to);
      assert lines[..n][..n - 1] == lines[..n - 1];
    }
  }

  lemma StretchBoundary(text: Bytes, from: nat, to: nat)
    requires from <= to <= |text| && Boundary(text, from) && Boundary(text, to)
    ensures Ink(text[..to]) == Ink(text[..from]) + Ink(text[from..to])
  {
    hide Ink, Boundary;
    PrefixBoundary(text, from, to);
    InkCut(text[..to], from);
    assert text[..to][..from] == text[..from] && text[..to][from..] == text[from..to];
  }

  lemma {:induction false} PrefixBoundary(s: Bytes, at: nat, n: nat)
    requires at <= n <= |s| && Boundary(s, at) && Boundary(s, n)
    ensures Boundary(s[..n], at)
    decreases |s|
  {
    hide Decoded;
    if at > 0 {
      CutStep(s, n);
      PrefixBoundary(s[Decoded(s).len..], at - Decoded(s).len, n - Decoded(s).len);
    }
  }

  /** Wrapping loses, splits and reorders nothing: the codepoints and stray bytes of the lines, blanks
      apart, are those of the text, for any byte string and any width. */
  lemma WrapShowsText(text: Bytes, lines: seq<Bytes>, cuts: seq<nat>, width: nat)
    requires Covers(text, lines, cuts, width) && cuts[|lines|] <= |text| && Ink(text[cuts[|lines|]..]) == []
    ensures InkOf(lines) == Ink(text)
  {
    hide Ink, Boundary;
    CoversInk(text, lines, cuts, width, |lines|);
    assert lines[..|lines|] == lines;
    InkCut(text, cuts[|lines|]);
  }

  lemma StretchInside(text: Bytes, line: Bytes, from: nat, to: nat, width: nat)
    requires LineOk(text, line, from, to, width) && text != []
    ensures from < |text| && 0 < to
  {
    hide Ink, Columns, Boundary, Runs, Spaced, NextWord;
    EmptyStretch(text, from);
  }

  lemma EmptyStretch(text: Bytes, at: nat)
    requires at <= |text|
    ensures Spaced(Runs(text[at..at])) == []
  {
    assert text[at..at] == [];
  }

  /** An empty line is one that a newline made, or the only line of a text without words. */
  lemma EmptyLine(text: Bytes, lines: seq<Bytes>, cuts: seq<nat>, width: nat, i: nat)
    requires Covers(text, lines, cuts, width) && text != [] && i < |lines| && lines[i] == []
    ensures (cuts[i] < cuts[i + 1] <= |text| && text[cuts[i + 1] - 1] == NEWLINE) || (|lines| == 1 && Runs(text) == [])
  {
    hide Ink, Columns, Boundary, Runs, Spaced, NextWord;
    assert LineOk(text, lines[i], cuts[i], cuts[i + 1], width);
    if !(cuts[i] < cuts[i + 1] <= |text| && text[cuts[i + 1] - 1] == NEWLINE) {
      assert cuts[i] == 0 && cuts[i + 1] == |text| && text[0..|text|] == text;
      RunsWordy(text);
      SpacedEmpty(Runs(text));
      Neighbours(text, lines, cuts, width, i);
    }
  }

  /** No line comes before the first byte, and none behind the last. */
  lemma Neighbours(text: Bytes, lines: seq<Bytes>, cuts: seq<nat>, width: nat, i: nat)
    requires Covers(text, lines, cuts, width) && text != [] && i < |lines|
    ensures i > 0 ==> cuts[i] > 0
    ensures i + 1 < |lines| ==> cuts[i + 1] < |text|
  {
    hide LineOk;
    if i > 0 {
      assert LineOk(text, lines[i - 1], cuts[i - 1], cuts[i - 1 + 1], width);
      StretchInside(text, lines[i - 1], cuts[i - 1], cuts[i], width);
    }
    if i + 1 < |lines| {
      assert LineOk(text, lines[i + 1], cuts[i + 1], cuts[i + 1 + 1], width);
      StretchInside(text, lines[i + 1], cuts[i + 1], cuts[i + 2], width);
    }
  }

  /** Every line fits, once the width has room for a wide codepoint. */
  lemma WrapFits(text: Bytes, lines: seq<Bytes>, cuts: seq<nat>, width: nat, i: nat)
    requires Covers(text, lines, cuts, width) && i < |lines| && width >= 2
    ensures Columns(lines[i]) <= width
  {
    assert LineOk(text, lines[i], cuts[i], cuts[i + 1], width);
  }

  ghost function Flat(segs: seq<Bytes>): Bytes {
    if segs == [] then [] else segs[0] + Flat(segs[1..])
  }

  ghost function Solid(s: Bytes): Bytes {
    if s == [] then [] else (if Blank(s[0]) || s[0] == NEWLINE then [] else [s[0]]) + Solid(s[1..])
  }

  lemma {:induction false} SolidRun(s: Bytes, n: nat)
    requires n <= |s| && forall i | 0 <= i < n :: !Blank(s[i]) && s[i] != NEWLINE
    ensures Solid(s) == s[..n] + Solid(s[n..])
  {
    if n > 0 {
      SolidRun(s[1..], n - 1);
      assert s[1..][n - 1..] == s[n..] && s[..n] == [s[0]] + s[1..][..n - 1];
    } else {
      assert s[0..] == s;
    }
  }

  lemma RunOfBytes(s: Bytes)
    requires s != [] && Decoded(s).len > 1
    ensures forall i | 0 <= i < Decoded(s).len :: !Blank(s[i]) && s[i] != NEWLINE
  {
    forall i | 0 < i < Decoded(s).len ensures s[i] >= 0x80 {
      assert Continuation(s[i]);
    }
  }

  /** The ink of a byte string, run together, is the string without its spaces, tabs and newlines. */
  lemma {:induction false} InkIsTheSolidBytes(s: Bytes)
    ensures Flat(Ink(s)) == Solid(s)
    decreases |s|
  {
    hide Decoded;
    if s != [] {
      var len := Decoded(s).len;
      var segs := Segments(s);
      assert segs[0] == s[..len] && segs[1..] == Segments(s[len..]);
      InkIsTheSolidBytes(s[len..]);
      if len > 1 {
        RunOfBytes(s);
        SolidRun(s, len);
      } else {
        assert s[..1] == [s[0]];
      }
      var rest := Kept(segs[1..]);
      if Visible(segs[0]) {
        assert ([segs[0]] + rest)[1..] == rest;
      } else {
        assert [] + rest == rest;
      }
    }
  }

  lemma {:induction false} SolidJoin(a: Bytes, b: Bytes)
    ensures Solid(a + b) == Solid(a) + Solid(b)
  {
    if a == [] {
      assert a + b == b;
    } else {
      var first: Bytes := if Blank(a[0]) || a[0] == NEWLINE then [] else [a[0]];
      SolidJoin(a[1..], b);
      assert (a + b)[1..] == a[1..] + b && (a + b)[0] == a[0];
      assert first + (Solid(a[1..]) + Solid(b)) == first + Solid(a[1..]) + Solid(b);
    }
  }

  lemma {:induction false} FlatJoin(xs: seq<Bytes>, ys: seq<Bytes>)
    ensures Flat(xs + ys) == Flat(xs) + Flat(ys)
  {
    if xs == [] {
      assert xs + ys == ys;
    } else {
      FlatJoin(xs[1..], ys);
      assert (xs + ys)[1..] == xs[1..] + ys && (xs + ys)[0] == xs[0];
      assert xs[0] + (Flat(xs[1..]) + Flat(ys)) == xs[0] + Flat(xs[1..]) + Flat(ys);
    }
  }

  lemma {:induction false} InkOfLines(lines: seq<Bytes>)
    ensures Flat(InkOf(lines)) == Solid(Flat(lines))
  {
    if lines != [] {
      var most, last := lines[..|lines| - 1], lines[|lines| - 1];
      InkOfLines(most);
      InkIsTheSolidBytes(last);
      FlatJoin(InkOf(most), Ink(last));
      FlatJoin(most, [last]);
      SolidJoin(Flat(most), last);
      assert lines == most + [last] && Flat([last]) == last;
    }
  }

  /** So the lines, run together, are the text byte for byte, spaces, tabs and newlines apart. */
  lemma WrapKeepsText(text: Bytes, lines: seq<Bytes>, cuts: seq<nat>, width: nat)
    requires Covers(text, lines, cuts, width) && cuts[|lines|] <= |text| && Ink(text[cuts[|lines|]..]) == []
    ensures Solid(Flat(lines)) == Solid(text)
  {
    hide Ink, InkOf, Covers;
    WrapShowsText(text, lines, cuts, width);
    InkOfLines(lines);
    InkIsTheSolidBytes(text);
  }
}
