/**
  JSON values as the event log holds them, and the field accessors of the utility header
  (include/araya/util/json.hpp). A non-negative integer built in memory has the unsigned kind; the
  same integer read back from text has the signed kind when it fits.
 */
module JsonValues {
  import opened Basics

  const TWO_64 := 0x1_0000_0000_0000_0000
  const TWO_63 := 0x8000_0000_0000_0000

  type Uint64 = n: nat | n < TWO_64
  type Int64 = i: int | -TWO_63 <= i < TWO_63

  datatype Json =
    | Null
    | Bool(b: bool)
    | Signed(i: Int64)
    | Unsigned(u: Uint64)
    | Text(s: string)
    | List(items: seq<Json>)
    | Object(fields: map<string, Json>)

  function OptString(fields: map<string, Json>, key: string): Option<string> {
    if key in fields && fields[key].Text? then Some(fields[key].s) else None
  }

  function UintOf(v: Json): Option<Uint64> {
    match v
    case Unsigned(u) => Some(u)
    case Signed(i) => if i >= 0 then Some(i) else None
    case _ => None
  }

  function IntOf(v: Json): Option<Int64> {
    match v
    case Signed(i) => Some(i)
    case Unsigned(u) => if u < TWO_63 then Some(u) else None
    case _ => None
  }

  function OptUint(fields: map<string, Json>, key: string): Option<Uint64> {
    if key in fields then UintOf(fields[key]) else None
  }

  function OptInt(fields: map<string, Json>, key: string): Option<Int64> {
    if key in fields then IntOf(fields[key]) else None
  }

  function GetUint(fields: map<string, Json>, key: string): Uint64 {
    match OptUint(fields, key) case Some(u) => u case None => 0
  }

  function GetString(fields: map<string, Json>, key: string): string {
    match OptString(fields, key) case Some(s) => s case None => ""
  }

  function OptObject(fields: map<string, Json>, key: string): Option<map<string, Json>> {
    if key in fields && fields[key].Object? then Some(fields[key].fields) else None
  }

  /** What the accessors read: a field of the right kind, and for a number of either integer kind in range. */
  lemma AccessorsRead(fields: map<string, Json>, key: string, s: string, u: Uint64, i: Int64, m: map<string, Json>)
    ensures OptString(fields, key) == Some(s) <==> key in fields && fields[key] == Text(s)
    ensures OptObject(fields, key) == Some(m) <==> key in fields && fields[key] == Object(m)
    ensures OptUint(fields, key) == Some(u) <==>
      key in fields && (fields[key] == Unsigned(u) || (u < TWO_63 && fields[key] == Signed(u)))
    ensures OptInt(fields, key) == Some(i) <==>
      key in fields && (fields[key] == Signed(i) || (i >= 0 && fields[key] == Unsigned(i)))
  {}

  /** What a value becomes when it is written as text and parsed again. */
  function Reparsed(v: Json): Json {
    match v
    case Unsigned(u) => if u < TWO_63 then Signed(u) else v
    case List(items) => List(seq(|items|, i requires 0 <= i < |items| => Reparsed(items[i])))
    case Object(fields) => Object(map k | k in fields :: Reparsed(fields[k]))
    case _ => v
  }

  function ReparsedFields(fields: map<string, Json>): map<string, Json> {
    map k | k in fields :: Reparsed(fields[k])
  }

  lemma ReparsedObject(fields: map<string, Json>)
    ensures Reparsed(Object(fields)) == Object(ReparsedFields(fields))
  {}

  /** No accessor can tell a value from the one read back. */
  lemma AccessorsTolerate(fields: map<string, Json>, key: string)
    ensures OptString(ReparsedFields(fields), key) == OptString(fields, key)
    ensures OptUint(ReparsedFields(fields), key) == OptUint(fields, key)
    ensures OptInt(ReparsedFields(fields), key) == OptInt(fields, key)
    ensures GetUint(ReparsedFields(fields), key) == GetUint(fields, key)
    ensures GetString(ReparsedFields(fields), key) == GetString(fields, key)
    ensures (match OptObject(fields, key) case None => OptObject(ReparsedFields(fields), key) == None
             case Some(m) => OptObject(ReparsedFields(fields), key) == Some(ReparsedFields(m)))
    ensures key in ReparsedFields(fields) <==> key in fields
  {
    if key in fields && fields[key].Object? {
      ReparsedObject(fields[key].fields);
    }
  }

  // ---------------------------------------------------------------------------------------------
  // Trimming (include/araya/util/string.hpp)

  predicate Blank(c: char) {
    c == ' ' || c == '\t' || c == '\r' || c == '\n'
  }

  function TrimFront(s: string): string {
    if s != "" && Blank(s[0]) then TrimFront(s[1..]) else s
  }

  function TrimBack(s: string): string {
    if s != "" && Blank(s[|s| - 1]) then TrimBack(s[..|s| - 1]) else s
  }

  function Trim(s: string): string {
    TrimBack(TrimFront(s))
  }

  predicate Trimmed(s: string) {
    s != "" ==> !Blank(s[0]) && !Blank(s[|s| - 1])
  }

  lemma {:induction false} TrimFrontSolid(s: string)
    ensures TrimFront(s) != "" ==> !Blank(TrimFront(s)[0])
  {
    if s != "" && Blank(s[0]) {
      TrimFrontSolid(s[1..]);
    }
  }

  lemma {:induction false} TrimBackSolid(s: string)
    requires s != "" ==> !Blank(s[0])
    ensures Trimmed(TrimBack(s))
  {
    if s != "" && Blank(s[|s| - 1]) {
      TrimBackSolid(s[..|s| - 1]);
    }
  }

  /** Trimming leaves nothing to trim: normalised text is exactly what trimming returns. */
  lemma TrimNormalises(s: string)
    ensures Trimmed(Trim(s)) && Trim(Trim(s)) == Trim(s)
    ensures Trim(s) == s <==> Trimmed(s)
  {
    TrimFrontSolid(s);
    TrimBackSolid(TrimFront(s));
  }

  ghost predicate AllBlank(s: string) {
    forall i | 0 <= i < |s| :: Blank(s[i])
  }

  lemma {:induction false} TrimFrontCuts(s: string) returns (i: nat)
    ensures i <= |s| && TrimFront(s) == s[i..] && AllBlank(s[..i])
  {
    i := 0;
    if s != "" && Blank(s[0]) {
      i := TrimFrontCuts(s[1..]);
      assert s[..i + 1] == [s[0]] + s[1..][..i];
      i := i + 1;
    }
  }

  lemma {:induction false} TrimBackCuts(s: string) returns (j: nat)
    ensures j <= |s| && TrimBack(s) == s[..j] && AllBlank(s[j..])
  {
    j := |s|;
    if s != "" && Blank(s[|s| - 1]) {
      j := TrimBackCuts(s[..|s| - 1]);
      assert s[j..] == s[..|s| - 1][j..] + [s[|s| - 1]];
    }
  }

  /** Only blanks at the ends are trimmed. */
  lemma TrimCuts(s: string) returns (i: nat, j: nat)
    ensures i <= j <= |s| && Trim(s) == s[i..j] && AllBlank(s[..i]) && AllBlank(s[j..])
  {
    i := TrimFrontCuts(s);
    j := TrimBackCuts(s[i..]);
    assert s[i..][j..] == s[i + j..];
    j := i + j;
  }
}
