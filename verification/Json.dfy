/**
  JSON trees, their text, and a reader for that text. How strings and numbers are written
  belongs to a library, represented by a `Codec`; all that is asked of it is `Lawful`.
 */
module Json {
  import opened ByteStrings

  datatype Codec = Codec(
    writeString: string -> Bytes,
    writeInt: int -> Bytes,
    writeFloat: Float -> Bytes,
    readString: Bytes -> Option<(string, Bytes)>,
    readNumber: Bytes -> Option<(Float, Bytes)>)

  /** Binary fractions, float64 values among them: a real that some power of two makes whole. */
  type Float = x: real | IsBinaryFraction(x) witness ToFloat(0)

  ghost predicate IsBinaryFraction(x: real) {
    exists m: int, k: nat :: Scaled(x, k, m)
  }

  predicate Scaled(x: real, k: nat, m: int) {
    x * Pow2(k) as real == m as real
  }

  function Pow2(k: nat): int {
    if k == 0 then 1 else 2 * Pow2(k - 1)
  }

  function ToFloat(n: int): (x: real)
    ensures IsBinaryFraction(x) && x == n as real
  {
    assert Scaled(n as real, 0, n);
    n as real
  }

  const QUOTE: Byte := 34
  const COMMA: Byte := 44
  const MINUS: Byte := 45
  const COLON: Byte := 58
  const OPEN: Byte := 123
  const CLOSE: Byte := 125
  const TRUE_TEXT: Bytes := [116, 114, 117, 101]
  const FALSE_TEXT: Bytes := [102, 97, 108, 115, 101]

  /** What may follow a value inside an object. */
  predicate Delimited(rest: Bytes) {
    rest == [] || rest[0] == COMMA || rest[0] == CLOSE
  }

  /** Text that needs no escaping. */
  predicate Plain(s: string) {
    forall i | 0 <= i < |s| :: 'a' <= s[i] <= 'z' || s[i] == '@' || s[i] == '_' || s[i] == '.'
  }

  predicate StartsNumber(b: Bytes) {
    b != [] && (48 <= b[0] <= 57 || b[0] == MINUS)
  }

  /** Strings are quoted and end themselves; numbers end at a delimiter; both read back. */
  ghost predicate Lawful(c: Codec) {
    && (forall s, rest :: LawfulString(c, s, rest))
    && (forall s | Plain(s) :: LawfulPlain(c, s))
    && (forall n, rest | Delimited(rest) :: LawfulNumber(c, c.writeInt(n), ToFloat(n), rest))
    && (forall x, rest | Delimited(rest) :: LawfulNumber(c, c.writeFloat(x), x, rest))
  }

  predicate LawfulString(c: Codec, s: string, rest: Bytes) {
    var text := c.writeString(s);
    text != [] && text[0] == QUOTE && c.readString(text + rest) == Some((s, rest))
  }

  predicate LawfulPlain(c: Codec, s: string)
    requires Plain(s)
  {
    c.writeString(s) == [QUOTE] + Ascii(s) + [QUOTE]
  }

  predicate LawfulNumber(c: Codec, text: Bytes, x: Float, rest: Bytes) {
    StartsNumber(text) && c.readNumber(text + rest) == Some((x, rest))
  }

  // ---------------------------------------------------------------- trees and text

  datatype Json = Obj(members: Members) | Str(s: string) | Int(n: int) | Num(x: Float) | Bool(b: bool)

  datatype Members = Done | Field(key: string, value: Json, rest: Members)

  function Print(c: Codec, j: Json): Bytes {
    match j
    case Obj(ms) => [OPEN] + PrintMembers(c, ms) + [CLOSE]
    case Str(s) => c.writeString(s)
    case Int(n) => c.writeInt(n)
    case Num(x) => c.writeFloat(x)
    case Bool(b) => if b then TRUE_TEXT else FALSE_TEXT
  }

  function PrintMembers(c: Codec, ms: Members): Bytes {
    match ms
    case Done => []
    case Field(k, v, rest) =>
      PrintMember(c, k, Print(c, v)) + if rest.Done? then [] else [COMMA] + PrintMembers(c, rest)
  }

  function PrintMember(c: Codec, k: string, value: Bytes): Bytes {
    c.writeString(k) + [COLON] + value
  }

  /** The value that starts `b`, and what follows it. */
  function Parse(c: Codec, b: Bytes): (r: Option<(Json, Bytes)>)
    ensures r.Some? ==> |r.value.1| < |b|
    decreases |b|
  {
    if b == [] then
      None
    else if b[0] == OPEN then
      if |b| > 1 && b[1] == CLOSE then
        Some((Obj(Done), b[2..]))
      else
        match ParseMembers(c, b[1..])
        case None => None
        case Some(r) => Some((Obj(r.0), r.1))
    else if b[0] == QUOTE then
      match c.readString(b)
      case None => None
      case Some(r) => if |r.1| < |b| then Some((Str(r.0), r.1)) else None
    else if TRUE_TEXT <= b then
      Some((Bool(true), b[4..]))
    else if FALSE_TEXT <= b then
      Some((Bool(false), b[5..]))
    else
      match c.readNumber(b)
      case None => None
      case Some(r) => if |r.1| < |b| then Some((Num(r.0), r.1)) else None
  }

  /** Members up to and including the closing brace. */
  function ParseMembers(c: Codec, b: Bytes): (r: Option<(Members, Bytes)>)
    ensures r.Some? ==> |r.value.1| < |b|
    decreases |b|
  {
    match c.readString(b)
    case None => None
    case Some(key) =>
      if !(0 < |key.1| < |b|) || key.1[0] != COLON then
        None
      else
        match Parse(c, key.1[1..])
        case None => None
        case Some(value) =>
          if value.1 == [] then
            None
          else if value.1[0] == CLOSE then
            Some((Field(key.0, value.0, Done), value.1[1..]))
          else if value.1[0] != COMMA then
            None
          else
            match ParseMembers(c, value.1[1..])
            case None => None
            case Some(more) => Some((Field(key.0, value.0, more.0), more.1))
  }

  /** Text does not tell an integer from another number. */
  function Erase(j: Json): Json {
    match j
    case Obj(ms) => Obj(EraseMembers(ms))
    case Int(n) => Num(ToFloat(n))
    case _ => j
  }

  function EraseMembers(ms: Members): Members {
    match ms
    case Done => Done
    case Field(k, v, rest) => Field(k, Erase(v), EraseMembers(rest))
  }

  /** The text of a tree is well-formed and parses back to it, whatever delimiter follows. */
  lemma {:induction false} ParsePrint(c: Codec, j: Json, rest: Bytes)
    requires Lawful(c) && Delimited(rest)
    ensures Parse(c, Print(c, j) + rest) == Some((Erase(j), rest))
    decreases j
  {
    var text := Print(c, j) + rest;
    match j
    case Obj(ms) =>
      if ms.Done? {
        assert Print(c, j) == [OPEN, CLOSE];
        assert text[2..] == rest;
      } else {
        assert text[1..] == PrintMembers(c, ms) + [CLOSE] + rest;
        ParsePrintMembers(c, ms, rest);
        assert LawfulString(c, ms.key, []);
        assert PrintMembers(c, ms)[0] == QUOTE;
      }
    case Str(s) => assert LawfulString(c, s, rest);
    case Int(n) => NumberRead(c, c.writeInt(n), ToFloat(n), rest);
    case Num(x) => NumberRead(c, c.writeFloat(x), x, rest);
    case Bool(b) =>
      assert text[..if b then 4 else 5] == if b then TRUE_TEXT else FALSE_TEXT;
  }

  lemma NumberRead(c: Codec, text: Bytes, x: Float, rest: Bytes)
    requires LawfulNumber(c, text, x, rest)
    ensures Parse(c, text + rest) == Some((Num(x), rest))
  {
    assert (text + rest)[0] == text[0];
  }

  lemma {:induction false} ParsePrintMembers(c: Codec, ms: Members, rest: Bytes)
    requires Lawful(c) && ms.Field?
    ensures ParseMembers(c, PrintMembers(c, ms) + [CLOSE] + rest) == Some((EraseMembers(ms), rest))
    decreases ms
  {
    var text := PrintMembers(c, ms) + [CLOSE] + rest;
    var after := if ms.rest.Done? then [CLOSE] + rest else [COMMA] + (PrintMembers(c, ms.rest) + [CLOSE] + rest);
    var value := Print(c, ms.value) + after;
    assert text == c.writeString(ms.key) + ([COLON] + value);
    assert LawfulString(c, ms.key, [COLON] + value);
    assert ([COLON] + value)[1..] == value;
    ParsePrint(c, ms.value, after);
    if ms.rest.Done? {
      assert after[1..] == rest;
    } else {
      assert after[1..] == PrintMembers(c, ms.rest) + [CLOSE] + rest;
      ParsePrintMembers(c, ms.rest, rest);
    }
  }

  /** The library escapes newlines in strings, and writes none in numbers. */
  ghost predicate WritesNoNewline(c: Codec) {
    && (forall s :: NEWLINE !in c.writeString(s))
    && (forall n :: NEWLINE !in c.writeInt(n))
    && (forall x :: NEWLINE !in c.writeFloat(x))
  }

  /** Then the text of a tree is a single line, as an entry of the batch has to be. */
  lemma {:induction false} PrintIsOneLine(c: Codec, j: Json)
    requires WritesNoNewline(c)
    ensures NEWLINE !in Print(c, j)
    decreases j
  {
    if j.Obj? {
      PrintMembersIsOneLine(c, j.members);
    }
  }

  lemma {:induction false} PrintMembersIsOneLine(c: Codec, ms: Members)
    requires WritesNoNewline(c)
    ensures NEWLINE !in PrintMembers(c, ms)
    decreases ms
  {
    if ms.Field? {
      PrintIsOneLine(c, ms.value);
      PrintMembersIsOneLine(c, ms.rest);
    }
  }

  // ---------------------------------------------------------------- members

  /** One more member at the end. */
  function Add(ms: Members, k: string, v: Json): Members {
    match ms
    case Done => Field(k, v, Done)
    case Field(k', v', rest) => Field(k', v', Add(rest, k, v))
  }

  /** The value of the first member with this key. */
  function Get(ms: Members, k: string): Option<Json> {
    match ms
    case Done => None
    case Field(k', v, rest) => if k == k' then Some(v) else Get(rest, k)
  }

  lemma {:induction false} GetAdd(ms: Members, k: string, v: Json, x: string)
    ensures Get(Add(ms, k, v), x) == if Get(ms, x).Some? then Get(ms, x) else if x == k then Some(v) else None
  {
    if ms.Field? {
      GetAdd(ms.rest, k, v, x);
    }
  }

  lemma {:induction false} EraseAdd(ms: Members, k: string, v: Json)
    ensures EraseMembers(Add(ms, k, v)) == Add(EraseMembers(ms), k, Erase(v))
  {
    if ms.Field? {
      EraseAdd(ms.rest, k, v);
    }
  }

  lemma {:induction false} PrintAdd(c: Codec, ms: Members, k: string, v: Json)
    ensures PrintMembers(c, Add(ms, k, v))
         == PrintMembers(c, ms) + (if ms.Done? then [] else [COMMA]) + PrintMember(c, k, Print(c, v))
  {
    var added := PrintMember(c, k, Print(c, v));
    match ms
    case Done =>
      assert PrintMembers(c, Field(k, v, Done)) == added;
    case Field(k', v', rest) =>
      var first, more := PrintMember(c, k', Print(c, v')), PrintMembers(c, rest);
      PrintAdd(c, rest, k, v);
      if rest.Done? {
        AppendNothing(first);
        Reassociate(first, [COMMA], added);
        assert PrintMembers(c, Add(rest, k, v)) == added;
      } else {
        Reassociate([COMMA], more + [COMMA], added);
        Reassociate([COMMA], more, [COMMA]);
        Reassociate(first, [COMMA] + more + [COMMA], added);
        Reassociate(first, [COMMA] + more, [COMMA]);
      }
  }
}
