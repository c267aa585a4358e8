/**
 * JSON values as the server prints them and the browser reads them back.
 *
 * `Dumps` is Python's `json.dumps` with its default settings (separators `", "` and `": "`, every
 * character outside printable ASCII escaped). `Parse` is a recursive-descent reader of RFC 8259
 * texts, standing for `JSON.parse`. `ParseInvertsDumps` says reading undoes printing.
 */
module Json {
  import opened Sequences
  import opened Wrappers

  datatype Member = Member(name: string, value: Json)

  /** A JSON value. A number is kept as its literal, so no rounding enters. */
  datatype Json =
    | Null
    | Bool(b: bool)
    | Number(literal: string)
    | Text(s: string)
    | Array(items: seq<Json>)
    | Object(members: seq<Member>)

  // ---------- Numbers (section 6 of RFC 8259) ----------

  predicate IsDigit(c: char) { '0' <= c <= '9' }

  predicate IsNumberChar(c: char) {
    IsDigit(c) || c == '-' || c == '+' || c == '.' || c == 'e' || c == 'E'
  }

  /** States of the number grammar: which part of the literal was read last. */
  datatype NumberPart = Start | Minus | Zero | Whole | Point | Fraction | Exponent | ExponentSign | Power | Bad

  function NumberStep(at: NumberPart, c: char): NumberPart {
    match at
    case Start => if c == '-' then Minus else if c == '0' then Zero else if IsDigit(c) then Whole else Bad
    case Minus => if c == '0' then Zero else if IsDigit(c) then Whole else Bad
    case Zero => if c == '.' then Point else if c == 'e' || c == 'E' then Exponent else Bad
    case Whole => if IsDigit(c) then Whole else if c == '.' then Point
                  else if c == 'e' || c == 'E' then Exponent else Bad
    case Point => if IsDigit(c) then Fraction else Bad
    case Fraction => if IsDigit(c) then Fraction else if c == 'e' || c == 'E' then Exponent else Bad
    case Exponent => if c == '+' || c == '-' then ExponentSign else if IsDigit(c) then Power else Bad
    case ExponentSign => if IsDigit(c) then Power else Bad
    case Power => if IsDigit(c) then Power else Bad
    case Bad => Bad
  }

  function NumberEnd(at: NumberPart, s: string): NumberPart
    decreases |s|
  {
    if s == "" then at else NumberEnd(NumberStep(at, s[0]), s[1..])
  }

  /** `s` is a number of the RFC 8259 grammar. */
  predicate IsNumber(s: string) {
    && s != ""
    && (s[0] == '-' || IsDigit(s[0]))
    && (forall c <- s :: IsNumberChar(c))
    && NumberEnd(Start, s) in {Zero, Whole, Fraction, Power}
  }

  /** Every number inside the value has a valid literal. */
  predicate Valid(j: Json) {
    match j
    case Number(literal) => IsNumber(literal)
    case Array(items) => forall i | 0 <= i < |items| :: Valid(items[i])
    case Object(members) => forall i | 0 <= i < |members| :: Valid(members[i].value)
    case _ => true
  }

  // ---------- Printing ----------

  function HexDigit(d: nat): char
    requires d < 16
  {
    if d < 10 then ('0' as int + d) as char else ('a' as int + (d - 10)) as char
  }

  function Hex4(n: nat): string
    requires n < 0x10000
  {
    [HexDigit(n / 4096), HexDigit(n / 256 % 16), HexDigit(n / 16 % 16), HexDigit(n % 16)]
  }

  /** One character of a JSON string; above U+FFFF it becomes a UTF-16 surrogate pair. */
  function EscapeChar(c: char): string {
    if c == '"' then "\\\""
    else if c == '\\' then "\\\\"
    else if c == '\n' then "\\n"
    else if c == '\r' then "\\r"
    else if c == '\t' then "\\t"
    else if c == 8 as char then "\\b"
    else if c == 12 as char then "\\f"
    else if ' ' <= c <= '~' then [c]
    else UnicodeEscape(c)
  }

  function UnicodeEscape(c: char): string {
    if c as int < 0x10000 then "\\u" + Hex4(c as int)
    else
      var v := c as int - 0x10000;
      "\\u" + (Hex4(0xD800 + v / 0x400) + ("\\u" + Hex4(0xDC00 + v % 0x400)))
  }

  function Escape(s: string): string {
    if s == "" then "" else EscapeChar(s[0]) + Escape(s[1..])
  }

  function Quote(s: string): string {
    "\"" + (Escape(s) + "\"")
  }

  function Dumps(j: Json): string
    decreases j
  {
    match j
    case Null => "null"
    case Bool(b) => if b then "true" else "false"
    case Number(literal) => literal
    case Text(s) => Quote(s)
    case Array(items) => if items == [] then "[]" else "[" + DumpItems(items)
    case Object(members) => if members == [] then "{}" else "{" + DumpMembers(members)
  }

  /** The items and the closing bracket. */
  function DumpItems(items: seq<Json>): string
    requires items != []
    decreases items
  {
    Dumps(items[0]) + if |items| == 1 then "]" else ", " + DumpItems(items[1..])
  }

  /** The members and the closing brace. */
  function DumpMembers(members: seq<Member>): string
    requires members != []
    decreases members
  {
    Quote(members[0].name) + (": " + (Dumps(members[0].value) +
      if |members| == 1 then "}" else ", " + DumpMembers(members[1..])))
  }

  // ---------- Reading ----------

  predicate IsBlank(c: char) { c == ' ' || c == '\n' || c == '\r' || c == '\t' }

  function SkipBlanks(s: string): (r: string)
    ensures |r| <= |s|
  {
    if s != "" && IsBlank(s[0]) then SkipBlanks(s[1..]) else s
  }

  function HexValue(c: char): Option<nat> {
    if '0' <= c <= '9' then Some(c as int - '0' as int)
    else if 'a' <= c <= 'f' then Some(c as int - 'a' as int + 10)
    else if 'A' <= c <= 'F' then Some(c as int - 'A' as int + 10)
    else None
  }

  /** The code unit written by the first four characters, if they are hexadecimal digits. */
  function ReadHex4(s: string): (r: Option<nat>)
    ensures r.Some? ==> |s| >= 4 && r.value < 0x10000
  {
    if |s| < 4 then None else
    match (HexValue(s[0]), HexValue(s[1]), HexValue(s[2]), HexValue(s[3]))
    case (Some(a), Some(b), Some(c), Some(d)) =>
      if a < 16 && b < 16 && c < 16 && d < 16 then Some(a * 4096 + b * 256 + c * 16 + d) else None
    case _ => None
  }

  predicate IsHighSurrogate(n: nat) { 0xD800 <= n < 0xDC00 }
  predicate IsLowSurrogate(n: nat) { 0xDC00 <= n < 0xE000 }

  /** The character after a backslash and the rest of the text; lone surrogates are not characters. */
  function ReadEscape(s: string): (r: Option<(char, string)>)
    ensures r.Some? ==> |r.value.1| < |s|
  {
    if s == "" then None
    else if s[0] == '"' || s[0] == '\\' || s[0] == '/' then Some((s[0], s[1..]))
    else if s[0] == 'n' then Some(('\n', s[1..]))
    else if s[0] == 'r' then Some(('\r', s[1..]))
    else if s[0] == 't' then Some(('\t', s[1..]))
    else if s[0] == 'b' then Some((8 as char, s[1..]))
    else if s[0] == 'f' then Some((12 as char, s[1..]))
    else if s[0] == 'u' then ReadUnicode(s[1..])
    else None
  }

  function ReadUnicode(s: string): (r: Option<(char, string)>)
    ensures r.Some? ==> |r.value.1| < |s|
  {
    match ReadHex4(s)
    case None => None
    case Some(n) =>
      if !IsHighSurrogate(n) && !IsLowSurrogate(n) then Some((n as char, s[4..]))
      else if IsHighSurrogate(n) && |s| >= 6 && s[4] == '\\' && s[5] == 'u' then
        match ReadHex4(s[6..])
        case Some(m) =>
          if IsLowSurrogate(m) then Some(((0x10000 + (n - 0xD800) * 0x400 + (m - 0xDC00)) as char, s[10..])) else None
        case None => None
      else None
  }

  /** The rest of a string after its opening quote. */
  function ReadString(s: string): (r: Option<(string, string)>)
    ensures r.Some? ==> |r.value.1| < |s|
  {
    if s == "" then None
    else if s[0] == '"' then Some(("", s[1..]))
    else if s[0] == '\\' then
      match ReadEscape(s[1..])
      case None => None
      case Some((c, rest)) => PutFirst(c, ReadString(rest))
    else if s[0] < ' ' then None
    else PutFirst(s[0], ReadString(s[1..]))
  }

  function PutFirst(c: char, r: Option<(string, string)>): (q: Option<(string, string)>)
    ensures q.Some? <==> r.Some?
    ensures q.Some? ==> q.value == ([c] + r.value.0, r.value.1)
  {
    match r
    case None => None
    case Some((t, rest)) => Some(([c] + t, rest))
  }

  /** How many leading characters could belong to a number. */
  function NumberSpan(s: string): (n: nat)
    ensures n <= |s|
  {
    if s != "" && IsNumberChar(s[0]) then 1 + NumberSpan(s[1..]) else 0
  }

  /** One value at the front of the text, and the text after it. */
  function ReadValue(s: string): (r: Option<(Json, string)>)
    ensures r.Some? ==> |r.value.1| < |s|
    decreases |s|, 1
  {
    if s == "" then None
    else if s[0] == '"' then
      match ReadString(s[1..])
      case None => None
      case Some((t, rest)) => Some((Text(t), rest))
    else if s[0] == '[' then
      var body := SkipBlanks(s[1..]);
      if body != "" && body[0] == ']' then Some((Array([]), body[1..]))
      else
        match ReadItems(body)
        case None => None
        case Some((items, rest)) => Some((Array(items), rest))
    else if s[0] == '{' then
      var body := SkipBlanks(s[1..]);
      if body != "" && body[0] == '}' then Some((Object([]), body[1..]))
      else
        match ReadMembers(body)
        case None => None
        case Some((members, rest)) => Some((Object(members), rest))
    else if "null" <= s then Some((Null, s[4..]))
    else if "true" <= s then Some((Bool(true), s[4..]))
    else if "false" <= s then Some((Bool(false), s[5..]))
    else
      var n := NumberSpan(s);
      if IsNumber(s[..n]) then Some((Number(s[..n]), s[n..])) else None
  }

  /** Items up to and including the closing bracket. */
  function ReadItems(s: string): (r: Option<(seq<Json>, string)>)
    ensures r.Some? ==> |r.value.1| < |s|
    decreases |s|, 2
  {
    match ReadValue(s)
    case None => None
    case Some((j, after)) =>
      var next := SkipBlanks(after);
      if next == "" then None
      else if next[0] == ']' then Some(([j], next[1..]))
      else if next[0] == ',' then
        match ReadItems(SkipBlanks(next[1..]))
        case None => None
        case Some((items, rest)) => Some(([j] + items, rest))
      else None
  }

  /** Members up to and including the closing brace. */
  function ReadMembers(s: string): (r: Option<(seq<Member>, string)>)
    ensures r.Some? ==> |r.value.1| < |s|
    decreases |s|, 2
  {
    if s == "" || s[0] != '"' then None else
    match ReadString(s[1..])
    case None => None
    case Some((name, afterName)) =>
      var colon := SkipBlanks(afterName);
      if colon == "" || colon[0] != ':' then None else
      match ReadValue(SkipBlanks(colon[1..]))
      case None => None
      case Some((j, after)) =>
        var next := SkipBlanks(after);
        if next == "" then None
        else if next[0] == '}' then Some(([Member(name, j)], next[1..]))
        else if next[0] == ',' then
          match ReadMembers(SkipBlanks(next[1..]))
          case None => None
          case Some((members, rest)) => Some(([Member(name, j)] + members, rest))
        else None
  }

  /** `JSON.parse`: one value, blanks around it, nothing else. */
  function Parse(s: string): Option<Json> {
    match ReadValue(SkipBlanks(s))
    case None => None
    case Some((j, rest)) => if SkipBlanks(rest) == "" then Some(j) else None
  }

  // ---------- Reading undoes printing ----------

  lemma {:induction false} HexDigitReadsBack(d: nat)
    requires d < 16
    ensures HexValue(HexDigit(d)) == Some(d)
  {
  }

  lemma {:induction false} NibbleOf(n: nat)
    ensures n == n / 16 * 16 + n % 16
  {
  }

  lemma {:induction false} NibblesSum(n: nat)
    requires n < 0x10000
    ensures n / 4096 < 16
    ensures n == n / 4096 * 4096 + n / 256 % 16 * 256 + n / 16 % 16 * 16 + n % 16
  {
    var a := n / 16;
    var b := a / 16;
    var c := b / 16;
    NibbleOf(n);
    NibbleOf(a);
    NibbleOf(b);
    assert b == n / 256 && c == n / 4096;
  }

  lemma {:induction false} ReadHex4OfHex4(n: nat, rest: string)
    requires n < 0x10000
    ensures ReadHex4(Hex4(n) + rest) == Some(n)
    ensures (Hex4(n) + rest)[4..] == rest
  {
    NibblesSum(n);
    var a, b, c, d := n / 4096, n / 256 % 16, n / 16 % 16, n % 16;
    var s := Hex4(n) + rest;
    HexDigitReadsBack(a);
    HexDigitReadsBack(b);
    HexDigitReadsBack(c);
    HexDigitReadsBack(d);
    assert s[0] == HexDigit(a) && s[1] == HexDigit(b) && s[2] == HexDigit(c) && s[3] == HexDigit(d);
  }

  /** A character above U+FFFF comes back from its surrogate pair. */
  lemma {:induction false} ReadSurrogates(v: nat, rest: string)
    requires v < 0x100000
    ensures ReadUnicode(Hex4(0xD800 + v / 0x400) + ("\\u" + Hex4(0xDC00 + v % 0x400)) + rest)
         == Some(((0x10000 + v) as char, rest))
  {
    var hi, lo := 0xD800 + v / 0x400, 0xDC00 + v % 0x400;
    var tail := "\\u" + (Hex4(lo) + rest);
    var s := Hex4(hi) + tail;
    assert Hex4(hi) + ("\\u" + Hex4(lo)) + rest == s;
    ReadHex4OfHex4(hi, tail);
    ReadHex4OfHex4(lo, rest);
    assert s[4..] == tail && s[6..] == Hex4(lo) + rest && s[10..] == rest;
    assert s[4] == tail[0] && s[5] == tail[1];
  }

  /** The characters with a two-character escape. */
  predicate HasShortEscape(c: char) {
    c == '"' || c == '\\' || c == '\n' || c == '\r' || c == '\t' || c == 8 as char || c == 12 as char
  }

  lemma {:induction false} ReadShortEscape(c: char, rest: string)
    requires HasShortEscape(c)
    ensures |EscapeChar(c)| == 2 && EscapeChar(c)[0] == '\\'
    ensures ReadEscape([EscapeChar(c)[1]] + rest) == Some((c, rest))
  {
    assert ([EscapeChar(c)[1]] + rest)[1..] == rest;
  }

  lemma {:induction false} ReadUnicodeEscape(c: char, rest: string)
    requires !HasShortEscape(c) && !(' ' <= c <= '~')
    ensures UnicodeEscape(c)[..2] == "\\u"
    ensures ReadUnicode(UnicodeEscape(c)[2..] + rest) == Some((c, rest))
  {
    if c as int < 0x10000 {
      assert UnicodeEscape(c)[2..] == Hex4(c as int);
      ReadHex4OfHex4(c as int, rest);
    } else {
      var v := c as int - 0x10000;
      assert UnicodeEscape(c)[2..] == Hex4(0xD800 + v / 0x400) + ("\\u" + Hex4(0xDC00 + v % 0x400));
      ReadSurrogates(v, rest);
    }
  }

  lemma {:induction false} ReadEscapeOfUnit(tail: string, c: char, rest: string)
    requires ReadUnicode(tail) == Some((c, rest))
    ensures ReadEscape("u" + tail) == Some((c, rest))
  {
    assert ("u" + tail)[1..] == tail;
  }

  lemma {:induction false} SplitEscape(e: string, rest: string)
    requires |e| >= 2 && e[..2] == "\\u"
    ensures e[0] == '\\' && e[1..] + rest == "u" + (e[2..] + rest)
  {
    assert e[0] == e[..2][0] && e[1] == e[..2][1];
    assert e[1..] == "u" + e[2..];
  }

  lemma {:induction false} ReadLongEscape(c: char, rest: string)
    requires !HasShortEscape(c) && !(' ' <= c <= '~')
    ensures EscapeChar(c) != "" && EscapeChar(c)[0] == '\\'
    ensures ReadEscape(EscapeChar(c)[1..] + rest) == Some((c, rest))
  {
    ReadUnicodeEscape(c, rest);
    SplitEscape(UnicodeEscape(c), rest);
    ReadEscapeOfUnit(UnicodeEscape(c)[2..] + rest, c, rest);
  }

  /** Reading one printed character gives that character back and nothing more. */
  lemma {:induction false} ReadEscapedChar(c: char, rest: string)
    ensures ReadString(EscapeChar(c) + rest) == PutFirst(c, ReadString(rest))
  {
    var e := EscapeChar(c);
    var s := e + rest;
    if HasShortEscape(c) {
      ReadShortEscape(c, rest);
      assert s[1..] == [e[1]] + rest;
    } else if ' ' <= c <= '~' {
      assert s[1..] == rest;
    } else {
      ReadLongEscape(c, rest);
      assert s[1..] == e[1..] + rest;
    }
  }

  lemma {:induction false} ReadQuoted(s: string, rest: string)
    ensures ReadString(Escape(s) + ("\"" + rest)) == Some((s, rest))
  {
    var closing := "\"" + rest;
    if s == "" {
      assert Escape(s) + closing == closing;
      assert closing[1..] == rest;
    } else {
      assert Escape(s) + closing == EscapeChar(s[0]) + (Escape(s[1..]) + closing);
      ReadEscapedChar(s[0], Escape(s[1..]) + closing);
      ReadQuoted(s[1..], rest);
      assert s == [s[0]] + s[1..];
    }
  }

  lemma {:induction false} NumberSpanOfLiteral(literal: string, rest: string)
    requires forall c <- literal :: IsNumberChar(c)
    requires rest != "" ==> !IsNumberChar(rest[0])
    ensures NumberSpan(literal + rest) == |literal|
  {
    var s := literal + rest;
    if literal == "" {
      assert s == rest;
    } else {
      assert s[0] == literal[0] && s[1..] == literal[1..] + rest;
      NumberSpanOfLiteral(literal[1..], rest);
    }
  }

  /** A printed value starts with a visible character that closes no list. */
  lemma {:induction false} DumpsStarts(j: Json)
    requires Valid(j)
    ensures Dumps(j) != ""
    ensures !IsBlank(Dumps(j)[0]) && Dumps(j)[0] != ']' && Dumps(j)[0] != '}'
  {
  }

  /** Reading a printed value gives it back, whatever follows it, unless a number could go on. */
  lemma {:induction false} ReadDumped(j: Json, rest: string)
    requires Valid(j)
    requires rest != "" ==> !IsNumberChar(rest[0])
    ensures ReadValue(Dumps(j) + rest) == Some((j, rest))
    decreases j, 1
  {
    match j
    case Array(items) =>
      if items != [] {
        ReadDumpedItems(items, rest);
      }
      ReadDumpedArray(items, rest);
    case Object(members) =>
      if members != [] {
        ReadDumpedMembers(members, rest);
      }
      ReadDumpedObject(members, rest);
    case Number(literal) =>
      ReadDumpedNumber(literal, rest);
    case _ =>
      ReadDumpedScalar(j, rest);
  }

  lemma {:induction false} ReadDumpedScalar(j: Json, rest: string)
    requires j.Null? || j.Bool? || j.Text?
    ensures ReadValue(Dumps(j) + rest) == Some((j, rest))
  {
    match j
    case Null => AfterWord("null", rest);
    case Bool(b) => AfterWord(if b then "true" else "false", rest);
    case Text(t) => ReadDumpedText(t, rest);
  }

  lemma {:induction false} AfterWord(word: string, rest: string)
    ensures word <= word + rest && (word + rest)[|word|..] == rest
  {
  }

  lemma {:induction false} ReadDumpedText(t: string, rest: string)
    ensures ReadValue(Quote(t) + rest) == Some((Text(t), rest))
  {
    AfterQuote(t, rest);
    ReadQuoted(t, rest);
  }

  lemma {:induction false} ReadDumpedNumber(literal: string, rest: string)
    requires IsNumber(literal)
    requires rest != "" ==> !IsNumberChar(rest[0])
    ensures ReadValue(literal + rest) == Some((Number(literal), rest))
  {
    var s := literal + rest;
    NumberSpanOfLiteral(literal, rest);
    assert s[..|literal|] == literal && s[|literal|..] == rest;
    assert s[0] == literal[0];
  }

  lemma {:induction false} ReadDumpedArray(items: seq<Json>, rest: string)
    requires Valid(Array(items))
    requires items != [] ==> ReadItems(DumpItems(items) + rest) == Some((items, rest))
    ensures ReadValue(Dumps(Array(items)) + rest) == Some((Array(items), rest))
  {
    if items == [] {
      Headed('[', "]", rest);
      assert ("]" + rest)[1..] == rest;
    } else {
      Headed('[', DumpItems(items), rest);
      DumpsStarts(items[0]);
      assert (DumpItems(items) + rest)[0] == Dumps(items[0])[0];
    }
  }

  lemma {:induction false} ReadDumpedObject(members: seq<Member>, rest: string)
    requires members != [] ==> ReadMembers(DumpMembers(members) + rest) == Some((members, rest))
    ensures ReadValue(Dumps(Object(members)) + rest) == Some((Object(members), rest))
  {
    if members == [] {
      Headed('{', "}", rest);
      assert ("}" + rest)[1..] == rest;
    } else {
      Headed('{', DumpMembers(members), rest);
      assert (DumpMembers(members) + rest)[0] == '"';
    }
  }

  /** Dropping the first character of a text that starts with `c`. */
  lemma {:induction false} Headed(c: char, x: string, rest: string)
    ensures ([c] + x + rest)[0] == c && ([c] + x + rest)[1..] == x + rest
  {
  }

  /** What the reader sees after a separator: the next element, with no blank left. */
  lemma {:induction false} Separated(sep: char, x: string, rest: string)
    requires x != "" && !IsBlank(x[0])
    ensures var s := [sep, ' '] + x + rest;
            s[0] == sep && SkipBlanks(s[1..]) == x + rest
  {
    var s := [sep, ' '] + x + rest;
    assert s[1..] == " " + (x + rest) && s[1..][1..] == x + rest;
    assert (x + rest)[0] == x[0];
  }

  lemma {:induction false} ReadDumpedItems(items: seq<Json>, rest: string)
    requires items != [] && forall i | 0 <= i < |items| :: Valid(items[i])
    ensures ReadItems(DumpItems(items) + rest) == Some((items, rest))
    decreases items, 0
  {
    var tail := if |items| == 1 then "]" else ", " + DumpItems(items[1..]);
    Associate(Dumps(items[0]), tail, rest);
    assert !IsBlank((tail + rest)[0]);
    ReadDumped(items[0], tail + rest);
    if |items| == 1 {
      assert (tail + rest)[1..] == rest;
      assert items == [items[0]];
    } else {
      DumpsStarts(items[1]);
      Separated(',', DumpItems(items[1..]), rest);
      ReadDumpedItems(items[1..], rest);
      assert items == [items[0]] + items[1..];
    }
  }

  lemma {:induction false} ReadDumpedMembers(members: seq<Member>, rest: string)
    requires members != [] && forall i | 0 <= i < |members| :: Valid(members[i].value)
    ensures ReadMembers(DumpMembers(members) + rest) == Some((members, rest))
    decreases members, 0
  {
    var m := members[0];
    if |members| == 1 {
      ReadDumped(m.value, "}" + rest);
      Regroup(Quote(m.name), ": ", Dumps(m.value), "}", rest);
      ReadLastMember(m, rest);
      assert members == [m];
    } else {
      var tail := ", " + DumpMembers(members[1..]);
      assert (tail + rest)[0] == ',';
      ReadDumped(m.value, tail + rest);
      Regroup(Quote(m.name), ": ", Dumps(m.value), tail, rest);
      ReadDumpedMembers(members[1..], rest);
      ReadNextMember(m, members[1..], rest);
      assert members == [m] + members[1..];
    }
  }

  lemma {:induction false} ReadLastMember(m: Member, rest: string)
    requires Valid(m.value)
    requires ReadValue(Dumps(m.value) + ("}" + rest)) == Some((m.value, "}" + rest))
    ensures ReadMembers(Quote(m.name) + (": " + (Dumps(m.value) + ("}" + rest)))) == Some(([m], rest))
  {
    ReadFirstMember(m, "}" + rest);
    assert ("}" + rest)[1..] == rest;
  }

  lemma {:induction false} ReadNextMember(m: Member, more: seq<Member>, rest: string)
    requires Valid(m.value) && more != []
    requires var after := ", " + DumpMembers(more) + rest;
             ReadValue(Dumps(m.value) + after) == Some((m.value, after))
    requires ReadMembers(DumpMembers(more) + rest) == Some((more, rest))
    ensures ReadMembers(Quote(m.name) + (": " + (Dumps(m.value) + (", " + DumpMembers(more) + rest))))
         == Some(([m] + more, rest))
  {
    ReadFirstMember(m, ", " + DumpMembers(more) + rest);
    Separated(',', DumpMembers(more), rest);
  }

  lemma {:induction false} Regroup(a: string, b: string, c: string, d: string, e: string)
    ensures a + (b + (c + d)) + e == a + (b + (c + (d + e)))
  {
  }

  /** Reading one printed member leaves the text after its value. */
  lemma {:induction false} AfterQuote(name: string, rest: string)
    ensures (Quote(name) + rest)[0] == '"' && (Quote(name) + rest)[1..] == Escape(name) + ("\"" + rest)
  {
  }

  lemma {:induction false} AfterColon(value: string)
    requires value != "" && !IsBlank(value[0])
    ensures SkipBlanks(": " + value) == ": " + value && SkipBlanks((": " + value)[1..]) == value
  {
    assert (": " + value)[1..] == " " + value && (" " + value)[1..] == value;
  }

  lemma {:induction false} ReadFirstMember(m: Member, after: string)
    requires Valid(m.value)
    requires ReadValue(Dumps(m.value) + after) == Some((m.value, after))
    ensures var s := Quote(m.name) + (": " + (Dumps(m.value) + after));
            var colon := ": " + (Dumps(m.value) + after);
            && s[0] == '"' && ReadString(s[1..]) == Some((m.name, colon))
            && SkipBlanks(colon) == colon && ReadValue(SkipBlanks(colon[1..])) == Some((m.value, after))
  {
    var value := Dumps(m.value) + after;
    AfterQuote(m.name, ": " + value);
    ReadQuoted(m.name, ": " + value);
    DumpsStarts(m.value);
    assert value[0] == Dumps(m.value)[0];
    AfterColon(value);
  }

  /** `JSON.parse` inverts `json.dumps` on every value. */
  lemma {:induction false} ParseInvertsDumps(j: Json)
    requires Valid(j)
    ensures Parse(Dumps(j)) == Some(j)
  {
    DumpsStarts(j);
    assert Dumps(j) + "" == Dumps(j);
    ReadDumped(j, "");
  }

  // ---------- Printed texts are one line of printable ASCII ----------

  predicate Printable(s: string) {
    forall i | 0 <= i < |s| :: ' ' <= s[i] <= '~'
  }

  lemma {:induction false} PrintableConcat(a: string, b: string)
    requires Printable(a) && Printable(b)
    ensures Printable(a + b)
  {
  }

  lemma {:induction false} Hex4Printable(n: nat)
    requires n < 0x10000
    ensures Printable(Hex4(n))
  {
    NibblesSum(n);
  }

  lemma {:induction false} UnitPrintable(n: nat)
    requires n < 0x10000
    ensures Printable("\\u" + Hex4(n))
  {
    Hex4Printable(n);
    PrintableConcat("\\u", Hex4(n));
  }

  lemma {:induction false} LongEscapePrintable(c: char)
    ensures Printable(UnicodeEscape(c))
  {
    if c as int < 0x10000 {
      UnitPrintable(c as int);
    } else {
      var v := c as int - 0x10000;
      UnitPrintable(0xD800 + v / 0x400);
      UnitPrintable(0xDC00 + v % 0x400);
      PrintableConcat("\\u" + Hex4(0xD800 + v / 0x400), "\\u" + Hex4(0xDC00 + v % 0x400));
    }
  }

  lemma {:induction false} EscapeCharPrintable(c: char)
    ensures Printable(EscapeChar(c))
  {
    if !HasShortEscape(c) && !(' ' <= c <= '~') {
      LongEscapePrintable(c);
    }
  }

  lemma {:induction false} EscapePrintable(s: string)
    ensures Printable(Escape(s))
  {
    if s != "" {
      EscapeCharPrintable(s[0]);
      EscapePrintable(s[1..]);
      PrintableConcat(EscapeChar(s[0]), Escape(s[1..]));
    }
  }

  lemma {:induction false} QuotePrintable(s: string)
    ensures Printable(Quote(s))
  {
    EscapePrintable(s);
    PrintableConcat(Escape(s), "\"");
  }

  /** `json.dumps` never emits a line break, nor anything outside printable ASCII. */
  lemma {:induction false} DumpsPrintable(j: Json)
    requires Valid(j)
    ensures Printable(Dumps(j))
    decreases j, 1
  {
    match j
    case Text(s) => QuotePrintable(s);
    case Array(items) => if items != [] { ItemsPrintable(items); }
    case Object(members) => if members != [] { MembersPrintable(members); }
    case Number(literal) =>
      forall i | 0 <= i < |literal| ensures ' ' <= literal[i] <= '~' {
        assert IsNumberChar(literal[i]);
      }
    case _ =>
  }

  lemma {:induction false} ItemsPrintable(items: seq<Json>)
    requires items != [] && forall i | 0 <= i < |items| :: Valid(items[i])
    ensures Printable(DumpItems(items))
    decreases items, 0
  {
    DumpsPrintable(items[0]);
    if |items| > 1 {
      ItemsPrintable(items[1..]);
      PrintableConcat(", ", DumpItems(items[1..]));
    }
  }

  lemma {:induction false} MembersPrintable(members: seq<Member>)
    requires members != [] && forall i | 0 <= i < |members| :: Valid(members[i].value)
    ensures Printable(DumpMembers(members))
    decreases members, 0
  {
    QuotePrintable(members[0].name);
    DumpsPrintable(members[0].value);
    var tail := if |members| == 1 then "}" else ", " + DumpMembers(members[1..]);
    if |members| > 1 {
      MembersPrintable(members[1..]);
      PrintableConcat(", ", DumpMembers(members[1..]));
    }
    PrintableConcat(Dumps(members[0].value), tail);
    PrintableConcat(": ", Dumps(members[0].value) + tail);
    PrintableConcat(Quote(members[0].name), ": " + (Dumps(members[0].value) + tail));
  }

  lemma {:induction false} MembersEndInBrace(members: seq<Member>)
    requires members != []
    ensures var s := DumpMembers(members); s != "" && s[|s| - 1] == '}'
  {
    if |members| > 1 {
      MembersEndInBrace(members[1..]);
    }
  }

  /** A printed object is framed by its braces. */
  lemma {:induction false} ObjectIsFramed(members: seq<Member>)
    ensures var s := Dumps(Object(members)); |s| >= 2 && s[0] == '{' && s[|s| - 1] == '}'
  {
    if members != [] {
      MembersEndInBrace(members);
    }
  }
}
