/**
 * What the JSON reader understands: the texts of RFC 8259, each as the value it spells, and nothing else.
 */
module JsonReading {
  import opened Json
  import opened JsonExtraction
  import opened Sequences
  import opened Wrappers

  // ---------- Strings (section 7 of RFC 8259) ----------

  /** One character of a string and how it is spelled. */
  datatype Letter =
    | Bare(c: char)
    | Short(mark: char)
    | Code(digits: string, unit: nat)
    | CodePair(first: string, high: nat, second: string, low: nat)

  const SHORT_ESCAPES: map<char, char> :=
    map['"' := '"', '\\' := '\\', '/' := '/', 'b' := 8 as char, 'f' := 12 as char,
        'n' := '\n', 'r' := '\r', 't' := '\t']

  /** `c` is the hexadecimal digit `d`, in either case. */
  predicate ShowsDigit(c: char, d: nat) {
    || (d < 10 && c as int == '0' as int + d)
    || (10 <= d < 16 && (c as int == 'a' as int + d - 10 || c as int == 'A' as int + d - 10))
  }

  /** Four hexadecimal digits and the code unit they show. */
  predicate ShowsUnit(digits: string, n: nat) {
    && |digits| == 4 && n < 0x10000
    && ShowsDigit(digits[0], n / 4096) && ShowsDigit(digits[1], n / 256 % 16)
    && ShowsDigit(digits[2], n / 16 % 16) && ShowsDigit(digits[3], n % 16)
  }

  predicate ValidLetter(l: Letter) {
    match l
    case Bare(c) => c >= ' ' && c != '"' && c != '\\'
    case Short(mark) => mark in SHORT_ESCAPES
    case Code(digits, unit) => ShowsUnit(digits, unit) && !(0xD800 <= unit < 0xE000)
    case CodePair(first, high, second, low) =>
      ShowsUnit(first, high) && 0xD800 <= high < 0xDC00 && ShowsUnit(second, low) && 0xDC00 <= low < 0xE000
  }

  function Meant(l: Letter): char
    requires ValidLetter(l)
  {
    match l
    case Bare(c) => c
    case Short(mark) => SHORT_ESCAPES[mark]
    case Code(_, unit) => unit as char
    case CodePair(_, high, _, low) => (0x10000 + (high - 0xD800) * 0x400 + (low - 0xDC00)) as char
  }

  function LetterText(l: Letter): string {
    match l
    case Bare(c) => [c]
    case Short(mark) => ['\\', mark]
    case Code(digits, _) => UnitText(digits)
    case CodePair(first, _, second, _) => UnitText(first) + UnitText(second)
  }

  function UnitText(digits: string): string { ['\\'] + (['u'] + digits) }

  predicate ValidLetters(ls: seq<Letter>) { forall i | 0 <= i < |ls| :: ValidLetter(ls[i]) }

  function Meaning(ls: seq<Letter>): (t: string)
    requires ValidLetters(ls)
    ensures |t| == |ls| && forall i | 0 <= i < |t| :: t[i] == Meant(ls[i])
  {
    seq(|ls|, i requires 0 <= i < |ls| => Meant(ls[i]))
  }

  function LettersText(ls: seq<Letter>): string {
    if ls == [] then "" else LetterText(ls[0]) + LettersText(ls[1..])
  }

  /** A string of the concrete syntax spells `t`. */
  ghost predicate SpellsText(pieces: seq<Piece>, t: string) {
    && (forall p <- pieces :: ValidPiece(p))
    && exists ls :: ValidLetters(ls) && LettersText(ls) == PrintPieces(pieces) && Meaning(ls) == t
  }

  // ---------- Values ----------

  /** The value a concrete syntax tree spells. */
  ghost predicate Spells(v: Syntax, j: Json)
    decreases v
  {
    match v
    case Word(text) =>
      || (text == "null" && j == Null) || (text == "true" && j == Bool(true)) || (text == "false" && j == Bool(false))
      || (IsNumber(text) && j == Number(text))
    case Str(pieces) => j.Text? && SpellsText(pieces, j.s)
    case Arr(blank, elems) =>
      && Blank(blank) && j.Array? && |elems| == |j.items|
      && forall i | 0 <= i < |elems| :: SpellsItem(elems[i], j.items[i])
    case Obj(blank, pairs) =>
      && Blank(blank) && j.Object? && |pairs| == |j.members|
      && forall i | 0 <= i < |pairs| :: SpellsMember(pairs[i], j.members[i])
  }

  ghost predicate SpellsItem(e: Element, j: Json)
    decreases e
  {
    Blank(e.before) && Blank(e.after) && Spells(e.value, j)
  }

  ghost predicate SpellsMember(p: Pair, m: Member)
    decreases p
  {
    Blank(p.before) && Blank(p.middle) && SpellsText(p.name, m.name) && SpellsItem(p.elem, m.value)
  }

  ghost predicate AllSpelled(elems: seq<Element>, items: seq<Json>) {
    elems != [] && |elems| == |items| && forall i | 0 <= i < |elems| :: SpellsItem(elems[i], items[i])
  }

  ghost predicate AllPaired(pairs: seq<Pair>, members: seq<Member>) {
    pairs != [] && |pairs| == |members| && forall i | 0 <= i < |pairs| :: SpellsMember(pairs[i], members[i])
  }

  /** A whole text: one value with blanks around it. */
  ghost predicate IsText(text: string, before: string, v: Syntax, after: string, j: Json) {
    text == before + (PrintSyntax(v) + after) && Blank(before) && Blank(after) && Spells(v, j)
  }

  // ---------- Hexadecimal digits ----------

  lemma {:induction false} DigitIsShown(c: char, d: nat)
    ensures HexValue(c) == Some(d) && d < 16 <==> ShowsDigit(c, d)
  {
  }

  lemma {:induction false} ShownUnit(digits: string, rest: string, n: nat)
    requires ShowsUnit(digits, n)
    ensures ReadHex4(digits + rest) == Some(n) && (digits + rest)[4..] == rest
  {
    var s, a, b, c, d := digits + rest, n / 4096, n / 256 % 16, n / 16 % 16, n % 16;
    assert s[0] == digits[0] && s[1] == digits[1] && s[2] == digits[2] && s[3] == digits[3];
    NibblesSum(n);
    DigitIsShown(digits[0], a);
    DigitIsShown(digits[1], b);
    DigitIsShown(digits[2], c);
    DigitIsShown(digits[3], d);
  }

  lemma {:induction false} ShowsFour(digits: string, a: nat, b: nat, c: nat, d: nat)
    requires |digits| == 4
    requires ShowsDigit(digits[0], a) && ShowsDigit(digits[1], b)
    requires ShowsDigit(digits[2], c) && ShowsDigit(digits[3], d)
    ensures ShowsUnit(digits, a * 4096 + b * 256 + c * 16 + d)
  {
    Nibbles(a, b, c, d);
  }

  lemma {:induction false} ValueIsShown(c: char)
    requires HexValue(c).Some?
    ensures ShowsDigit(c, HexValue(c).value)
  {
  }

  lemma {:induction false} ReadUnit(s: string)
    requires ReadHex4(s).Some?
    ensures |s| >= 4 && ShowsUnit(s[..4], ReadHex4(s).value)
  {
    var a, b, c, d := HexValue(s[0]).value, HexValue(s[1]).value, HexValue(s[2]).value, HexValue(s[3]).value;
    var digits := s[..4];
    assert digits[0] == s[0] && digits[1] == s[1] && digits[2] == s[2] && digits[3] == s[3];
    ValueIsShown(s[0]);
    ValueIsShown(s[1]);
    ValueIsShown(s[2]);
    ValueIsShown(s[3]);
    assert ReadHex4(s).value == a * 4096 + b * 256 + c * 16 + d;
    ShowsFour(digits, a, b, c, d);
  }

  lemma {:induction false} LastNibble(q: nat, r: nat)
    requires r < 16
    ensures (q * 16 + r) / 16 == q && (q * 16 + r) % 16 == r
  {
  }

  lemma {:induction false} DivideAgain(n: nat)
    ensures n / 256 == n / 16 / 16 && n / 4096 == n / 256 / 16
  {
  }

  lemma {:induction false} Nibbles(a: nat, b: nat, c: nat, d: nat)
    requires a < 16 && b < 16 && c < 16 && d < 16
    ensures var n := a * 4096 + b * 256 + c * 16 + d;
            n < 0x10000 && n / 4096 == a && n / 256 % 16 == b && n / 16 % 16 == c && n % 16 == d
  {
    var n, high, top := a * 4096 + b * 256 + c * 16 + d, a * 256 + b * 16 + c, a * 16 + b;
    assert n == high * 16 + d && high == top * 16 + c;
    LastNibble(high, d);
    LastNibble(top, c);
    LastNibble(a, b);
    DivideAgain(n);
  }

  // ---------- Reading a string ----------

  /** What the reader does after a backslash. */
  lemma {:induction false} AfterBackslash(x: string)
    ensures ReadString(['\\'] + x)
         == match ReadEscape(x)
            case None => None
            case Some((c, rest)) => PutFirst(c, ReadString(rest))
  {
    assert (['\\'] + x)[1..] == x;
  }

  lemma {:induction false} AfterU(x: string)
    ensures ReadEscape(['u'] + x) == ReadUnicode(x)
  {
    assert (['u'] + x)[1..] == x;
  }

  lemma {:induction false} UnitThen(digits: string, rest: string)
    ensures UnitText(digits) + rest == ['\\'] + (['u'] + (digits + rest))
  {
  }

  lemma {:induction false} ReadLetter(l: Letter, rest: string)
    requires ValidLetter(l)
    ensures ReadString(LetterText(l) + rest) == PutFirst(Meant(l), ReadString(rest))
  {
    match l
    case Bare(c) => assert ([c] + rest)[1..] == rest;
    case Short(mark) => ReadShort(mark, rest);
    case Code(digits, unit) =>
      ShownUnit(digits, rest, unit);
      UnitThen(digits, rest);
      AfterBackslash(['u'] + (digits + rest));
      AfterU(digits + rest);
    case CodePair(first, high, second, low) => ReadPair(first, high, second, low, rest);
  }

  lemma {:induction false} ReadShort(mark: char, rest: string)
    requires mark in SHORT_ESCAPES
    ensures ReadString(['\\', mark] + rest) == PutFirst(SHORT_ESCAPES[mark], ReadString(rest))
  {
    assert ['\\', mark] + rest == ['\\'] + ([mark] + rest);
    AfterBackslash([mark] + rest);
    assert ([mark] + rest)[1..] == rest;
  }

  lemma {:induction false} ReadPair(first: string, high: nat, second: string, low: nat, rest: string)
    requires ShowsUnit(first, high) && 0xD800 <= high < 0xDC00 && ShowsUnit(second, low) && 0xDC00 <= low < 0xE000
    ensures ReadString(UnitText(first) + UnitText(second) + rest)
         == PutFirst((0x10000 + (high - 0xD800) * 0x400 + (low - 0xDC00)) as char, ReadString(rest))
  {
    var tail := UnitText(second) + rest;
    Associate(UnitText(first), UnitText(second), rest);
    UnitThen(first, tail);
    AfterBackslash(['u'] + (first + tail));
    AfterU(first + tail);
    UnicodePair(first, high, second, low, rest);
  }

  lemma {:induction false} UnicodePair(first: string, high: nat, second: string, low: nat, rest: string)
    requires ShowsUnit(first, high) && 0xD800 <= high < 0xDC00 && ShowsUnit(second, low) && 0xDC00 <= low < 0xE000
    ensures ReadUnicode(first + (UnitText(second) + rest))
         == Some(((0x10000 + (high - 0xD800) * 0x400 + (low - 0xDC00)) as char, rest))
  {
    var tail := UnitText(second) + rest;
    ShownUnit(first, tail, high);
    ShownUnit(second, rest, low);
    UnitThen(second, rest);
    var s := first + tail;
    assert s[4] == tail[0] && s[5] == tail[1] && s[6..] == tail[2..] && tail[2..] == second + rest;
    assert s[10..] == (second + rest)[4..];
  }

  lemma {:induction false} ReadLetters(ls: seq<Letter>, rest: string)
    requires ValidLetters(ls)
    ensures ReadString(LettersText(ls) + ("\"" + rest)) == Some((Meaning(ls), rest))
  {
    var closing := "\"" + rest;
    if ls == [] {
      assert LettersText(ls) + closing == closing && closing[1..] == rest;
    } else {
      ReadLetters(ls[1..], rest);
      ReadLetter(ls[0], LettersText(ls[1..]) + closing);
      Associate(LetterText(ls[0]), LettersText(ls[1..]), closing);
      assert Meaning(ls) == [Meant(ls[0])] + Meaning(ls[1..]);
    }
  }

  /** The letter a backslash begins. */
  lemma {:induction false} EscapeIsSpelled(s: string) returns (l: Letter)
    requires ReadEscape(s).Some?
    ensures ValidLetter(l) && Meant(l) == ReadEscape(s).value.0
    ensures ['\\'] + s == LetterText(l) + ReadEscape(s).value.1
  {
    if s[0] == 'u' {
      l := UnicodeIsSpelled(s[1..]);
      assert s == ['u'] + s[1..];
    } else {
      l := Short(s[0]);
      assert ['\\'] + s == ['\\', s[0]] + s[1..];
    }
  }

  lemma {:induction false} UnicodeIsSpelled(s: string) returns (l: Letter)
    requires ReadUnicode(s).Some?
    ensures ValidLetter(l) && Meant(l) == ReadUnicode(s).value.0
    ensures ['\\'] + (['u'] + s) == LetterText(l) + ReadUnicode(s).value.1
  {
    var n := ReadHex4(s).value;
    if IsHighSurrogate(n) {
      l := PairIsSpelled(s);
    } else {
      ReadUnit(s);
      assert s == s[..4] + s[4..];
      UnitThen(s[..4], s[4..]);
      l := Code(s[..4], n);
    }
  }

  lemma {:induction false} PairIsSpelled(s: string) returns (l: Letter)
    requires ReadUnicode(s).Some? && IsHighSurrogate(ReadHex4(s).value)
    ensures ValidLetter(l) && Meant(l) == ReadUnicode(s).value.0
    ensures ['\\'] + (['u'] + s) == LetterText(l) + ReadUnicode(s).value.1
  {
    var first, second, rest := s[..4], s[6..10], s[10..];
    ReadUnit(s);
    ReadUnit(s[6..]);
    assert s[6..][..4] == second;
    l := CodePair(first, ReadHex4(s).value, second, ReadHex4(s[6..]).value);
    TwoUnits(s, first, second, rest);
  }

  lemma {:induction false} TwoUnits(s: string, first: string, second: string, rest: string)
    requires |s| >= 10 && first == s[..4] && s[4] == '\\' && s[5] == 'u' && second == s[6..10] && rest == s[10..]
    ensures ['\\'] + (['u'] + s) == UnitText(first) + UnitText(second) + rest
  {
    UnitThen(second, rest);
    assert s[4..] == ['\\'] + (['u'] + (second + rest));
    assert s == first + s[4..];
    UnitThen(first, s[4..]);
    Associate(UnitText(first), UnitText(second), rest);
  }

  lemma {:induction false} LettersAreSpelled(s: string) returns (ls: seq<Letter>)
    requires ReadString(s).Some?
    ensures ValidLetters(ls) && Meaning(ls) == ReadString(s).value.0
    ensures s == LettersText(ls) + ("\"" + ReadString(s).value.1)
  {
    if s[0] == '"' {
      ls := [];
      assert s == "\"" + s[1..];
    } else if s[0] == '\\' {
      var l := EscapeIsSpelled(s[1..]);
      var after := ReadEscape(s[1..]).value.1;
      var more := LettersAreSpelled(after);
      assert s == ['\\'] + s[1..];
      ls := MoreLetters(l, more, s, after);
    } else {
      var more := LettersAreSpelled(s[1..]);
      assert s == [s[0]] + s[1..];
      ls := MoreLetters(Bare(s[0]), more, s, s[1..]);
    }
  }

  lemma {:induction false} MoreLetters(l: Letter, more: seq<Letter>, s: string, after: string) returns (ls: seq<Letter>)
    requires ValidLetter(l) && ValidLetters(more) && ReadString(after).Some?
    requires s == LetterText(l) + after && after == LettersText(more) + ("\"" + ReadString(after).value.1)
    ensures ls == [l] + more && ValidLetters(ls) && Meaning(ls) == [Meant(l)] + Meaning(more)
    ensures s == LettersText(ls) + ("\"" + ReadString(after).value.1)
  {
    ls := [l] + more;
    var closing := "\"" + ReadString(after).value.1;
    FirstLetter(l, more);
    FirstMeaning(l, more);
    Associate(LetterText(l), LettersText(more), closing);
  }

  lemma {:induction false} FirstLetter(l: Letter, more: seq<Letter>)
    ensures LettersText([l] + more) == LetterText(l) + LettersText(more)
  {
    assert ([l] + more)[1..] == more;
  }

  lemma {:induction false} FirstMeaning(l: Letter, more: seq<Letter>)
    requires ValidLetter(l) && ValidLetters(more)
    ensures ValidLetters([l] + more) && Meaning([l] + more) == [Meant(l)] + Meaning(more)
  {
    var ls := [l] + more;
    assert forall i | 0 < i < |ls| :: ls[i] == more[i - 1];
  }

  // ---------- Letters as pieces of the concrete syntax ----------

  function Raws(s: string): seq<Piece> {
    if s == "" then [] else [Raw(s[0])] + Raws(s[1..])
  }

  lemma {:induction false} RawsPrint(s: string)
    requires '"' !in s && '\\' !in s
    ensures (forall p <- Raws(s) :: ValidPiece(p)) && PrintPieces(Raws(s)) == s
  {
    if s != "" {
      RawsPrint(s[1..]);
      assert Raws(s)[1..] == Raws(s[1..]) && s == [s[0]] + s[1..];
    }
  }

  lemma {:induction false} PiecesAppend(a: seq<Piece>, b: seq<Piece>)
    ensures PrintPieces(a + b) == PrintPieces(a) + PrintPieces(b)
  {
    if a == [] {
      assert a + b == b;
    } else {
      HeadOfSum(a, b);
      PiecesAppend(a[1..], b);
      Associate(PrintPiece(a[0]), PrintPieces(a[1..]), PrintPieces(b));
    }
  }

  lemma {:induction false} PiecesOfUnit(digits: string, n: nat) returns (pieces: seq<Piece>)
    requires ShowsUnit(digits, n)
    ensures (forall p <- pieces :: ValidPiece(p)) && PrintPieces(pieces) == UnitText(digits)
  {
    NoQuote(digits, n);
    RawsPrint(digits);
    pieces := [Escaped('u')] + Raws(digits);
    EscapedFirst('u', Raws(digits));
  }

  lemma {:induction false} NoQuote(digits: string, n: nat)
    requires ShowsUnit(digits, n)
    ensures '"' !in digits && '\\' !in digits
  {
  }

  lemma {:induction false} EscapedFirst(c: char, pieces: seq<Piece>)
    ensures PrintPieces([Escaped(c)] + pieces) == ['\\'] + ([c] + PrintPieces(pieces))
  {
    assert ([Escaped(c)] + pieces)[1..] == pieces;
    Associate(['\\'], [c], PrintPieces(pieces));
  }

  lemma {:induction false} PiecesOfLetter(l: Letter) returns (pieces: seq<Piece>)
    requires ValidLetter(l)
    ensures (forall p <- pieces :: ValidPiece(p)) && PrintPieces(pieces) == LetterText(l)
  {
    match l
    case Bare(c) => pieces := [Raw(c)];
    case Short(mark) => pieces := [Escaped(mark)];
    case Code(digits, unit) => pieces := PiecesOfUnit(digits, unit);
    case CodePair(first, high, second, low) =>
      var a := PiecesOfUnit(first, high);
      var b := PiecesOfUnit(second, low);
      PiecesAppend(a, b);
      pieces := a + b;
  }

  lemma {:induction false} PiecesOfLetters(ls: seq<Letter>) returns (pieces: seq<Piece>)
    requires ValidLetters(ls)
    ensures (forall p <- pieces :: ValidPiece(p)) && PrintPieces(pieces) == LettersText(ls)
  {
    pieces := [];
    if ls != [] {
      var first := PiecesOfLetter(ls[0]);
      var more := PiecesOfLetters(ls[1..]);
      PiecesAppend(first, more);
      pieces := first + more;
    }
  }

  lemma {:induction false} TextIsRead(pieces: seq<Piece>, t: string, rest: string)
    requires SpellsText(pieces, t)
    ensures ReadString(PrintPieces(pieces) + ("\"" + rest)) == Some((t, rest))
  {
    var ls :| ValidLetters(ls) && LettersText(ls) == PrintPieces(pieces) && Meaning(ls) == t;
    ReadLetters(ls, rest);
  }

  lemma {:induction false} TextIsSpelled(s: string) returns (pieces: seq<Piece>)
    requires ReadString(s).Some?
    ensures SpellsText(pieces, ReadString(s).value.0)
    ensures s == PrintPieces(pieces) + ("\"" + ReadString(s).value.1)
  {
    var ls := LettersAreSpelled(s);
    pieces := PiecesOfLetters(ls);
  }

  // ---------- Blanks ----------

  lemma {:induction false} BlanksAreSkipped(blank: string, s: string)
    requires Blank(blank)
    ensures SkipBlanks(blank + s) == SkipBlanks(s)
  {
    if blank == "" {
      assert blank + s == s;
    } else {
      assert (blank + s)[1..] == blank[1..] + s;
      BlanksAreSkipped(blank[1..], s);
    }
  }

  lemma {:induction false} SkippedAreBlank(s: string) returns (blank: string)
    ensures Blank(blank) && s == blank + SkipBlanks(s)
  {
    blank := "";
    if s != "" && IsBlank(s[0]) {
      var more := SkippedAreBlank(s[1..]);
      blank := [s[0]] + more;
      assert s == [s[0]] + s[1..];
    }
  }

  /** A value starts with a visible character that closes no list. */
  lemma {:induction false} SyntaxStarts(v: Syntax, j: Json, rest: string)
    requires Spells(v, j)
    ensures var s := PrintSyntax(v) + rest;
            s != "" && !IsBlank(s[0]) && s[0] != ']' && s[0] != '}' && SkipBlanks(s) == s
  {
    assert PrintSyntax(v) != "";
    assert (PrintSyntax(v) + rest)[0] == PrintSyntax(v)[0];
  }

  // ---------- What is spelled is read ----------

  /** What follows a value never continues a number. */
  predicate Stops(rest: string) { rest != "" ==> !IsNumberChar(rest[0]) }

  lemma {:induction false} BlankStops(blank: string, rest: string)
    requires Blank(blank) && Stops(rest)
    ensures Stops(blank + rest)
  {
    if blank != "" {
      assert (blank + rest)[0] == blank[0];
    } else {
      assert blank + rest == rest;
    }
  }

  lemma {:induction false} ReadSpelled(v: Syntax, j: Json, rest: string)
    requires Spells(v, j) && Stops(rest)
    ensures ReadValue(PrintSyntax(v) + rest) == Some((j, rest))
    decreases v, 1
  {
    match v
    case Word(text) => ReadSpelledWord(text, j, rest);
    case Str(pieces) => ReadSpelledText(pieces, j.s, rest);
    case Arr(blank, elems) =>
      if elems != [] {
        ReadSpelledItems(elems, j.items, rest);
      }
      ReadSpelledArray(blank, elems, j.items, rest);
    case Obj(blank, pairs) =>
      if pairs != [] {
        ReadSpelledMembers(pairs, j.members, rest);
      }
      ReadSpelledObject(blank, pairs, j.members, rest);
  }

  lemma {:induction false} ReadSpelledWord(text: string, j: Json, rest: string)
    requires Spells(Word(text), j) && Stops(rest)
    ensures ReadValue(text + rest) == Some((j, rest))
  {
    if IsNumber(text) && j == Number(text) {
      ReadDumpedNumber(text, rest);
    } else {
      AfterWord(text, rest);
    }
  }

  lemma {:induction false} ReadSpelledText(pieces: seq<Piece>, t: string, rest: string)
    requires SpellsText(pieces, t)
    ensures ReadValue(PrintSyntax(Str(pieces)) + rest) == Some((Text(t), rest))
  {
    QuoteThen(pieces, rest);
    TextIsRead(pieces, t, rest);
  }

  lemma {:induction false} QuoteThen(pieces: seq<Piece>, rest: string)
    ensures var s := "\"" + (PrintPieces(pieces) + "\"") + rest;
            s[0] == '"' && s[1..] == PrintPieces(pieces) + ("\"" + rest)
  {
  }

  /** An opening character, then blanks or a list, then the closing character. */
  lemma {:induction false} ReadSpelledArray(blank: string, elems: seq<Element>, items: seq<Json>, rest: string)
    requires Spells(Arr(blank, elems), Array(items))
    requires elems != [] ==> ReadItems(SkipBlanks(PrintElements(elems) + ("]" + rest))) == Some((items, rest))
    ensures ReadValue(PrintSyntax(Arr(blank, elems)) + rest) == Some((Array(items), rest))
  {
    var inside := if elems == [] then blank else PrintElements(elems);
    Enclosed("[", inside, "]", rest);
    if elems == [] {
      BlanksAreSkipped(blank, "]" + rest);
      assert SkipBlanks("]" + rest) == "]" + rest && ("]" + rest)[1..] == rest;
    } else {
      ElementsStart(elems, items, "]" + rest);
    }
  }

  lemma {:induction false} Enclosed(open: string, inside: string, close: string, rest: string)
    requires |open| == 1
    ensures var s := open + inside + close + rest;
            s[0] == open[0] && s[1..] == inside + (close + rest)
  {
  }

  lemma {:induction false} ElementSplit(e: Element, rest: string)
    ensures PrintElement(e) + rest == e.before + (PrintSyntax(e.value) + (e.after + rest))
  {
  }

  lemma {:induction false} ElementStarts(e: Element, j: Json, rest: string)
    requires SpellsItem(e, j)
    ensures var s := SkipBlanks(PrintElement(e) + rest);
            s == PrintSyntax(e.value) + (e.after + rest) && s != "" && s[0] != ']' && s[0] != '}'
  {
    ElementSplit(e, rest);
    BlanksAreSkipped(e.before, PrintSyntax(e.value) + (e.after + rest));
    SyntaxStarts(e.value, j, e.after + rest);
  }

  lemma {:induction false} ElementsStart(elems: seq<Element>, items: seq<Json>, rest: string)
    requires elems != [] && items != [] && SpellsItem(elems[0], items[0])
    ensures var s := SkipBlanks(PrintElements(elems) + rest); s != "" && s[0] != ']'
  {
    var more := if |elems| == 1 then "" else "," + PrintElements(elems[1..]);
    Associate(PrintElement(elems[0]), more, rest);
    ElementStarts(elems[0], items[0], more + rest);
  }

  /** One element is read; what follows it is left. */
  lemma {:induction false} ReadSpelledElement(e: Element, j: Json, rest: string)
    requires SpellsItem(e, j) && Stops(rest)
    ensures ReadValue(SkipBlanks(PrintElement(e) + rest)) == Some((j, e.after + rest))
    decreases e, 0
  {
    ElementStarts(e, j, rest);
    BlankStops(e.after, rest);
    ReadSpelled(e.value, j, e.after + rest);
  }

  lemma {:induction false} AfterMark(mark: char, x: string)
    requires !IsBlank(mark) && !IsNumberChar(mark)
    ensures var s := [mark] + x;
            s[0] == mark && s[1..] == x && SkipBlanks(s) == s && Stops(s)
  {
  }

  /** The front of `s` is one value, and `next` is what follows it after blanks. */
  predicate ReadsItem(s: string, j: Json, next: string) {
    match ReadValue(s)
    case None => false
    case Some((value, after)) => j == value && SkipBlanks(after) == next
  }

  lemma {:induction false} ReadLastItem(s: string, j: Json, next: string)
    requires ReadsItem(s, j, next) && next != "" && next[0] == ']'
    ensures ReadItems(s) == Some(([j], next[1..]))
  {
  }

  lemma {:induction false} ReadNextItem(s: string, j: Json, next: string, more: seq<Json>, rest: string)
    requires ReadsItem(s, j, next) && next != "" && next[0] == ','
    requires ReadItems(SkipBlanks(next[1..])) == Some((more, rest))
    ensures ReadItems(s) == Some(([j] + more, rest))
  {
  }

  lemma {:induction false} ItemIsRead(e: Element, j: Json, tail: string)
    requires SpellsItem(e, j) && Stops(tail) && SkipBlanks(tail) == tail
    ensures ReadsItem(SkipBlanks(PrintElement(e) + tail), j, tail)
    decreases e, 1
  {
    ReadSpelledElement(e, j, tail);
    BlanksAreSkipped(e.after, tail);
  }

  lemma {:induction false} ElementsSplit(elems: seq<Element>, closing: string)
    requires elems != []
    ensures PrintElements(elems) + closing
         == PrintElement(elems[0]) + if |elems| == 1 then closing else "," + (PrintElements(elems[1..]) + closing)
  {
    if |elems| == 1 {
      assert PrintElements(elems) == PrintElement(elems[0]);
    } else {
      Reassociate3(PrintElement(elems[0]), PrintElements(elems[1..]), closing);
    }
  }

  lemma {:induction false} ReadSpelledLastItem(e: Element, j: Json, rest: string)
    requires SpellsItem(e, j)
    ensures ReadItems(SkipBlanks(PrintElement(e) + ("]" + rest))) == Some(([j], rest))
    decreases e, 2
  {
    AfterMark(']', rest);
    ItemIsRead(e, j, "]" + rest);
    ReadLastItem(SkipBlanks(PrintElement(e) + ("]" + rest)), j, "]" + rest);
  }

  lemma {:induction false} ReadSpelledNextItem(e: Element, j: Json, others: string, more: seq<Json>, rest: string)
    requires SpellsItem(e, j) && ReadItems(SkipBlanks(others)) == Some((more, rest))
    ensures ReadItems(SkipBlanks(PrintElement(e) + ("," + others))) == Some(([j] + more, rest))
    decreases e, 2
  {
    AfterMark(',', others);
    ItemIsRead(e, j, "," + others);
    ReadNextItem(SkipBlanks(PrintElement(e) + ("," + others)), j, "," + others, more, rest);
  }

  lemma {:induction false} SpelledTail(elems: seq<Element>, items: seq<Json>)
    requires AllSpelled(elems, items)
    ensures SpellsItem(elems[0], items[0]) && items == [items[0]] + items[1..]
    ensures if |elems| == 1 then items == [items[0]] else AllSpelled(elems[1..], items[1..])
  {
  }

  lemma {:induction false} ReadSpelledItems(elems: seq<Element>, items: seq<Json>, rest: string)
    requires AllSpelled(elems, items)
    ensures ReadItems(SkipBlanks(PrintElements(elems) + ("]" + rest))) == Some((items, rest))
    decreases elems
  {
    ElementsSplit(elems, "]" + rest);
    SpelledTail(elems, items);
    if |elems| == 1 {
      ReadSpelledLastItem(elems[0], items[0], rest);
    } else {
      ReadSpelledItems(elems[1..], items[1..], rest);
      ReadSpelledNextItem(elems[0], items[0], PrintElements(elems[1..]) + ("]" + rest), items[1..], rest);
    }
  }

  lemma {:induction false} Reassociate3(a: string, b: string, c: string)
    ensures a + ("," + b) + c == a + ("," + (b + c))
  {
  }

  lemma {:induction false} ReadSpelledObject(blank: string, pairs: seq<Pair>, members: seq<Member>, rest: string)
    requires Spells(Obj(blank, pairs), Object(members))
    requires pairs != [] ==> ReadMembers(SkipBlanks(PrintPairs(pairs) + ("}" + rest))) == Some((members, rest))
    ensures ReadValue(PrintSyntax(Obj(blank, pairs)) + rest) == Some((Object(members), rest))
  {
    var inside := if pairs == [] then blank else PrintPairs(pairs);
    Associate("{", inside, "}");
    Enclosed("{", inside, "}", rest);
    if pairs == [] {
      BlanksAreSkipped(blank, "}" + rest);
      assert SkipBlanks("}" + rest) == "}" + rest && ("}" + rest)[1..] == rest;
    } else {
      PairsStart(pairs, members, "}" + rest);
    }
  }

  /** From the colon on. */
  function AfterName(p: Pair, rest: string): string {
    p.middle + (":" + (PrintElement(p.elem) + rest))
  }

  lemma {:induction false} PairStarts(p: Pair, m: Member, rest: string)
    requires SpellsMember(p, m)
    ensures var s := SkipBlanks(PrintPair(p) + rest);
            s != "" && s[0] == '"' && s[1..] == PrintPieces(p.name) + ("\"" + AfterName(p, rest))
  {
    var name := "\"" + (PrintPieces(p.name) + "\"");
    PairSplit(p.before, name, p.middle, PrintElement(p.elem), rest);
    BlanksAreSkipped(p.before, name + AfterName(p, rest));
    QuoteThen(p.name, AfterName(p, rest));
  }

  lemma {:induction false} PairSplit(a: string, b: string, c: string, d: string, e: string)
    ensures a + b + c + ":" + d + e == a + (b + (c + (":" + (d + e))))
  {
  }

  lemma {:induction false} PairsStart(pairs: seq<Pair>, members: seq<Member>, rest: string)
    requires pairs != [] && members != [] && SpellsMember(pairs[0], members[0])
    ensures var s := SkipBlanks(PrintPairs(pairs) + rest); s != "" && s[0] != '}'
  {
    var more := if |pairs| == 1 then "" else "," + PrintPairs(pairs[1..]);
    Associate(PrintPair(pairs[0]), more, rest);
    PairStarts(pairs[0], members[0], more + rest);
  }

  /** Name, colon and value of one member are read; what follows it is left. */
  lemma {:induction false} ReadSpelledPair(p: Pair, m: Member, rest: string)
    requires SpellsMember(p, m) && Stops(rest)
    ensures var s := SkipBlanks(PrintPair(p) + rest);
            && s != "" && s[0] == '"' && ReadString(s[1..]) == Some((m.name, AfterName(p, rest)))
            && var colon := SkipBlanks(AfterName(p, rest));
               && colon != "" && colon[0] == ':'
               && ReadValue(SkipBlanks(colon[1..])) == Some((m.value, p.elem.after + rest))
    decreases p, 0
  {
    PairStarts(p, m, rest);
    TextIsRead(p.name, m.name, AfterName(p, rest));
    var colon := ":" + (PrintElement(p.elem) + rest);
    BlanksAreSkipped(p.middle, colon);
    assert SkipBlanks(colon) == colon && colon[1..] == PrintElement(p.elem) + rest;
    ReadSpelledElement(p.elem, m.value, rest);
  }

  /** The front of `s` is one member, and `next` is what follows it after blanks. */
  predicate ReadsMember(s: string, m: Member, next: string) {
    s != "" && s[0] == '"' &&
    match ReadString(s[1..])
    case None => false
    case Some((name, afterName)) =>
      var colon := SkipBlanks(afterName);
      colon != "" && colon[0] == ':' &&
      match ReadValue(SkipBlanks(colon[1..]))
      case None => false
      case Some((j, after)) => m == Member(name, j) && SkipBlanks(after) == next
  }

  lemma {:induction false} ReadLast(s: string, m: Member, next: string)
    requires ReadsMember(s, m, next) && next != "" && next[0] == '}'
    ensures ReadMembers(s) == Some(([m], next[1..]))
  {
  }

  lemma {:induction false} ReadNext(s: string, m: Member, next: string, more: seq<Member>, rest: string)
    requires ReadsMember(s, m, next) && next != "" && next[0] == ','
    requires ReadMembers(SkipBlanks(next[1..])) == Some((more, rest))
    ensures ReadMembers(s) == Some(([m] + more, rest))
  {
  }

  lemma {:induction false} PairIsRead(p: Pair, m: Member, tail: string)
    requires SpellsMember(p, m) && Stops(tail) && SkipBlanks(tail) == tail
    ensures ReadsMember(SkipBlanks(PrintPair(p) + tail), m, tail)
    decreases p, 1
  {
    ReadSpelledPair(p, m, tail);
    BlanksAreSkipped(p.elem.after, tail);
  }

  lemma {:induction false} PairsSplit(pairs: seq<Pair>, closing: string)
    requires pairs != []
    ensures PrintPairs(pairs) + closing
         == PrintPair(pairs[0]) + if |pairs| == 1 then closing else "," + (PrintPairs(pairs[1..]) + closing)
  {
    if |pairs| == 1 {
      assert PrintPairs(pairs) == PrintPair(pairs[0]);
    } else {
      Reassociate3(PrintPair(pairs[0]), PrintPairs(pairs[1..]), closing);
    }
  }

  lemma {:induction false} ReadSpelledLast(p: Pair, m: Member, rest: string)
    requires SpellsMember(p, m)
    ensures ReadMembers(SkipBlanks(PrintPair(p) + ("}" + rest))) == Some(([m], rest))
    decreases p, 2
  {
    AfterMark('}', rest);
    PairIsRead(p, m, "}" + rest);
    ReadLast(SkipBlanks(PrintPair(p) + ("}" + rest)), m, "}" + rest);
  }

  lemma {:induction false} ReadSpelledNext(p: Pair, m: Member, others: string, more: seq<Member>, rest: string)
    requires SpellsMember(p, m) && ReadMembers(SkipBlanks(others)) == Some((more, rest))
    ensures ReadMembers(SkipBlanks(PrintPair(p) + ("," + others))) == Some(([m] + more, rest))
    decreases p, 2
  {
    AfterMark(',', others);
    PairIsRead(p, m, "," + others);
    ReadNext(SkipBlanks(PrintPair(p) + ("," + others)), m, "," + others, more, rest);
  }

  lemma {:induction false} PairedTail(pairs: seq<Pair>, members: seq<Member>)
    requires AllPaired(pairs, members)
    ensures SpellsMember(pairs[0], members[0]) && members == [members[0]] + members[1..]
    ensures if |pairs| == 1 then members == [members[0]] else AllPaired(pairs[1..], members[1..])
  {
  }

  lemma {:induction false} ReadSpelledMembers(pairs: seq<Pair>, members: seq<Member>, rest: string)
    requires AllPaired(pairs, members)
    ensures ReadMembers(SkipBlanks(PrintPairs(pairs) + ("}" + rest))) == Some((members, rest))
    decreases pairs
  {
    PairsSplit(pairs, "}" + rest);
    PairedTail(pairs, members);
    if |pairs| == 1 {
      ReadSpelledLast(pairs[0], members[0], rest);
    } else {
      ReadSpelledMembers(pairs[1..], members[1..], rest);
      ReadSpelledNext(pairs[0], members[0], PrintPairs(pairs[1..]) + ("}" + rest), members[1..], rest);
    }
  }

  // ---------- What is read is spelled ----------

  lemma {:induction false} ValueIsSpelled(s: string) returns (v: Syntax)
    requires ReadValue(s).Some?
    ensures Spells(v, ReadValue(s).value.0) && s == PrintSyntax(v) + ReadValue(s).value.1
    decreases |s|, 1, 0
  {
    if s[0] == '"' {
      var pieces := TextIsSpelled(s[1..]);
      v := Str(pieces);
      QuotedIsSpelled(s, pieces, ReadString(s[1..]).value.1);
    } else if s[0] == '[' {
      v := ArrayIsSpelled(s);
    } else if s[0] == '{' {
      v := ObjectIsSpelled(s);
    } else {
      v := WordIsSpelled(s);
    }
  }

  lemma {:induction false} QuotedIsSpelled(s: string, pieces: seq<Piece>, rest: string)
    requires s != "" && s[0] == '"' && s[1..] == PrintPieces(pieces) + ("\"" + rest)
    ensures s == "\"" + (PrintPieces(pieces) + "\"") + rest
  {
    assert s == "\"" + s[1..];
  }

  lemma {:induction false} WordIsSpelled(s: string) returns (v: Syntax)
    requires ReadValue(s).Some? && s[0] != '"' && s[0] != '[' && s[0] != '{'
    ensures Spells(v, ReadValue(s).value.0) && s == PrintSyntax(v) + ReadValue(s).value.1
  {
    var (j, rest) := ReadValue(s).value;
    var n := |s| - |rest|;
    v := Word(s[..n]);
    assert s == s[..n] + s[n..];
  }

  /** The list with blanks put before its first element. */
  function Indent(blank: string, elems: seq<Element>): seq<Element>
    requires elems != []
  {
    [Element(blank + elems[0].before, elems[0].value, elems[0].after)] + elems[1..]
  }

  lemma {:induction false} Indented(blank: string, elems: seq<Element>, items: seq<Json>)
    requires Blank(blank) && AllSpelled(elems, items)
    ensures AllSpelled(Indent(blank, elems), items)
    ensures PrintElements(Indent(blank, elems)) == blank + PrintElements(elems)
  {
    var first := Indent(blank, elems)[0];
    var more := if |elems| == 1 then "" else "," + PrintElements(elems[1..]);
    assert Indent(blank, elems)[1..] == elems[1..];
    assert PrintElement(first) == blank + PrintElement(elems[0]);
    Associate(blank, PrintElement(elems[0]), more);
  }

  lemma {:induction false} ArrayIsSpelled(s: string) returns (v: Syntax)
    requires ReadValue(s).Some? && s[0] == '['
    ensures Spells(v, ReadValue(s).value.0) && s == PrintSyntax(v) + ReadValue(s).value.1
    decreases |s|, 0
  {
    var (j, rest) := ReadValue(s).value;
    var blank := SkippedAreBlank(s[1..]);
    var body := SkipBlanks(s[1..]);
    if body[0] == ']' {
      v := Arr(blank, []);
      EncloseAgain(s, "[", blank, "]", rest);
    } else {
      var elems := ItemsAreSpelled(body);
      Indented(blank, elems, j.items);
      Associate(blank, PrintElements(elems), "]" + rest);
      v := Arr("", Indent(blank, elems));
      EncloseAgain(s, "[", PrintElements(v.elems), "]", rest);
    }
  }

  lemma {:induction false} EncloseAgain(s: string, open: string, inside: string, close: string, rest: string)
    requires |open| == 1 && s != "" && s[0] == open[0] && s[1..] == inside + (close + rest)
    ensures s == open + inside + close + rest
  {
    assert s == open + s[1..];
  }

  lemma {:induction false} ItemsAreSpelled(s: string) returns (elems: seq<Element>)
    requires ReadItems(s).Some?
    ensures AllSpelled(elems, ReadItems(s).value.0)
    ensures s == PrintElements(elems) + ("]" + ReadItems(s).value.1)
    decreases |s|, 2
  {
    var j, next, e := ItemIsSpelled(s);
    if next[0] == ']' {
      elems := [e];
      assert next == "]" + next[1..];
    } else {
      var indent := SkippedAreBlank(next[1..]);
      var more := ItemsAreSpelled(SkipBlanks(next[1..]));
      elems := MoreElements(e, j, indent, more, next, ReadItems(SkipBlanks(next[1..])).value);
    }
  }

  lemma {:induction false} ItemIsSpelled(s: string) returns (j: Json, next: string, e: Element)
    requires ReadItems(s).Some?
    ensures |next| < |s| && next != "" && SpellsItem(e, j) && s == PrintElement(e) + next
    ensures next[0] == ']' ==> ReadItems(s).value == ([j], next[1..])
    ensures next[0] != ']' ==>
              var more := ReadItems(SkipBlanks(next[1..]));
              next[0] == ',' && more.Some? && ReadItems(s).value == ([j] + more.value.0, more.value.1)
    decreases |s|, 1, 1
  {
    var after := ReadValue(s).value.1;
    j := ReadValue(s).value.0;
    var v := ValueIsSpelled(s);
    var trailing := SkippedAreBlank(after);
    next := SkipBlanks(after);
    e := Element("", v, trailing);
    ElementSplit(e, next);
  }

  lemma {:induction false} FirstElement(e: Element, j: Json, others: seq<Element>, items: seq<Json>)
    requires SpellsItem(e, j) && AllSpelled(others, items)
    ensures AllSpelled([e] + others, [j] + items)
  {
    var elems, all := [e] + others, [j] + items;
    forall i | 0 <= i < |elems| ensures SpellsItem(elems[i], all[i]) {
      assert i > 0 ==> elems[i] == others[i - 1] && all[i] == items[i - 1];
    }
  }

  lemma {:induction false} PrintsFirstElement(e: Element, others: seq<Element>)
    requires others != []
    ensures PrintElements([e] + others) == PrintElement(e) + ("," + PrintElements(others))
  {
    assert ([e] + others)[1..] == others;
  }

  lemma {:induction false} MoreElements(e: Element, j: Json, indent: string, more: seq<Element>, next: string,
                                        read: (seq<Json>, string))
    returns (elems: seq<Element>)
    requires SpellsItem(e, j) && Blank(indent) && AllSpelled(more, read.0)
    requires next != "" && next[0] == ',' && next[1..] == indent + (PrintElements(more) + ("]" + read.1))
    ensures AllSpelled(elems, [j] + read.0)
    ensures PrintElement(e) + next == PrintElements(elems) + ("]" + read.1)
  {
    Indented(indent, more, read.0);
    var others := Indent(indent, more);
    elems := [e] + others;
    FirstElement(e, j, others, read.0);
    PrintsFirstElement(e, others);
    Associate(indent, PrintElements(more), "]" + read.1);
    assert next == "," + next[1..];
    Reassociate3(PrintElement(e), PrintElements(others), "]" + read.1);
  }

  // ---------- Members ----------

  function IndentPairs(blank: string, pairs: seq<Pair>): seq<Pair>
    requires pairs != []
  {
    [Pair(blank + pairs[0].before, pairs[0].name, pairs[0].middle, pairs[0].elem)] + pairs[1..]
  }

  lemma {:induction false} IndentedPairs(blank: string, pairs: seq<Pair>, members: seq<Member>)
    requires Blank(blank) && AllPaired(pairs, members)
    ensures AllPaired(IndentPairs(blank, pairs), members)
    ensures PrintPairs(IndentPairs(blank, pairs)) == blank + PrintPairs(pairs)
  {
    var p := pairs[0];
    var more := if |pairs| == 1 then "" else "," + PrintPairs(pairs[1..]);
    assert IndentPairs(blank, pairs)[1..] == pairs[1..];
    IndentedPair(blank, p.before, "\"" + (PrintPieces(p.name) + "\""), p.middle, PrintElement(p.elem));
    Associate(blank, PrintPair(p), more);
  }

  lemma {:induction false} IndentedPair(blank: string, a: string, b: string, c: string, d: string)
    ensures blank + a + b + c + ":" + d == blank + (a + b + c + ":" + d)
  {
  }

  lemma {:induction false} ObjectIsSpelled(s: string) returns (v: Syntax)
    requires ReadValue(s).Some? && s[0] == '{'
    ensures Spells(v, ReadValue(s).value.0) && s == PrintSyntax(v) + ReadValue(s).value.1
    decreases |s|, 0
  {
    var (j, rest) := ReadValue(s).value;
    var blank := SkippedAreBlank(s[1..]);
    var body := SkipBlanks(s[1..]);
    var inside := blank;
    if body[0] == '}' {
      v := Obj(blank, []);
    } else {
      var pairs := MembersAreSpelled(body);
      IndentedPairs(blank, pairs, j.members);
      Associate(blank, PrintPairs(pairs), "}" + rest);
      v := Obj("", IndentPairs(blank, pairs));
      inside := PrintPairs(v.pairs);
    }
    EncloseAgain(s, "{", inside, "}", rest);
    Associate("{", inside, "}");
  }

  lemma {:induction false} MembersAreSpelled(s: string) returns (pairs: seq<Pair>)
    requires ReadMembers(s).Some?
    ensures AllPaired(pairs, ReadMembers(s).value.0)
    ensures s == PrintPairs(pairs) + ("}" + ReadMembers(s).value.1)
    decreases |s|, 2
  {
    var m, next, p := FirstIsSpelled(s);
    if next[0] == '}' {
      pairs := [p];
      assert next == "}" + next[1..];
    } else {
      var indent := SkippedAreBlank(next[1..]);
      var more := MembersAreSpelled(SkipBlanks(next[1..]));
      pairs := MorePairs(p, m, indent, more, next, ReadMembers(SkipBlanks(next[1..])).value);
    }
  }

  lemma {:induction false} FirstIsSpelled(s: string) returns (m: Member, next: string, p: Pair)
    requires ReadMembers(s).Some?
    ensures ReadsMember(s, m, next) && |next| < |s| && next != ""
    ensures SpellsMember(p, m) && s == PrintPair(p) + next
    ensures next[0] == '}' ==> ReadMembers(s).value == ([m], next[1..])
    ensures next[0] != '}' ==>
              var more := ReadMembers(SkipBlanks(next[1..]));
              next[0] == ',' && more.Some? && ReadMembers(s).value == ([m] + more.value.0, more.value.1)
    decreases |s|, 1
  {
    var (name, afterName) := ReadString(s[1..]).value;
    var pieces := TextIsSpelled(s[1..]);
    var middle := SkippedAreBlank(afterName);
    var colon := SkipBlanks(afterName);
    var before := SkippedAreBlank(colon[1..]);
    var value := SkipBlanks(colon[1..]);
    var (j, after) := ReadValue(value).value;
    var v := ValueIsSpelled(value);
    var trailing := SkippedAreBlank(after);
    next := SkipBlanks(after);
    m := Member(name, j);
    p := Pair("", pieces, middle, Element(before, v, trailing));
    Regrouped(s, pieces, middle, before, v, trailing, colon, next);
  }

  lemma {:induction false} Regrouped(s: string, pieces: seq<Piece>, middle: string, before: string, v: Syntax,
                                     trailing: string, colon: string, next: string)
    requires s != "" && s[0] == '"' && s[1..] == PrintPieces(pieces) + ("\"" + (middle + colon))
    requires colon != "" && colon[0] == ':' && colon[1..] == before + (PrintSyntax(v) + (trailing + next))
    ensures s == PrintPair(Pair("", pieces, middle, Element(before, v, trailing))) + next
  {
    var e := Element(before, v, trailing);
    ElementSplit(e, next);
    assert colon == ":" + colon[1..];
    QuotedIsSpelled(s, pieces, middle + colon);
    PairSplit("", "\"" + (PrintPieces(pieces) + "\""), middle, PrintElement(e), next);
  }

  lemma {:induction false} FirstPair(p: Pair, m: Member, others: seq<Pair>, members: seq<Member>)
    requires SpellsMember(p, m) && AllPaired(others, members)
    ensures AllPaired([p] + others, [m] + members)
  {
    var pairs, all := [p] + others, [m] + members;
    forall i | 0 <= i < |pairs| ensures SpellsMember(pairs[i], all[i]) {
      assert i > 0 ==> pairs[i] == others[i - 1] && all[i] == members[i - 1];
    }
  }

  lemma {:induction false} PrintsFirst(p: Pair, others: seq<Pair>)
    requires others != []
    ensures PrintPairs([p] + others) == PrintPair(p) + ("," + PrintPairs(others))
  {
    assert ([p] + others)[1..] == others;
  }

  lemma {:induction false} MorePairs(p: Pair, m: Member, indent: string, more: seq<Pair>, next: string,
                                     read: (seq<Member>, string))
    returns (pairs: seq<Pair>)
    requires SpellsMember(p, m) && Blank(indent) && AllPaired(more, read.0)
    requires next != "" && next[0] == ',' && next[1..] == indent + (PrintPairs(more) + ("}" + read.1))
    ensures AllPaired(pairs, [m] + read.0)
    ensures PrintPair(p) + next == PrintPairs(pairs) + ("}" + read.1)
  {
    IndentedPairs(indent, more, read.0);
    var others := IndentPairs(indent, more);
    pairs := [p] + others;
    FirstPair(p, m, others, read.0);
    PrintsFirst(p, others);
    Associate(indent, PrintPairs(more), "}" + read.1);
    assert next == "," + next[1..];
    Reassociate3(PrintPair(p), PrintPairs(others), "}" + read.1);
  }

  // ---------- The reader and the grammar agree ----------

  /** Every text of the grammar is read as the value it spells. */
  lemma {:induction false} TextsAreRead(text: string, before: string, v: Syntax, after: string, j: Json)
    requires IsText(text, before, v, after, j)
    ensures Parse(text) == Some(j)
  {
    BlanksAreSkipped(before, PrintSyntax(v) + after);
    SyntaxStarts(v, j, after);
    assert after + "" == after;
    BlankStops(after, "");
    ReadSpelled(v, j, after);
    BlanksAreSkipped(after, "");
  }

  lemma {:induction false} ReadIsText(text: string, j: Json) returns (before: string, v: Syntax, after: string)
    requires Parse(text) == Some(j)
    ensures IsText(text, before, v, after, j)
  {
    before := SkippedAreBlank(text);
    v := ValueIsSpelled(SkipBlanks(text));
    after := ReadValue(SkipBlanks(text)).value.1;
    var blank := SkippedAreBlank(after);
    assert blank + "" == blank;
  }

  /** A text is read as a value exactly when it spells that value. */
  lemma {:induction false} ReadsExactlyTheGrammar(text: string, j: Json)
    ensures Parse(text) == Some(j) <==> exists before, v, after :: IsText(text, before, v, after, j)
  {
    if Parse(text) == Some(j) {
      var before, v, after := ReadIsText(text, j);
    }
    forall before, v, after | IsText(text, before, v, after, j) ensures Parse(text) == Some(j) {
      TextsAreRead(text, before, v, after, j);
    }
  }

  // ---------- Objects in free-form replies ----------

  lemma {:induction false} SpelledIsValid(v: Syntax, j: Json)
    requires Spells(v, j)
    ensures ValidSyntax(v)
    decreases v
  {
    match v
    case Word(_) =>
    case Str(_) =>
    case Arr(_, elems) =>
      forall i | 0 <= i < |elems| ensures ValidElement(elems[i]) {
        ItemIsValid(elems[i], j.items[i]);
      }
    case Obj(_, pairs) =>
      forall i | 0 <= i < |pairs| ensures ValidPair(pairs[i]) {
        MemberIsValid(pairs[i], j.members[i]);
      }
  }

  lemma {:induction false} ItemIsValid(e: Element, j: Json)
    requires SpellsItem(e, j)
    ensures ValidElement(e)
    decreases e
  {
    SpelledIsValid(e.value, j);
  }

  lemma {:induction false} MemberIsValid(p: Pair, m: Member)
    requires SpellsMember(p, m)
    ensures ValidPair(p)
    decreases p
  {
    ItemIsValid(p.elem, m.value);
  }

  /** An object text with prose around it: the scanner finds the text, and the reader the object it spells. */
  lemma {:induction false} RepliesAreUnderstood(prefix: string, v: Syntax, suffix: string, j: Json)
    requires '{' !in prefix && v.Obj? && Spells(v, j)
    ensures Scanned(prefix + (PrintSyntax(v) + suffix)) == Some(PrintSyntax(v))
    ensures Parse(PrintSyntax(v)) == Some(j)
  {
    SpelledIsValid(v, j);
    ExtractionRecoversObject(prefix, v, suffix);
    assert PrintSyntax(v) + "" == PrintSyntax(v);
    TextsAreRead(PrintSyntax(v), "", v, "", j);
  }
}
