/**
 * The brace scanner that recovers one JSON object from a model's free-form reply
 * (backend/app/services/llm.py).
 *
 * The scanner is compared with a grammar. A `Body` is the inside of a pair of braces: plain
 * characters, quoted strings and nested brace pairs. The scanner returns a span exactly when the
 * text from its first `{` starts with a brace pair of that grammar, and then it returns that pair.
 * Every object text of RFC 8259 is such a pair.
 */
module JsonExtraction {
  import opened Sequences
  import opened Wrappers
  import Json

  // ---------- Grammar of balanced brace pairs ----------

  /** One unit of a quoted string: a raw character, or a backslash with the character after it. */
  datatype Piece = Raw(c: char) | Escaped(c: char)

  /** What stands between two matching braces. */
  datatype Body =
    | End
    | Plain(c: char, rest: Body)
    | Quoted(pieces: seq<Piece>, rest: Body)
    | Braces(inner: Body, rest: Body)

  predicate ValidPiece(p: Piece) {
    p.Raw? ==> p.c != '"' && p.c != '\\'
  }

  predicate IsPlain(c: char) {
    c != '"' && c != '{' && c != '}'
  }

  predicate ValidBody(b: Body) {
    match b
    case End => true
    case Plain(c, rest) => IsPlain(c) && ValidBody(rest)
    case Quoted(pieces, rest) => (forall p <- pieces :: ValidPiece(p)) && ValidBody(rest)
    case Braces(inner, rest) => ValidBody(inner) && ValidBody(rest)
  }

  function PrintPiece(p: Piece): string {
    match p
    case Raw(c) => [c]
    case Escaped(c) => ['\\', c]
  }

  function PrintPieces(pieces: seq<Piece>): string {
    if pieces == [] then "" else PrintPiece(pieces[0]) + PrintPieces(pieces[1..])
  }

  function PrintBody(b: Body): string {
    match b
    case End => ""
    case Plain(c, rest) => [c] + PrintBody(rest)
    case Quoted(pieces, rest) => "\"" + (PrintPieces(pieces) + "\"") + PrintBody(rest)
    case Braces(inner, rest) => "{" + (PrintBody(inner) + "}") + PrintBody(rest)
  }

  /** `span` is one brace pair of the grammar, nothing before or after it. */
  ghost predicate IsBracePair(span: string) {
    exists b: Body :: ValidBody(b) && span == "{" + PrintBody(b) + "}"
  }

  /** Position of the first `{`, or the length of the text. */
  function FirstBrace(text: string): (i: nat)
    ensures i <= |text|
    ensures forall j | 0 <= j < i :: text[j] != '{'
    ensures i < |text| ==> text[i] == '{'
  {
    if text == "" || text[0] == '{' then 0 else 1 + FirstBrace(text[1..])
  }

  // ---------- The scanner ----------

  /** The scanner's three variables. */
  datatype Mode = Mode(depth: int, inStr: bool, escape: bool)

  function Next(m: Mode, ch: char): Mode {
    if m.inStr then
      if m.escape then m.(escape := false)
      else if ch == '\\' then m.(escape := true)
      else if ch == '"' then m.(inStr := false)
      else m
    else if ch == '"' then m.(inStr := true)
    else if ch == '{' then m.(depth := m.depth + 1)
    else if ch == '}' then m.(depth := m.depth - 1)
    else m
  }

  /** The scanner stops on a closing brace, outside a string, that brings the depth back to zero. */
  predicate Closes(m: Mode, ch: char) {
    !m.inStr && ch == '}' && m.depth == 1
  }

  /** Number of characters consumed up to and including the closing brace, if it is ever reached. */
  ghost function Scan(s: string, m: Mode): (n: Option<nat>)
    ensures n.Some? ==> 0 < n.value <= |s|
  {
    if s == "" then None
    else if Closes(m, s[0]) then Some(1)
    else Skip(Scan(s[1..], Next(m, s[0])), 1)
  }

  function Skip(n: Option<nat>, k: nat): Option<nat> {
    match n
    case None => None
    case Some(v) => Some(v + k)
  }

  /**
   * What `_extract_json` promises: nothing iff no brace pair starts at the first `{`, and otherwise
   * that pair, which is the only one starting there.
   */
  ghost predicate IsFirstPair(text: string, r: Option<string>) {
    var tail := text[FirstBrace(text)..];
    && (r.None? <==> forall n | 0 <= n <= |tail| :: !IsBracePair(tail[..n]))
    && (r.Some? ==> IsBracePair(r.value) && r.value <= tail)
    && (r.Some? ==> forall n | 0 <= n <= |tail| && IsBracePair(tail[..n]) :: tail[..n] == r.value)
  }

  /** The span the scanner stops at, counted from the first `{`. */
  ghost function Scanned(text: string): Option<string> {
    var tail := text[FirstBrace(text)..];
    match Scan(tail, Mode(0, false, false))
    case None => None
    case Some(n) => Some(tail[..n])
  }

  lemma {:induction false} ScannedIsFirstPair(text: string)
    ensures IsFirstPair(text, Scanned(text))
  {
    ScanFindsPair(text[FirstBrace(text)..]);
  }

  /** `_extract_json`: one pass over the text with a depth counter and two string flags. */
  method ExtractJson(text: string) returns (r: Option<string>)
    ensures r == Scanned(text)
    ensures IsFirstPair(text, r)
  {
    ScannedIsFirstPair(text);
    r := ScanLoop(text, FirstBrace(text));
  }

  /** One step of the scan of a suffix. */
  lemma {:induction false} ScanAdvance(text: string, i: nat, m: Mode)
    requires i < |text|
    ensures Scan(text[i..], m) == if Closes(m, text[i]) then Some(1) else Skip(Scan(text[i + 1..], Next(m, text[i])), 1)
  {
    assert text[i..][1..] == text[i + 1..];
  }

  /** The `for` loop of `_extract_json`, run from the position `text.find("{")` returned. */
  method ScanLoop(text: string, start: nat) returns (r: Option<string>)
    requires start == FirstBrace(text)
    ensures r == Scanned(text)
  {
    var depth, inStr, escape := 0, false, false;
    var i := start;
    while i < |text|
      invariant start <= i <= |text|
      invariant Scan(text[start..], Mode(0, false, false))
             == Skip(Scan(text[i..], Mode(depth, inStr, escape)), i - start)
    {
      var ch := text[i];
      ghost var m := Mode(depth, inStr, escape);
      ScanAdvance(text, i, m);
      if inStr {
        if escape {
          escape := false;
        } else if ch == '\\' {
          escape := true;
        } else if ch == '"' {
          inStr := false;
        }
      } else if ch == '"' {
        inStr := true;
      } else if ch == '{' {
        depth := depth + 1;
      } else if ch == '}' {
        depth := depth - 1;
        if depth == 0 {
          assert text[start..i + 1] == text[start..][..i + 1 - start];
          return Some(text[start..i + 1]);
        }
      }
      assert !Closes(m, ch) && Mode(depth, inStr, escape) == Next(m, ch);
      i := i + 1;
    }
    return None;
  }

  // ---------- The scanner accepts exactly the grammar ----------

  /** One step: a character that does not close the span costs one unit. */
  lemma {:induction false} ScanOne(ch: char, rest: string, m: Mode)
    requires !Closes(m, ch)
    ensures Scan([ch] + rest, m) == Skip(Scan(rest, Next(m, ch)), 1)
  {
    assert ([ch] + rest)[1..] == rest;
  }

  /** The scanner crosses a quoted string's contents and its closing quote without losing depth. */
  lemma {:induction false} ScanCrossesString(pieces: seq<Piece>, rest: string, depth: int)
    requires forall p <- pieces :: ValidPiece(p)
    ensures Scan(PrintPieces(pieces) + "\"" + rest, Mode(depth, true, false))
         == Skip(Scan(rest, Mode(depth, false, false)), |PrintPieces(pieces)| + 1)
  {
    var s := PrintPieces(pieces) + "\"" + rest;
    if pieces == [] {
      assert s == ['"'] + rest;
      ScanOne('"', rest, Mode(depth, true, false));
    } else {
      var tail := PrintPieces(pieces[1..]) + "\"" + rest;
      assert s == PrintPiece(pieces[0]) + tail;
      ScanCrossesString(pieces[1..], rest, depth);
      assert ValidPiece(pieces[0]);
      match pieces[0]
      case Raw(c) =>
        ScanOne(c, tail, Mode(depth, true, false));
      case Escaped(c) =>
        assert s == ['\\'] + ([c] + tail);
        ScanOne('\\', [c] + tail, Mode(depth, true, false));
        ScanOne(c, tail, Mode(depth, true, true));
    }
  }

  /** The scanner crosses a whole body at any positive depth and comes out in the same state. */
  lemma {:induction false} ScanCrossesBody(b: Body, rest: string, depth: int)
    requires ValidBody(b) && depth >= 1
    ensures Scan(PrintBody(b) + rest, Mode(depth, false, false))
         == Skip(Scan(rest, Mode(depth, false, false)), |PrintBody(b)|)
  {
    match b
    case End =>
      assert PrintBody(b) + rest == rest;
    case Plain(c, more) =>
      ScanCrossesBody(more, rest, depth);
      CrossPlain(c, PrintBody(more), rest, depth);
    case Quoted(pieces, more) =>
      ScanCrossesBody(more, rest, depth);
      CrossQuoted(pieces, PrintBody(more), rest, depth);
    case Braces(inner, more) =>
      ScanCrossesBody(inner, ['}'] + (PrintBody(more) + rest), depth + 1);
      ScanCrossesBody(more, rest, depth);
      CrossBraces(PrintBody(inner), PrintBody(more), rest, depth);
  }

  lemma {:induction false} CrossPlain(c: char, more: string, rest: string, depth: int)
    requires IsPlain(c)
    requires Scan(more + rest, Mode(depth, false, false)) == Skip(Scan(rest, Mode(depth, false, false)), |more|)
    ensures Scan([c] + more + rest, Mode(depth, false, false))
         == Skip(Scan(rest, Mode(depth, false, false)), |[c] + more|)
  {
    Associate([c], more, rest);
    ScanOne(c, more + rest, Mode(depth, false, false));
  }

  lemma {:induction false} CrossQuoted(pieces: seq<Piece>, more: string, rest: string, depth: int)
    requires forall p <- pieces :: ValidPiece(p)
    requires Scan(more + rest, Mode(depth, false, false)) == Skip(Scan(rest, Mode(depth, false, false)), |more|)
    ensures Scan("\"" + (PrintPieces(pieces) + "\"") + more + rest, Mode(depth, false, false))
         == Skip(Scan(rest, Mode(depth, false, false)), |"\"" + (PrintPieces(pieces) + "\"") + more|)
  {
    Associate("\"", PrintPieces(pieces), "\"");
    Associate("\"" + PrintPieces(pieces) + "\"", more, rest);
    ScanCrossesQuoted(pieces, more + rest, depth);
  }

  lemma {:induction false} CrossBraces(inner: string, more: string, rest: string, depth: int)
    requires depth >= 1
    requires Scan(inner + (['}'] + (more + rest)), Mode(depth + 1, false, false))
          == Skip(Scan(['}'] + (more + rest), Mode(depth + 1, false, false)), |inner|)
    requires Scan(more + rest, Mode(depth, false, false)) == Skip(Scan(rest, Mode(depth, false, false)), |more|)
    ensures Scan("{" + (inner + "}") + more + rest, Mode(depth, false, false))
         == Skip(Scan(rest, Mode(depth, false, false)), |"{" + (inner + "}") + more|)
  {
    BracesText(inner, more, rest);
    CrossClosing(inner, more + rest, Scan(rest, Mode(depth, false, false)), |more|, depth);
    ScanOne('{', inner + (['}'] + (more + rest)), Mode(depth, false, false));
  }

  lemma {:induction false} CrossClosing(inner: string, after: string, end: Option<nat>, n: nat, depth: int)
    requires depth >= 1
    requires Scan(inner + (['}'] + after), Mode(depth + 1, false, false))
          == Skip(Scan(['}'] + after, Mode(depth + 1, false, false)), |inner|)
    requires Scan(after, Mode(depth, false, false)) == Skip(end, n)
    ensures Scan(inner + (['}'] + after), Mode(depth + 1, false, false)) == Skip(end, |inner| + 1 + n)
  {
    ScanOne('}', after, Mode(depth + 1, false, false));
  }

  lemma {:induction false} BracesText(inner: string, more: string, rest: string)
    ensures "{" + (inner + "}") + more + rest == ['{'] + (inner + (['}'] + (more + rest)))
    ensures |"{" + (inner + "}") + more| == 1 + (|inner| + (1 + |more|))
  {
    Reassociate("{", inner + "}", more, rest);
    Associate(inner, "}", more + rest);
  }

  lemma {:induction false} ScanCrossesQuoted(pieces: seq<Piece>, after: string, depth: int)
    requires forall p <- pieces :: ValidPiece(p)
    ensures Scan("\"" + PrintPieces(pieces) + "\"" + after, Mode(depth, false, false))
         == Skip(Scan(after, Mode(depth, false, false)), |PrintPieces(pieces)| + 2)
  {
    var inside := PrintPieces(pieces) + "\"" + after;
    assert "\"" + PrintPieces(pieces) + "\"" + after == ['"'] + inside;
    ScanOne('"', inside, Mode(depth, false, false));
    ScanCrossesString(pieces, after, depth);
  }

  /** If the scanner ever stops while inside a string, the string was closed: here are its pieces. */
  lemma {:induction false} StringFromScan(s: string, depth: int) returns (pieces: seq<Piece>, rest: string)
    requires Scan(s, Mode(depth, true, false)).Some?
    ensures forall p <- pieces :: ValidPiece(p)
    ensures s == PrintPieces(pieces) + "\"" + rest
    ensures Scan(rest, Mode(depth, false, false)).Some?
  {
    assert s == [s[0]] + s[1..];
    if s[0] == '"' {
      pieces, rest := [], s[1..];
    } else if s[0] == '\\' {
      assert Scan(s[1..], Mode(depth, true, true)).Some?;
      assert s[1..] == [s[1]] + s[2..];
      ScanOne(s[1], s[2..], Mode(depth, true, true));
      var more;
      more, rest := StringFromScan(s[2..], depth);
      pieces := [Escaped(s[1])] + more;
    } else {
      var more;
      more, rest := StringFromScan(s[1..], depth);
      pieces := [Raw(s[0])] + more;
    }
  }

  /** If the scanner stops from a positive depth, a body and its closing brace were read. */
  lemma {:induction false} BodyFromScan(s: string, depth: int) returns (b: Body, rest: string)
    requires depth >= 1 && Scan(s, Mode(depth, false, false)).Some?
    ensures ValidBody(b)
    ensures s == PrintBody(b) + ("}" + rest)
    ensures depth > 1 ==> Scan(rest, Mode(depth - 1, false, false)).Some?
    decreases |s|
  {
    var tail, more := s[1..], End;
    ScanAdvance(s, 0, Mode(depth, false, false));
    if s[0] == '}' {
      b, rest := End, tail;
      assert s == "" + ("}" + rest);
    } else if s[0] == '{' {
      var inner, after := BodyFromScan(tail, depth + 1);
      more, rest := BodyFromScan(after, depth);
      b := Braces(inner, more);
      Associate(PrintBody(inner), "}", after);
      JoinDelimited(s, "{", PrintBody(inner), "}", after, PrintBody(more), "}" + rest);
    } else if s[0] == '"' {
      var pieces, after := StringFromScan(tail, depth);
      more, rest := BodyFromScan(after, depth);
      b := Quoted(pieces, more);
      JoinDelimited(s, "\"", PrintPieces(pieces), "\"", after, PrintBody(more), "}" + rest);
    } else {
      more, rest := BodyFromScan(tail, depth);
      b := Plain(s[0], more);
      Associate([s[0]], PrintBody(more), "}" + rest);
      assert s == [s[0]] + tail;
    }
  }

  lemma {:induction false} JoinDelimited(s: string, open: string, inner: string, close: string, after: string,
                                         more: string, rest: string)
    requires |open| == 1 && s != "" && s[0] == open[0] && s[1..] == inner + close + after && after == more + rest
    ensures s == open + (inner + close) + more + rest
  {
    assert s == open + s[1..];
    Reassociate(open, inner + close, more, rest);
  }

  lemma {:induction false} Reassociate(a: string, b: string, c: string, d: string)
    ensures a + b + c + d == a + (b + (c + d))
  {
  }

  /** On a text starting with a pair, the scanner stops exactly at the end of that pair. */
  lemma {:induction false} ScanStopsAtPair(b: Body, rest: string)
    requires ValidBody(b)
    ensures Scan("{" + PrintBody(b) + "}" + rest, Mode(0, false, false)) == Some(|PrintBody(b)| + 2)
  {
    var inside := PrintBody(b) + (['}'] + rest);
    assert "{" + PrintBody(b) + "}" + rest == ['{'] + inside;
    ScanOne('{', inside, Mode(0, false, false));
    ScanCrossesBody(b, ['}'] + rest, 1);
  }

  /** Scanner and grammar agree on every text that starts with an opening brace. */
  lemma {:induction false} ScanFindsPair(s: string)
    requires s != "" ==> s[0] == '{'
    ensures Scan(s, Mode(0, false, false)).None? <==> forall n | 0 <= n <= |s| :: !IsBracePair(s[..n])
    ensures Scan(s, Mode(0, false, false)).Some? ==> IsBracePair(s[..Scan(s, Mode(0, false, false)).value])
    ensures forall n | 0 <= n <= |s| && IsBracePair(s[..n]) :: Scan(s, Mode(0, false, false)) == Some(n)
  {
    forall n | 0 <= n <= |s| && IsBracePair(s[..n])
      ensures Scan(s, Mode(0, false, false)) == Some(n)
    {
      PairFixesScan(s, n);
    }
    if Scan(s, Mode(0, false, false)).Some? {
      ScanYieldsPair(s);
    }
  }

  lemma {:induction false} PairFixesScan(s: string, n: nat)
    requires n <= |s| && IsBracePair(s[..n])
    ensures Scan(s, Mode(0, false, false)) == Some(n)
  {
    var b: Body :| ValidBody(b) && s[..n] == "{" + PrintBody(b) + "}";
    assert s == s[..n] + s[n..];
    ScanStopsAtPair(b, s[n..]);
  }

  lemma {:induction false} ScanYieldsPair(s: string)
    requires s != "" && s[0] == '{' && Scan(s, Mode(0, false, false)).Some?
    ensures IsBracePair(s[..Scan(s, Mode(0, false, false)).value])
  {
    assert s == ['{'] + s[1..];
    ScanOne('{', s[1..], Mode(0, false, false));
    var b, rest := BodyFromScan(s[1..], 1);
    var pair := "{" + PrintBody(b) + "}";
    assert s == pair + rest;
    ScanStopsAtPair(b, rest);
    assert s[..|pair|] == pair;
  }

  // ---------- Every RFC 8259 object text is such a brace pair ----------

  /**
   * Concrete syntax of a JSON value, with the blanks the grammar allows between tokens. String
   * pieces are a superset of those of section 7 of RFC 8259.
   */
  datatype Syntax =
    | Word(text: string)
    | Str(pieces: seq<Piece>)
    | Arr(blank: string, elems: seq<Element>)
    | Obj(blank: string, pairs: seq<Pair>)
  datatype Element = Element(before: string, value: Syntax, after: string)
  datatype Pair = Pair(before: string, name: seq<Piece>, middle: string, elem: Element)

  /** `ws` of section 2 of RFC 8259. */
  predicate Blank(s: string) {
    forall i | 0 <= i < |s| :: s[i] == ' ' || s[i] == '\t' || s[i] == '\n' || s[i] == '\r'
  }

  predicate ValidElement(e: Element) {
    Blank(e.before) && Blank(e.after) && ValidSyntax(e.value)
  }

  predicate ValidSyntax(v: Syntax) {
    match v
    case Word(text) => text in {"true", "false", "null"} || Json.IsNumber(text)
    case Str(pieces) => forall p <- pieces :: ValidPiece(p)
    case Arr(blank, elems) => Blank(blank) && forall i | 0 <= i < |elems| :: ValidElement(elems[i])
    case Obj(blank, pairs) =>
      && Blank(blank)
      && forall i | 0 <= i < |pairs| :: ValidPair(pairs[i])
  }

  predicate ValidPair(p: Pair) {
    Blank(p.before) && Blank(p.middle) && (forall q <- p.name :: ValidPiece(q)) && ValidElement(p.elem)
  }

  function PrintSyntax(v: Syntax): string
    decreases v, 1
  {
    match v
    case Word(text) => text
    case Str(pieces) => "\"" + (PrintPieces(pieces) + "\"")
    case Arr(blank, elems) => "[" + (if elems == [] then blank else PrintElements(elems)) + "]"
    case Obj(blank, pairs) => "{" + ((if pairs == [] then blank else PrintPairs(pairs)) + "}")
  }

  function PrintElement(e: Element): string
    decreases e
  {
    e.before + PrintSyntax(e.value) + e.after
  }

  function PrintElements(elems: seq<Element>): string
    requires elems != []
    decreases elems
  {
    PrintElement(elems[0]) + if |elems| == 1 then "" else "," + PrintElements(elems[1..])
  }

  function PrintPair(p: Pair): string
    decreases p
  {
    p.before + ("\"" + (PrintPieces(p.name) + "\"")) + p.middle + ":" + PrintElement(p.elem)
  }

  function PrintPairs(pairs: seq<Pair>): string
    requires pairs != []
    decreases pairs
  {
    PrintPair(pairs[0]) + if |pairs| == 1 then "" else "," + PrintPairs(pairs[1..])
  }

  predicate AllPlain(s: string) {
    forall i | 0 <= i < |s| :: IsPlain(s[i])
  }

  /** Plain characters followed by a body. */
  function Spell(s: string, rest: Body): Body {
    if s == "" then rest else Plain(s[0], Spell(s[1..], rest))
  }

  lemma {:induction false} SpellPrints(s: string, rest: Body)
    requires AllPlain(s) && ValidBody(rest)
    ensures ValidBody(Spell(s, rest))
    ensures PrintBody(Spell(s, rest)) == s + PrintBody(rest)
  {
    if s == "" {
      assert s + PrintBody(rest) == PrintBody(rest);
    } else {
      SpellPrints(s[1..], rest);
      Associate([s[0]], s[1..], PrintBody(rest));
      assert s == [s[0]] + s[1..];
    }
  }

  lemma {:induction false} WordsArePlain(text: string)
    requires text in {"true", "false", "null"} || Json.IsNumber(text)
    ensures AllPlain(text)
  {
    forall i | 0 <= i < |text| ensures IsPlain(text[i]) {
      if Json.IsNumber(text) {
        assert Json.IsNumberChar(text[i]);
      }
    }
  }

  /** The body reading as a given value followed by a given body. */
  lemma {:induction false} Embed(v: Syntax, rest: Body) returns (b: Body)
    requires ValidSyntax(v) && ValidBody(rest)
    ensures ValidBody(b) && PrintBody(b) == PrintSyntax(v) + PrintBody(rest)
    decreases v, 1
  {
    match v
    case Word(text) =>
      WordsArePlain(text);
      SpellPrints(text, rest);
      b := Spell(text, rest);
    case Str(pieces) =>
      b := Quoted(pieces, rest);
    case Arr(blank, elems) =>
      var closing := Plain(']', rest);
      SpellPrints(blank, closing);
      var inside := Spell(blank, closing);
      if elems != [] {
        inside := EmbedElements(elems, closing);
      }
      b := Plain('[', inside);
      Reassociate("[", if elems == [] then blank else PrintElements(elems), "]", PrintBody(rest));
    case Obj(blank, pairs) =>
      var inside := EmbedInside(v);
      b := Braces(inside, rest);
  }

  /** What an object holds between its braces. */
  lemma {:induction false} EmbedInside(v: Syntax) returns (b: Body)
    requires v.Obj? && ValidSyntax(v)
    ensures ValidBody(b) && PrintSyntax(v) == "{" + (PrintBody(b) + "}")
    decreases v, 0
  {
    if v.pairs == [] {
      SpellPrints(v.blank, End);
      b := Spell(v.blank, End);
      assert v.blank + "" == v.blank;
    } else {
      b := EmbedPairs(v.pairs, End);
      assert PrintPairs(v.pairs) + "" == PrintPairs(v.pairs);
    }
  }

  lemma {:induction false} EmbedElement(e: Element, rest: Body) returns (b: Body)
    requires ValidElement(e) && ValidBody(rest)
    ensures ValidBody(b) && PrintBody(b) == PrintElement(e) + PrintBody(rest)
    decreases e
  {
    SpellPrints(e.after, rest);
    var value := Embed(e.value, Spell(e.after, rest));
    SpellPrints(e.before, value);
    b := Spell(e.before, value);
    Reassociate(e.before, PrintSyntax(e.value), e.after, PrintBody(rest));
  }

  lemma {:induction false} EmbedElements(elems: seq<Element>, rest: Body) returns (b: Body)
    requires elems != [] && (forall i | 0 <= i < |elems| :: ValidElement(elems[i])) && ValidBody(rest)
    ensures ValidBody(b) && PrintBody(b) == PrintElements(elems) + PrintBody(rest)
    decreases elems
  {
    if |elems| == 1 {
      b := EmbedElement(elems[0], rest);
    } else {
      var more := EmbedElements(elems[1..], rest);
      b := EmbedElement(elems[0], Plain(',', more));
      Reassociate(PrintElement(elems[0]), ",", PrintElements(elems[1..]), PrintBody(rest));
    }
  }

  lemma {:induction false} EmbedPair(p: Pair, rest: Body) returns (b: Body)
    requires ValidPair(p) && ValidBody(rest)
    ensures ValidBody(b) && PrintBody(b) == PrintPair(p) + PrintBody(rest)
    decreases p
  {
    var value := EmbedElement(p.elem, rest);
    var colon := Plain(':', value);
    SpellPrints(p.middle, colon);
    var name := Quoted(p.name, Spell(p.middle, colon));
    SpellPrints(p.before, name);
    b := Spell(p.before, name);
    Reassociate2(p.before, "\"" + (PrintPieces(p.name) + "\""), p.middle, ":", PrintElement(p.elem), PrintBody(rest));
  }

  lemma {:induction false} Reassociate2(a: string, b: string, c: string, d: string, e: string, f: string)
    ensures a + b + c + d + e + f == a + (b + (c + (d + (e + f))))
  {
  }

  lemma {:induction false} EmbedPairs(pairs: seq<Pair>, rest: Body) returns (b: Body)
    requires pairs != [] && (forall i | 0 <= i < |pairs| :: ValidPair(pairs[i])) && ValidBody(rest)
    ensures ValidBody(b) && PrintBody(b) == PrintPairs(pairs) + PrintBody(rest)
    decreases pairs
  {
    if |pairs| == 1 {
      b := EmbedPair(pairs[0], rest);
    } else {
      var more := EmbedPairs(pairs[1..], rest);
      b := EmbedPair(pairs[0], Plain(',', more));
      Reassociate(PrintPair(pairs[0]), ",", PrintPairs(pairs[1..]), PrintBody(rest));
    }
  }

  lemma {:induction false} FirstBraceAfter(prefix: string, rest: string)
    requires '{' !in prefix && rest != "" && rest[0] == '{'
    ensures FirstBrace(prefix + rest) == |prefix|
  {
    if prefix == "" {
      assert prefix + rest == rest;
    } else {
      assert (prefix + rest)[1..] == prefix[1..] + rest;
      FirstBraceAfter(prefix[1..], rest);
    }
  }

  /**
   * Extraction inverts printing: whatever prose without `{` comes before an RFC 8259 object, and
   * whatever text comes after it, the scanner returns exactly the object's text.
   */
  lemma {:induction false} ExtractionRecoversObject(prefix: string, v: Syntax, suffix: string)
    requires '{' !in prefix && v.Obj? && ValidSyntax(v)
    ensures Scanned(prefix + (PrintSyntax(v) + suffix)) == Some(PrintSyntax(v))
  {
    var printed := PrintSyntax(v);
    var tail := printed + suffix;
    var b := EmbedInside(v);
    FirstBraceAfter(prefix, tail);
    assert (prefix + tail)[|prefix|..] == tail;
    Associate("{", PrintBody(b), "}");
    ScanStopsAtPair(b, suffix);
    assert tail[..|printed|] == printed;
  }
}
