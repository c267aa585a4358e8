/**
 * Server-sent events between `_sse` (backend/app/api/v1/query.py) and the browser's incremental
 * reader (`parseSseEvent` and `streamAnswer` in frontend/lib/api.ts).
 *
 * The format is that of section 9.2 of the WHATWG HTML Living Standard, in the subset both sides
 * use: one `event:` line, one `data:` line, a blank line.
 */
module EventStream {
  import opened Sequences
  import opened Wrappers
  import opened Json

  datatype Event = Event(name: string, data: Json)

  // ---------- The printer ----------

  /** `_sse`. */
  function Sse(e: Event): string {
    "event: " + e.name + "\n" + "data: " + Dumps(e.data) + "\n\n"
  }

  function SseAll(events: seq<Event>): string {
    if events == [] then "" else Sse(events[0]) + SseAll(events[1..])
  }

  /** The events the server prints: a JSON object under one of four names. */
  predicate Printed(e: Event) {
    Handled(e.name) && e.data.Object? && Valid(e.data)
  }

  // ---------- The reader ----------

  /** White space and line terminators, as `String.prototype.trim` removes them. */
  predicate IsJsSpace(c: char) {
    c == '\t' || c == '\n' || c == 11 as char || c == 12 as char || c == '\r' || c == ' '
    || c == 0xA0 as char || c == 0x1680 as char || 0x2000 as char <= c <= 0x200A as char
    || c == 0x2028 as char || c == 0x2029 as char || c == 0x202F as char || c == 0x205F as char
    || c == 0x3000 as char || c == 0xFEFF as char
  }

  function Trim(s: string): string
    decreases |s|
  {
    if s == "" then ""
    else if IsJsSpace(s[0]) then Trim(s[1..])
    else if IsJsSpace(s[|s| - 1]) then Trim(s[..|s| - 1])
    else s
  }

  /** `raw.split("\n")`. */
  function Lines(raw: string): (lines: seq<string>)
    ensures lines != []
  {
    if raw == "" then [""]
    else if raw[0] == '\n' then [""] + Lines(raw[1..])
    else
      var more := Lines(raw[1..]);
      [[raw[0]] + more[0]] + more[1..]
  }

  /** `lines.join("\n")`. */
  function JoinLines(lines: seq<string>): string {
    if lines == [] then ""
    else if |lines| == 1 then lines[0]
    else lines[0] + "\n" + JoinLines(lines[1..])
  }

  /** The event name and data lines after the remaining lines were read. */
  function ReadFields(lines: seq<string>, name: string, data: seq<string>): (string, seq<string>) {
    if lines == [] then (name, data)
    else if "event:" <= lines[0] then ReadFields(lines[1..], Trim(lines[0][6..]), data)
    else if "data:" <= lines[0] then ReadFields(lines[1..], name, data + [Trim(lines[0][5..])])
    else ReadFields(lines[1..], name, data)
  }

  function EventOf(raw: string): Option<Event> {
    var (name, data) := ReadFields(Lines(raw), "message", []);
    if data == [] then None
    else
      match Parse(JoinLines(data))
      case None => None
      case Some(j) => Some(Event(name, j))
  }

  /** `parseSseEvent`. */
  method ParseSseEvent(raw: string) returns (r: Option<Event>)
    ensures r == EventOf(raw)
  {
    var event := "message";
    var dataLines: seq<string> := [];
    var lines := Lines(raw);
    for i := 0 to |lines|
      invariant ReadFields(lines[i..], event, dataLines) == ReadFields(lines, "message", [])
    {
      var line := lines[i];
      if "event:" <= line {
        event := Trim(line[6..]);
      } else if "data:" <= line {
        dataLines := dataLines + [Trim(line[5..])];
      }
    }
    if |dataLines| == 0 {
      return None;
    }
    match Parse(JoinLines(dataLines)) {
      case None => return None;
      case Some(j) => return Some(Event(event, j));
    }
  }

  /** The event names `streamAnswer` has a handler for; any other event is dropped. */
  predicate Handled(name: string) {
    name == "token" || name == "done" || name == "pending" || name == "error"
  }

  /** `buffer.indexOf("\n\n")`. */
  function FindBreak(s: string): (r: Option<nat>)
    ensures r.Some? ==> r.value + 2 <= |s|
  {
    if |s| < 2 then None
    else if s[0] == '\n' && s[1] == '\n' then Some(0)
    else
      match FindBreak(s[1..])
      case None => None
      case Some(i) => Some(i + 1)
  }

  /** The handler call, if any, that one raw event causes. */
  function CallOf(raw: string): seq<Event> {
    match EventOf(raw)
    case None => []
    case Some(e) => if Handled(e.name) then [e] else []
  }

  /** What a buffer turns into: the handler calls it causes and what stays in it. */
  function Drain(buffer: string): (seq<Event>, string)
    decreases |buffer|
  {
    match FindBreak(buffer)
    case None => ([], buffer)
    case Some(sep) =>
      var (calls, rest) := Drain(buffer[sep + 2..]);
      (CallOf(buffer[..sep]) + calls, rest)
  }

  /** The inner loop of `streamAnswer`: every complete event leaves the buffer, in order. */
  method DrainBuffer(earlier: seq<Event>, full: string) returns (calls: seq<Event>, buffer: string)
    ensures calls == earlier + Drain(full).0
    ensures buffer == Drain(full).1
  {
    calls, buffer := earlier, full;
    while FindBreak(buffer).Some?
      invariant Drain(full).1 == Drain(buffer).1
      invariant earlier + Drain(full).0 == calls + Drain(buffer).0
      decreases |buffer|
    {
      var sep := FindBreak(buffer).value;
      Associate(calls, CallOf(buffer[..sep]), Drain(buffer[sep + 2..]).0);
      DrainStep(buffer, sep);
      calls := DispatchEvent(calls, buffer[..sep]);
      buffer := buffer[sep + 2..];
    }
    assert calls + [] == calls;
  }

  /** Parsing one raw event and calling its handler, if it has one. */
  method DispatchEvent(earlier: seq<Event>, raw: string) returns (calls: seq<Event>)
    ensures calls == earlier + CallOf(raw)
  {
    calls := earlier;
    var ev := ParseSseEvent(raw);
    if ev.Some? && Handled(ev.value.name) {
      calls := calls + [ev.value];
    }
  }

  /** `streamAnswer`: the handler calls made while the chunks arrive, and the final buffer. */
  method StreamAnswer(chunks: seq<string>) returns (calls: seq<Event>, buffer: string)
    ensures (calls, buffer) == Drain(Concat(chunks))
  {
    calls, buffer := [], "";
    for k := 0 to |chunks|
      invariant (calls, buffer) == Drain(Concat(chunks[..k]))
    {
      assert chunks[..k + 1][..k] == chunks[..k];
      DrainAppend(Concat(chunks[..k]), chunks[k]);
      buffer := buffer + chunks[k];
      calls, buffer := DrainBuffer(calls, buffer);
    }
    assert chunks[..|chunks|] == chunks;
  }

  // ---------- Chunking does not matter ----------

  lemma {:induction false} FindBreakAppend(a: string, b: string)
    requires FindBreak(a).Some?
    ensures FindBreak(a + b) == FindBreak(a)
  {
    if !(a[0] == '\n' && a[1] == '\n') {
      assert (a + b)[1..] == a[1..] + b;
      FindBreakAppend(a[1..], b);
    }
  }

  /** Draining early and continuing with what is left is the same as draining everything at once. */
  lemma {:induction false} DrainAppend(a: string, b: string)
    ensures FindBreak(Drain(a).1).None?
    ensures Drain(a + b) == (Drain(a).0 + Drain(Drain(a).1 + b).0, Drain(Drain(a).1 + b).1)
    decreases |a|
  {
    match FindBreak(a)
    case None =>
      assert [] + Drain(a + b).0 == Drain(a + b).0;
    case Some(sep) =>
      FindBreakAppend(a, b);
      assert (a + b)[..sep] == a[..sep] && (a + b)[sep + 2..] == a[sep + 2..] + b;
      DrainAppend(a[sep + 2..], b);
      DrainStep(a, sep);
      DrainStep(a + b, sep);
      var rest := Drain(a).1;
      Associate(CallOf(a[..sep]), Drain(a[sep + 2..]).0, Drain(rest + b).0);
  }

  lemma {:induction false} DrainStep(buffer: string, sep: nat)
    requires FindBreak(buffer) == Some(sep)
    ensures Drain(buffer) == (CallOf(buffer[..sep]) + Drain(buffer[sep + 2..]).0, Drain(buffer[sep + 2..]).1)
  {
  }

  // ---------- Reading undoes printing ----------

  predicate NoNewline(s: string) { '\n' !in s }

  /** The first blank line is where the printer put it. */
  lemma {:induction false} FindBreakAt(x: string, rest: string)
    requires forall i | 0 <= i < |x| && x[i] == '\n' :: i + 1 < |x| && x[i + 1] != '\n'
    ensures FindBreak(x + "\n\n" + rest) == Some(|x|)
  {
    var s := x + "\n\n" + rest;
    if x != "" {
      assert s[0] == x[0] && (|x| > 1 ==> s[1] == x[1]);
      assert s[1..] == x[1..] + "\n\n" + rest;
      forall i | 0 <= i < |x[1..]| && x[1..][i] == '\n' ensures i + 1 < |x[1..]| && x[1..][i + 1] != '\n' {
        assert x[i + 1] == '\n';
      }
      FindBreakAt(x[1..], rest);
    }
  }

  lemma {:induction false} LinesOfOne(a: string)
    requires NoNewline(a)
    ensures Lines(a) == [a]
  {
    if a != "" {
      LinesOfOne(a[1..]);
      assert a == [a[0]] + a[1..];
    }
  }

  lemma {:induction false} LinesOfTwo(a: string, b: string)
    requires NoNewline(a) && NoNewline(b)
    ensures Lines(a + "\n" + b) == [a, b]
  {
    var s := a + "\n" + b;
    if a == "" {
      assert s[1..] == b;
      LinesOfOne(b);
    } else {
      assert s[1..] == a[1..] + "\n" + b;
      LinesOfTwo(a[1..], b);
      assert a == [a[0]] + a[1..];
    }
  }

  /** A text that starts and ends visibly loses only the blank put before it. */
  lemma {:induction false} TrimVisible(s: string)
    requires s != "" && !IsJsSpace(s[0]) && !IsJsSpace(s[|s| - 1])
    ensures Trim(" " + s) == s
  {
    assert (" " + s)[1..] == s;
  }

  lemma {:induction false} TrimName(name: string)
    requires Handled(name)
    ensures Trim((" " + name)) == name && NoNewline(name)
  {
    TrimVisible(name);
  }

  lemma {:induction false} FieldsOfPrinted(first: string, second: string, name: string, data: string)
    requires "event:" <= first && Trim(first[6..]) == name
    requires "data:" <= second && Trim(second[5..]) == data
    ensures ReadFields([first, second], "message", []) == (name, [data])
  {
    assert [first, second][1..] == [second] && [second][1..] == [];
    assert second[0] == 'd';
    assert [] + [data] == [data];
    assert ReadFields([second], name, []) == ReadFields([], name, [data]);
  }

  /** The two lines of a printed event, without its closing blank line. */
  function NameLine(e: Event): string { "event: " + e.name }
  function DataLine(e: Event): string { "data: " + Dumps(e.data) }

  lemma {:induction false} PrintedNameLine(e: Event)
    requires Printed(e)
    ensures NoNewline(NameLine(e)) && "event:" <= NameLine(e) && Trim(NameLine(e)[6..]) == e.name
  {
    TrimName(e.name);
    assert NameLine(e)[6..] == " " + e.name;
  }

  lemma {:induction false} PrintedDataLine(e: Event)
    requires Printed(e)
    ensures NoNewline(DataLine(e)) && "data:" <= DataLine(e) && Trim(DataLine(e)[5..]) == Dumps(e.data)
  {
    DumpsPrintable(e.data);
    ObjectIsFramed(e.data.members);
    TrimVisible(Dumps(e.data));
    PrintableIsOneLine(Dumps(e.data));
    AfterDataTag(Dumps(e.data));
  }

  lemma {:induction false} AfterDataTag(text: string)
    requires NoNewline(text)
    ensures NoNewline("data: " + text) && "data:" <= "data: " + text && ("data: " + text)[5..] == " " + text
  {
  }

  lemma {:induction false} PrintableIsOneLine(text: string)
    requires Printable(text)
    ensures NoNewline(text)
  {
  }

  lemma {:induction false} PrintedLines(e: Event)
    requires Printed(e)
    ensures NoNewline(NameLine(e)) && NoNewline(DataLine(e))
    ensures "event:" <= NameLine(e) && Trim(NameLine(e)[6..]) == e.name
    ensures "data:" <= DataLine(e) && Trim(DataLine(e)[5..]) == Dumps(e.data)
  {
    PrintedNameLine(e);
    PrintedDataLine(e);
  }

  /** One printed event, without its closing blank line, is read back. */
  lemma {:induction false} EventOfPrinted(e: Event)
    requires Printed(e)
    ensures EventOf(NameLine(e) + "\n" + DataLine(e)) == Some(e)
  {
    PrintedLines(e);
    LinesOfTwo(NameLine(e), DataLine(e));
    FieldsOfPrinted(NameLine(e), DataLine(e), e.name, Dumps(e.data));
    ParseInvertsDumps(e.data);
  }

  lemma {:induction false} OneBreakBetween(a: string, b: string)
    requires NoNewline(a) && NoNewline(b) && b != ""
    ensures var x := a + "\n" + b;
            forall i | 0 <= i < |x| && x[i] == '\n' :: i + 1 < |x| && x[i + 1] != '\n'
  {
    var x := a + "\n" + b;
    assert forall i | 0 <= i < |a| :: x[i] == a[i] && a[i] in a;
    assert forall i | 0 <= i < |b| :: x[|a| + 1 + i] == b[i] && b[i] in b;
    assert forall i | |a| < i < |x| :: x[i] == b[i - |a| - 1];
  }

  /** The blank line closing a printed event is the first one in the stream. */
  lemma {:induction false} BreakAfterPrinted(e: Event, rest: string)
    requires Printed(e)
    ensures FindBreak(Sse(e) + rest) == Some(|Sse(e)| - 2)
    ensures (Sse(e) + rest)[|Sse(e)|..] == rest
    ensures (Sse(e) + rest)[..|Sse(e)| - 2] == NameLine(e) + "\n" + DataLine(e)
  {
    var x := NameLine(e) + "\n" + DataLine(e);
    PrintedLines(e);
    OneBreakBetween(NameLine(e), DataLine(e));
    FindBreakAt(x, rest);
    assert Sse(e) == x + "\n\n" by {
      AssociateLine("event: " + e.name, "data: ", Dumps(e.data));
    }
  }

  lemma {:induction false} AssociateLine(a: string, b: string, c: string)
    ensures a + "\n" + b + c + "\n\n" == a + "\n" + (b + c) + "\n\n"
  {
  }

  /** Reading undoes printing: the printed events come out, in order, and the buffer ends empty. */
  lemma {:induction false} DrainSseAll(events: seq<Event>)
    requires forall i | 0 <= i < |events| :: Printed(events[i])
    ensures Drain(SseAll(events)) == (events, "")
  {
    if events != [] {
      DrainPrinted(events[0], SseAll(events[1..]));
      DrainSseAll(events[1..]);
      assert events == events[..1] + events[1..] && events[..1] == [events[0]];
    }
  }

  /** Draining a stream that starts with a printed event yields that event first. */
  lemma {:induction false} DrainPrinted(e: Event, rest: string)
    requires Printed(e)
    ensures Drain(Sse(e) + rest) == ([e] + Drain(rest).0, Drain(rest).1)
  {
    BreakAfterPrinted(e, rest);
    EventOfPrinted(e);
    DrainStep(Sse(e) + rest, |Sse(e)| - 2);
  }

  /** The stream is ASCII, so cutting its bytes anywhere cuts it between characters. */
  lemma {:induction false} SseIsAscii(e: Event)
    requires Printed(e)
    ensures forall i | 0 <= i < |Sse(e)| :: Sse(e)[i] as int < 128
  {
    DumpsPrintable(e.data);
    var x := "event: " + e.name + "\n" + "data: ";
    assert forall i | 0 <= i < |x| :: x[i] as int < 128;
    assert Sse(e) == x + Dumps(e.data) + "\n\n";
  }

  /**
   * The round trip, for every way of cutting the printed stream into chunks: the browser makes
   * exactly the printed calls, in order, and is left with an empty buffer.
   */
  method StreamRoundTrip(events: seq<Event>, chunks: seq<string>) returns (calls: seq<Event>, buffer: string)
    requires forall i | 0 <= i < |events| :: Printed(events[i])
    requires Concat(chunks) == SseAll(events)
    ensures calls == events && buffer == ""
  {
    DrainSseAll(events);
    calls, buffer := StreamAnswer(chunks);
  }

  // ---------- The reader's string functions ----------

  /** The code points of white space and line terminators of ECMAScript. */
  const WHITE_SPACE: set<int> :=
    {9, 10, 11, 12, 13, 32, 0xA0, 0x1680, 0x2000, 0x2001, 0x2002, 0x2003, 0x2004, 0x2005, 0x2006, 0x2007, 0x2008,
     0x2009, 0x200A, 0x2028, 0x2029, 0x202F, 0x205F, 0x3000, 0xFEFF}

  lemma {:induction false} SpacesAreListed(c: char)
    ensures IsJsSpace(c) <==> c as int in WHITE_SPACE
  {
  }

  /** Trimming removes white space at both ends and nothing else. */
  lemma {:induction false} TrimMeaning(s: string) returns (before: string, after: string)
    ensures s == before + Trim(s) + after
    ensures (forall c <- before :: IsJsSpace(c)) && (forall c <- after :: IsJsSpace(c))
    ensures Trim(s) != "" ==> !IsJsSpace(Trim(s)[0]) && !IsJsSpace(Trim(s)[|Trim(s)| - 1])
    decreases |s|
  {
    before, after := "", "";
    if s != "" {
      if IsJsSpace(s[0]) {
        before, after := TrimMeaning(s[1..]);
        before := [s[0]] + before;
        assert s == [s[0]] + s[1..];
      } else if IsJsSpace(s[|s| - 1]) {
        before, after := TrimMeaning(s[..|s| - 1]);
        after := after + [s[|s| - 1]];
        assert s == s[..|s| - 1] + [s[|s| - 1]];
      }
    }
  }

  lemma {:induction false} NameStays(lines: seq<string>, name: string, data: seq<string>)
    requires forall line <- lines :: !("event:" <= line)
    ensures ReadFields(lines, name, data).0 == name
  {
    if lines != [] {
      assert lines[0] in lines && forall line <- lines[1..] :: line in lines;
      NameStays(lines[1..], name, if "data:" <= lines[0] then data + [Trim(lines[0][5..])] else data);
    }
  }

  /** An event that no line names reaches no handler. */
  lemma {:induction false} NamelessIsIgnored(raw: string)
    requires forall line <- Lines(raw) :: !("event:" <= line)
    ensures CallOf(raw) == []
  {
    NameStays(Lines(raw), "message", []);
  }

  /** Splitting into lines and joining them again gives the text back, and no line holds a break. */
  lemma {:induction false} LinesMeaning(raw: string)
    ensures JoinLines(Lines(raw)) == raw && forall line <- Lines(raw) :: '\n' !in line
  {
    if raw != "" {
      LinesMeaning(raw[1..]);
      var more := Lines(raw[1..]);
      assert raw == [raw[0]] + raw[1..];
      if raw[0] == '\n' {
        assert ([""] + more)[1..] == more;
      } else {
        assert ([[raw[0]] + more[0]] + more[1..])[1..] == more[1..];
      }
    }
  }

  /** The break found is the first one, and none is missed. */
  lemma {:induction false} FindBreakMeaning(s: string)
    ensures FindBreak(s).Some? ==>
      && FindBreak(s).value + 2 <= |s| && s[FindBreak(s).value] == '\n' && s[FindBreak(s).value + 1] == '\n'
    ensures forall i | 0 <= i < |s| - 1 && s[i] == '\n' && s[i + 1] == '\n' ::
              FindBreak(s).Some? && FindBreak(s).value <= i
  {
    if |s| >= 2 {
      FindBreakMeaning(s[1..]);
      assert forall i | 1 <= i < |s| :: s[i] == s[1..][i - 1];
    }
  }
}
