/** Server-sent events as text: the printer of `src/utils/sse.ts` and the parser of
    `test/helpers/sse-parser.ts`, which inverts it. JSON is a codec that is given from outside. */
module Sse {
  import opened Redis

  // JSON.stringify, and JSON.parse with None for an exception.
  datatype Codec<!D> = Codec(encode: D -> string, decode: string -> Option<D>)

  // What JSON.stringify makes of an object: one line, from brace to brace, that parses back.
  ghost predicate ObjectCodec<D(!new)>(c: Codec<D>) {
    forall d: D ::
      && |c.encode(d)| >= 2 && c.encode(d)[0] == '{' && c.encode(d)[|c.encode(d)| - 1] == '}'
      && '\n' !in c.encode(d)
      && c.decode(c.encode(d)) == Some(d)
  }

  datatype Item<D> =
    | Message(id: string, event: string, data: D, retryMs: Option<nat>)
    | KeepAlive

  // ---- the printer -----------------------------------------------------------------

  function Decimal(n: nat): string {
    if n < 10 then [('0' as int + n) as char] else Decimal(n / 10) + [('0' as int + n % 10) as char]
  }

  function RetryLine(retryMs: Option<nat>): string {
    if retryMs.Some? then "retry: " + Decimal(retryMs.value) + "\n" else ""
  }

  // A message without the empty line that ends it.
  function Body<D>(c: Codec<D>, item: Item<D>): string {
    if item.KeepAlive? then ": keep-alive"
    else RetryLine(item.retryMs)
         + ("id: " + item.id + "\n" + ("event: " + item.event + "\n" + ("data: " + c.encode(item.data))))
  }

  function Print<D>(c: Codec<D>, items: seq<Item<D>>): string {
    if items == [] then "" else Body(c, items[0]) + "\n\n" + Print(c, items[1..])
  }

  /** The response as a socket. */
  class Socket {
    var written: string
    var destroyed: bool

    constructor ()
      ensures written == "" && !destroyed
    {
      written, destroyed := "", false;
    }

    method SendSSE<D>(c: Codec<D>, id: string, event: string, data: D, retryMs: Option<nat>) returns (ok: bool)
      modifies this
      ensures ok == !old(destroyed) && destroyed == old(destroyed)
      ensures written == old(written) + (if ok then Print(c, [Message(id, event, data, retryMs)]) else "")
    {
      if destroyed {
        return false;
      }
      var retryLine := if retryMs.Some? then "retry: " + Decimal(retryMs.value) + "\n" else "";
      var msg := retryLine
        + ("id: " + id + "\n" + ("event: " + event + "\n" + ("data: " + c.encode(data)))) + "\n\n";
      assert Print(c, [Message(id, event, data, retryMs)]) == msg + "";
      written := written + msg;
      return true;
    }

    method SendKeepAlive<D>(ghost c: Codec<D>)
      modifies this
      ensures destroyed == old(destroyed)
      ensures written == old(written) + (if destroyed then "" else Print(c, [KeepAlive]))
    {
      if !destroyed {
        written := written + ": keep-alive\n\n";
      }
    }
  }

  // ---- the parser ------------------------------------------------------------------

  // White space and line ends as String.prototype.trim sees them.
  predicate IsSpace(ch: char) {
    var x := ch as int;
    9 <= x <= 13 || x == 32 || x == 0xA0 || x == 0x1680 || 0x2000 <= x <= 0x200A || x == 0x2028 || x == 0x2029
    || x == 0x202F || x == 0x205F || x == 0x3000 || x == 0xFEFF
  }

  function Trim(s: string): string {
    if s == "" then ""
    else if IsSpace(s[0]) then Trim(s[1..])
    else if IsSpace(s[|s| - 1]) then Trim(s[..|s| - 1])
    else s
  }

  predicate StartsWith(s: string, prefix: string) { prefix <= s }

  // The first position from i on that holds an empty line's two line ends.
  function PartEnd(s: string, i: nat): (k: nat)
    requires i <= |s|
    ensures i <= k <= |s|
    ensures k < |s| ==> k + 1 < |s| && s[k] == '\n' && s[k + 1] == '\n'
    decreases |s| - i
  {
    if |s| <= i + 1 then |s| else if s[i] == '\n' && s[i + 1] == '\n' then i else PartEnd(s, i + 1)
  }

  // rawBody.split('\n\n')
  function Parts(s: string): (parts: seq<string>)
    decreases |s|
  {
    var k := PartEnd(s, 0);
    if k == |s| then [s] else [s[..k]] + Parts(s[k + 2..])
  }

  function LineEnd(s: string, i: nat): (k: nat)
    requires i <= |s|
    ensures i <= k <= |s|
    decreases |s| - i
  {
    if i == |s| || s[i] == '\n' then i else LineEnd(s, i + 1)
  }

  // part.split('\n')
  function Lines(s: string): seq<string>
    decreases |s|
  {
    var k := LineEnd(s, 0);
    if k == |s| then [s] else [s[..k]] + Lines(s[k + 1..])
  }

  // The value of a data line: {} when empty, the text itself when it does not parse.
  datatype Value<D> = Null | EmptyObject | Decoded(value: D) | RawText(text: string)

  datatype Parsed<D> = Parsed(id: string, event: string, data: Value<D>)

  function Decode<D>(c: Codec<D>, raw: string): Value<D> {
    if raw == "" then EmptyObject
    else if c.decode(raw).Some? then Decoded(c.decode(raw).value)
    else RawText(raw)
  }

  function ParseLine<D>(c: Codec<D>, before: Parsed<D>, line: string): Parsed<D> {
    if StartsWith(line, "data: ") then before.(data := Decode(c, Trim(line[6..])))
    else if StartsWith(line, "event: ") then before.(event := Trim(line[7..]))
    else if StartsWith(line, "id: ") then before.(id := Trim(line[4..]))
    else before
  }

  function ParseLines<D>(c: Codec<D>, lines: seq<string>): Parsed<D> {
    if lines == [] then Parsed("", "chunk", Null)
    else ParseLine(c, ParseLines(c, lines[..|lines| - 1]), lines[|lines| - 1])
  }

  predicate Skipped(part: string) { Trim(part) == "" || StartsWith(Trim(part), ":") }

  function ParsePart<D>(c: Codec<D>, part: string): seq<Parsed<D>> {
    if Skipped(part) then [] else [ParseLines(c, Lines(Trim(part)))]
  }

  function ParseParts<D>(c: Codec<D>, parts: seq<string>): seq<Parsed<D>> {
    if parts == [] then [] else ParsePart(c, parts[0]) + ParseParts(c, parts[1..])
  }

  method ParseLinesOf<D>(c: Codec<D>, trimmedPart: string) returns (parsed: Parsed<D>)
    ensures parsed == ParseLines(c, Lines(trimmedPart))
  {
    var lines := Lines(trimmedPart);
    var data, event, id := Null, "chunk", "";
    for l := 0 to |lines|
      invariant Parsed(id, event, data) == ParseLines(c, lines[..l])
    {
      assert lines[..l + 1][..l] == lines[..l];
      var line := lines[l];
      if StartsWith(line, "data: ") {
        data := Decode(c, Trim(line[6..]));
      } else if StartsWith(line, "event: ") {
        event := Trim(line[7..]);
      } else if StartsWith(line, "id: ") {
        id := Trim(line[4..]);
      }
    }
    assert lines[..|lines|] == lines;
    return Parsed(id, event, data);
  }

  lemma NextPart<D>(c: Codec<D>, parts: seq<string>, p: nat, before: seq<Parsed<D>>)
    requires p < |parts|
    ensures before + ParseParts(c, parts[p..]) == before + ParsePart(c, parts[p]) + ParseParts(c, parts[p + 1..])
  {}

  method ParseSSE<D>(c: Codec<D>, rawBody: string) returns (result: seq<Parsed<D>>)
    ensures result == ParseParts(c, Parts(rawBody))
  {
    result := [];
    if rawBody == "" {
      return;
    }
    var parts := Parts(rawBody);
    assert parts[0..] == parts;
    for p := 0 to |parts|
      invariant result + ParseParts(c, parts[p..]) == ParseParts(c, parts)
    {
      NextPart(c, parts, p, result);
      var trimmedPart := Trim(parts[p]);
      if trimmedPart == "" || StartsWith(trimmedPart, ":") {
        assert result + [] == result;
        continue;
      }
      var parsed := ParseLinesOf(c, trimmedPart);
      result := result + [parsed];
    }
  }

  // ---- the round trip --------------------------------------------------------------

  predicate OneLine(s: string) { '\n' !in s }

  predicate Trimmed(s: string) { s == "" || (!IsSpace(s[0]) && !IsSpace(s[|s| - 1])) }

  predicate Printable<D>(item: Item<D>) {
    item.KeepAlive? || (OneLine(item.id) && Trimmed(item.id) && OneLine(item.event) && Trimmed(item.event))
  }

  function MessageOf<D>(item: Item<D>): seq<Parsed<D>> {
    if item.KeepAlive? then [] else [Parsed(item.id, item.event, Decoded(item.data))]
  }

  function Messages<D>(items: seq<Item<D>>): seq<Parsed<D>> {
    if items == [] then [] else MessageOf(items[0]) + Messages(items[1..])
  }

  // No empty line inside, no line end at its end.
  ghost predicate Compact(s: string) {
    && s != "" && s[|s| - 1] != '\n' && s[0] != '\n'
    && forall i :: 0 <= i < |s| - 1 ==> !(s[i] == '\n' && s[i + 1] == '\n')
  }

  lemma {:induction false} DecimalIsOneLine(n: nat)
    ensures OneLine(Decimal(n)) && Decimal(n) != ""
  {
    if n >= 10 {
      DecimalIsOneLine(n / 10);
    }
  }

  lemma CompactLine(line: string, rest: string)
    requires line != "" && OneLine(line) && Compact(rest)
    ensures Compact(line + "\n" + rest)
  {}

  lemma OneLineIsCompact(line: string)
    requires line != "" && OneLine(line)
    ensures Compact(line)
  {}

  lemma {:induction false} PartEndAt(s: string, i: nat, k: nat)
    requires i <= k && k + 1 < |s| && s[k] == '\n' && s[k + 1] == '\n'
    requires forall j :: i <= j < k ==> !(s[j] == '\n' && s[j + 1] == '\n')
    ensures PartEnd(s, i) == k
    decreases k - i
  {
    if i < k {
      PartEndAt(s, i + 1, k);
    }
  }

  lemma PartsOf(body: string, rest: string)
    requires Compact(body)
    ensures Parts(body + "\n\n" + rest) == [body] + Parts(rest)
  {
    var s := body + "\n\n" + rest;
    forall j | 0 <= j < |body|
      ensures !(s[j] == '\n' && s[j + 1] == '\n')
    {
      assert s[j] == body[j];
      if j + 1 < |body| {
        assert s[j + 1] == body[j + 1];
      }
    }
    PartEndAt(s, 0, |body|);
    assert s[..|body|] == body && s[|body| + 2..] == rest;
  }

  lemma {:induction false} LineEndAt(s: string, i: nat, k: nat)
    requires i <= k <= |s| && (k < |s| ==> s[k] == '\n')
    requires forall j :: i <= j < k ==> s[j] != '\n'
    ensures LineEnd(s, i) == k
    decreases k - i
  {
    if i < k {
      LineEndAt(s, i + 1, k);
    }
  }

  lemma LinesOf(line: string, rest: string)
    requires OneLine(line)
    ensures Lines(line + "\n" + rest) == [line] + Lines(rest)
  {
    var s := line + "\n" + rest;
    assert forall j :: 0 <= j < |line| ==> s[j] == line[j];
    LineEndAt(s, 0, |line|);
    assert s[..|line|] == line && s[|line| + 1..] == rest;
  }

  lemma LinesOfOne(line: string)
    requires OneLine(line)
    ensures Lines(line) == [line]
  {
    LineEndAt(line, 0, |line|);
  }

  // The three lines that every message has.
  function Core(id: string, event: string, data: string): string {
    "id: " + id + "\n" + ("event: " + event + "\n" + ("data: " + data))
  }

  predicate ObjectText(data: string) {
    |data| >= 2 && data[0] == '{' && data[|data| - 1] == '}' && OneLine(data)
  }

  lemma CoreIsCompact(id: string, event: string, data: string)
    requires OneLine(id) && OneLine(event) && ObjectText(data)
    ensures Compact(Core(id, event, data))
    ensures Lines(Core(id, event, data)) == ["id: " + id, "event: " + event, "data: " + data]
  {
    var l1, l2, l3 := "id: " + id, "event: " + event, "data: " + data;
    OneLineIsCompact(l3);
    CompactLine(l2, l3);
    CompactLine(l1, l2 + "\n" + l3);
    LinesOfOne(l3);
    LinesOf(l2, l3);
    LinesOf(l1, l2 + "\n" + l3);
  }

  lemma LineIsParsed<D>(c: Codec<D>, before: Parsed<D>, id: string, event: string, data: string)
    requires Trimmed(id) && Trimmed(event) && ObjectText(data)
    ensures ParseLine(c, before, "id: " + id) == before.(id := id)
    ensures ParseLine(c, before, "event: " + event) == before.(event := event)
    ensures ParseLine(c, before, "data: " + data) == before.(data := Decode(c, data))
  {
    var l1, l2, l3 := "id: " + id, "event: " + event, "data: " + data;
    assert l1[4..] == id && l2[7..] == event && l3[6..] == data;
    assert l1[0] == 'i' && l2[0] == 'e' && l3[0] == 'd';
    assert Trim(data) == data && Trim(id) == id && Trim(event) == event;
  }

  lemma CoreIsParsed<D>(c: Codec<D>, before: seq<string>, id: string, event: string, data: string)
    requires Trimmed(id) && Trimmed(event) && ObjectText(data)
    ensures ParseLines(c, before + ["id: " + id, "event: " + event, "data: " + data])
         == Parsed(id, event, Decode(c, data))
  {
    var l1, l2, l3 := "id: " + id, "event: " + event, "data: " + data;
    var s := before + [l1, l2, l3];
    var k := |before|;
    assert s[..k + 2][..k + 1] == s[..k + 1] && s[..k + 1][..k] == before;
    LineIsParsed(c, ParseLines(c, s[..k + 2]), id, event, data);
    LineIsParsed(c, ParseLines(c, s[..k + 1]), id, event, data);
    LineIsParsed(c, ParseLines(c, before), id, event, data);
  }

  // A text from one visible character to another, that does not start with a colon.
  lemma PartIsParsed<D>(c: Codec<D>, part: string)
    requires part != "" && part[0] != ':' && !IsSpace(part[0]) && !IsSpace(part[|part| - 1])
    ensures ParsePart(c, part) == [ParseLines(c, Lines(part))]
  {}

  lemma PlainBody<D>(c: Codec<D>, id: string, event: string, data: string)
    requires OneLine(id) && Trimmed(id) && OneLine(event) && Trimmed(event) && ObjectText(data)
    ensures Compact(Core(id, event, data))
    ensures ParsePart(c, Core(id, event, data)) == [Parsed(id, event, Decode(c, data))]
  {
    var core := Core(id, event, data);
    CoreIsCompact(id, event, data);
    assert core[0] == 'i' && core[|core| - 1] == '}';
    PartIsParsed(c, core);
    CoreIsParsed(c, [], id, event, data);
    assert [] + Lines(core) == Lines(core);
  }

  lemma RetryBody<D>(c: Codec<D>, retry: string, id: string, event: string, data: string)
    requires OneLine(retry) && |retry| > 0 && retry[0] == 'r'
    requires OneLine(id) && Trimmed(id) && OneLine(event) && Trimmed(event) && ObjectText(data)
    ensures Compact(retry + "\n" + Core(id, event, data))
    ensures ParsePart(c, retry + "\n" + Core(id, event, data)) == [Parsed(id, event, Decode(c, data))]
  {
    var core := Core(id, event, data);
    CoreIsCompact(id, event, data);
    CompactLine(retry, core);
    LinesOf(retry, core);
    var body := retry + "\n" + core;
    assert body[0] == 'r' && core[|core| - 1] == '}' && body[|body| - 1] == core[|core| - 1];
    PartIsParsed(c, body);
    CoreIsParsed(c, [retry], id, event, data);
  }

  lemma BodyIsParsed<D(!new)>(c: Codec<D>, item: Item<D>)
    requires ObjectCodec(c) && Printable(item)
    ensures Compact(Body(c, item)) && ParsePart(c, Body(c, item)) == MessageOf(item)
  {
    if item.KeepAlive? {
      OneLineIsCompact(": keep-alive");
      return;
    }
    var data := c.encode(item.data);
    assert Decode(c, data) == Decoded(item.data);
    if item.retryMs.None? {
      PlainBody(c, item.id, item.event, data);
      assert "" + Core(item.id, item.event, data) == Core(item.id, item.event, data);
      return;
    }
    DecimalIsOneLine(item.retryMs.value);
    RetryBody(c, "retry: " + Decimal(item.retryMs.value), item.id, item.event, data);
  }

  // Parsing what was printed gives the messages back, with keep-alives and retry lines gone.
  lemma {:induction false} RoundTrip<D(!new)>(c: Codec<D>, items: seq<Item<D>>)
    requires ObjectCodec(c) && forall i :: 0 <= i < |items| ==> Printable(items[i])
    ensures ParseParts(c, Parts(Print(c, items))) == Messages(items)
  {
    if items == [] {
      assert Parts("") == [""];
    } else {
      var body, rest := Body(c, items[0]), Print(c, items[1..]);
      RoundTrip(c, items[1..]);
      BodyIsParsed(c, items[0]);
      PartsOf(body, rest);
      assert ([body] + Parts(rest))[1..] == Parts(rest);
    }
  }

  // The parser applied to the printer's output.
  method PrintAndParse<D(!new)>(c: Codec<D>, items: seq<Item<D>>) returns (parsed: seq<Parsed<D>>)
    requires ObjectCodec(c) && forall i :: 0 <= i < |items| ==> Printable(items[i])
    ensures parsed == Messages(items)
  {
    RoundTrip(c, items);
    parsed := ParseSSE(c, Print(c, items));
  }
}
