/** What both readers of Anthropic usage read, stated on the events themselves: whatever JSON says an event, in parts of
    any lines that end with its `data:` line and cut into any chunks, they end with the usage, the text and the tool
    calls that were said. */
module AnthropicStream {
  import opened Basics
  import opened Json
  import opened SseText
  import opened AnthropicUsage
  import ThinkingFix

  // ----- Events and the JSON that says them -----

  datatype Event =
    | Opens(usage: map<string, Json>)
    | Closes(usage: map<string, Json>)
    | Adds(text: string)
    | CallsTool
    | Other

  predicate Has(v: Json, key: string, value: Json) {
    v.JObj? && key in v.fields && v.fields[key] == value
  }

  predicate HasObject(v: Json, key: string) {
    v.JObj? && key in v.fields && v.fields[key].JObj?
  }

  /** Missing or null. */
  predicate HasNone(v: Json, key: string) {
    !v.JObj? || key !in v.fields || v.fields[key].JNull?
  }

  predicate HasNoText(v: Json) {
    !(v.JObj? && "text" in v.fields && v.fields["text"].JStr?)
  }

  predicate IsTextDelta(v: Json) {
    HasObject(v, "delta") && Has(v.fields["delta"], "type", JStr("text_delta"))
  }

  /** A start carries the usage of its message and a delta its own; a usage anywhere else is none of the stream's. */
  predicate Says(v: Json, e: Event) {
    match e
    case Opens(usage) => Has(v, "type", JStr("message_start")) && HasObject(v, "message") && Has(v.fields["message"], "usage", JObj(usage))
    case Closes(usage) => Has(v, "type", JStr("message_delta")) && Has(v, "usage", JObj(usage))
    case Adds(text) => Has(v, "type", JStr("content_block_delta")) && IsTextDelta(v) && Has(v.fields["delta"], "text", JStr(text))
    case CallsTool =>
      Has(v, "type", JStr("content_block_start")) && HasObject(v, "content_block") && Has(v.fields["content_block"], "type", JStr("tool_use"))
    case Other =>
      && (Has(v, "type", JStr("message_start")) ==> HasObject(v, "message") ==> HasNone(v.fields["message"], "usage"))
      && (Has(v, "type", JStr("message_delta")) ==> HasNone(v, "usage"))
      && (Has(v, "type", JStr("content_block_delta")) ==> IsTextDelta(v) ==> HasNoText(v.fields["delta"]))
      && (Has(v, "type", JStr("content_block_start")) ==>
            !(HasObject(v, "content_block") && Has(v.fields["content_block"], "type", JStr("tool_use"))))
  }

  // ----- The parts that carry them -----

  /** One space after the colon belongs to the line, not to the payload. */
  predicate IsDataOf(line: string, payload: string) {
    line == "data: " + payload || (line == "data:" + payload && (payload == "" || payload[0] != ' '))
  }

  /** Lines none of which is empty, the last one with the payload. */
  predicate IsPart(lines: seq<string>, payload: string) {
    && lines != [] && (forall k :: 0 <= k < |lines| ==> lines[k] != "" && OneLine(lines[k]))
    && IsDataOf(lines[|lines| - 1], payload) && payload != "" && payload != "[DONE]"
  }

  predicate Carries(parse: Parser, parts: seq<seq<string>>, payloads: seq<string>, events: seq<Event>) {
    && |parts| == |payloads| == |events|
    && forall k :: 0 <= k < |parts| ==> IsPart(parts[k], payloads[k]) && parse(payloads[k]).Some? && Says(parse(payloads[k]).value, events[k])
  }

  /** The parts, each followed by a blank line. */
  function Stream(parts: seq<seq<string>>): string
    requires forall k :: 0 <= k < |parts| ==> parts[k] != []
  {
    if parts == [] then "" else Stream(Init(parts)) + (Join(Last(parts)) + BLANK_LINE)
  }

  // ----- What was said -----

  function AllUsage(events: seq<Event>): map<string, Json> {
    if events == [] then map[] else
      AllUsage(Init(events)) + (if Last(events).Opens? || Last(events).Closes? then Last(events).usage else map[])
  }

  function AllText(events: seq<Event>): string {
    if events == [] then "" else AllText(Init(events)) + (if Last(events).Adds? then Last(events).text else "")
  }

  function ToolCalls(events: seq<Event>): nat {
    if events == [] then 0 else ToolCalls(Init(events)) + (if Last(events).CallsTool? then 1 else 0)
  }

  // ----- Reading one part -----

  lemma PayloadOfPart(lines: seq<string>, payload: string)
    requires IsPart(lines, payload)
    ensures Lines(Join(lines)) == lines && DataStr(lines) == payload
  {
    LinesOfJoined(lines);
    var line := Last(lines);
    if line == "data: " + payload {
      assert line[..6] == "data: " && line[6..] == payload;
    } else {
      assert line[..5] == "data:" && line[5..] == payload;
      assert line[5] == payload[0] != ' ';
      assert "data: "[5] == ' ' && |line| >= 6 && line[..6][5] == line[5];
    }
  }

  lemma ReadEvent(v: Json, e: Event, usage: Usage)
    requires Says(v, e)
    ensures var more := usage + (if e.Opens? || e.Closes? then e.usage else map[]);
            TapEvent(Some(v), usage) == more && PassEvent(Some(v), usage) == more
    ensures TextDelta(Some(v)) == (if e.Adds? then e.text else "") && ToolUses(Some(v)) == (if e.CallsTool? then 1 else 0)
  {
    AddingNothing(usage);
  }

  lemma ReadPart(parse: Parser, lines: seq<string>, payload: string, e: Event, usage: Usage)
    requires IsPart(lines, payload) && parse(payload).Some? && Says(parse(payload).value, e)
    ensures var event := EventOfPart(parse, Join(lines));
            && TapEvent(event, usage) == PassEvent(event, usage) == usage + (if e.Opens? || e.Closes? then e.usage else map[])
            && TextDelta(event) == (if e.Adds? then e.text else "") && ToolUses(event) == (if e.CallsTool? then 1 else 0)
  {
    PayloadOfPart(lines, payload);
    ReadEvent(parse(payload).value, e, usage);
  }

  // ----- Reading the stream -----

  function Texts(parts: seq<seq<string>>): seq<string>
    requires forall k :: 0 <= k < |parts| ==> parts[k] != []
  {
    seq(|parts|, k requires 0 <= k < |parts| => Join(parts[k]))
  }

  lemma {:induction false} StreamIsFrame(parts: seq<seq<string>>)
    requires forall k :: 0 <= k < |parts| ==> parts[k] != []
    ensures Stream(parts) == ThinkingFix.Frame(Texts(parts))
    decreases |parts|
  {
    if parts != [] {
      StreamIsFrame(Init(parts));
      assert Init(Texts(parts)) == Texts(Init(parts));
    }
  }

  lemma FramedTexts(parts: seq<seq<string>>, payloads: seq<string>)
    requires |parts| == |payloads| && forall k :: 0 <= k < |parts| ==> parts[k] != [] && IsPart(parts[k], payloads[k])
    ensures forall k :: 0 <= k < |parts| ==> ThinkingFix.Framed(Texts(parts)[k])
  {
    forall k | 0 <= k < |parts| ensures ThinkingFix.Framed(Texts(parts)[k]) {
      PayloadOfPart(parts[k], payloads[k]);
      ThinkingFix.FramedByLines(Texts(parts)[k]);
    }
  }

  lemma StreamSplits(parts: seq<seq<string>>, payloads: seq<string>)
    requires |parts| == |payloads| && forall k :: 0 <= k < |parts| ==> parts[k] != [] && IsPart(parts[k], payloads[k])
    ensures Parts(Stream(parts)) == Texts(parts) && Rest(Stream(parts)) == ""
  {
    FramedTexts(parts, payloads);
    StreamIsFrame(parts);
    assert Split("", BLANK_LINE) == [""];
    ThinkingFix.FrameSplits(Texts(parts), "");
    assert Stream(parts) + "" == Stream(parts);
  }

  /** What was read of the parts is what the events say. */
  ghost predicate IsRead(parse: Parser, texts: seq<string>, events: seq<Event>) {
    && TapParts(parse, texts) == AllUsage(events) && PassParts(parse, texts) == AllUsage(events)
    && OutputText(parse, texts) == AllText(events) && ToolUseCount(parse, texts) == ToolCalls(events)
  }

  lemma ReadOneMore(parse: Parser, texts: seq<string>, lines: seq<string>, payload: string, events: seq<Event>)
    requires events != [] && IsRead(parse, texts, Init(events))
    requires IsPart(lines, payload) && parse(payload).Some? && Says(parse(payload).value, Last(events))
    ensures IsRead(parse, texts + [Join(lines)], events)
  {
    var more := texts + [Join(lines)];
    assert Init(more) == texts && Last(more) == Join(lines);
    ReadPart(parse, lines, payload, Last(events), AllUsage(Init(events)));
  }

  lemma CarriesInit(parse: Parser, parts: seq<seq<string>>, payloads: seq<string>, events: seq<Event>)
    requires Carries(parse, parts, payloads, events) && parts != []
    ensures Carries(parse, Init(parts), Init(payloads), Init(events))
    ensures IsPart(Last(parts), Last(payloads)) && parse(Last(payloads)).Some? && Says(parse(Last(payloads)).value, Last(events))
  {
  }

  lemma TextsOfSnoc(parts: seq<seq<string>>)
    requires parts != [] && forall k :: 0 <= k < |parts| ==> parts[k] != []
    ensures Texts(parts) == Texts(Init(parts)) + [Join(Last(parts))]
  {
  }

  lemma {:induction false} ReadParts(parse: Parser, parts: seq<seq<string>>, payloads: seq<string>, events: seq<Event>)
    requires Carries(parse, parts, payloads, events)
    ensures IsRead(parse, Texts(parts), events)
    decreases |parts|
  {
    if parts != [] {
      CarriesInit(parse, parts, payloads, events);
      ReadParts(parse, Init(parts), Init(payloads), Init(events));
      ReadOneMore(parse, Texts(Init(parts)), Last(parts), Last(payloads), events);
      TextsOfSnoc(parts);
    }
  }

  lemma ReadStream(parse: Parser, parts: seq<seq<string>>, payloads: seq<string>, events: seq<Event>)
    requires Carries(parse, parts, payloads, events)
    ensures var text := Stream(parts);
            && TapUsage(parse, text) == AllUsage(events) && PassUsage(parse, text) == AllUsage(events)
            && OutputText(parse, Parts(text)) == AllText(events) && ToolUseCount(parse, Parts(text)) == ToolCalls(events)
  {
    StreamSplits(parts, payloads);
    ReadParts(parse, parts, payloads, events);
    TrimBlank("");
  }

  /** Both readers over any chunks of a stream that carries the events: each usage overrides the ones before it, the tap
      has all text in order and counts the tool calls. */
  method ReadersReadBack(parse: Parser, ghost parts: seq<seq<string>>, ghost payloads: seq<string>, ghost events: seq<Event>, chunks: seq<string>)
    returns (usage: Usage, passthrough: Usage, outputText: string, toolUseCount: nat)
    requires Carries(parse, parts, payloads, events) && Concat(chunks) == Stream(parts)
    ensures usage == AllUsage(events) && passthrough == AllUsage(events)
    ensures outputText == AllText(events) && toolUseCount == ToolCalls(events)
  {
    ReadStream(parse, parts, payloads, events);
    usage, outputText, toolUseCount := ConsumeAnthropicStream(parse, chunks);
    var rawText;
    passthrough, rawText := ConsumeStream(parse, chunks);
  }

  /** A start and a delta: what the delta says overrides what the start said, key by key. */
  lemma StartThenDelta(u: map<string, Json>, v: map<string, Json>)
    ensures AllUsage([Opens(u), Closes(v)]) == u + v
  {
    var both := [Opens(u), Closes(v)];
    assert Init(both) == [Opens(u)] && Init([Opens(u)]) == [] && Last(both) == Closes(v);
    AddingNothing(u);
    assert AllUsage([Opens(u)]) == map[] + u;
  }

  // ----- A usage that is an array or a text -----

  function DigitOf(c: char): nat
    requires '0' <= c <= '9'
  {
    (c - '0') as nat
  }

  ghost predicate AllDigits(s: string) {
    s != "" && forall k :: 0 <= k < |s| ==> '0' <= s[k] <= '9'
  }

  function Value(s: string): nat
    requires forall k :: 0 <= k < |s| ==> '0' <= s[k] <= '9'
  {
    if s == "" then 0 else 10 * Value(s[..|s| - 1]) + DigitOf(s[|s| - 1])
  }

  /** A number's decimal text has its value and no zero in front. */
  lemma {:induction false} DecimalReads(n: nat)
    ensures var s := Decimal(n); AllDigits(s) && Value(s) == n && (n > 0 ==> s[0] != '0') && (n == 0 ==> s == "0")
    decreases n
  {
    var s := Decimal(n);
    if n < 10 {
      assert s[..0] == "";
    } else {
      DecimalReads(n / 10);
      assert s[..|s| - 1] == Decimal(n / 10) && DigitOf(s[|s| - 1]) == n % 10;
    }
  }

  /** The fields are these items under these keys. */
  ghost predicate AreUnder(keys: seq<string>, items: seq<Json>, fields: map<string, Json>)
    requires |keys| == |items|
  {
    && (forall k :: 0 <= k < |keys| ==> keys[k] in fields && fields[keys[k]] == items[k])
    && (forall key :: key in fields ==> key in keys)
  }

  /** "0", "1", ... */
  function Positions(n: nat): seq<string> {
    seq(n, k requires 0 <= k < n => Decimal(k))
  }

  lemma DecimalsDiffer(m: nat, n: nat)
    requires m != n
    ensures Decimal(m) != Decimal(n)
  {
    DecimalReads(m);
    DecimalReads(n);
  }

  lemma PositionIsNew(n: nat)
    ensures Decimal(n) !in Positions(n) && Positions(n + 1) == Positions(n) + [Decimal(n)]
  {
    forall k | 0 <= k < n ensures Positions(n)[k] != Decimal(n) {
      DecimalsDiffer(k, n);
    }
  }

  lemma OneMoreUnder(keys: seq<string>, items: seq<Json>, fields: map<string, Json>, key: string, item: Json)
    requires |keys| == |items| && AreUnder(keys, items, fields) && key !in keys
    ensures AreUnder(keys + [key], items + [item], fields[key := item])
  {
    forall other | other in fields[key := item] ensures other in keys + [key] {
      assert other == key || other in keys;
    }
  }

  lemma {:induction false} IndexedAre(items: seq<Json>)
    ensures AreUnder(Positions(|items|), items, Indexed(items))
    decreases |items|
  {
    if items != [] {
      var n := |items| - 1;
      IndexedAre(Init(items));
      PositionIsNew(n);
      OneMoreUnder(Positions(n), Init(items), Indexed(Init(items)), Decimal(n), Last(items));
      assert Init(items) + [Last(items)] == items;
    }
  }

  /** `Object.assign` copies an array's items and a text's characters under their positions. */
  lemma CopiedByPosition(items: seq<Json>, text: string)
    ensures AreUnder(Positions(|items|), items, OwnProperties(JArr(items)))
    ensures AreUnder(Positions(|text|), seq(|text|, k requires 0 <= k < |text| => JStr([text[k]])), OwnProperties(JStr(text)))
  {
    IndexedAre(items);
    IndexedAre(seq(|text|, k requires 0 <= k < |text| => JStr([text[k]])));
  }


  // ----- An event that the stream does not finish -----

  lemma NoPartYet(part: string)
    requires ThinkingFix.Framed(part)
    ensures Parts(part) == [] && Rest(part) == part
  {
    if FirstIndex(part, BLANK_LINE) < |part| {
      FirstIndexExtends(part, BLANK_LINE, BLANK_LINE);
    }
  }

  lemma UnfinishedSplits(parts: seq<seq<string>>, payloads: seq<string>, last: seq<string>, payload: string)
    requires |parts| == |payloads| && (forall k :: 0 <= k < |parts| ==> parts[k] != [] && IsPart(parts[k], payloads[k])) && IsPart(last, payload)
    ensures Parts(Stream(parts) + Join(last)) == Texts(parts) && Rest(Stream(parts) + Join(last)) == Join(last)
  {
    PayloadOfPart(last, payload);
    ThinkingFix.FramedByLines(Join(last));
    NoPartYet(Join(last));
    StreamIsFrame(parts);
    FramedTexts(parts, payloads);
    ThinkingFix.FrameSplits(Texts(parts), Join(last));
  }

  lemma ReadUnfinished(parse: Parser, last: seq<string>, payload: string, e: Event, usage: Usage)
    requires IsPart(last, payload) && last[|last| - 1] == "data: " + payload && parse(payload).Some? && Says(parse(payload).value, e)
    ensures PassDrain(parse, Join(last), usage) == usage + (if e.Opens? || e.Closes? then e.usage else map[])
    ensures TapDrain(parse, Join(last), usage) == usage + (if e.Closes? then e.usage else map[])
  {
    PayloadOfPart(last, payload);
    NotBlankPart(last, payload);
    ReadPart(parse, last, payload, e, usage);
    DrainPayload(last, payload);
    AddingNothing(usage);
    ReadLast(parse(payload).value, e);
  }

  /** A last event without its blank line: the passthrough reader reads it like any other, the tap only the usage of a
      delta, on a line with the space. */
  lemma UnfinishedEvent(parse: Parser, parts: seq<seq<string>>, payloads: seq<string>, events: seq<Event>, last: seq<string>, payload: string, e: Event)
    requires Carries(parse, parts, payloads, events)
    requires IsPart(last, payload) && last[|last| - 1] == "data: " + payload && parse(payload).Some? && Says(parse(payload).value, e)
    ensures var text := Stream(parts) + Join(last);
            && PassUsage(parse, text) == AllUsage(events) + (if e.Opens? || e.Closes? then e.usage else map[])
            && TapUsage(parse, text) == AllUsage(events) + (if e.Closes? then e.usage else map[])
            && OutputText(parse, Parts(text)) == AllText(events) && ToolUseCount(parse, Parts(text)) == ToolCalls(events)
  {
    UnfinishedSplits(parts, payloads, last, payload);
    ReadParts(parse, parts, payloads, events);
    ReadUnfinished(parse, last, payload, e, AllUsage(events));
  }

  lemma ReadLast(v: Json, e: Event)
    requires Says(v, e)
    ensures IsText(Field(Some(v), "type"), "message_delta") && Truthy(Field(Some(v), "usage")) <==> e.Closes?
    ensures e.Closes? ==> OwnProperties(Field(Some(v), "usage").value) == e.usage
  {
  }

  lemma DrainPayload(lines: seq<string>, payload: string)
    requires lines != [] && Last(lines) == "data: " + payload
    ensures DrainStr(lines) == payload
  {
    assert Last(lines)[..6] == "data: " && Last(lines)[6..] == payload;
  }

  lemma NotBlankPart(lines: seq<string>, payload: string)
    requires IsPart(lines, payload)
    ensures Trim(Join(lines)) != ""
  {
    PayloadOfPart(lines, payload);
    TrimBlank(Join(lines));
    assert Last(lines)[0] == 'd' && !Blank(Last(lines));
    if Blank(Join(lines)) {
      LinesOfBlank(Join(lines), |lines| - 1);
    }
  }
}
