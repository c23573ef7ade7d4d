/** The two readers of Anthropic usage: the tap beside the main handler and the passthrough reader. They
    agree on every stream that ends with a blank line, unless an event carries its usage as a non-empty
    string; the exact condition for any stream, and two counterexamples, say why both conditions are needed. */
module AnthropicUsage {
  import opened Basics
  import opened Json
  import opened SseText

  type Usage = map<string, Json>

  /** The payload of the last line that starts with `data:`, one space after the colon skipped. */
  function DataStr(lines: seq<string>): string {
    if lines == [] then ""
    else if StartsWith(Last(lines), "data: ") then Last(lines)[6..]
    else if StartsWith(Last(lines), "data:") then Last(lines)[5..]
    else DataStr(Init(lines))
  }

  function EventOf(parse: Parser, data: string): Option<Json> {
    if data == "" || data == "[DONE]" then None else parse(data)
  }

  function Indexed(items: seq<Json>): Usage {
    if items == [] then map[] else Indexed(Init(items))[Decimal(|items| - 1) := Last(items)]
  }

  /** The properties `Object.assign` copies from a value: those of an object or array, and the characters of a string. */
  function OwnProperties(v: Json): Usage {
    match v
    case JObj(fields) => fields
    case JArr(items) => Indexed(items)
    case JStr(text) => Indexed(seq(|text|, i requires 0 <= i < |text| => JStr([text[i]])))
    case _ => map[]
  }

  /** The usage an event carries: that of the message it starts, or its own. */
  function UsageField(event: Option<Json>): Option<Json> {
    if IsText(Field(event, "type"), "message_start") then Field(Field(event, "message"), "usage")
    else if IsText(Field(event, "type"), "message_delta") then Field(event, "usage")
    else None
  }

  /** The tap tests only that the usage is truthy. */
  function TapEvent(event: Option<Json>, usage: Usage): Usage {
    var u := UsageField(event);
    if Truthy(u) then usage + OwnProperties(u.value) else usage
  }

  /** The passthrough reader also tests that it is an object. */
  function PassEvent(event: Option<Json>, usage: Usage): Usage {
    var u := UsageField(event);
    if IsObject(u) then usage + OwnProperties(u.value) else usage
  }

  predicate TextUsage(event: Option<Json>) {
    var u := UsageField(event);
    u.Some? && u.value.JStr? && u.value.text != ""
  }

  lemma {:induction false} IndexedHasFirst(items: seq<Json>)
    ensures items != [] ==> Indexed(items) != map[]
    decreases |items|
  {
    if items != [] {
      assert Decimal(|items| - 1) in Indexed(items);
    }
  }

  /** One event: the readers treat it alike, whatever was read before, exactly when its usage is no non-empty string. */
  lemma EventReadersAgree(event: Option<Json>)
    ensures (forall usage :: TapEvent(event, usage) == PassEvent(event, usage)) <==> !TextUsage(event)
  {
    if TextUsage(event) {
      var text := UsageField(event).value.text;
      IndexedHasFirst(seq(|text|, i requires 0 <= i < |text| => JStr([text[i]])));
      assert TapEvent(event, map[]) != PassEvent(event, map[]);
    } else {
      forall usage ensures TapEvent(event, usage) == PassEvent(event, usage) {
        assert usage + map[] == usage;
      }
    }
  }

  function EventOfPart(parse: Parser, part: string): Option<Json> {
    EventOf(parse, DataStr(Lines(part)))
  }

  function TapParts(parse: Parser, parts: seq<string>): Usage {
    if parts == [] then map[] else TapEvent(EventOfPart(parse, Last(parts)), TapParts(parse, Init(parts)))
  }

  function PassParts(parse: Parser, parts: seq<string>): Usage {
    if parts == [] then map[] else PassEvent(EventOfPart(parse, Last(parts)), PassParts(parse, Init(parts)))
  }

  lemma {:induction false} PartReadersAgree(parse: Parser, parts: seq<string>)
    requires forall k :: 0 <= k < |parts| ==> !TextUsage(EventOfPart(parse, parts[k]))
    ensures TapParts(parse, parts) == PassParts(parse, parts)
    decreases |parts|
  {
    if parts != [] {
      PartReadersAgree(parse, Init(parts));
      EventReadersAgree(EventOfPart(parse, Last(parts)));
    }
  }

  // ----- What is left in the buffer at the end -----

  /** The tap's drain looks only at `data: ` lines. */
  function DrainStr(lines: seq<string>): string {
    if lines == [] then "" else if StartsWith(Last(lines), "data: ") then Last(lines)[6..] else DrainStr(Init(lines))
  }

  /** The tap's drain honours only a `message_delta`. */
  function TapDrain(parse: Parser, rest: string, usage: Usage): Usage {
    var event := EventOf(parse, DrainStr(Lines(rest)));
    if Trim(rest) != "" && IsText(Field(event, "type"), "message_delta") && Truthy(Field(event, "usage"))
    then usage + OwnProperties(Field(event, "usage").value)
    else usage
  }

  function PassDrain(parse: Parser, rest: string, usage: Usage): Usage {
    if Trim(rest) != "" then PassEvent(EventOfPart(parse, rest), usage) else usage
  }

  function TapUsage(parse: Parser, text: string): Usage {
    TapDrain(parse, Rest(text), TapParts(parse, Parts(text)))
  }

  function PassUsage(parse: Parser, text: string): Usage {
    PassDrain(parse, Rest(text), PassParts(parse, Parts(text)))
  }

  /** On a stream that ends with a blank line and carries no usage as text the readers agree. */
  lemma ReadersAgree(parse: Parser, text: string)
    requires Trim(Rest(text)) == ""
    requires forall k :: 0 <= k < |Parts(text)| ==> !TextUsage(EventOfPart(parse, Parts(text)[k]))
    ensures TapUsage(parse, text) == PassUsage(parse, text)
  {
    PartReadersAgree(parse, Parts(text));
  }

  lemma RestAfterDelimiter(r: string)
    requires FirstIndex(r, BLANK_LINE) == |r|
    ensures Rest(r + BLANK_LINE) == "" || Rest(r + BLANK_LINE) == "\n"
  {
    var t := r + BLANK_LINE;
    assert t[|r|..|r| + 2] == BLANK_LINE;
    assert OccursAt(t, BLANK_LINE, |r|);
    var i := FirstIndex(t, BLANK_LINE);
    assert forall j :: 0 <= j < |r| - 1 && OccursAt(t, BLANK_LINE, j) ==> t[j..j + 2] == r[j..j + 2];
    assert forall j :: 0 <= j < |r| - 1 && OccursAt(t, BLANK_LINE, j) ==> OccursAt(r, BLANK_LINE, j);
    assert i == |r| || i == |r| - 1;
    FirstPartOf(t);
    assert t[i + 2..] == if i == |r| then "" else "\n";
    assert Split("", BLANK_LINE) == [""] && Split("\n", BLANK_LINE) == ["\n"];
  }

  /** A text that ends with the delimiter leaves nothing over but possibly a line break. */
  lemma DelimitedLeavesNothing(text: string)
    ensures Trim(Rest(text + BLANK_LINE)) == ""
  {
    PartsInChunks(text, BLANK_LINE);
    PiecesAreClean(text, BLANK_LINE, |Split(text, BLANK_LINE)| - 1);
    RestAfterDelimiter(Rest(text));
    TrimBlank(Rest(text + BLANK_LINE));
  }

  // ----- The readers, as loops over chunks -----

  /** The event block handling of the tap. */
  method TapPart(parse: Parser, part: string, usage: Usage, outputText: string, toolUseCount: nat)
    returns (usage': Usage, outputText': string, toolUseCount': nat)
    ensures usage' == TapEvent(EventOfPart(parse, part), usage)
    ensures outputText' == outputText + TextDelta(EventOfPart(parse, part))
    ensures toolUseCount' == toolUseCount + ToolUses(EventOfPart(parse, part))
  {
    usage', outputText', toolUseCount' := usage, outputText, toolUseCount;
    assert outputText + "" == outputText;
    var dataStr := LastData(Lines(part));
    if dataStr == "" || dataStr == "[DONE]" {
      return;
    }
    var event := parse(dataStr);
    if IsText(Field(event, "type"), "message_start") {
      var u := Field(Field(event, "message"), "usage");
      if Truthy(u) {
        usage' := usage + OwnProperties(u.value);
      }
    } else if IsText(Field(event, "type"), "message_delta") {
      var u := Field(event, "usage");
      if Truthy(u) {
        usage' := usage + OwnProperties(u.value);
      }
    } else if IsText(Field(event, "type"), "content_block_delta") {
      var delta := Field(event, "delta");
      if IsText(Field(delta, "type"), "text_delta") && TextOf(Field(delta, "text")).Some? {
        outputText' := outputText + TextOf(Field(delta, "text")).value;
      }
    } else if IsText(Field(event, "type"), "content_block_start") {
      if IsText(Field(Field(event, "content_block"), "type"), "tool_use") {
        toolUseCount' := toolUseCount + 1;
      }
    }
  }

  function TextDelta(event: Option<Json>): string {
    var delta := Field(event, "delta");
    if IsText(Field(event, "type"), "content_block_delta") && IsText(Field(delta, "type"), "text_delta") && TextOf(Field(delta, "text")).Some?
    then TextOf(Field(delta, "text")).value else ""
  }

  function ToolUses(event: Option<Json>): nat {
    if IsText(Field(event, "type"), "content_block_start") && IsText(Field(Field(event, "content_block"), "type"), "tool_use") then 1 else 0
  }

  function OutputText(parse: Parser, parts: seq<string>): string {
    if parts == [] then "" else OutputText(parse, Init(parts)) + TextDelta(EventOfPart(parse, Last(parts)))
  }

  function ToolUseCount(parse: Parser, parts: seq<string>): nat {
    if parts == [] then 0 else ToolUseCount(parse, Init(parts)) + ToolUses(EventOfPart(parse, Last(parts)))
  }

  method LastData(lines: seq<string>) returns (dataStr: string)
    ensures dataStr == DataStr(lines)
  {
    dataStr := "";
    for i := 0 to |lines|
      invariant dataStr == DataStr(lines[..i])
    {
      assert Init(lines[..i + 1]) == lines[..i];
      if StartsWith(lines[i], "data: ") {
        dataStr := lines[i][6..];
      } else if StartsWith(lines[i], "data:") {
        dataStr := lines[i][5..];
      }
    }
    assert lines[..|lines|] == lines;
  }

  method MergeUsageFromEvent(parse: Parser, part: string, sink: Usage) returns (sink': Usage)
    ensures sink' == PassEvent(EventOfPart(parse, part), sink)
  {
    sink' := sink;
    var dataStr := LastData(Lines(part));
    if dataStr == "" || dataStr == "[DONE]" {
      return;
    }
    var event := parse(dataStr);
    if IsText(Field(event, "type"), "message_start") {
      var u := Field(Field(event, "message"), "usage");
      if IsObject(u) {
        sink' := sink + OwnProperties(u.value);
      }
    } else if IsText(Field(event, "type"), "message_delta") {
      var u := Field(event, "usage");
      if IsObject(u) {
        sink' := sink + OwnProperties(u.value);
      }
    }
  }

  /** The tap's state after the parts digested so far. */
  ghost predicate Tapped(parse: Parser, parts: seq<string>, usage: Usage, outputText: string, toolUseCount: nat) {
    usage == TapParts(parse, parts) && outputText == OutputText(parse, parts) && toolUseCount == ToolUseCount(parse, parts)
  }

  method TapAll(parse: Parser, parts: seq<string>, ghost before: seq<string>, usage: Usage, outputText: string, toolUseCount: nat)
    returns (usage': Usage, outputText': string, toolUseCount': nat)
    requires Tapped(parse, before, usage, outputText, toolUseCount)
    ensures Tapped(parse, before + parts, usage', outputText', toolUseCount')
  {
    usage', outputText', toolUseCount' := usage, outputText, toolUseCount;
    ghost var done := before;
    for i := 0 to |parts|
      invariant done == before + parts[..i] && Tapped(parse, done, usage', outputText', toolUseCount')
    {
      PrefixGrows(before, parts, i);
      usage', outputText', toolUseCount' := TapPart(parse, parts[i], usage', outputText', toolUseCount');
      assert Init(done + [parts[i]]) == done;
      done := done + [parts[i]];
    }
    assert parts[..|parts|] == parts;
  }

  method PassAll(parse: Parser, parts: seq<string>, ghost before: seq<string>, usage: Usage) returns (usage': Usage)
    requires usage == PassParts(parse, before)
    ensures usage' == PassParts(parse, before + parts)
  {
    usage' := usage;
    ghost var done := before;
    for i := 0 to |parts|
      invariant done == before + parts[..i] && usage' == PassParts(parse, done)
    {
      PrefixGrows(before, parts, i);
      usage' := MergeUsageFromEvent(parse, parts[i], usage');
      assert Init(done + [parts[i]]) == done;
      done := done + [parts[i]];
    }
    assert parts[..|parts|] == parts;
  }

  /** The tap over a chunked stream: all three results depend on the text alone. */
  method ConsumeAnthropicStream(parse: Parser, chunks: seq<string>) returns (usage: Usage, outputText: string, toolUseCount: nat)
    ensures usage == TapUsage(parse, Concat(chunks))
    ensures outputText == OutputText(parse, Parts(Concat(chunks))) && toolUseCount == ToolUseCount(parse, Parts(Concat(chunks)))
  {
    var sseBuf := "";
    usage, outputText, toolUseCount := map[], "", 0;
    ghost var seen := "";
    assert Parts("") == [];
    for i := 0 to |chunks|
      invariant seen == Concat(chunks[..i]) && sseBuf == Rest(seen)
      invariant Tapped(parse, Parts(seen), usage, outputText, toolUseCount)
    {
      assert Init(chunks[..i + 1]) == chunks[..i];
      PartsInChunks(seen, chunks[i]);
      sseBuf := sseBuf + chunks[i];
      var parts := Split(sseBuf, BLANK_LINE);
      sseBuf := Last(parts);
      usage, outputText, toolUseCount := TapAll(parse, Init(parts), Parts(seen), usage, outputText, toolUseCount);
      seen := seen + chunks[i];
    }
    assert chunks[..|chunks|] == chunks;
    if Trim(sseBuf) != "" {
      usage := DrainRest(parse, sseBuf, usage);
    }
  }

  /** What the tap does with an unfinished event when the stream ends. */
  method DrainRest(parse: Parser, rest: string, usage: Usage) returns (usage': Usage)
    requires Trim(rest) != ""
    ensures usage' == TapDrain(parse, rest, usage)
  {
    usage' := usage;
    var lines := Lines(rest);
    var dataStr := "";
    for i := 0 to |lines|
      invariant dataStr == DrainStr(lines[..i])
    {
      assert Init(lines[..i + 1]) == lines[..i];
      if StartsWith(lines[i], "data: ") {
        dataStr := lines[i][6..];
      }
    }
    assert lines[..|lines|] == lines;
    if dataStr != "" && dataStr != "[DONE]" {
      var event := parse(dataStr);
      if IsText(Field(event, "type"), "message_delta") && Truthy(Field(event, "usage")) {
        usage' := usage + OwnProperties(Field(event, "usage").value);
      }
    }
  }

  const RAW_CAP: nat := 512 * 1024

  /** The passthrough reader on an Anthropic path: the merged usage, and the captured text, which is exactly
      the first `RAW_CAP` characters of the stream. */
  method ConsumeStream(parse: Parser, chunks: seq<string>) returns (usage: Usage, rawText: string)
    ensures usage == PassUsage(parse, Concat(chunks))
    ensures rawText == Prefix(Concat(chunks), RAW_CAP)
  {
    var buf := "";
    usage, rawText := map[], "";
    ghost var seen := "";
    assert Parts("") == [];
    for i := 0 to |chunks|
      invariant seen == Concat(chunks[..i]) && buf == Rest(seen) && usage == PassParts(parse, Parts(seen))
      invariant rawText == Prefix(seen, RAW_CAP)
    {
      assert Init(chunks[..i + 1]) == chunks[..i];
      if |rawText| < RAW_CAP {
        rawText := rawText + Prefix(chunks[i], RAW_CAP - |rawText|);
      }
      assert rawText == Prefix(seen + chunks[i], RAW_CAP);
      PartsInChunks(seen, chunks[i]);
      buf := buf + chunks[i];
      var parts := Split(buf, BLANK_LINE);
      buf := Last(parts);
      usage := PassAll(parse, Init(parts), Parts(seen), usage);
      seen := seen + chunks[i];
    }
    assert chunks[..|chunks|] == chunks;
    if Trim(buf) != "" {
      usage := MergeUsageFromEvent(parse, buf, usage);
    }
  }

  // ----- Exactly when the readers agree -----

  /** What the tap's drain takes from an event. */
  function DrainedUsage(event: Option<Json>): Usage {
    if IsText(Field(event, "type"), "message_delta") && Truthy(Field(event, "usage")) then OwnProperties(Field(event, "usage").value) else map[]
  }

  /** What the passthrough reader takes from an event. */
  function ReadUsage(event: Option<Json>): Usage {
    if IsObject(UsageField(event)) then OwnProperties(UsageField(event).value) else map[]
  }

  lemma AddingNothing(usage: Usage)
    ensures usage + map[] == usage && map[] + usage == usage
  {
  }

  lemma DrainsAdd(parse: Parser, rest: string, usage: Usage)
    requires Trim(rest) != ""
    ensures TapDrain(parse, rest, usage) == usage + DrainedUsage(EventOf(parse, DrainStr(Lines(rest))))
    ensures PassDrain(parse, rest, usage) == usage + ReadUsage(EventOfPart(parse, rest))
  {
    AddingNothing(usage);
  }

  /** An unfinished event at the end is treated alike, whatever was read before, if and only if it is blank or
      the last `data: ` line's delta usage is what the last `data:` line's event carries. */
  lemma RemaindersAgree(parse: Parser, rest: string)
    ensures (forall usage :: TapDrain(parse, rest, usage) == PassDrain(parse, rest, usage)) <==>
              Trim(rest) == "" || DrainedUsage(EventOf(parse, DrainStr(Lines(rest)))) == ReadUsage(EventOfPart(parse, rest))
  {
    if Trim(rest) != "" {
      var drained, read := DrainedUsage(EventOf(parse, DrainStr(Lines(rest)))), ReadUsage(EventOfPart(parse, rest));
      forall usage
        ensures TapDrain(parse, rest, usage) == usage + drained && PassDrain(parse, rest, usage) == usage + read
      {
        DrainsAdd(parse, rest, usage);
      }
      AddingNothing(drained);
      AddingNothing(read);
      if TapDrain(parse, rest, map[]) == PassDrain(parse, rest, map[]) {
        assert drained == map[] + drained == map[] + read == read;
      }
    }
  }

  /** When the last data line has its space, as upstreams send it, that comes down to the event: not a delta with
      its usage as text, and not a start that carries any usage. */
  lemma SpacedRemaindersAgree(parse: Parser, rest: string)
    requires Trim(rest) != "" && DrainStr(Lines(rest)) == DataStr(Lines(rest))
    ensures var event := EventOfPart(parse, rest);
            (forall usage :: TapDrain(parse, rest, usage) == PassDrain(parse, rest, usage)) <==>
              && !(IsText(Field(event, "type"), "message_delta") && TextUsage(event))
              && !(IsText(Field(event, "type"), "message_start") && ReadUsage(event) != map[])
  {
    var event := EventOfPart(parse, rest);
    RemaindersAgree(parse, rest);
    if IsText(Field(event, "type"), "message_delta") && TextUsage(event) {
      TextAdds(UsageField(event).value.text);
    }
  }

  lemma TextAdds(text: string)
    requires text != ""
    ensures OwnProperties(JStr(text)) != map[]
  {
    IndexedHasFirst(seq(|text|, i requires 0 <= i < |text| => JStr([text[i]])));
  }

  /** The text an event carries as usage adds nothing that the usage does not hold already. */
  ghost predicate TextHeld(event: Option<Json>, usage: Usage) {
    TextUsage(event) ==> usage + OwnProperties(UsageField(event).value) == usage
  }

  lemma EventReadersAgreeIff(event: Option<Json>, usage: Usage)
    ensures TapEvent(event, usage) == PassEvent(event, usage) <==> TextHeld(event, usage)
  {
    AddingNothing(usage);
    if !TextUsage(event) {
      EventReadersAgree(event);
    }
  }

  /** The readers hold the same usage before and after each of the first `n` events. */
  ghost predicate AgreeUpTo(parse: Parser, parts: seq<string>, n: nat)
    requires n <= |parts|
  {
    forall k :: 0 <= k <= n ==> TapParts(parse, parts[..k]) == PassParts(parse, parts[..k])
  }

  ghost predicate HeldUpTo(parse: Parser, parts: seq<string>, n: nat)
    requires n <= |parts|
  {
    forall k :: 0 <= k < n ==> TextHeld(EventOfPart(parse, parts[k]), PassParts(parse, parts[..k]))
  }

  lemma OneEventMore(parse: Parser, parts: seq<string>, n: nat)
    requires n < |parts| && TapParts(parse, parts[..n]) == PassParts(parse, parts[..n])
    ensures TapParts(parse, parts[..n + 1]) == PassParts(parse, parts[..n + 1]) <==>
              TextHeld(EventOfPart(parse, parts[n]), PassParts(parse, parts[..n]))
  {
    assert Init(parts[..n + 1]) == parts[..n] && Last(parts[..n + 1]) == parts[n];
    EventReadersAgreeIff(EventOfPart(parse, parts[n]), PassParts(parse, parts[..n]));
  }

  lemma LastOfEach(parse: Parser, parts: seq<string>, n: nat)
    requires n < |parts|
    ensures AgreeUpTo(parse, parts, n) ==> TapParts(parse, parts[..n]) == PassParts(parse, parts[..n])
    ensures AgreeUpTo(parse, parts, n + 1) <==>
              AgreeUpTo(parse, parts, n) && TapParts(parse, parts[..n + 1]) == PassParts(parse, parts[..n + 1])
    ensures HeldUpTo(parse, parts, n + 1) <==>
              HeldUpTo(parse, parts, n) && TextHeld(EventOfPart(parse, parts[n]), PassParts(parse, parts[..n]))
  {
  }

  lemma {:induction false} PartReadersAgreeIff(parse: Parser, parts: seq<string>, n: nat)
    requires n <= |parts|
    ensures AgreeUpTo(parse, parts, n) <==> HeldUpTo(parse, parts, n)
  {
    if n > 0 {
      PartReadersAgreeIff(parse, parts, n - 1);
      LastOfEach(parse, parts, n - 1);
      if AgreeUpTo(parse, parts, n - 1) {
        OneEventMore(parse, parts, n - 1);
      }
    }
  }

  /** For any stream: the two readers hold the same usage after every event and at the end if and only if no
      event's textual usage adds anything new and the remainder adds the same for both. */
  lemma ReadersAgreeIff(parse: Parser, text: string)
    ensures var parts, rest := Parts(text), Rest(text);
            var usage := PassParts(parse, parts);
            AgreeUpTo(parse, parts, |parts|) && TapUsage(parse, text) == PassUsage(parse, text) <==>
              HeldUpTo(parse, parts, |parts|) &&
              (Trim(rest) == "" ||
               usage + DrainedUsage(EventOf(parse, DrainStr(Lines(rest)))) == usage + ReadUsage(EventOfPart(parse, rest)))
  {
    var parts := Parts(text);
    PartReadersAgreeIff(parse, parts, |parts|);
    assert parts[..|parts|] == parts;
    if AgreeUpTo(parse, parts, |parts|) {
      assert TapParts(parse, parts[..|parts|]) == PassParts(parse, parts[..|parts|]);
      if Trim(Rest(text)) != "" {
        DrainsAdd(parse, Rest(text), PassParts(parse, parts));
      }
    }
  }

  // ----- Streams on which they differ -----

  /** A usage given as text: the tap copies its characters, the passthrough reader ignores it. `payload` is the
      text of any such event. */
  lemma TextUsageDisagrees(parse: Parser, payload: string)
    requires OneLine(payload) && TextUsage(EventOf(parse, payload))
    ensures var stream := "data: " + payload + BLANK_LINE; TapUsage(parse, stream) != PassUsage(parse, stream)
  {
    var line, event := "data: " + payload, EventOf(parse, payload);
    SinglePart(line);
    DataOfSingle(line);
    assert line[6..] == payload;
    TextAdds(UsageField(event).value.text);
    AddingNothing(OwnProperties(UsageField(event).value));
    OnePart(parse, line);
    assert Trim("") == "";
    assert TapEvent(event, map[]) != PassEvent(event, map[]);
  }

  lemma OnePart(parse: Parser, part: string)
    ensures TapParts(parse, [part]) == TapEvent(EventOfPart(parse, part), map[])
    ensures PassParts(parse, [part]) == PassEvent(EventOfPart(parse, part), map[])
  {
    assert Init([part]) == [];
  }

  lemma NotBlank(s: string)
    requires s != "" && !IsSpace(s[0])
    ensures Trim(s) != ""
  {
    TrimBlank(s);
  }

  /** A `message_start` left in the buffer: the tap's drain ignores it, the passthrough reader merges it. */
  lemma UndelimitedStartDisagrees(parse: Parser, payload: string)
    requires OneLine(payload)
    requires var event := EventOf(parse, payload); IsText(Field(event, "type"), "message_start") && ReadUsage(event) != map[]
    ensures var stream := "data: " + payload;
            TapUsage(parse, stream) == map[] && PassUsage(parse, stream) == ReadUsage(EventOf(parse, payload)) != map[]
  {
    var line, event := "data: " + payload, EventOf(parse, payload);
    NoPart(line);
    DataOfSingle(line);
    NotBlank(line);
    assert line[6..] == payload;
    DrainsAdd(parse, line, map[]);
    AddingNothing(ReadUsage(event));
  }

  lemma NoPart(line: string)
    requires OneLine(line)
    ensures Parts(line) == [] && Rest(line) == line
  {
    assert forall i :: OccursAt(line, BLANK_LINE, i) ==> line[i..i + 2][0] == line[i];
    FirstIndexUnique(line, BLANK_LINE, |line|);
  }

  lemma SinglePart(line: string)
    requires OneLine(line)
    ensures Parts(line + BLANK_LINE) == [line] && Rest(line + BLANK_LINE) == ""
  {
    var t := line + BLANK_LINE;
    assert forall i :: 0 <= i < |line| && OccursAt(t, BLANK_LINE, i) ==> t[i..i + 2][0] == line[i];
    assert t[|line|..|line| + 2] == BLANK_LINE;
    assert OccursAt(t, BLANK_LINE, |line|);
    FirstIndexUnique(t, BLANK_LINE, |line|);
    FirstPartOf(t);
    assert t[|line| + 2..] == "" && t[..|line|] == line;
    assert Parts("") == [] && Rest("") == "";
  }

  lemma DataOfSingle(line: string)
    requires OneLine(line) && StartsWith(line, "data: ")
    ensures DataStr(Lines(line)) == line[6..] == DrainStr(Lines(line))
  {
    OneLineHasOneLine(line);
  }
}
