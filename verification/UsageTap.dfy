/** The OpenAI stream tap: it splits an arbitrarily chunked stream at blank lines and folds the events
    into the last usage, the assistant text and the tool calls. Proved equal to running the extractors
    once over the whole text, whatever the chunking. */
module UsageTap {
  import opened Basics
  import opened Json
  import opened SseText

  // ----- One line -----

  /** The payload of a `data:` line that is worth parsing. */
  function DataOf(line: string): Option<string> {
    var trimmed := Trim(line);
    if !StartsWith(trimmed, "data:") then None else
      var data := Trim(trimmed[5..]);
      if data == "" || data == "[DONE]" then None else Some(data)
  }

  function EventOf(parse: Parser, line: string): Option<Json> {
    if DataOf(line).Some? then parse(DataOf(line).value) else None
  }

  function UsageOfLine(parse: Parser, line: string): Option<Json> {
    var usage := Field(EventOf(parse, line), "usage");
    if IsObject(usage) then usage else None
  }

  datatype Delta = Delta(index: Number, id: Option<string>, kind: Option<string>, name: Option<string>, arguments: Option<string>)

  /** `choices[0].delta`, if there is one. */
  function DeltaOfEvent(event: Option<Json>): Option<Json> {
    var choices := Field(event, "choices");
    if choices.Some? && choices.value.JArr? && choices.value.items != [] then Field(Some(choices.value.items[0]), "delta") else None
  }

  function ContentOfLine(parse: Parser, line: string): string {
    var content := TextOf(Field(DeltaOfEvent(EventOf(parse, line)), "content"));
    if content.Some? then content.value else ""
  }

  function DeltaOf(call: Json): Delta {
    var index := Field(Some(call), "index");
    var fn := Field(Some(call), "function");
    Delta(if index.Some? && index.value.JNum? then index.value.number else ZERO,
          TextOf(Field(Some(call), "id")), TextOf(Field(Some(call), "type")),
          TextOf(Field(fn, "name")), TextOf(Field(fn, "arguments")))
  }

  /** The calls before the first null entry; reading a null entry throws, which ends the line. */
  function DeltasOfCalls(calls: seq<Json>): seq<Delta> {
    if calls == [] || calls[0].JNull? then [] else [DeltaOf(calls[0])] + DeltasOfCalls(calls[1..])
  }

  function DeltasOfLine(parse: Parser, line: string): seq<Delta> {
    var calls := Field(DeltaOfEvent(EventOf(parse, line)), "tool_calls");
    if calls.Some? && calls.value.JArr? then DeltasOfCalls(calls.value.items) else []
  }

  // ----- All lines of a text -----

  function UsageOf(parse: Parser, lines: seq<string>): Option<Json> {
    if lines == [] then None
    else if UsageOfLine(parse, Last(lines)).Some? then UsageOfLine(parse, Last(lines))
    else UsageOf(parse, Init(lines))
  }

  function ContentOf(parse: Parser, lines: seq<string>): string {
    if lines == [] then "" else ContentOf(parse, Init(lines)) + ContentOfLine(parse, Last(lines))
  }

  function DeltasOf(parse: Parser, lines: seq<string>): seq<Delta> {
    if lines == [] then [] else DeltasOf(parse, Init(lines)) + DeltasOfLine(parse, Last(lines))
  }

  lemma SnocParts<T>(a: seq<T>, b: seq<T>)
    requires b != []
    ensures Init(a + b) == a + Init(b) && Last(a + b) == Last(b)
  {
  }

  lemma {:induction false} UsageAppend(parse: Parser, a: seq<string>, b: seq<string>)
    ensures UsageOf(parse, a + b) == if UsageOf(parse, b).Some? then UsageOf(parse, b) else UsageOf(parse, a)
    decreases |b|
  {
    if b == [] {
      assert a + b == a;
    } else {
      SnocParts(a, b);
      UsageAppend(parse, a, Init(b));
    }
  }

  lemma {:induction false} ContentAppend(parse: Parser, a: seq<string>, b: seq<string>)
    ensures ContentOf(parse, a + b) == ContentOf(parse, a) + ContentOf(parse, b)
    decreases |b|
  {
    if b == [] {
      assert a + b == a;
    } else {
      SnocParts(a, b);
      ContentAppend(parse, a, Init(b));
      AppendAssociates(ContentOf(parse, a), ContentOf(parse, Init(b)), ContentOfLine(parse, Last(b)));
    }
  }

  lemma {:induction false} DeltasAppend(parse: Parser, a: seq<string>, b: seq<string>)
    ensures DeltasOf(parse, a + b) == DeltasOf(parse, a) + DeltasOf(parse, b)
    decreases |b|
  {
    if b == [] {
      assert a + b == a;
    } else {
      SnocParts(a, b);
      DeltasAppend(parse, a, Init(b));
      AppendAssociates(DeltasOf(parse, a), DeltasOf(parse, Init(b)), DeltasOfLine(parse, Last(b)));
    }
  }

  /** Lines without a payload contribute nothing. */
  lemma {:induction false} SilentLines(parse: Parser, lines: seq<string>)
    requires forall k :: 0 <= k < |lines| ==> DataOf(lines[k]).None?
    ensures UsageOf(parse, lines) == None && ContentOf(parse, lines) == "" && DeltasOf(parse, lines) == []
    decreases |lines|
  {
    if lines != [] {
      assert DataOf(Last(lines)).None?;
      SilentLines(parse, Init(lines));
    }
  }

  lemma BlankIsSilent(parse: Parser, text: string)
    requires Trim(text) == ""
    ensures UsageOf(parse, Lines(text)) == None && ContentOf(parse, Lines(text)) == "" && DeltasOf(parse, Lines(text)) == []
  {
    TrimBlank(text);
    forall k | 0 <= k < |Lines(text)| ensures DataOf(Lines(text)[k]).None? {
      LinesOfBlank(text, k);
      TrimBlank(Lines(text)[k]);
    }
    SilentLines(parse, Lines(text));
  }

  // ----- Tool calls -----

  datatype ToolCall = ToolCall(id: string, kind: string, name: string, arguments: string)

  function Given(text: Option<string>, fallback: string): string {
    if text.Some? && text.value != "" then text.value else fallback
  }

  function MergeCall(prior: ToolCall, d: Delta): ToolCall {
    ToolCall(Given(d.id, prior.id), Given(d.kind, prior.kind), prior.name + Given(d.name, ""), prior.arguments + Given(d.arguments, ""))
  }

  function CallAt(calls: map<Number, ToolCall>, index: Number): ToolCall {
    if index in calls then calls[index] else ToolCall("", "function", "", "")
  }

  function MergeDelta(calls: map<Number, ToolCall>, d: Delta): map<Number, ToolCall> {
    calls[d.index := MergeCall(CallAt(calls, d.index), d)]
  }

  function Merge(calls: map<Number, ToolCall>, deltas: seq<Delta>): map<Number, ToolCall> {
    if deltas == [] then calls else MergeDelta(Merge(calls, Init(deltas)), Last(deltas))
  }

  lemma {:induction false} MergeAppend(calls: map<Number, ToolCall>, a: seq<Delta>, b: seq<Delta>)
    ensures Merge(calls, a + b) == Merge(Merge(calls, a), b)
    decreases |b|
  {
    if b == [] {
      assert a + b == a;
    } else {
      SnocParts(a, b);
      MergeAppend(calls, a, Init(b));
    }
  }

  function ForIndex(deltas: seq<Delta>, index: Number): seq<Delta> {
    if deltas == [] then [] else
      ForIndex(Init(deltas), index) + (if Last(deltas).index == index then [Last(deltas)] else [])
  }

  function ArgumentFragments(deltas: seq<Delta>): string {
    if deltas == [] then "" else ArgumentFragments(Init(deltas)) + Given(Last(deltas).arguments, "")
  }

  function NameFragments(deltas: seq<Delta>): string {
    if deltas == [] then "" else NameFragments(Init(deltas)) + Given(Last(deltas).name, "")
  }

  function LastId(deltas: seq<Delta>): string {
    if deltas == [] then "" else Given(Last(deltas).id, LastId(Init(deltas)))
  }

  function LastKind(deltas: seq<Delta>): string {
    if deltas == [] then "function" else Given(Last(deltas).kind, LastKind(Init(deltas)))
  }

  /** Whatever the interleaving, the call at an index collects exactly its own fragments, in order. */
  lemma {:induction false} CallsByIndex(deltas: seq<Delta>, index: Number)
    ensures index in Merge(map[], deltas) <==> ForIndex(deltas, index) != []
    ensures index in Merge(map[], deltas) ==>
              var call := Merge(map[], deltas)[index];
              var own := ForIndex(deltas, index);
              && call.arguments == ArgumentFragments(own) && call.name == NameFragments(own)
              && call.id == LastId(own) && call.kind == LastKind(own)
    decreases |deltas|
  {
    if deltas != [] {
      CallsByIndex(Init(deltas), index);
      if Last(deltas).index == index {
        var own := ForIndex(Init(deltas), index);
        assert Init(own + [Last(deltas)]) == own;
      } else {
        assert ForIndex(Init(deltas), index) + [] == ForIndex(Init(deltas), index);
      }
    }
  }

  // ----- The extractors, as loops over the lines -----

  lemma OneLineMore(parse: Parser, lines: seq<string>, i: nat)
    requires i < |lines|
    ensures UsageOf(parse, lines[..i + 1]) ==
              if UsageOfLine(parse, lines[i]).Some? then UsageOfLine(parse, lines[i]) else UsageOf(parse, lines[..i])
  {
    assert Init(lines[..i + 1]) == lines[..i] && Last(lines[..i + 1]) == lines[i];
  }

  method ExtractSseUsage(parse: Parser, sseText: string) returns (lastUsage: Option<Json>)
    ensures lastUsage == UsageOf(parse, Lines(sseText))
  {
    lastUsage := None;
    var lines := Lines(sseText);
    for i := 0 to |lines|
      invariant lastUsage == UsageOf(parse, lines[..i])
    {
      OneLineMore(parse, lines, i);
      var trimmed := Trim(lines[i]);
      if StartsWith(trimmed, "data:") {
        var dataStr := Trim(trimmed[5..]);
        if dataStr != "" && dataStr != "[DONE]" {
          var usage := Field(parse(dataStr), "usage");
          if IsObject(usage) {
            lastUsage := usage;
          }
        }
      }
    }
    assert lines[..|lines|] == lines;
  }

  method ExtractSseContentAndTools(parse: Parser, sseText: string) returns (content: string, toolCallDeltas: seq<Delta>)
    ensures content == ContentOf(parse, Lines(sseText)) && toolCallDeltas == DeltasOf(parse, Lines(sseText))
  {
    content, toolCallDeltas := "", [];
    var lines := Lines(sseText);
    for i := 0 to |lines|
      invariant content == ContentOf(parse, lines[..i]) && toolCallDeltas == DeltasOf(parse, lines[..i])
    {
      assert Init(lines[..i + 1]) == lines[..i] && Last(lines[..i + 1]) == lines[i];
      var delta := DeltaOfEvent(EventOf(parse, lines[i]));
      var text := TextOf(Field(delta, "content"));
      if text.Some? {
        content := content + text.value;
      }
      var calls := Field(delta, "tool_calls");
      if calls.Some? && calls.value.JArr? {
        var items := calls.value.items;
        ghost var before := toolCallDeltas;
        var k := 0;
        while k < |items| && !items[k].JNull?
          invariant 0 <= k <= |items|
          invariant before + DeltasOfCalls(items) == toolCallDeltas + DeltasOfCalls(items[k..])
        {
          assert items[k..][1..] == items[k + 1..];
          AppendAssociates(toolCallDeltas, [DeltaOf(items[k])], DeltasOfCalls(items[k + 1..]));
          toolCallDeltas := toolCallDeltas + [DeltaOf(items[k])];
          k := k + 1;
        }
        assert toolCallDeltas + [] == toolCallDeltas;
      }
    }
    assert lines[..|lines|] == lines;
  }

  method MergeToolCallDelta(prior: ToolCall, d: Delta) returns (acc: ToolCall)
    ensures acc == MergeCall(prior, d)
  {
    acc := prior;
    if d.id.Some? && d.id.value != "" {
      acc := acc.(id := d.id.value);
    }
    if d.kind.Some? && d.kind.value != "" {
      acc := acc.(kind := d.kind.value);
    }
    if d.name.Some? && d.name.value != "" {
      acc := acc.(name := acc.name + d.name.value);
    }
    if d.arguments.Some? && d.arguments.value != "" {
      acc := acc.(arguments := acc.arguments + d.arguments.value);
    }
    assert prior.name + "" == prior.name && prior.arguments + "" == prior.arguments;
  }

  method MergeToolCallDeltas(calls: map<Number, ToolCall>, deltas: seq<Delta>) returns (merged: map<Number, ToolCall>)
    ensures merged == Merge(calls, deltas)
  {
    merged := calls;
    for i := 0 to |deltas|
      invariant merged == Merge(calls, deltas[..i])
    {
      assert Init(deltas[..i + 1]) == deltas[..i];
      var acc := MergeToolCallDelta(CallAt(merged, deltas[i].index), deltas[i]);
      merged := merged[deltas[i].index := acc];
    }
    assert deltas[..|deltas|] == deltas;
  }

  /** The tap's variables after it has consumed the complete parts of `seen`. */
  ghost predicate Consumed(parse: Parser, lines: seq<string>, usage: Option<Json>, content: string, calls: map<Number, ToolCall>) {
    usage == UsageOf(parse, lines) && content == ContentOf(parse, lines) && calls == Merge(map[], DeltasOf(parse, lines))
  }

  lemma ConsumeMore(parse: Parser, lines: seq<string>, more: seq<string>, usage: Option<Json>, content: string, calls: map<Number, ToolCall>)
    requires Consumed(parse, lines, usage, content, calls)
    ensures Consumed(parse, lines + more,
                     if UsageOf(parse, more).Some? then UsageOf(parse, more) else usage,
                     content + ContentOf(parse, more), Merge(calls, DeltasOf(parse, more)))
  {
    UsageAppend(parse, lines, more);
    ContentAppend(parse, lines, more);
    DeltasAppend(parse, lines, more);
    MergeAppend(map[], DeltasOf(parse, lines), DeltasOf(parse, more));
  }

  class Tap {
    const parse: Parser
    var sseBuf: string
    var lastUsage: Option<Json>
    var assistantContent: string
    var toolCallAccumulators: map<Number, ToolCall>
    /** The text received so far. */
    ghost var seen: string

    ghost predicate Valid()
      reads this
    {
      sseBuf == Rest(seen) && Consumed(parse, PartLines(Parts(seen)), lastUsage, assistantContent, toolCallAccumulators)
    }

    constructor (parse: Parser)
      ensures Valid() && seen == "" && this.parse == parse
    {
      this.parse := parse;
      sseBuf, lastUsage, assistantContent, toolCallAccumulators, seen := "", None, "", map[], "";
      new;
      assert Parts("") == [];
    }

    /** One event block: the body shared by the chunk loop and `finalize`. */
    method Digest(part: string, ghost lines: seq<string>)
      requires Consumed(parse, lines, lastUsage, assistantContent, toolCallAccumulators)
      modifies this`lastUsage, this`assistantContent, this`toolCallAccumulators
      ensures Consumed(parse, lines + Lines(part), lastUsage, assistantContent, toolCallAccumulators)
    {
      ConsumeMore(parse, lines, Lines(part), lastUsage, assistantContent, toolCallAccumulators);
      var usage := ExtractSseUsage(parse, part);
      if usage.Some? {
        lastUsage := usage;
      }
      var content, deltas := ExtractSseContentAndTools(parse, part);
      assistantContent := assistantContent + content;
      toolCallAccumulators := MergeToolCallDeltas(toolCallAccumulators, deltas);
    }

    /** One complete part: its lines and the empty line of the delimiter. */
    method DigestPart(part: string, ghost parts: seq<string>)
      requires Consumed(parse, PartLines(parts), lastUsage, assistantContent, toolCallAccumulators)
      modifies this`lastUsage, this`assistantContent, this`toolCallAccumulators
      ensures Consumed(parse, PartLines(parts + [part]), lastUsage, assistantContent, toolCallAccumulators)
    {
      Digest(part, PartLines(parts));
      EmptyLineAdds(parse, PartLines(parts) + Lines(part), lastUsage, assistantContent, toolCallAccumulators);
      PartLinesSnoc(parts, part);
    }

    method DigestParts(parts: seq<string>, ghost before: seq<string>)
      requires Consumed(parse, PartLines(before), lastUsage, assistantContent, toolCallAccumulators)
      modifies this`lastUsage, this`assistantContent, this`toolCallAccumulators
      ensures Consumed(parse, PartLines(before + parts), lastUsage, assistantContent, toolCallAccumulators)
    {
      ghost var digested := before;
      for i := 0 to |parts|
        invariant digested == before + parts[..i]
        invariant Consumed(parse, PartLines(digested), lastUsage, assistantContent, toolCallAccumulators)
      {
        PrefixGrows(before, parts, i);
        DigestPart(parts[i], digested);
        digested := digested + [parts[i]];
      }
      assert parts[..|parts|] == parts;
    }

    method ProcessSseChunk(chunk: string)
      requires Valid()
      modifies this
      ensures Valid() && seen == old(seen) + chunk
    {
      PartsInChunks(seen, chunk);
      sseBuf := sseBuf + chunk;
      var parts := Split(sseBuf, BLANK_LINE);
      sseBuf := Last(parts);
      DigestParts(Init(parts), Parts(seen));
      seen := seen + chunk;
    }

    /** At the end of the stream the tap holds what the extractors find in the whole text. */
    method Finalize()
      requires Valid()
      modifies this
      ensures seen == old(seen)
      ensures Consumed(parse, Lines(seen), lastUsage, assistantContent, toolCallAccumulators)
    {
      LinesByPart(seen);
      if Trim(sseBuf) != "" {
        Digest(sseBuf, PartLines(Parts(seen)));
      } else {
        BlankIsSilent(parse, sseBuf);
        ConsumeMore(parse, PartLines(Parts(seen)), Lines(sseBuf), lastUsage, assistantContent, toolCallAccumulators);
        assert assistantContent + "" == assistantContent;
      }
    }
  }

  lemma EmptyLineAdds(parse: Parser, lines: seq<string>, usage: Option<Json>, content: string, calls: map<Number, ToolCall>)
    requires Consumed(parse, lines, usage, content, calls)
    ensures Consumed(parse, lines + [""], usage, content, calls)
  {
    OneLineHasOneLine("");
    BlankIsSilent(parse, "");
    ConsumeMore(parse, lines, [""], usage, content, calls);
    assert content + "" == content;
  }

  /** The tap over a whole stream: its results depend on the text alone, not on where it was cut, and the
      usage is the one the passthrough reader extracts from the undivided text. */
  method TapStream(parse: Parser, chunks: seq<string>)
    returns (usage: Option<Json>, content: string, calls: map<Number, ToolCall>, passthroughUsage: Option<Json>)
    ensures var lines := Lines(Concat(chunks));
            && usage == UsageOf(parse, lines) && content == ContentOf(parse, lines)
            && calls == Merge(map[], DeltasOf(parse, lines))
    ensures passthroughUsage == usage
  {
    var tap := new Tap(parse);
    var buf := "";
    for i := 0 to |chunks|
      invariant tap.Valid() && fresh(tap) && tap.parse == parse && tap.seen == Concat(chunks[..i]) == buf
    {
      assert Init(chunks[..i + 1]) == chunks[..i];
      tap.ProcessSseChunk(chunks[i]);
      buf := buf + chunks[i];
    }
    assert chunks[..|chunks|] == chunks;
    tap.Finalize();
    usage, content, calls := tap.lastUsage, tap.assistantContent, tap.toolCallAccumulators;
    passthroughUsage := ExtractSseUsage(parse, buf);
  }
}
