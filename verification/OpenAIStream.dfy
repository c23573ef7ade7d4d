/** What the OpenAI stream tap reads, stated on the events themselves: whatever JSON says an event, printed on `data:` lines
    and cut into any chunks, the tap ends with the text, the tool calls and the usage that were said. */
module OpenAIStream {
  import opened Basics
  import opened Json
  import JsonCodec
  import opened SseText
  import opened UsageTap

  // ----- Events and the JSON that says them -----

  datatype Fragment = Fragment(index: Option<Number>, id: Option<string>, kind: Option<string>, name: Option<string>, arguments: Option<string>)
  datatype Event = Event(content: Option<string>, fragments: seq<Fragment>, usage: Option<map<string, Json>>)

  predicate Has(v: Json, key: string, value: Json) {
    v.JObj? && key in v.fields && v.fields[key] == value
  }

  /** The property is this text, or no text at all. */
  predicate Says(v: Json, key: string, text: Option<string>) {
    if text.Some? then Has(v, key, JStr(text.value)) else !(v.JObj? && key in v.fields && v.fields[key].JStr?)
  }

  predicate SaysIndex(v: Json, index: Option<Number>) {
    if index.Some? then Has(v, "index", JNum(index.value)) else !(v.JObj? && "index" in v.fields && v.fields["index"].JNum?)
  }

  predicate SaysFragment(call: Json, f: Fragment) {
    && !call.JNull? && SaysIndex(call, f.index) && Says(call, "id", f.id) && Says(call, "type", f.kind)
    && if call.JObj? && "function" in call.fields
       then Says(call.fields["function"], "name", f.name) && Says(call.fields["function"], "arguments", f.arguments)
       else f.name.None? && f.arguments.None?
  }

  predicate SaysFragments(delta: Json, fragments: seq<Fragment>) {
    if delta.JObj? && "tool_calls" in delta.fields && delta.fields["tool_calls"].JArr? then
      var calls := delta.fields["tool_calls"].items;
      |calls| == |fragments| && forall k :: 0 <= k < |calls| ==> SaysFragment(calls[k], fragments[k])
    else fragments == []
  }

  /** The event's first choice has a delta with this text and these fragments; without one it says neither. */
  predicate SaysChoice(v: Json, e: Event) {
    if v.JObj? && "choices" in v.fields && v.fields["choices"].JArr? && v.fields["choices"].items != []
       && v.fields["choices"].items[0].JObj? && "delta" in v.fields["choices"].items[0].fields
    then
      var delta := v.fields["choices"].items[0].fields["delta"];
      Says(delta, "content", e.content) && SaysFragments(delta, e.fragments)
    else e.content.None? && e.fragments == []
  }

  predicate SaysUsage(v: Json, usage: Option<map<string, Json>>) {
    if usage.Some? then Has(v, "usage", JObj(usage.value))
    else !(v.JObj? && "usage" in v.fields && (v.fields["usage"].JObj? || v.fields["usage"].JArr?))
  }

  predicate SaysEvent(v: Json, e: Event) {
    SaysChoice(v, e) && SaysUsage(v, e.usage)
  }

  // ----- The stream that carries them -----

  /** One line of text that white space does not surround. */
  predicate IsPayload(p: string) {
    p != "" && p != "[DONE]" && OneLine(p) && !IsSpace(p[0]) && !IsSpace(p[|p| - 1])
  }

  const DONE_LINE := "data: [DONE]"

  /** Each payload on a `data:` line of its own, with a blank line after it, and perhaps the closing marker. */
  function Stream(payloads: seq<string>, marked: bool): string {
    if payloads != [] then ThenBlank("data: " + payloads[0], Stream(payloads[1..], marked))
    else if marked then ThenBlank(DONE_LINE, "") else ""
  }

  /** A line, a blank line, and what follows. */
  function ThenBlank(line: string, rest: string): string {
    line + (NL + (NL + rest))
  }

  ghost predicate Carries(parse: Parser, payloads: seq<string>, events: seq<Event>) {
    && |payloads| == |events|
    && forall k :: 0 <= k < |payloads| ==> IsPayload(payloads[k]) && parse(payloads[k]).Some? && SaysEvent(parse(payloads[k]).value, events[k])
  }

  // ----- What was said -----

  function AllContent(events: seq<Event>): string {
    if events == [] then "" else (if events[0].content.Some? then events[0].content.value else "") + AllContent(events[1..])
  }

  function AllFragments(events: seq<Event>): seq<Fragment> {
    if events == [] then [] else events[0].fragments + AllFragments(events[1..])
  }

  /** The last usage that was said. */
  predicate IsLastUsage(events: seq<Event>, usage: Option<Json>) {
    if usage.Some?
    then exists k :: 0 <= k < |events| && events[k].usage.Some? && usage.value == JObj(events[k].usage.value)
                     && forall j :: k < j < |events| ==> events[j].usage.None?
    else forall k :: 0 <= k < |events| ==> events[k].usage.None?
  }

  /** A fragment without an index belongs to the first call. */
  function IndexOf(f: Fragment): Number {
    if f.index.Some? then f.index.value else Number(0, 0)
  }

  function Own(fragments: seq<Fragment>, index: Number): seq<Fragment> {
    if fragments == [] then [] else Own(Init(fragments), index) + (if IndexOf(Last(fragments)) == index then [Last(fragments)] else [])
  }

  function Names(fragments: seq<Fragment>): string {
    if fragments == [] then "" else Names(Init(fragments)) + (if Last(fragments).name.Some? then Last(fragments).name.value else "")
  }

  function Arguments(fragments: seq<Fragment>): string {
    if fragments == [] then "" else Arguments(Init(fragments)) + (if Last(fragments).arguments.Some? then Last(fragments).arguments.value else "")
  }

  predicate IsNamed(text: Option<string>) {
    text.Some? && text.value != ""
  }

  /** The last of the texts that is given and not empty, or the fallback. */
  predicate IsLast(texts: seq<Option<string>>, fallback: string, text: string) {
    || (text == fallback && forall k :: 0 <= k < |texts| ==> !IsNamed(texts[k]))
    || (exists k :: 0 <= k < |texts| && IsNamed(texts[k]) && text == texts[k].value && forall j :: k < j < |texts| ==> !IsNamed(texts[j]))
  }

  function Ids(fragments: seq<Fragment>): seq<Option<string>> {
    seq(|fragments|, k requires 0 <= k < |fragments| => fragments[k].id)
  }

  function Kinds(fragments: seq<Fragment>): seq<Option<string>> {
    seq(|fragments|, k requires 0 <= k < |fragments| => fragments[k].kind)
  }

  predicate IsCall(own: seq<Fragment>, call: ToolCall) {
    && call.name == Names(own) && call.arguments == Arguments(own)
    && IsLast(Ids(own), "", call.id) && IsLast(Kinds(own), "function", call.kind)
  }

  /** A call for each index that has fragments, made of them. */
  ghost predicate AreCalls(fragments: seq<Fragment>, calls: map<Number, ToolCall>) {
    forall index :: (index in calls <==> Own(fragments, index) != []) && (index in calls ==> IsCall(Own(fragments, index), calls[index]))
  }

  // ----- Reading one event -----

  lemma {:induction false} NoSpaceAround(s: string)
    requires s != "" && !IsSpace(s[0]) && !IsSpace(s[|s| - 1])
    ensures Trim(s) == s && Trim(" " + s) == s
  {
    assert TrimStart(s) == s && TrimEnd(s) == s;
    assert (" " + s)[0] == ' ' && (" " + s)[1..] == s;
  }

  lemma PayloadOf(p: string)
    requires IsPayload(p)
    ensures DataOf("data: " + p) == Some(p) && OneLine("data: " + p)
  {
    var line := "data: " + p;
    NoSpaceAround(line);
    assert line[..5] == "data:" && line[5..] == " " + p;
    NoSpaceAround(p);
  }

  lemma NothingOf(line: string)
    requires line == "" || line == DONE_LINE
    ensures DataOf(line).None?
  {
    if line != "" {
      NoSpaceAround(line);
      assert line[..5] == "data:" && line[5..] == " " + "[DONE]";
      NoSpaceAround("[DONE]");
    }
  }

  function Deltas(fragments: seq<Fragment>): seq<Delta> {
    seq(|fragments|, k requires 0 <= k < |fragments| =>
      Delta(IndexOf(fragments[k]), fragments[k].id, fragments[k].kind, fragments[k].name, fragments[k].arguments))
  }

  lemma ReadFragment(call: Json, f: Fragment)
    requires SaysFragment(call, f)
    ensures DeltaOf(call) == Delta(IndexOf(f), f.id, f.kind, f.name, f.arguments)
  {
  }

  lemma {:induction false} ReadFragments(calls: seq<Json>, fragments: seq<Fragment>)
    requires |calls| == |fragments| && forall k :: 0 <= k < |calls| ==> SaysFragment(calls[k], fragments[k])
    ensures DeltasOfCalls(calls) == Deltas(fragments)
    decreases |calls|
  {
    if calls != [] {
      ReadFragment(calls[0], fragments[0]);
      ReadFragments(calls[1..], fragments[1..]);
      assert Deltas(fragments) == [Deltas(fragments)[0]] + Deltas(fragments[1..]);
    }
  }

  lemma ReadEvent(parse: Parser, p: string, e: Event)
    requires IsPayload(p) && parse(p).Some? && SaysEvent(parse(p).value, e)
    ensures var line := "data: " + p;
            && UsageOfLine(parse, line) == (if e.usage.Some? then Some(JObj(e.usage.value)) else None)
            && ContentOfLine(parse, line) == (if e.content.Some? then e.content.value else "")
            && DeltasOfLine(parse, line) == Deltas(e.fragments)
  {
    PayloadOf(p);
    var calls := Field(DeltaOfEvent(parse(p)), "tool_calls");
    if calls.Some? && calls.value.JArr? {
      ReadFragments(calls.value.items, e.fragments);
    }
  }

  // ----- Reading the stream -----

  lemma BlankAfter(line: string, rest: string)
    requires OneLine(line)
    ensures Lines(ThenBlank(line, rest)) == [line, ""] + Lines(rest)
  {
    FirstNewline(line, NL + rest);
    FirstNewline("", rest);
    assert "" + (NL + rest) == NL + rest;
  }

  lemma OneLineRead(parse: Parser, line: string)
    ensures UsageOf(parse, [line]) == UsageOfLine(parse, line)
    ensures ContentOf(parse, [line]) == ContentOfLine(parse, line)
    ensures DeltasOf(parse, [line]) == DeltasOfLine(parse, line)
  {
    assert Init([line]) == [] && Last([line]) == line;
    assert "" + ContentOfLine(parse, line) == ContentOfLine(parse, line);
    assert [] + DeltasOfLine(parse, line) == DeltasOfLine(parse, line);
  }

  /** A line, the empty line after it, and the rest. */
  lemma LineThenRest(parse: Parser, line: string, rest: seq<string>)
    ensures var lines := [line, ""] + rest;
            && UsageOf(parse, lines) == (if UsageOf(parse, rest).Some? then UsageOf(parse, rest) else UsageOfLine(parse, line))
            && ContentOf(parse, lines) == ContentOfLine(parse, line) + ContentOf(parse, rest)
            && DeltasOf(parse, lines) == DeltasOfLine(parse, line) + DeltasOf(parse, rest)
  {
    var more := [""] + rest;
    assert [line, ""] + rest == [line] + more;
    NothingOf("");
    SilentLines(parse, [""]);
    OneLineRead(parse, line);
    UsageAppend(parse, [""], rest);
    ContentAppend(parse, [""], rest);
    DeltasAppend(parse, [""], rest);
    UsageAppend(parse, [line], more);
    ContentAppend(parse, [line], more);
    DeltasAppend(parse, [line], more);
    assert "" + ContentOf(parse, rest) == ContentOf(parse, rest) && [] + DeltasOf(parse, rest) == DeltasOf(parse, rest);
  }

  lemma DeltasOfConcat(a: seq<Fragment>, b: seq<Fragment>)
    ensures Deltas(a + b) == Deltas(a) + Deltas(b)
  {
  }

  ghost predicate IsRead(parse: Parser, lines: seq<string>, events: seq<Event>) {
    && ContentOf(parse, lines) == AllContent(events) && DeltasOf(parse, lines) == Deltas(AllFragments(events))
    && IsLastUsage(events, UsageOf(parse, lines))
  }

  lemma ReadFirst(parse: Parser, p: string, events: seq<Event>, rest: seq<string>)
    requires events != [] && IsPayload(p) && parse(p).Some? && SaysEvent(parse(p).value, events[0])
    requires IsRead(parse, rest, events[1..])
    ensures IsRead(parse, ["data: " + p, ""] + rest, events)
  {
    ReadEvent(parse, p, events[0]);
    LineThenRest(parse, "data: " + p, rest);
    DeltasOfConcat(events[0].fragments, AllFragments(events[1..]));
    LastUsageOfCons(events, UsageOf(parse, rest));
  }

  lemma NothingRead(parse: Parser, lines: seq<string>)
    requires forall k :: 0 <= k < |lines| ==> DataOf(lines[k]).None?
    ensures IsRead(parse, lines, [])
  {
    SilentLines(parse, lines);
  }

  lemma DoneLines()
    ensures Lines(ThenBlank(DONE_LINE, "")) == [DONE_LINE, "", ""]
  {
    OneLineHasOneLine("");
    BlankAfter(DONE_LINE, "");
    assert [DONE_LINE, ""] + [""] == [DONE_LINE, "", ""];
  }

  lemma ReadEnd(parse: Parser, marked: bool)
    ensures IsRead(parse, Lines(Stream([], marked)), [])
  {
    OneLineHasOneLine("");
    if marked {
      DoneLines();
      NothingOf("");
      NothingOf(DONE_LINE);
      NothingRead(parse, [DONE_LINE, "", ""]);
    } else {
      NothingOf("");
      NothingRead(parse, [""]);
    }
  }

  lemma {:induction false} ReadStream(parse: Parser, payloads: seq<string>, events: seq<Event>, marked: bool)
    requires Carries(parse, payloads, events)
    ensures IsRead(parse, Lines(Stream(payloads, marked)), events)
    decreases |payloads|
  {
    if payloads == [] {
      ReadEnd(parse, marked);
    } else {
      var p, rest := payloads[0], Stream(payloads[1..], marked);
      ReadStream(parse, payloads[1..], events[1..], marked);
      PayloadOf(p);
      BlankAfter("data: " + p, rest);
      ReadFirst(parse, p, events, Lines(rest));
    }
  }

  lemma LastUsageOfCons(events: seq<Event>, usage: Option<Json>)
    requires events != [] && IsLastUsage(events[1..], usage)
    ensures IsLastUsage(events, if usage.Some? then usage else if events[0].usage.Some? then Some(JObj(events[0].usage.value)) else None)
  {
    assert forall k :: 1 <= k < |events| ==> events[k] == events[1..][k - 1];
    if usage.Some? {
      var k :| 0 <= k < |events[1..]| && events[1..][k].usage.Some? && usage.value == JObj(events[1..][k].usage.value)
               && forall j :: k < j < |events[1..]| ==> events[1..][j].usage.None?;
      assert events[k + 1] == events[1..][k];
    }
  }

  // ----- The calls -----

  lemma {:induction false} OwnDeltas(fragments: seq<Fragment>, index: Number)
    ensures ForIndex(Deltas(fragments), index) == Deltas(Own(fragments, index))
    decreases |fragments|
  {
    if fragments != [] {
      OwnDeltas(Init(fragments), index);
      assert Init(Deltas(fragments)) == Deltas(Init(fragments));
    }
  }

  lemma {:induction false} OwnTexts(own: seq<Fragment>)
    ensures NameFragments(Deltas(own)) == Names(own) && ArgumentFragments(Deltas(own)) == Arguments(own)
    decreases |own|
  {
    if own != [] {
      OwnTexts(Init(own));
      assert Init(Deltas(own)) == Deltas(Init(own));
    }
  }

  lemma LastOfSnoc(texts: seq<Option<string>>, last: Option<string>, fallback: string, text: string)
    requires IsLast(texts, fallback, text)
    ensures IsLast(texts + [last], fallback, if IsNamed(last) then last.value else text)
  {
    var more := texts + [last];
    assert more[|texts|] == last && forall k :: 0 <= k < |texts| ==> more[k] == texts[k];
  }

  lemma {:induction false} OwnLast(own: seq<Fragment>)
    ensures IsLast(Ids(own), "", LastId(Deltas(own))) && IsLast(Kinds(own), "function", LastKind(Deltas(own)))
    decreases |own|
  {
    if own != [] {
      OwnLast(Init(own));
      assert Init(Deltas(own)) == Deltas(Init(own));
      assert Ids(own) == Ids(Init(own)) + [Last(own).id] && Kinds(own) == Kinds(Init(own)) + [Last(own).kind];
      LastOfSnoc(Ids(Init(own)), Last(own).id, "", LastId(Deltas(Init(own))));
      LastOfSnoc(Kinds(Init(own)), Last(own).kind, "function", LastKind(Deltas(Init(own))));
    }
  }

  lemma MergedCalls(fragments: seq<Fragment>)
    ensures AreCalls(fragments, Merge(map[], Deltas(fragments)))
  {
    forall index
      ensures index in Merge(map[], Deltas(fragments)) <==> Own(fragments, index) != []
      ensures index in Merge(map[], Deltas(fragments)) ==> IsCall(Own(fragments, index), Merge(map[], Deltas(fragments))[index])
    {
      CallsByIndex(Deltas(fragments), index);
      OwnDeltas(fragments, index);
      OwnTexts(Own(fragments, index));
      OwnLast(Own(fragments, index));
    }
  }

  /** The tap over any chunks of a stream that carries the events ends with what they say: all text in order, for each
      index the call its fragments make up, and the last usage. */
  method TapReadsBack(parse: Parser, ghost payloads: seq<string>, ghost events: seq<Event>, ghost marked: bool, chunks: seq<string>)
    returns (usage: Option<Json>, content: string, calls: map<Number, ToolCall>)
    requires Carries(parse, payloads, events) && Concat(chunks) == Stream(payloads, marked)
    ensures content == AllContent(events) && AreCalls(AllFragments(events), calls) && IsLastUsage(events, usage)
  {
    ReadStream(parse, payloads, events, marked);
    MergedCalls(AllFragments(events));
    var passthroughUsage;
    usage, content, calls, passthroughUsage := TapStream(parse, chunks);
  }

  // ----- Every event can be said -----

  function SetText(fields: map<string, Json>, key: string, text: Option<string>): map<string, Json> {
    if text.Some? then fields[key := JStr(text.value)] else fields
  }

  function CallJson(f: Fragment): Json {
    var fn := SetText(SetText(map[], "name", f.name), "arguments", f.arguments);
    var call := SetText(SetText(map["function" := JObj(fn)], "id", f.id), "type", f.kind);
    JObj(if f.index.Some? then call["index" := JNum(f.index.value)] else call)
  }

  function EventJson(e: Event): Json {
    var calls := seq(|e.fragments|, k requires 0 <= k < |e.fragments| => CallJson(e.fragments[k]));
    var delta := SetText(map["tool_calls" := JArr(calls)], "content", e.content);
    var event := map["choices" := JArr([JObj(map["delta" := JObj(delta)])])];
    JObj(if e.usage.Some? then event["usage" := JObj(e.usage.value)] else event)
  }

  lemma CallIsSaid(f: Fragment)
    ensures SaysFragment(CallJson(f), f)
  {
  }

  lemma EventIsSaid(e: Event)
    ensures SaysEvent(EventJson(e), e)
  {
    forall k | 0 <= k < |e.fragments| ensures SaysFragment(CallJson(e.fragments[k]), e.fragments[k]) {
      CallIsSaid(e.fragments[k]);
    }
  }

  lemma ObjectIsPayload(v: Json)
    requires v.JObj?
    ensures IsPayload(JsonCodec.Print(v))
  {
    JsonCodec.PrintOneLine(v);
    JsonCodec.ObjectText(v);
    assert "[DONE]"[0] == '[';
  }

  /** So for any events there is a stream that carries them. */
  lemma EventsCanBeCarried(events: seq<Event>)
    ensures exists parse: Parser, payloads :: Carries(parse, payloads, events)
  {
    var parse: Parser := s => JsonCodec.Read(s);
    var payloads := seq(|events|, k requires 0 <= k < |events| => JsonCodec.Print(EventJson(events[k])));
    forall k | 0 <= k < |events|
      ensures IsPayload(payloads[k]) && parse(payloads[k]) == Some(EventJson(events[k])) && SaysEvent(EventJson(events[k]), events[k])
    {
      EventIsSaid(events[k]);
      JsonCodec.ReadPrinted(EventJson(events[k]));
      ObjectIsPayload(EventJson(events[k]));
    }
    assert Carries(parse, payloads, events);
  }
}
