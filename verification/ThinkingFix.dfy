/** The stream that repairs Anthropic thinking blocks in passing: whatever the chunking, every part of the
    stream is replaced by its patched form, the framing survives, and running it twice changes nothing more. */
module ThinkingFix {
  import opened Basics
  import opened Json
  import JsonCodec
  import opened SseText

  /** JSON.parse, JSON.stringify and String() as they are used here. `toText` is `None` where String() throws, as it
      does for an object whose own `toString` is no function. */
  datatype Codec = Codec(parse: Parser, stringify: Json -> string, toText: Json -> Option<string>)

  predicate IsDataLine(line: string) {
    StartsWith(line, "data: ")
  }

  /** The last `data: ` line, or the empty string. */
  function DataLine(lines: seq<string>): (line: string)
    ensures line != "" ==> IsDataLine(line)
  {
    if lines == [] then "" else if IsDataLine(Last(lines)) then Last(lines) else DataLine(Init(lines))
  }

  /** `block.thinking` made a string; `None` when nothing has to change, or nothing can, since String() throws and the
      part is passed on as it is. */
  function WithThinking(c: Codec, block: Json): Option<Json> {
    var thinking := Field(Some(block), "thinking");
    if !block.JObj? || (thinking.Some? && thinking.value.JStr?) then None
    else if thinking.None? || thinking.value.JNull? then Some(JObj(block.fields["thinking" := JStr("")]))
    else if c.toText(thinking.value).None? then None
    else Some(JObj(block.fields["thinking" := JStr(c.toText(thinking.value).value)]))
  }

  /** The event with the block under `key` repaired, if that block is of the given type. */
  function PatchBlock(c: Codec, event: Json, key: string, kind: string): Option<Json> {
    var block := Field(Some(event), key);
    if block.Some? && IsText(Field(block, "type"), kind) && WithThinking(c, block.value).Some?
    then Some(JObj(event.fields[key := WithThinking(c, block.value).value]))
    else None
  }

  function PatchEvent(c: Codec, event: Json): Option<Json> {
    if IsText(Field(Some(event), "type"), "content_block_start") then PatchBlock(c, event, "content_block", "thinking")
    else if IsText(Field(Some(event), "type"), "content_block_delta") then PatchBlock(c, event, "delta", "thinking_delta")
    else None
  }

  /** `JSON.parse(JSON.stringify(v))` is `v`, and the text has no line break, for every value the stream prints:
      an event that was parsed and then repaired. */
  ghost predicate RoundTrips(c: Codec) {
    forall s :: c.parse(s).Some? && PatchEvent(c, c.parse(s).value).Some? ==>
      var v := PatchEvent(c, c.parse(s).value).value;
      c.parse(c.stringify(v)) == Some(v) && OneLine(c.stringify(v))
  }

  /** The repaired event of a part, if it has one to repair. */
  function PatchOf(c: Codec, lines: seq<string>): Option<Json> {
    var dataLine := DataLine(lines);
    if dataLine == "" then None else
      var data := dataLine[6..];
      if data == "" || data == "[DONE]" || c.parse(data).None? then None else PatchEvent(c, c.parse(data).value)
  }

  function ReplaceData(lines: seq<string>, newLine: string): (r: seq<string>)
    ensures |r| == |lines|
    ensures forall k :: 0 <= k < |lines| ==> r[k] == if IsDataLine(lines[k]) then newLine else lines[k]
  {
    seq(|lines|, k requires 0 <= k < |lines| => if IsDataLine(lines[k]) then newLine else lines[k])
  }

  function FixPart(c: Codec, part: string): string {
    var patch := PatchOf(c, Lines(part));
    if patch.None? then part else Join(ReplaceData(Lines(part), "data: " + c.stringify(patch.value)))
  }

  function FixParts(c: Codec, parts: seq<string>): (r: seq<string>)
    ensures |r| == |parts|
    ensures forall k :: 0 <= k < |parts| ==> r[k] == FixPart(c, parts[k])
  {
    seq(|parts|, k requires 0 <= k < |parts| => FixPart(c, parts[k]))
  }

  function Frame(parts: seq<string>): string {
    if parts == [] then "" else Frame(Init(parts)) + (Last(parts) + BLANK_LINE)
  }

  /** What a blank remainder becomes: nothing. */
  function Tail(rest: string): string {
    if Trim(rest) == "" then "" else rest
  }

  /** The stream's output as a function of its whole input. */
  function FixText(c: Codec, text: string): string {
    Frame(FixParts(c, Parts(text))) + Tail(Rest(text))
  }

  // ----- Framing -----

  /** The blank line after the part is the first one. */
  predicate Framed(part: string) {
    FirstIndex(part + BLANK_LINE, BLANK_LINE) == |part|
  }

  /** No empty line but possibly the first. */
  predicate TightLines(lines: seq<string>) {
    forall k :: 1 <= k < |lines| ==> lines[k] != ""
  }

  predicate TightText(s: string) {
    forall i :: 0 <= i < |s| && s[i] == '\n' ==> i + 1 < |s| && s[i + 1] != '\n'
  }

  lemma BlankLineAt(s: string, i: nat)
    requires i < |s|
    ensures OccursAt(s + BLANK_LINE, BLANK_LINE, i) <==> s[i] == '\n' && (i + 1 < |s| ==> s[i + 1] == '\n')
  {
    var t := s + BLANK_LINE;
    assert t[i..i + 2] == [t[i], t[i + 1]];
    assert BLANK_LINE == ['\n', '\n'];
  }

  lemma FramedIsTight(s: string)
    ensures Framed(s) <==> TightText(s)
  {
    var t := s + BLANK_LINE;
    assert t[|s|..|s| + 2] == BLANK_LINE;
    assert OccursAt(t, BLANK_LINE, |s|);
    if TightText(s) {
      forall i | 0 <= i < |s| ensures !OccursAt(t, BLANK_LINE, i) {
        BlankLineAt(s, i);
      }
      FirstIndexUnique(t, BLANK_LINE, |s|);
    }
    if Framed(s) {
      forall i | 0 <= i < |s| && s[i] == '\n' ensures i + 1 < |s| && s[i + 1] != '\n' {
        BlankLineAt(s, i);
        assert !OccursAt(t, BLANK_LINE, i);
      }
    }
  }

  lemma TightCons(x: string, q: string)
    requires OneLine(x)
    ensures TightText(x + NL + q) <==> q != "" && q[0] != '\n' && TightText(q)
  {
    var t := x + NL + q;
    assert forall i :: 0 <= i < |q| ==> t[|x| + 1 + i] == q[i];
    assert t[|x|] == '\n';
    if TightText(t) {
      forall i | 0 <= i < |q| && q[i] == '\n' ensures i + 1 < |q| && q[i + 1] != '\n' {
        assert t[|x| + 1 + i] == '\n';
      }
    }
    if q != "" && q[0] != '\n' && TightText(q) {
      forall i | 0 <= i < |t| && t[i] == '\n' ensures i + 1 < |t| && t[i + 1] != '\n' {
        if i > |x| {
          assert q[i - |x| - 1] == '\n';
        }
      }
    }
  }

  lemma {:induction false} TightJoin(lines: seq<string>)
    requires lines != [] && forall k :: 0 <= k < |lines| ==> OneLine(lines[k])
    ensures TightText(Join(lines)) <==> TightLines(lines)
    decreases |lines|
  {
    if |lines| > 1 {
      var rest := lines[1..];
      TightJoin(rest);
      TightCons(lines[0], Join(rest));
      assert lines[1] == rest[0];
      assert TightLines(lines) <==> rest[0] != "" && TightLines(rest);
      assert Join(rest) != "" && Join(rest)[0] != '\n' <==> rest[0] != "";
    }
  }

  lemma FramedByLines(part: string)
    ensures Framed(part) <==> TightLines(Lines(part))
  {
    FramedIsTight(part);
    JoinOfLines(part);
    forall k | 0 <= k < |Lines(part)| ensures OneLine(Lines(part)[k]) {
      LinesAreLines(part, k);
    }
    TightJoin(Lines(part));
  }

  lemma TextBeforeIsFramed(s: string)
    requires FirstIndex(s, BLANK_LINE) < |s|
    ensures Framed(s[..FirstIndex(s, BLANK_LINE)])
  {
    var i := FirstIndex(s, BLANK_LINE);
    var t := s[..i] + BLANK_LINE;
    assert t == s[..i + 2];
    assert forall j :: OccursAt(t, BLANK_LINE, j) ==> t[j..j + 2] == s[j..j + 2];
    assert forall j :: 0 <= j < i && OccursAt(t, BLANK_LINE, j) ==> OccursAt(s, BLANK_LINE, j);
    assert OccursAt(t, BLANK_LINE, i);
    FirstIndexUnique(t, BLANK_LINE, i);
  }

  lemma {:induction false} PartsAreFramed(s: string, k: nat)
    requires k < |Parts(s)|
    ensures Framed(Parts(s)[k])
    decreases |s|
  {
    var i := FirstIndex(s, BLANK_LINE);
    if i < |s| {
      FirstPartOf(s);
      if k > 0 {
        PartsAreFramed(s[i + 2..], k - 1);
      } else {
        TextBeforeIsFramed(s);
      }
    }
  }

  lemma FirstFramedPart(part: string, more: string)
    requires Framed(part)
    ensures Parts(part + BLANK_LINE + more) == [part] + Parts(more)
    ensures Rest(part + BLANK_LINE + more) == Rest(more)
  {
    var t := part + BLANK_LINE;
    assert t[..|part|] == part && t[|part| + 2..] == "";
    FirstIndexExtends(t, more, BLANK_LINE);
    SlicesOfConcat(t, more, |part|, |part| + 2);
    assert t + more == part + BLANK_LINE + more;
    assert "" + more == more;
    InitOfCons(part, Split(more, BLANK_LINE));
  }

  lemma FrameCons(part: string, parts: seq<string>)
    ensures Frame([part] + parts) == part + BLANK_LINE + Frame(parts)
    decreases |parts|
  {
    if parts == [] {
      assert [part] + parts == [part] && Init([part]) == [];
      assert Frame([part]) == "" + (part + BLANK_LINE);
    } else {
      InitOfCons(part, parts);
      FrameCons(part, Init(parts));
      AppendAssociates(part + BLANK_LINE, Frame(Init(parts)), Last(parts) + BLANK_LINE);
    }
  }

  /** Re-splitting framed parts gives them back. */
  lemma {:induction false} FrameSplits(parts: seq<string>, rest: string)
    requires forall k :: 0 <= k < |parts| ==> Framed(parts[k])
    requires Parts(rest) == []
    ensures Parts(Frame(parts) + rest) == parts && Rest(Frame(parts) + rest) == Rest(rest)
    decreases |parts|
  {
    if parts == [] {
      assert "" + rest == rest;
    } else {
      var more := parts[1..];
      assert [parts[0]] + more == parts;
      FrameCons(parts[0], more);
      FrameSplits(more, rest);
      AppendAssociates(parts[0] + BLANK_LINE, Frame(more), rest);
      FirstFramedPart(parts[0], Frame(more) + rest);
    }
  }

  lemma RestHasNoParts(s: string)
    ensures Parts(Rest(s)) == [] && Rest(Rest(s)) == Rest(s)
    ensures Parts(Tail(Rest(s))) == [] && Rest(Tail(Rest(s))) == Tail(Rest(s))
  {
    PiecesAreClean(s, BLANK_LINE, |Split(s, BLANK_LINE)| - 1);
  }

  // ----- Patching a part -----

  lemma {:induction false} DataLineReplaced(lines: seq<string>, newLine: string)
    requires IsDataLine(newLine)
    ensures DataLine(ReplaceData(lines, newLine)) == if DataLine(lines) == "" then "" else newLine
    decreases |lines|
  {
    if lines != [] {
      DataLineReplaced(Init(lines), newLine);
      assert Init(ReplaceData(lines, newLine)) == ReplaceData(Init(lines), newLine);
    }
  }

  /** The block of an event that Claude Code would append to: its key, if the event is of a kind that has one. */
  function ThinkingKey(event: Json): Option<string> {
    var key := if IsText(Field(Some(event), "type"), "content_block_start") then "content_block" else "delta";
    var kind := if key == "content_block" then "thinking" else "thinking_delta";
    if (key == "content_block" || IsText(Field(Some(event), "type"), "content_block_delta"))
       && IsText(Field(Field(Some(event), key), "type"), kind)
    then Some(key) else None
  }

  /** `after` is `before` with the text of one property set. */
  ghost predicate OnlyDiffersAt(before: Json, after: Json, key: string) {
    before.JObj? && after.JObj? && after.fields.Keys == before.fields.Keys + {key}
    && forall k :: k in before.fields && k != key ==> after.fields[k] == before.fields[k]
  }

  /** The text a block's `thinking` is given: the empty one when it is missing or null, otherwise its printed form,
      if it has one. */
  function Repaired(c: Codec, block: Json): Option<string> {
    var was := Field(Some(block), "thinking");
    if was.None? || was.value.JNull? then Some("") else c.toText(was.value)
  }

  /** An event is rewritten exactly when its thinking block has no text but can be given one, and then only that
      block's `thinking` changes, to that text. */
  lemma RepairIsLocal(c: Codec, event: Json)
    ensures PatchEvent(c, event).Some? <==>
              ThinkingKey(event).Some? &&
              var block := Field(Some(event), ThinkingKey(event).value);
              TextOf(Field(block, "thinking")).None? && block.Some? && Repaired(c, block.value).Some?
    ensures PatchEvent(c, event).Some? ==>
              var after, key := PatchEvent(c, event).value, ThinkingKey(event).value;
              && OnlyDiffersAt(event, after, key) && key in event.fields
              && OnlyDiffersAt(event.fields[key], after.fields[key], "thinking")
              && Repaired(c, event.fields[key]).Some?
              && IsText(Field(Some(after.fields[key]), "thinking"), Repaired(c, event.fields[key]).value)
  {
  }

  lemma PatchSettles(c: Codec, event: Json)
    ensures PatchEvent(c, event).Some? ==> PatchEvent(c, PatchEvent(c, event).value) == None
  {
  }

  lemma FixedLines(c: Codec, part: string)
    requires RoundTrips(c) && PatchOf(c, Lines(part)).Some?
    ensures var newLine := "data: " + c.stringify(PatchOf(c, Lines(part)).value);
            Lines(FixPart(c, part)) == ReplaceData(Lines(part), newLine)
  {
    var newLine := "data: " + c.stringify(PatchOf(c, Lines(part)).value);
    var lines := ReplaceData(Lines(part), newLine);
    forall k | 0 <= k < |lines| ensures OneLine(lines[k]) {
      LinesAreLines(part, k);
    }
    LinesOfJoined(lines);
  }

  lemma FixKeepsFraming(c: Codec, part: string)
    requires RoundTrips(c) && Framed(part)
    ensures Framed(FixPart(c, part))
  {
    if PatchOf(c, Lines(part)).Some? {
      FramedByLines(part);
      FixedLines(c, part);
      FramedByLines(FixPart(c, part));
    }
  }

  lemma NothingLeftToPatch(c: Codec, lines: seq<string>)
    requires RoundTrips(c) && PatchOf(c, lines).Some?
    ensures PatchOf(c, ReplaceData(lines, "data: " + c.stringify(PatchOf(c, lines).value))) == None
  {
    var event := c.parse(DataLine(lines)[6..]).value;
    var patch := PatchOf(c, lines).value;
    var newLine := "data: " + c.stringify(patch);
    assert newLine[..6] == "data: " && newLine[6..] == c.stringify(patch);
    DataLineReplaced(lines, newLine);
    PatchSettles(c, event);
  }

  lemma FixPartTwice(c: Codec, part: string)
    requires RoundTrips(c)
    ensures FixPart(c, FixPart(c, part)) == FixPart(c, part)
  {
    if PatchOf(c, Lines(part)).Some? {
      FixedLines(c, part);
      NothingLeftToPatch(c, Lines(part));
    }
  }

  // ----- The whole stream -----

  /** The output splits again into exactly the patched parts. */
  lemma FramingPreserved(c: Codec, text: string)
    requires RoundTrips(c)
    ensures Parts(FixText(c, text)) == FixParts(c, Parts(text)) && Rest(FixText(c, text)) == Tail(Rest(text))
  {
    var parts := FixParts(c, Parts(text));
    forall k | 0 <= k < |parts| ensures Framed(parts[k]) {
      PartsAreFramed(text, k);
      FixKeepsFraming(c, Parts(text)[k]);
    }
    RestHasNoParts(text);
    FrameSplits(parts, Tail(Rest(text)));
  }

  /** Running the fix on its own output changes nothing. */
  lemma FixIsIdempotent(c: Codec, text: string)
    requires RoundTrips(c)
    ensures FixText(c, FixText(c, text)) == FixText(c, text)
  {
    FramingPreserved(c, text);
    var once := FixParts(c, Parts(text));
    forall k | 0 <= k < |once| ensures FixParts(c, once)[k] == once[k] {
      FixPartTwice(c, Parts(text)[k]);
    }
    assert FixParts(c, once) == once;
  }

  // ----- What the output says -----

  /** The payload of the part's last `data: ` line. */
  ghost predicate HasPayload(part: string, payload: string) {
    exists k :: 0 <= k < |Lines(part)| && Lines(part)[k] == "data: " + payload
      && forall j :: k < j < |Lines(part)| ==> !("data: " <= Lines(part)[j])
  }

  /** The part's last payload is this event. */
  ghost predicate Carries(c: Codec, part: string, event: Json) {
    exists payload :: HasPayload(part, payload) && c.parse(payload) == Some(event)
  }

  /** The part's last payload is nothing to parse. */
  ghost predicate IsMarker(part: string) {
    HasPayload(part, "") || HasPayload(part, "[DONE]")
  }

  predicate Has(v: Json, key: string, value: Json) {
    v.JObj? && key in v.fields && v.fields[key] == value
  }

  /** The event opens or continues, under the key, a thinking block whose text is missing or is no text, and that can be
      given this one. */
  predicate LacksText(c: Codec, event: Json, key: string, text: string) {
    && event.JObj? && key in event.fields && event.fields[key].JObj?
    && (if key == "content_block" then Has(event, "type", JStr("content_block_start")) && Has(event.fields[key], "type", JStr("thinking"))
        else key == "delta" && Has(event, "type", JStr("content_block_delta")) && Has(event.fields[key], "type", JStr("thinking_delta")))
    && var block := event.fields[key].fields;
       if "thinking" !in block || block["thinking"].JNull? then text == ""
       else !block["thinking"].JStr? && c.toText(block["thinking"]) == Some(text)
  }

  function WithText(event: Json, key: string, text: string): Json
    requires event.JObj? && key in event.fields && event.fields[key].JObj?
  {
    JObj(event.fields[key := JObj(event.fields[key].fields["thinking" := JStr(text)])])
  }

  ghost predicate ToRepair(c: Codec, part: string) {
    !IsMarker(part) && exists event, key, text :: Carries(c, part, event) && LacksText(c, event, key, text)
  }

  /** A part with a block to repair carries the same event with the text afterwards, on each of its data lines, and
      every other line as it was; any other part is passed on as it came. */
  ghost predicate IsRepaired(c: Codec, before: string, after: string) {
    if ToRepair(c, before) then
      && (forall event, key, text :: Carries(c, before, event) && LacksText(c, event, key, text) ==>
            Carries(c, after, WithText(event, key, text)))
      && |Lines(after)| == |Lines(before)|
      && (forall k :: 0 <= k < |Lines(before)| && !("data: " <= Lines(before)[k]) ==> Lines(after)[k] == Lines(before)[k])
      && (forall j, k :: 0 <= j < |Lines(before)| && 0 <= k < |Lines(before)| && "data: " <= Lines(before)[j] && "data: " <= Lines(before)[k] ==>
            Lines(after)[j] == Lines(after)[k])
    else after == before
  }

  lemma {:induction false} DataLineIsLast(lines: seq<string>)
    ensures DataLine(lines) != "" ==>
              exists k :: 0 <= k < |lines| && lines[k] == DataLine(lines) && forall j :: k < j < |lines| ==> !IsDataLine(lines[j])
    ensures DataLine(lines) == "" ==> forall j :: 0 <= j < |lines| ==> !IsDataLine(lines[j])
    decreases |lines|
  {
    if lines != [] && !IsDataLine(Last(lines)) {
      DataLineIsLast(Init(lines));
      assert forall j :: 0 <= j < |lines| - 1 ==> lines[j] == Init(lines)[j];
    }
  }

  lemma PayloadIs(part: string, payload: string)
    ensures HasPayload(part, payload) <==> DataLine(Lines(part)) != "" && DataLine(Lines(part))[6..] == payload
  {
    var lines := Lines(part);
    DataLineIsLast(lines);
    assert IsDataLine("data: " + payload);
    if DataLine(lines) != "" {
      var k :| 0 <= k < |lines| && lines[k] == DataLine(lines) && forall j :: k < j < |lines| ==> !IsDataLine(lines[j]);
      assert lines[k] == "data: " + lines[k][6..];
      if HasPayload(part, payload) {
        var i :| 0 <= i < |lines| && lines[i] == "data: " + payload && forall j :: i < j < |lines| ==> !("data: " <= lines[j]);
        assert IsDataLine(lines[i]) && "data: " <= lines[k];
        assert i == k && ("data: " + payload)[6..] == payload;
      }
    }
  }

  lemma CarriesIs(c: Codec, part: string, event: Json)
    ensures Carries(c, part, event) <==> var line := DataLine(Lines(part)); line != "" && c.parse(line[6..]) == Some(event)
    ensures IsMarker(part) <==> var line := DataLine(Lines(part)); line != "" && (line[6..] == "" || line[6..] == "[DONE]")
  {
    var line := DataLine(Lines(part));
    PayloadIs(part, "");
    PayloadIs(part, "[DONE]");
    if line != "" {
      PayloadIs(part, line[6..]);
    }
    if Carries(c, part, event) {
      var payload :| HasPayload(part, payload) && c.parse(payload) == Some(event);
      PayloadIs(part, payload);
    }
  }

  lemma PatchIsText(c: Codec, event: Json, key: string, text: string)
    requires LacksText(c, event, key, text)
    ensures PatchEvent(c, event) == Some(WithText(event, key, text))
  {
  }

  lemma PatchMeansLack(c: Codec, event: Json) returns (key: string, text: string)
    requires PatchEvent(c, event).Some?
    ensures LacksText(c, event, key, text)
  {
    key := if IsText(Field(Some(event), "type"), "content_block_start") then "content_block" else "delta";
    var block := Field(Some(event), key);
    var thinking := Field(block, "thinking");
    text := if thinking.None? || thinking.value.JNull? then "" else c.toText(thinking.value).value;
  }

  lemma PatchedPart(c: Codec, part: string, event: Json, key: string, text: string)
    requires RoundTrips(c) && !IsMarker(part) && Carries(c, part, event) && LacksText(c, event, key, text)
    ensures PatchOf(c, Lines(part)).Some? && Carries(c, FixPart(c, part), WithText(event, key, text))
  {
    var fixed := WithText(event, key, text);
    var newLine := "data: " + c.stringify(fixed);
    CarriesIs(c, part, event);
    PatchIsText(c, event, key, text);
    assert newLine[..6] == "data: " && newLine[6..] == c.stringify(fixed);
    FixedLines(c, part);
    DataLineReplaced(Lines(part), newLine);
    CarriesIs(c, FixPart(c, part), fixed);
  }

  lemma PatchedMeansLack(c: Codec, part: string)
    requires PatchOf(c, Lines(part)).Some?
    ensures ToRepair(c, part)
  {
    var event := c.parse(DataLine(Lines(part))[6..]).value;
    CarriesIs(c, part, event);
    var key, text := PatchMeansLack(c, event);
  }

  lemma PartIsRepaired(c: Codec, part: string)
    requires RoundTrips(c)
    ensures IsRepaired(c, part, FixPart(c, part))
    ensures PatchOf(c, Lines(part)).Some? <==> ToRepair(c, part)
  {
    if ToRepair(c, part) {
      forall event, key, text | Carries(c, part, event) && LacksText(c, event, key, text)
        ensures PatchOf(c, Lines(part)).Some? && Carries(c, FixPart(c, part), WithText(event, key, text))
      {
        PatchedPart(c, part, event, key, text);
      }
      FixedLines(c, part);
      assert forall line: string :: IsDataLine(line) <==> "data: " <= line;
    } else if PatchOf(c, Lines(part)).Some? {
      PatchedMeansLack(c, part);
    }
  }

  /** The output, read back: it splits into as many parts as the input, each repaired if it had a block to repair and
      passed on otherwise, and what follows the last blank line is passed on too, unless it is blank. */
  lemma OutputIsRepaired(c: Codec, text: string)
    requires RoundTrips(c)
    ensures var out := FixText(c, text);
            && |Parts(out)| == |Parts(text)|
            && (forall k :: 0 <= k < |Parts(text)| ==> IsRepaired(c, Parts(text)[k], Parts(out)[k]))
            && Rest(out) == (if Blank(Rest(text)) then "" else Rest(text))
  {
    FramingPreserved(c, text);
    TrimBlank(Rest(text));
    forall k | 0 <= k < |Parts(text)| ensures IsRepaired(c, Parts(text)[k], Parts(FixText(c, text))[k]) {
      PartIsRepaired(c, Parts(text)[k]);
    }
  }

  /** A text is its parts, each with its blank line, and what is left over. */
  lemma {:induction false} TextIsItsParts(text: string)
    ensures Frame(Parts(text)) + Rest(text) == text
    decreases |text|
  {
    var i := FirstIndex(text, BLANK_LINE);
    if i == |text| {
      assert Parts(text) == [] && "" + text == text;
    } else {
      FirstPartOf(text);
      CutAt(text, BLANK_LINE, i);
      TextIsItsParts(text[i + 2..]);
      FrameCons(text[..i], Parts(text[i + 2..]));
      AppendAssociates(text[..i] + BLANK_LINE, Frame(Parts(text[i + 2..])), Rest(text));
    }
  }

  function CountPatched(c: Codec, parts: seq<string>): nat {
    if parts == [] then 0 else CountPatched(c, Init(parts)) + (if PatchOf(c, Lines(Last(parts))).Some? then 1 else 0)
  }

  lemma OneMorePart(c: Codec, parts: seq<string>, p: string)
    ensures Frame(FixParts(c, parts + [p])) == Frame(FixParts(c, parts)) + (FixPart(c, p) + BLANK_LINE)
    ensures CountPatched(c, parts + [p]) == CountPatched(c, parts) + if PatchOf(c, Lines(p)).Some? then 1 else 0
  {
    assert Init(parts + [p]) == parts;
    assert FixParts(c, parts + [p]) == FixParts(c, parts) + [FixPart(c, p)];
    assert Init(FixParts(c, parts) + [FixPart(c, p)]) == FixParts(c, parts);
  }

  class FixStream {
    const codec: Codec
    var sseBuf: string
    var patchedCount: nat
    /** What has been enqueued downstream. */
    var output: string
    ghost var seen: string

    ghost predicate Valid()
      reads this
    {
      && sseBuf == Rest(seen) && output == Frame(FixParts(codec, Parts(seen)))
      && patchedCount == CountPatched(codec, Parts(seen))
    }

    constructor (codec: Codec)
      ensures Valid() && seen == "" && this.codec == codec
    {
      this.codec := codec;
      sseBuf, patchedCount, output, seen := "", 0, "", "";
      new;
      assert Parts("") == [];
    }

    /** One part, passed on as it is or with its `data: ` lines replaced. */
    method EmitPart(part: string)
      modifies this`output, this`patchedCount
      ensures output == old(output) + (FixPart(codec, part) + BLANK_LINE)
      ensures patchedCount == old(patchedCount) + if PatchOf(codec, Lines(part)).Some? then 1 else 0
    {
      var lines := Lines(part);
      var dataLine := "";
      for i := 0 to |lines|
        invariant dataLine == DataLine(lines[..i])
      {
        assert Init(lines[..i + 1]) == lines[..i];
        if StartsWith(lines[i], "data: ") {
          dataLine := lines[i];
        }
      }
      assert lines[..|lines|] == lines;
      if dataLine == "" || dataLine[6..] == "" || dataLine[6..] == "[DONE]" || codec.parse(dataLine[6..]).None? {
        output := output + (part + BLANK_LINE);
        return;
      }
      var patch := PatchEvent(codec, codec.parse(dataLine[6..]).value);
      if patch.None? {
        output := output + (part + BLANK_LINE);
        return;
      }
      patchedCount := patchedCount + 1;
      var newLines := WithDataLine(lines, "data: " + codec.stringify(patch.value));
      output := output + (Join(newLines) + BLANK_LINE);
    }

    method WithDataLine(lines: seq<string>, newDataLine: string) returns (newLines: seq<string>)
      ensures newLines == ReplaceData(lines, newDataLine)
    {
      newLines := lines;
      for i := 0 to |lines|
        invariant |newLines| == |lines|
        invariant forall k :: 0 <= k < i ==> newLines[k] == if IsDataLine(lines[k]) then newDataLine else lines[k]
        invariant forall k :: i <= k < |lines| ==> newLines[k] == lines[k]
      {
        if StartsWith(lines[i], "data: ") {
          newLines := newLines[i := newDataLine];
        }
      }
    }

    method EmitParts(parts: seq<string>, ghost before: seq<string>)
      requires output == Frame(FixParts(codec, before)) && patchedCount == CountPatched(codec, before)
      modifies this`output, this`patchedCount
      ensures output == Frame(FixParts(codec, before + parts)) && patchedCount == CountPatched(codec, before + parts)
    {
      ghost var done := before;
      for i := 0 to |parts|
        invariant done == before + parts[..i]
        invariant output == Frame(FixParts(codec, done)) && patchedCount == CountPatched(codec, done)
      {
        EmitPart(parts[i]);
        OneMorePart(codec, done, parts[i]);
        PrefixGrows(before, parts, i);
        done := done + [parts[i]];
      }
      assert parts[..|parts|] == parts;
    }

    method Transform(chunk: string)
      requires Valid()
      modifies this
      ensures Valid() && seen == old(seen) + chunk
    {
      PartsInChunks(seen, chunk);
      sseBuf := sseBuf + chunk;
      var parts := Split(sseBuf, BLANK_LINE);
      sseBuf := Last(parts);
      EmitParts(Init(parts), Parts(seen));
      seen := seen + chunk;
    }

    /** The output of the finished stream is a function of the whole input. */
    method Flush()
      requires Valid()
      modifies this`output
      ensures output == FixText(codec, seen)
    {
      if Trim(sseBuf) != "" {
        output := output + sseBuf;
      } else {
        assert output + "" == output;
      }
    }
  }

  /** The demand can be met, by a codec that reads and prints every value whatever. */
  lemma CodecExists()
    ensures exists c: Codec :: RoundTrips(c) && forall v :: c.parse(c.stringify(v)) == Some(v)
  {
    var c := Codec(s => JsonCodec.Read(s), v => JsonCodec.Print(v), v => Some(JsonCodec.Print(v)));
    forall v
      ensures c.parse(c.stringify(v)) == Some(v) && OneLine(c.stringify(v))
    {
      JsonCodec.ReadPrinted(v);
      JsonCodec.PrintOneLine(v);
    }
    assert RoundTrips(c);
  }
}
