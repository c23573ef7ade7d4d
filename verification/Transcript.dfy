/** Packing a session's turns into at most 500 messages for skill extraction. */
module Transcript {
  import opened Basics

  const MAX_MESSAGES: nat := 500
  const MAX_TOOLS: nat := 249

  datatype Role = User | Assistant | ToolCall | ToolResult
  datatype Message = Message(role: Role, content: string, toolName: string, toolCallId: string)
  datatype Tool = Tool(toolUseId: string, toolName: string, inputJson: string, responseJson: string)
  datatype Turn = Turn(user: string, assistant: string, tools: seq<Tool>)

  function BoundedWorkText(value: string): string {
    if |value| <= 32_000 then value
    else value[..16_000] + "\n...[truncated]...\n" + value[|value| - 16_000..]
  }

  function UserMessage(turn: Turn): Message {
    Message(User, BoundedWorkText(turn.user), "", "")
  }

  function AssistantMessage(turn: Turn): Message {
    Message(Assistant, BoundedWorkText(turn.assistant), "", "")
  }

  function ToolPair(tool: Tool): seq<Message> {
    [Message(ToolCall, tool.inputJson, tool.toolName, tool.toolUseId), Message(ToolResult, tool.responseJson, tool.toolName, tool.toolUseId)]
  }

  /** The last `MAX_TOOLS` tool uses. */
  function KeptTools(tools: seq<Tool>): seq<Tool> {
    if |tools| <= MAX_TOOLS then tools else tools[|tools| - MAX_TOOLS..]
  }

  /** What a turn's messages have to be: the user's text first, the assistant's last, and in between every
      kept tool use as a call directly followed by its own result, in order. */
  ghost predicate IsBundle(turn: Turn, bundle: seq<Message>) {
    var tools := KeptTools(turn.tools);
    && |bundle| == 2 + 2 * |tools|
    && bundle[0] == UserMessage(turn) && bundle[|bundle| - 1] == AssistantMessage(turn)
    && forall k :: 0 <= k < |tools| ==> bundle[1 + 2 * k..3 + 2 * k] == ToolPair(tools[k])
  }

  ghost predicate AreBundles(turns: seq<Turn>, bundles: seq<seq<Message>>) {
    |bundles| == |turns| && forall i :: 0 <= i < |turns| ==> IsBundle(turns[i], bundles[i])
  }

  /** The suffix from `k` on fits, and no longer suffix does. */
  ghost predicate LongestFit(bundles: seq<seq<Message>>, k: nat) {
    && k <= |bundles|
    && |Flatten(bundles[k..])| <= MAX_MESSAGES
    && forall j :: 0 <= j < k ==> |Flatten(bundles[j..])| > MAX_MESSAGES
  }

  lemma FlattenFrom(bundles: seq<seq<Message>>, k: nat)
    requires k < |bundles|
    ensures Flatten(bundles[k..]) == bundles[k] + Flatten(bundles[k + 1..])
  {
    assert bundles[k..][1..] == bundles[k + 1..];
  }

  lemma {:induction false} LongerSuffixLarger(bundles: seq<seq<Message>>, j: nat, k: nat)
    requires j <= k <= |bundles|
    ensures |Flatten(bundles[j..])| >= |Flatten(bundles[k..])|
    decreases k - j
  {
    if j < k {
      FlattenFrom(bundles, j);
      LongerSuffixLarger(bundles, j + 1, k);
    }
  }

  /** There is only one longest fit, so it determines the transcript. */
  lemma LongestFitUnique(bundles: seq<seq<Message>>, k: nat, l: nat)
    requires LongestFit(bundles, k) && LongestFit(bundles, l)
    ensures k == l
  {
  }

  lemma {:induction false} BundleUnique(turn: Turn, a: seq<Message>, b: seq<Message>)
    requires IsBundle(turn, a) && IsBundle(turn, b)
    ensures a == b
  {
    var tools := KeptTools(turn.tools);
    forall i | 0 <= i < |a| ensures a[i] == b[i] {
      if 0 < i < |a| - 1 {
        var k := (i - 1) / 2;
        assert a[1 + 2 * k..3 + 2 * k] == ToolPair(tools[k]) == b[1 + 2 * k..3 + 2 * k];
        assert a[i] == a[1 + 2 * k..3 + 2 * k][i - 1 - 2 * k];
        assert b[i] == b[1 + 2 * k..3 + 2 * k][i - 1 - 2 * k];
      }
    }
  }

  /** A text too long is its first and its last sixteen thousand characters around a notice. */
  ghost predicate IsBounded(text: string, content: string) {
    if |text| <= 32_000 then content == text
    else exists head, tail :: |head| == |tail| == 16_000 && head <= text && text[|text| - 16_000..] == tail
                              && content == head + "\n...[truncated]...\n" + tail
  }

  ghost predicate IsCallAndResult(tool: Tool, call: Message, result: Message) {
    && call.role.ToolCall? && call.content == tool.inputJson && call.toolName == tool.toolName && call.toolCallId == tool.toolUseId
    && result.role.ToolResult? && result.content == tool.responseJson && result.toolName == tool.toolName && result.toolCallId == tool.toolUseId
  }

  lemma BoundedIs(text: string)
    ensures IsBounded(text, BoundedWorkText(text))
  {
    if |text| > 32_000 {
      assert text[..16_000] <= text;
    }
  }

  /** A turn's messages, one by one: what the user said, then for each of the last 249 tool uses, in order, its input as a
      call and its response as the result, and at last what the assistant said. */
  lemma BundleReads(turn: Turn, bundle: seq<Message>)
    requires IsBundle(turn, bundle)
    ensures var n, kept := |turn.tools|, Min(|turn.tools|, 249);
            && |bundle| == 2 + 2 * kept
            && bundle[0].role.User? && IsBounded(turn.user, bundle[0].content)
            && bundle[|bundle| - 1].role.Assistant? && IsBounded(turn.assistant, bundle[|bundle| - 1].content)
            && forall k :: 0 <= k < kept ==> IsCallAndResult(turn.tools[n - kept + k], bundle[1 + 2 * k], bundle[2 + 2 * k])
  {
    var n, kept, tools := |turn.tools|, Min(|turn.tools|, 249), KeptTools(turn.tools);
    BoundedIs(turn.user);
    BoundedIs(turn.assistant);
    forall k | 0 <= k < kept
      ensures IsCallAndResult(turn.tools[n - kept + k], bundle[1 + 2 * k], bundle[2 + 2 * k])
    {
      assert tools[k] == turn.tools[n - kept + k];
      assert bundle[1 + 2 * k..3 + 2 * k] == ToolPair(tools[k]);
      assert bundle[1 + 2 * k] == bundle[1 + 2 * k..3 + 2 * k][0] && bundle[2 + 2 * k] == bundle[1 + 2 * k..3 + 2 * k][1];
    }
  }

  method BuildBundle(turn: Turn) returns (bundle: seq<Message>)
    ensures IsBundle(turn, bundle)
  {
    bundle := [UserMessage(turn)];
    var tools := turn.tools;
    if |tools| > 249 {
      tools := tools[|tools| - 249..];
    }
    assert tools == KeptTools(turn.tools);
    for i := 0 to |tools|
      invariant |bundle| == 1 + 2 * i && bundle[0] == UserMessage(turn)
      invariant forall k :: 0 <= k < i ==> bundle[1 + 2 * k..3 + 2 * k] == ToolPair(tools[k])
    {
      var tool := tools[i];
      ghost var before := bundle;
      bundle := bundle + [Message(ToolCall, tool.inputJson, tool.toolName, tool.toolUseId)];
      bundle := bundle + [Message(ToolResult, tool.responseJson, tool.toolName, tool.toolUseId)];
      forall k | 0 <= k < i + 1 ensures bundle[1 + 2 * k..3 + 2 * k] == ToolPair(tools[k]) {
        if k < i {
          assert bundle[1 + 2 * k..3 + 2 * k] == before[1 + 2 * k..3 + 2 * k];
        }
      }
    }
    ghost var open := bundle;
    bundle := bundle + [AssistantMessage(turn)];
    forall k | 0 <= k < |tools| ensures bundle[1 + 2 * k..3 + 2 * k] == ToolPair(tools[k]) {
      assert bundle[1 + 2 * k..3 + 2 * k] == open[1 + 2 * k..3 + 2 * k];
    }
  }

  method BuildBundles(turns: seq<Turn>) returns (bundles: seq<seq<Message>>)
    ensures AreBundles(turns, bundles)
  {
    bundles := [];
    for i := 0 to |turns|
      invariant |bundles| == i && forall j :: 0 <= j < i ==> IsBundle(turns[j], bundles[j])
    {
      var bundle := BuildBundle(turns[i]);
      bundles := bundles + [bundle];
    }
  }

  /** The messages of the longest fit, which leaves out the latest turn only when there are no turns. */
  ghost predicate Packed(bundles: seq<seq<Message>>, messages: seq<Message>) {
    exists from: nat :: LongestFit(bundles, from) && messages == Flatten(bundles[from..]) && (bundles != [] ==> from < |bundles|)
  }

  lemma FullMeansLongest(turns: seq<Turn>, bundles: seq<seq<Message>>, from: nat)
    requires AreBundles(turns, bundles) && from <= |bundles| && |Flatten(bundles[from..])| == MAX_MESSAGES
    ensures LongestFit(bundles, from)
  {
    if from > 0 {
      FlattenFrom(bundles, from - 1);
      assert IsBundle(turns[from - 1], bundles[from - 1]);
      LargerBefore(bundles, from - 1);
    }
  }

  /** The backward loop with its two ways out finds the longest suffix of whole turns that fits. */
  method PackSuffix(turns: seq<Turn>, bundles: seq<seq<Message>>) returns (messages: seq<Message>)
    requires AreBundles(turns, bundles)
    ensures Packed(bundles, messages)
  {
    messages := [];
    ghost var from := |bundles|;
    var i: int := |bundles| - 1;
    assert bundles[|bundles|..] == [];
    while i >= 0
      invariant -1 <= i < |bundles| && from == i + 1
      invariant messages == Flatten(bundles[from..]) && |messages| <= MAX_MESSAGES
      invariant from < |bundles| ==> |messages| >= 2
      decreases i
    {
      var bundle := bundles[i];
      assert IsBundle(turns[i], bundles[i]);
      FlattenFrom(bundles, i);
      if |messages| > 0 && |messages| + |bundle| > 500 {
        LargerBefore(bundles, i);
        assert LongestFit(bundles, from);
        return;
      }
      messages := bundle + messages;
      from := i;
      if |messages| >= 500 {
        FullMeansLongest(turns, bundles, from);
        return;
      }
      i := i - 1;
    }
    assert LongestFit(bundles, from);
  }

  lemma LargerBefore(bundles: seq<seq<Message>>, i: nat)
    requires i < |bundles| && |Flatten(bundles[i..])| > MAX_MESSAGES
    ensures forall j :: 0 <= j <= i ==> |Flatten(bundles[j..])| > MAX_MESSAGES
  {
    forall j | 0 <= j <= i ensures |Flatten(bundles[j..])| > MAX_MESSAGES {
      LongerSuffixLarger(bundles, j, i);
    }
  }

  ghost predicate IsTranscript(turns: seq<Turn>, messages: seq<Message>) {
    exists bundles :: AreBundles(turns, bundles) && Packed(bundles, messages)
  }

  /** The transcript: the longest suffix of whole turns within the limit, never without the latest turn. */
  method SkillTranscript(turns: seq<Turn>) returns (messages: seq<Message>)
    ensures IsTranscript(turns, messages)
    ensures |messages| <= MAX_MESSAGES && (turns == [] <==> messages == [])
  {
    var bundles := BuildBundles(turns);
    messages := PackSuffix(turns, bundles);
    ghost var from: nat :| LongestFit(bundles, from) && messages == Flatten(bundles[from..]) && (bundles != [] ==> from < |bundles|);
    if turns != [] {
      FlattenFrom(bundles, from);
      assert IsBundle(turns[from], bundles[from]);
    }
  }

  /** The description leaves no freedom: a session has one transcript. */
  lemma TranscriptUnique(turns: seq<Turn>, a: seq<Message>, b: seq<Message>)
    requires IsTranscript(turns, a) && IsTranscript(turns, b)
    ensures a == b
  {
    var x :| AreBundles(turns, x) && Packed(x, a);
    var y :| AreBundles(turns, y) && Packed(y, b);
    forall i | 0 <= i < |turns| ensures x[i] == y[i] {
      BundleUnique(turns[i], x[i], y[i]);
    }
    assert x == y;
    var k: nat :| LongestFit(x, k) && a == Flatten(x[k..]);
    var l: nat :| LongestFit(x, l) && b == Flatten(x[l..]);
    LongestFitUnique(x, k, l);
  }

  // ----- Is there enough work to extract from? -----

  datatype Verdict = NoConversation | TooLittle(toolCalls: nat, workChars: nat) | Worthwhile

  function ToolCalls(messages: seq<Message>): nat {
    if messages == [] then 0 else ToolCalls(messages[..|messages| - 1]) + (if messages[|messages| - 1].role.ToolCall? then 1 else 0)
  }

  function WorkChars(messages: seq<Message>): nat {
    if messages == [] then 0 else
      var m := messages[|messages| - 1];
      WorkChars(messages[..|messages| - 1]) + (if m.role.User? || m.role.Assistant? then |m.content| else 0)
  }

  method Judge(messages: seq<Message>) returns (v: Verdict)
    ensures v.NoConversation? <==> messages == []
    ensures v.Worthwhile? <==> ToolCalls(messages) >= 2 || (ToolCalls(messages) == 1 && WorkChars(messages) >= 500)
    ensures v.TooLittle? ==> v.toolCalls == ToolCalls(messages) && v.workChars == WorkChars(messages)
  {
    if |messages| == 0 {
      return NoConversation;
    }
    var toolCalls, workChars := 0, 0;
    for i := 0 to |messages|
      invariant toolCalls == ToolCalls(messages[..i]) && workChars == WorkChars(messages[..i])
    {
      assert messages[..i + 1][..i] == messages[..i];
      if messages[i].role.ToolCall? {
        toolCalls := toolCalls + 1;
      }
      if messages[i].role.User? || messages[i].role.Assistant? {
        workChars := workChars + |messages[i].content|;
      }
    }
    assert messages[..|messages|] == messages;
    if toolCalls < 1 || (toolCalls < 2 && workChars < 500) {
      return TooLittle(toolCalls, workChars);
    }
    return Worthwhile;
  }


  lemma CountsOfSnoc(messages: seq<Message>, m: Message)
    ensures ToolCalls(messages + [m]) == ToolCalls(messages) + (if m.role.ToolCall? then 1 else 0)
    ensures WorkChars(messages + [m]) == WorkChars(messages) + (if m.role.User? || m.role.Assistant? then |m.content| else 0)
  {
    assert (messages + [m])[..|messages|] == messages;
  }

  lemma {:induction false} CountsOfConcat(a: seq<Message>, b: seq<Message>)
    ensures ToolCalls(a + b) == ToolCalls(a) + ToolCalls(b) && WorkChars(a + b) == WorkChars(a) + WorkChars(b)
    decreases |b|
  {
    if b == [] {
      assert a + b == a;
    } else {
      var c, m := b[..|b| - 1], b[|b| - 1];
      CountsOfConcat(a, c);
      assert a + b == (a + c) + [m] && b == c + [m];
      CountsOfSnoc(a + c, m);
      CountsOfSnoc(c, m);
    }
  }

  lemma CountsOfPair(messages: seq<Message>, call: Message, result: Message)
    requires call.role.ToolCall? && result.role.ToolResult?
    ensures ToolCalls(messages + [call, result]) == ToolCalls(messages) + 1 && WorkChars(messages + [call, result]) == WorkChars(messages)
  {
    CountsOfSnoc(messages, call);
    CountsOfSnoc(messages + [call], result);
    assert messages + [call, result] == messages + [call] + [result];
  }

  lemma {:induction false} CountsSoFar(bundle: seq<Message>, k: nat)
    requires 1 + 2 * k <= |bundle| && bundle[0].role.User?
    requires forall i :: 0 <= i < k ==> bundle[1 + 2 * i].role.ToolCall? && bundle[2 + 2 * i].role.ToolResult?
    ensures ToolCalls(bundle[..1 + 2 * k]) == k && WorkChars(bundle[..1 + 2 * k]) == |bundle[0].content|
    decreases k
  {
    if k == 0 {
      assert bundle[..1] == [] + [bundle[0]];
      CountsOfSnoc([], bundle[0]);
    } else {
      var n := 1 + 2 * (k - 1);
      CountsSoFar(bundle, k - 1);
      CountsOfPair(bundle[..n], bundle[1 + 2 * (k - 1)], bundle[2 + 2 * (k - 1)]);
      assert bundle[..1 + 2 * k] == bundle[..n] + [bundle[n], bundle[n + 1]];
    }
  }

  lemma CallsAndResults(turn: Turn, bundle: seq<Message>, i: nat)
    requires IsBundle(turn, bundle) && i < Min(|turn.tools|, 249)
    ensures 2 + 2 * i < |bundle| && bundle[1 + 2 * i].role.ToolCall? && bundle[2 + 2 * i].role.ToolResult?
  {
    BundleReads(turn, bundle);
    assert IsCallAndResult(turn.tools[|turn.tools| - Min(|turn.tools|, 249) + i], bundle[1 + 2 * i], bundle[2 + 2 * i]);
  }

  lemma CountsInBetween(bundle: seq<Message>, kept: nat)
    requires |bundle| == 2 + 2 * kept && bundle[0].role.User? && bundle[|bundle| - 1].role.Assistant?
    requires forall i :: 0 <= i < kept ==> bundle[1 + 2 * i].role.ToolCall? && bundle[2 + 2 * i].role.ToolResult?
    ensures ToolCalls(bundle) == kept && WorkChars(bundle) == |bundle[0].content| + |bundle[|bundle| - 1].content|
  {
    CountsSoFar(bundle, kept);
    CountsOfSnoc(bundle[..1 + 2 * kept], bundle[|bundle| - 1]);
    assert bundle == bundle[..1 + 2 * kept] + [bundle[|bundle| - 1]];
  }

  /** What a turn adds to the two counts: its kept tool uses, and the length of what the user and the assistant said. */
  lemma BundleCounts(turn: Turn, bundle: seq<Message>)
    requires IsBundle(turn, bundle)
    ensures ToolCalls(bundle) == Min(|turn.tools|, 249)
    ensures WorkChars(bundle) == |bundle[0].content| + |bundle[|bundle| - 1].content|
  {
    var kept := Min(|turn.tools|, 249);
    BundleReads(turn, bundle);
    forall i | 0 <= i < kept ensures bundle[1 + 2 * i].role.ToolCall? && bundle[2 + 2 * i].role.ToolResult? {
      CallsAndResults(turn, bundle, i);
    }
    CountsInBetween(bundle, kept);
  }
}
