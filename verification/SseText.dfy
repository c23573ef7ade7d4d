/** `String.prototype.split` and what makes incremental splitting work: keeping the last piece as the
    remainder and prepending it to the next chunk gives the pieces of the whole text. */
module SseText {
  import opened Basics

  predicate StartsWith(s: string, p: string) {
    |p| <= |s| && s[..|p|] == p
  }

  predicate OccursAt(s: string, d: string, i: int) {
    0 <= i <= |s| - |d| && s[i..i + |d|] == d
  }

  function IndexFrom(s: string, d: string, from: nat): (i: nat)
    requires from <= |s|
    ensures from <= i <= |s|
    ensures i < |s| ==> OccursAt(s, d, i)
    ensures forall j :: from <= j < i ==> !OccursAt(s, d, j)
    decreases |s| - from
  {
    if from == |s| || OccursAt(s, d, from) then from else IndexFrom(s, d, from + 1)
  }

  /** `s.indexOf(d)`, or `|s|` when `d` does not occur. */
  function FirstIndex(s: string, d: string): (i: nat)
    requires d != ""
    ensures i <= |s|
    ensures i < |s| ==> OccursAt(s, d, i)
    ensures forall j :: 0 <= j < i ==> !OccursAt(s, d, j)
  {
    IndexFrom(s, d, 0)
  }

  /** `s.split(d)`: at least one piece. */
  function Split(s: string, d: string): (pieces: seq<string>)
    requires d != ""
    ensures |pieces| >= 1
  {
    if FirstIndex(s, d) == |s| then [s] else [Head(s, d)] + Split(Tail(s, d), d)
  }

  /** The text before and after the first delimiter. */
  function Head(s: string, d: string): string
    requires d != ""
  {
    s[..FirstIndex(s, d)]
  }

  function Tail(s: string, d: string): (t: string)
    requires d != "" && FirstIndex(s, d) < |s|
    ensures |t| < |s|
  {
    s[FirstIndex(s, d) + |d|..]
  }

  lemma {:induction false} FirstIndexUnique(s: string, d: string, i: nat)
    requires d != "" && i <= |s| && (i < |s| ==> OccursAt(s, d, i)) && forall j :: 0 <= j < i ==> !OccursAt(s, d, j)
    ensures FirstIndex(s, d) == i
  {
  }

  lemma {:induction false} FirstIndexExtends(a: string, b: string, d: string)
    requires d != "" && FirstIndex(a, d) < |a|
    ensures FirstIndex(a + b, d) == FirstIndex(a, d)
  {
    var i := FirstIndex(a, d);
    assert (a + b)[i..i + |d|] == a[i..i + |d|];
    forall j | 0 <= j < i ensures !OccursAt(a + b, d, j) {
      assert !OccursAt(a, d, j) && (a + b)[j..j + |d|] == a[j..j + |d|];
    }
    FirstIndexUnique(a + b, d, i);
  }

  lemma {:induction false} InitOfCons<T>(x: T, s: seq<T>)
    requires s != []
    ensures Init([x] + s) == [x] + Init(s) && Last([x] + s) == Last(s)
  {
  }

  lemma {:induction false} PrefixGrows<T>(a: seq<T>, s: seq<T>, i: nat)
    requires i < |s|
    ensures (a + s[..i]) + [s[i]] == a + s[..i + 1]
  {
  }

  lemma {:induction false} SlicesOfConcat(a: string, b: string, i: nat, j: nat)
    requires i <= j <= |a|
    ensures (a + b)[..i] == a[..i] && (a + b)[j..] == a[j..] + b
  {
  }

  lemma FirstPieceExtends(a: string, b: string, d: string)
    requires d != "" && FirstIndex(a, d) < |a|
    ensures FirstIndex(a + b, d) < |a + b| && Head(a + b, d) == Head(a, d) && Tail(a + b, d) == Tail(a, d) + b
    ensures Split(a + b, d) == [Head(a, d)] + Split(Tail(a, d) + b, d)
  {
    HeadExtends(a, b, d);
  }

  lemma HeadExtends(a: string, b: string, d: string)
    requires d != "" && FirstIndex(a, d) < |a|
    ensures FirstIndex(a + b, d) < |a + b| && Head(a + b, d) == Head(a, d) && Tail(a + b, d) == Tail(a, d) + b
  {
    FirstIndexExtends(a, b, d);
    SlicesOfConcat(a, b, FirstIndex(a, d), FirstIndex(a, d) + |d|);
  }

  /** One piece more in front of both: `pieces` and `whole` are `rest` and `extended` with it. */
  lemma ChunkStep(x: string, rest: seq<string>, extended: seq<string>, tail: seq<string>, pieces: seq<string>, whole: seq<string>)
    requires rest != [] && pieces == [x] + rest && whole == [x] + extended && extended == Init(rest) + tail
    ensures whole == Init(pieces) + tail
  {
    InitOfCons(x, rest);
    AppendAssociates([x], Init(rest), tail);
  }

  lemma NoDelimiterYet(a: string, b: string, d: string)
    requires d != "" && FirstIndex(a, d) == |a|
    ensures Split(a + b, d) == Init(Split(a, d)) + Split(Last(Split(a, d)) + b, d)
  {
    var pieces := Split(a, d);
    assert Init(pieces) == [] && Last(pieces) == a;
    EmptyPrefix(Split(a + b, d));
  }

  lemma EmptyPrefix<T>(s: seq<T>)
    ensures [] + s == s
  {
  }

  /** Feeding a text in two chunks gives the same pieces as splitting it whole. */
  lemma {:induction false} SplitInChunks(a: string, b: string, d: string)
    requires d != ""
    ensures Split(a + b, d) == Init(Split(a, d)) + Split(Last(Split(a, d)) + b, d)
    decreases |a|
  {
    if FirstIndex(a, d) == |a| {
      NoDelimiterYet(a, b, d);
    } else {
      var rest := Split(Tail(a, d), d);
      FirstPieceExtends(a, b, d);
      SplitInChunks(Tail(a, d), b, d);
      InitOfCons(Head(a, d), rest);
      ChunkStep(Head(a, d), rest, Split(Tail(a, d) + b, d), Split(Last(rest) + b, d), Split(a, d), Split(a + b, d));
    }
  }

  lemma {:induction false} BeforeFirstIndex(s: string, d: string)
    requires d != ""
    ensures var head := s[..FirstIndex(s, d)]; FirstIndex(head, d) == |head|
  {
    var head := s[..FirstIndex(s, d)];
    assert forall j :: OccursAt(head, d, j) ==> head[j..j + |d|] == s[j..j + |d|];
    assert forall j :: OccursAt(head, d, j) ==> OccursAt(s, d, j);
    FirstIndexUnique(head, d, |head|);
  }

  /** No piece contains the delimiter; the last piece is the remainder. */
  lemma {:induction false} PiecesAreClean(s: string, d: string, k: nat)
    requires d != "" && k < |Split(s, d)|
    ensures FirstIndex(Split(s, d)[k], d) == |Split(s, d)[k]|
    decreases |s|
  {
    var i := FirstIndex(s, d);
    if i < |s| {
      if k > 0 {
        PiecesAreClean(s[i + |d|..], d, k - 1);
      } else {
        BeforeFirstIndex(s, d);
      }
    }
  }

  // ----- Lines -----

  const NL := "\n"
  const BLANK_LINE := "\n\n"

  function Lines(s: string): (lines: seq<string>)
    ensures |lines| >= 1
  {
    Split(s, NL)
  }

  predicate OneLine(s: string) {
    '\n' !in s
  }

  lemma {:induction false} CleanIsOneLine(s: string)
    ensures FirstIndex(s, NL) == |s| <==> OneLine(s)
  {
    assert forall i :: OccursAt(s, NL, i) ==> s[i..i + 1][0] == s[i] == '\n';
    if FirstIndex(s, NL) == |s| {
      forall i | 0 <= i < |s| ensures s[i] != '\n' {
        assert !OccursAt(s, NL, i);
        assert s[i..i + 1] == [s[i]];
      }
    }
  }

  lemma {:induction false} LinesAreLines(s: string, k: nat)
    requires k < |Lines(s)|
    ensures OneLine(Lines(s)[k])
  {
    PiecesAreClean(s, NL, k);
    CleanIsOneLine(Lines(s)[k]);
  }

  lemma {:induction false} OneLineHasOneLine(s: string)
    requires OneLine(s)
    ensures Lines(s) == [s]
  {
    CleanIsOneLine(s);
  }

  lemma {:induction false} FirstNewline(x: string, y: string)
    requires OneLine(x)
    ensures Lines(x + (NL + y)) == [x] + Lines(y)
  {
    var t := x + (NL + y);
    assert t[|x|..|x| + 1] == NL && t[..|x|] == x && t[|x| + 1..] == y;
    forall j | 0 <= j < |x| ensures !OccursAt(t, NL, j) {
      assert t[j..j + 1][0] == x[j];
    }
    FirstIndexUnique(t, NL, |x|);
  }

  lemma {:induction false} LinesOfJoin(x: string, y: string)
    ensures Lines(x + NL + y) == Lines(x) + Lines(y)
  {
    var last := Last(Lines(x));
    SplitInChunks(x, NL + y, NL);
    AppendAssociates(x, NL, y);
    LinesAreLines(x, |Lines(x)| - 1);
    FirstNewline(last, y);
    AppendAssociates(Init(Lines(x)), [last], Lines(y));
    assert Init(Lines(x)) + [last] == Lines(x);
  }

  /** `lines.join("\n")` */
  function Join(lines: seq<string>): string
    requires lines != []
  {
    if |lines| == 1 then lines[0] else lines[0] + NL + Join(lines[1..])
  }

  lemma {:induction false} LinesOfJoined(lines: seq<string>)
    requires lines != [] && forall k :: 0 <= k < |lines| ==> OneLine(lines[k])
    ensures Lines(Join(lines)) == lines
    decreases |lines|
  {
    OneLineHasOneLine(lines[0]);
    if |lines| > 1 {
      LinesOfJoin(lines[0], Join(lines[1..]));
      LinesOfJoined(lines[1..]);
    }
  }

  lemma {:induction false} JoinOfLines(s: string)
    ensures Join(Lines(s)) == s
    decreases |s|
  {
    var i := FirstIndex(s, NL);
    if i < |s| {
      var rest := Lines(s[i + 1..]);
      JoinOfLines(s[i + 1..]);
      assert ([s[..i]] + rest)[1..] == rest;
      assert s[i..i + 1] == NL;
      assert s == s[..i] + NL + s[i + 1..];
    }
  }

  // ----- Blank-line delimited parts -----

  /** The complete parts of a stream's text, and what is left over. */
  function Parts(s: string): seq<string> {
    Init(Split(s, BLANK_LINE))
  }

  function Rest(s: string): string {
    Last(Split(s, BLANK_LINE))
  }

  lemma {:induction false} PartsInChunks(a: string, b: string)
    ensures Parts(a + b) == Parts(a) + Parts(Rest(a) + b)
    ensures Rest(a + b) == Rest(Rest(a) + b)
  {
    SplitInChunks(a, b, BLANK_LINE);
  }

  function PartLines(parts: seq<string>): seq<string> {
    if parts == [] then [] else PartLines(Init(parts)) + Lines(Last(parts)) + [""]
  }

  lemma {:induction false} PartLinesSnoc(parts: seq<string>, p: string)
    ensures PartLines(parts + [p]) == PartLines(parts) + Lines(p) + [""]
  {
    assert Init(parts + [p]) == parts;
  }

  lemma {:induction false} PartLinesAppend(a: seq<string>, b: seq<string>)
    ensures PartLines(a + b) == PartLines(a) + PartLines(b)
    decreases |b|
  {
    if b == [] {
      assert a + b == a;
    } else {
      var c, p := Init(b), Last(b);
      PartLinesAppend(a, c);
      assert b == c + [p];
      AppendAssociates(a, c, [p]);
      PartLinesSnoc(a + c, p);
      AppendAssociates(PartLines(a) + PartLines(c), Lines(p), [""]);
      AppendAssociates(PartLines(a), PartLines(c), Lines(p) + [""]);
      AppendAssociates(PartLines(c), Lines(p), [""]);
    }
  }

  lemma {:induction false} CutAt(s: string, d: string, i: nat)
    requires OccursAt(s, d, i)
    ensures s == s[..i] + d + s[i + |d|..]
  {
  }

  lemma {:induction false} FirstPartOf(s: string)
    requires FirstIndex(s, BLANK_LINE) < |s|
    ensures var i := FirstIndex(s, BLANK_LINE);
            && Parts(s) == [s[..i]] + Parts(s[i + 2..]) && Rest(s) == Rest(s[i + 2..])
            && s == s[..i] + NL + (NL + s[i + 2..])
  {
    var i := FirstIndex(s, BLANK_LINE);
    InitOfCons(s[..i], Split(s[i + 2..], BLANK_LINE));
    CutAt(s, BLANK_LINE, i);
    assert BLANK_LINE == NL + NL;
    AppendAssociates(s[..i], NL, NL);
    AppendAssociates(s[..i] + NL, NL, s[i + 2..]);
  }

  lemma {:induction false} PartThenLines(p: string, q: string)
    ensures Lines(p + NL + (NL + q)) == Lines(p) + [""] + Lines(q)
  {
    LinesOfJoin(p, NL + q);
    FirstNewline("", q);
    assert "" + (NL + q) == NL + q;
    AppendAssociates(Lines(p), [""], Lines(q));
  }

  lemma {:induction false} FirstPartLines(p: string, parts: seq<string>, rest: seq<string>)
    ensures PartLines([p] + parts) + rest == Lines(p) + [""] + (PartLines(parts) + rest)
  {
    PartLinesAppend([p], parts);
    PartLinesSnoc([], p);
    assert [] + [p] == [p];
    AppendAssociates(PartLines([p]), PartLines(parts), rest);
  }

  /** The lines of the text are those of its parts, with an empty line after each, and those of the rest. */
  lemma {:induction false} LinesByPart(s: string)
    ensures Lines(s) == PartLines(Parts(s)) + Lines(Rest(s))
    decreases |s|
  {
    var i := FirstIndex(s, BLANK_LINE);
    if i == |s| {
      assert Parts(s) == [];
    } else {
      var p, q := s[..i], s[i + 2..];
      FirstPartOf(s);
      LinesByPart(q);
      PartThenLines(p, q);
      FirstPartLines(p, Parts(q), Lines(Rest(q)));
    }
  }

  // ----- Blank texts -----

  predicate Blank(s: string) {
    forall i :: 0 <= i < |s| ==> IsSpace(s[i])
  }

  lemma {:induction false} TrimStartBlank(s: string)
    ensures TrimStart(s) == "" <==> Blank(s)
    ensures !Blank(s) ==> !IsSpace(TrimStart(s)[0])
    decreases |s|
  {
    if s != "" && IsSpace(s[0]) {
      TrimStartBlank(s[1..]);
      assert forall i :: 0 < i < |s| ==> s[i] == s[1..][i - 1];
    }
  }

  lemma {:induction false} TrimEndKeepsFirst(s: string)
    requires s != "" && !IsSpace(s[0])
    ensures TrimEnd(s) != ""
    decreases |s|
  {
    if IsSpace(s[|s| - 1]) {
      TrimEndKeepsFirst(s[..|s| - 1]);
    }
  }

  lemma {:induction false} TrimBlank(s: string)
    ensures Trim(s) == "" <==> Blank(s)
  {
    TrimStartBlank(s);
    if !Blank(s) {
      TrimEndKeepsFirst(TrimStart(s));
    }
  }

  lemma {:induction false} TrimStartDrops(s: string)
    ensures var t := TrimStart(s); |t| <= |s| && s[|s| - |t|..] == t && Blank(s[..|s| - |t|]) && (t != "" ==> !IsSpace(t[0]))
    decreases |s|
  {
    if s != "" && IsSpace(s[0]) {
      TrimStartDrops(s[1..]);
      var n := |s| - |TrimStart(s)|;
      assert s[1..][..n - 1] == s[1..n];
      assert forall i :: 1 <= i < n ==> s[..n][i] == s[1..n][i - 1];
    }
  }

  lemma {:induction false} TrimEndDrops(s: string)
    ensures var t := TrimEnd(s); t <= s && Blank(s[|t|..]) && (t != "" ==> !IsSpace(t[|t| - 1]))
    decreases |s|
  {
    if s != "" && IsSpace(s[|s| - 1]) {
      TrimEndDrops(s[..|s| - 1]);
      var n := |TrimEnd(s)|;
      assert forall i :: n <= i < |s| - 1 ==> s[..|s| - 1][n..][i - n] == s[i];
    }
  }

  lemma {:induction false} InThree(s: string, t: string, u: string, before: string, after: string)
    requires |t| <= |s| && s[|s| - |t|..] == t && before == s[..|s| - |t|] && u <= t && after == t[|u|..]
    ensures s == before + u + after && (u != "" ==> u[0] == t[0])
  {
    assert t == u + after && s == before + t;
  }

  /** Trimming takes the white space off both ends, all of it, and nothing else. */
  lemma {:induction false} TrimIs(s: string) returns (before: string, after: string)
    ensures s == before + Trim(s) + after && Blank(before) && Blank(after)
    ensures Trim(s) != "" ==> !IsSpace(Trim(s)[0]) && !IsSpace(Trim(s)[|Trim(s)| - 1])
  {
    var t := TrimStart(s);
    TrimStartDrops(s);
    TrimEndDrops(t);
    before, after := s[..|s| - |t|], t[|Trim(s)|..];
    InThree(s, t, Trim(s), before, after);
  }

  lemma {:induction false} LinesOfBlank(s: string, k: nat)
    requires Blank(s) && k < |Lines(s)|
    ensures Blank(Lines(s)[k])
    decreases |s|
  {
    var i := FirstIndex(s, NL);
    if i < |s| && k > 0 {
      LinesOfBlank(s[i + 1..], k - 1);
    }
  }
}
