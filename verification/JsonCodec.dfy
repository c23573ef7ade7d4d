/** One concrete way of printing JSON values, to show that the demands made of a codec can be met: every value
    has its own text, the texts are free of line breaks, and so printing has an inverse. Not the JSON format. */
module JsonCodec {
  import opened Basics
  import opened Json
  import opened SseText

  /** Numbers in strokes; a text as the codes of its characters, so that no line break occurs. */
  function Strokes(n: nat): string {
    if n == 0 then ";" else "|" + Strokes(n - 1)
  }

  function Code(s: string): string {
    if s == "" then ";" else "," + Strokes(s[0] as int) + Code(s[1..])
  }

  function Sign(n: int): string {
    if n < 0 then "-" + Strokes(-n) else "+" + Strokes(n)
  }

  ghost function Print(v: Json): string
    decreases v, 1, 0
  {
    match v
    case JNull => "n"
    case JBool(b) => if b then "t" else "f"
    case JNum(n) => "#" + (Sign(n.digits) + Sign(n.exponent))
    case JStr(s) => "s" + Code(s)
    case JArr(items) => "a" + PrintItems(v, items)
    case JObj(fields) => "o" + PrintFields(v, fields)
  }

  ghost function PrintItems(parent: Json, items: seq<Json>): string
    requires forall k :: 0 <= k < |items| ==> items[k] < parent
    decreases parent, 0, |items|
  {
    if items == [] then ";" else "," + (Print(items[0]) + PrintItems(parent, items[1..]))
  }

  ghost function PrintFields(parent: Json, fields: map<string, Json>): string
    requires forall k :: k in fields ==> fields[k] < parent
    decreases parent, 0, |fields|
  {
    if fields == map[] then ";" else
      var k :| k in fields;
      "," + (Code(k) + (Print(fields[k]) + PrintFields(parent, fields - {k})))
  }

  // ----- Whatever follows, a text can be read off the front in one way only -----

  lemma DropFirst(a: string, r: string, b: string, s: string)
    requires a != "" && b != "" && a + r == b + s
    ensures a[0] == b[0] && a[1..] + r == b[1..] + s
  {
    assert (a + r)[0] == a[0] && (b + s)[0] == b[0];
    assert (a + r)[1..] == a[1..] + r && (b + s)[1..] == b[1..] + s;
  }

  lemma {:induction false} StrokesRead(m: nat, r: string, n: nat, s: string)
    requires Strokes(m) + r == Strokes(n) + s
    ensures m == n && r == s
  {
    DropFirst(Strokes(m), r, Strokes(n), s);
    if m > 0 && n > 0 {
      assert Strokes(m)[1..] == Strokes(m - 1) && Strokes(n)[1..] == Strokes(n - 1);
      StrokesRead(m - 1, r, n - 1, s);
    } else {
      assert "" + r == r && "" + s == s;
    }
  }

  lemma SignRead(m: int, r: string, n: int, s: string)
    requires Sign(m) + r == Sign(n) + s
    ensures m == n && r == s
  {
    DropFirst(Sign(m), r, Sign(n), s);
    StrokesRead(if m < 0 then -m else m, r, if n < 0 then -n else n, s);
  }

  lemma {:induction false} CodeRead(a: string, r: string, b: string, s: string)
    requires Code(a) + r == Code(b) + s
    ensures a == b && r == s
    decreases |a|
  {
    DropFirst(Code(a), r, Code(b), s);
    if a != "" && b != "" {
      var tail, tail' := Code(a[1..]), Code(b[1..]);
      AppendAssociates(Strokes(a[0] as int), tail, r);
      AppendAssociates(Strokes(b[0] as int), tail', s);
      assert Code(a)[1..] == Strokes(a[0] as int) + tail && Code(b)[1..] == Strokes(b[0] as int) + tail';
      StrokesRead(a[0] as int, tail + r, b[0] as int, tail' + s);
      CodeRead(a[1..], r, b[1..], s);
      assert a == [a[0]] + a[1..] && b == [b[0]] + b[1..];
    } else {
      assert "" + r == r && "" + s == s;
    }
  }

  lemma {:induction false} PrintRead(v: Json, r: string, w: Json, s: string)
    requires Print(v) + r == Print(w) + s
    ensures v == w && r == s
    decreases v, 1, 0
  {
    DropFirst(Print(v), r, Print(w), s);
    match v
    case JNum(n) =>
      var m := w.number;
      assert Print(v)[1..] == Sign(n.digits) + Sign(n.exponent) && Print(w)[1..] == Sign(m.digits) + Sign(m.exponent);
      AppendAssociates(Sign(n.digits), Sign(n.exponent), r);
      AppendAssociates(Sign(m.digits), Sign(m.exponent), s);
      SignRead(n.digits, Sign(n.exponent) + r, m.digits, Sign(m.exponent) + s);
      SignRead(n.exponent, r, m.exponent, s);
    case JStr(t) =>
      assert Print(v)[1..] == Code(t) && Print(w)[1..] == Code(w.text);
      CodeRead(t, r, w.text, s);
    case JArr(items) =>
      assert Print(v)[1..] == PrintItems(v, items) && Print(w)[1..] == PrintItems(w, w.items);
      ItemsRead(v, items, r, w, w.items, s);
    case JObj(fields) =>
      assert Print(v)[1..] == PrintFields(v, fields) && Print(w)[1..] == PrintFields(w, w.fields);
      FieldsRead(v, fields, r, w, w.fields, s);
    case _ =>
      assert Print(v)[1..] == "" && Print(w)[1..] == "" && "" + r == r && "" + s == s;
  }

  lemma {:induction false} ItemsRead(v: Json, a: seq<Json>, r: string, w: Json, b: seq<Json>, s: string)
    requires (forall k :: 0 <= k < |a| ==> a[k] < v) && (forall k :: 0 <= k < |b| ==> b[k] < w)
    requires PrintItems(v, a) + r == PrintItems(w, b) + s
    ensures a == b && r == s
    decreases v, 0, |a|
  {
    DropFirst(PrintItems(v, a), r, PrintItems(w, b), s);
    if a != [] && b != [] {
      var tail, tail' := PrintItems(v, a[1..]), PrintItems(w, b[1..]);
      assert PrintItems(v, a)[1..] == Print(a[0]) + tail && PrintItems(w, b)[1..] == Print(b[0]) + tail';
      AppendAssociates(Print(a[0]), tail, r);
      AppendAssociates(Print(b[0]), tail', s);
      PrintRead(a[0], tail + r, b[0], tail' + s);
      ItemsRead(v, a[1..], r, w, b[1..], s);
      assert a == [a[0]] + a[1..] && b == [b[0]] + b[1..];
    } else {
      assert "" + r == r && "" + s == s;
    }
  }

  /** The field that is printed first, and the rest. */
  lemma FirstField(v: Json, fields: map<string, Json>) returns (k: string, tail: string)
    requires (forall k :: k in fields ==> fields[k] < v) && fields != map[]
    ensures k in fields && tail == PrintFields(v, fields - {k})
    ensures PrintFields(v, fields) == "," + (Code(k) + (Print(fields[k]) + tail))
  {
    k :| k in fields && PrintFields(v, fields) == "," + (Code(k) + (Print(fields[k]) + PrintFields(v, fields - {k})));
    tail := PrintFields(v, fields - {k});
  }

  lemma {:induction false} FieldsRead(v: Json, a: map<string, Json>, r: string, w: Json, b: map<string, Json>, s: string)
    requires (forall k :: k in a ==> a[k] < v) && (forall k :: k in b ==> b[k] < w)
    requires PrintFields(v, a) + r == PrintFields(w, b) + s
    ensures a == b && r == s
    decreases v, 0, |a|
  {
    DropFirst(PrintFields(v, a), r, PrintFields(w, b), s);
    if a != map[] && b != map[] {
      var k, tail := FirstField(v, a);
      var k', tail' := FirstField(w, b);
      AfterComma(PrintFields(v, a), Code(k) + (Print(a[k]) + tail));
      AfterComma(PrintFields(w, b), Code(k') + (Print(b[k']) + tail'));
      FieldRead(k, Print(a[k]), tail, r, k', Print(b[k']), tail', s);
      PrintRead(a[k], tail + r, b[k'], tail' + s);
      FieldsRead(v, a - {k}, r, w, b - {k'}, s);
      SameFields(a, b, k);
    } else {
      NothingInFront(r, s);
    }
  }

  lemma AfterComma(whole: string, rest: string)
    requires whole == "," + rest
    ensures whole[1..] == rest
  {
  }

  lemma NothingInFront(r: string, s: string)
    ensures "" + r == r && "" + s == s
  {
  }

  lemma SameFields(a: map<string, Json>, b: map<string, Json>, k: string)
    requires k in a && k in b && a[k] == b[k] && a - {k} == b - {k}
    ensures a == b
  {
    assert a == (a - {k})[k := a[k]] && b == (b - {k})[k := b[k]];
  }

  lemma FieldRead(k: string, value: string, tail: string, r: string, k': string, value': string, tail': string, s: string)
    requires (Code(k) + (value + tail)) + r == (Code(k') + (value' + tail')) + s
    ensures k == k' && value + (tail + r) == value' + (tail' + s)
  {
    AppendAssociates(Code(k), value + tail, r);
    AppendAssociates(Code(k'), value' + tail', s);
    CodeRead(k, (value + tail) + r, k', (value' + tail') + s);
    AppendAssociates(value, tail, r);
    AppendAssociates(value', tail', s);
  }

  /** No two values are printed alike. */
  lemma PrintIsInjective(v: Json, w: Json)
    requires Print(v) == Print(w)
    ensures v == w
  {
    assert Print(v) + "" == Print(v) && Print(w) + "" == Print(w);
    PrintRead(v, "", w, "");
  }

  // ----- No line breaks -----

  lemma {:induction false} StrokesOneLine(n: nat)
    ensures OneLine(Strokes(n))
  {
    if n > 0 {
      StrokesOneLine(n - 1);
    }
  }

  lemma {:induction false} CodeOneLine(s: string)
    ensures OneLine(Code(s))
  {
    if s != "" {
      StrokesOneLine(s[0] as int);
      CodeOneLine(s[1..]);
    }
  }

  lemma SignOneLine(n: int)
    ensures OneLine(Sign(n))
  {
    StrokesOneLine(if n < 0 then -n else n);
  }

  lemma OneLineConcat(a: string, b: string)
    requires OneLine(a) && OneLine(b)
    ensures OneLine(a + b)
  {
  }

  lemma {:induction false} PrintOneLine(v: Json)
    ensures OneLine(Print(v))
    decreases v, 1, 0
  {
    match v
    case JNum(n) =>
      SignOneLine(n.digits);
      SignOneLine(n.exponent);
      OneLineConcat(Sign(n.digits), Sign(n.exponent));
      OneLineConcat("#", Sign(n.digits) + Sign(n.exponent));
    case JStr(t) =>
      CodeOneLine(t);
      OneLineConcat("s", Code(t));
    case JArr(items) =>
      ItemsOneLine(v, items);
      OneLineConcat("a", PrintItems(v, items));
    case JObj(fields) =>
      FieldsOneLine(v, fields);
      OneLineConcat("o", PrintFields(v, fields));
    case _ =>
  }

  lemma {:induction false} ItemsOneLine(v: Json, items: seq<Json>)
    requires forall k :: 0 <= k < |items| ==> items[k] < v
    ensures OneLine(PrintItems(v, items))
    decreases v, 0, |items|
  {
    if items != [] {
      PrintOneLine(items[0]);
      ItemsOneLine(v, items[1..]);
    }
  }

  lemma {:induction false} FieldsOneLine(v: Json, fields: map<string, Json>)
    requires forall k :: k in fields ==> fields[k] < v
    ensures OneLine(PrintFields(v, fields))
    decreases v, 0, |fields|
  {
    if fields != map[] {
      var k, tail := FirstField(v, fields);
      CodeOneLine(k);
      PrintOneLine(fields[k]);
      FieldsOneLine(v, fields - {k});
    }
  }

  /** The inverse of printing: the value with that text, if there is one. */
  ghost function Read(s: string): (v: Option<Json>)
    ensures v.Some? ==> Print(v.value) == s
  {
    if exists v :: Print(v) == s then
      var v :| Print(v) == s;
      Some(v)
    else None
  }

  lemma ReadPrinted(v: Json)
    ensures Read(Print(v)) == Some(v)
  {
    PrintIsInjective(Read(Print(v)).value, v);
  }

  lemma {:induction false} FieldsEnd(v: Json, fields: map<string, Json>)
    requires forall k :: k in fields ==> fields[k] < v
    ensures var s := PrintFields(v, fields); s != "" && s[|s| - 1] == ';'
    decreases |fields|
  {
    if fields != map[] {
      var k, tail := FirstField(v, fields);
      FieldsEnd(v, fields - {k});
    }
  }

  /** The text of an object starts and ends with something other than white space. */
  lemma ObjectText(v: Json)
    requires v.JObj?
    ensures var s := Print(v); |s| >= 2 && s[0] == 'o' && s[|s| - 1] == ';'
  {
    FieldsEnd(v, v.fields);
  }
}
