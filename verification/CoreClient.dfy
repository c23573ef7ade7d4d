/** What a call to Core ends with: `post` throws an error whose message comes from Core's answer, or from the
    transport when there is no answer. The worker looks only at that message. */
module CoreClient {
  import opened Basics
  import opened Json

  /** `body` is the parsed answer, `None` when it is not JSON. `Transport` covers a rejected or timed-out fetch. */
  datatype Response = Answer(ok: bool, status: nat, body: Option<Json>) | Transport(message: string)

  function NumberText(n: Number): string {
    (if n.digits < 0 then "-" + Decimal(-n.digits) else Decimal(n.digits)) +
    (if n.exponent == 0 then "" else if n.exponent < 0 then "e-" + Decimal(-n.exponent) else "e" + Decimal(n.exponent))
  }

  /** `String(value)`, up to the exact form of numbers. */
  function ToText(v: Json): string
    decreases v, 1, 0
  {
    match v
    case JNull => "null"
    case JBool(b) => if b then "true" else "false"
    case JNum(n) => NumberText(n)
    case JStr(t) => t
    case JArr(items) => JoinItems(v, items)
    case JObj(_) => "[object Object]"
  }

  /** `items.join(",")`, where null stands for nothing. */
  function JoinItems(parent: Json, items: seq<Json>): string
    requires forall k :: 0 <= k < |items| ==> items[k] < parent
    decreases parent, 0, |items|
  {
    if items == [] then "" else
      (if items[0].JNull? then "" else ToText(items[0])) + (if |items| == 1 then "" else "," + JoinItems(parent, items[1..]))
  }

  predicate Succeeds(r: Response) {
    r.Answer? && r.ok && Truthy(r.body) && Field(r.body, "code") == Some(JNum(ZERO))
  }

  /** The message of the error that `post` throws, if it throws. */
  function Thrown(r: Response): Option<string> {
    if Succeeds(r) then None
    else if r.Transport? then Some(r.message)
    else if Truthy(Field(r.body, "message")) then Some(ToText(Field(r.body, "message").value))
    else Some("Core request failed (HTTP " + Decimal(r.status) + ")")
  }

  // ----- When the message is empty -----

  /** The empty text, or a list that holds nothing but at most one null or one more such value. */
  predicate IsBlank(v: Json) {
    || v == JStr("")
    || (v.JArr? && (v.items == [] || (|v.items| == 1 && (v.items[0].JNull? || IsBlank(v.items[0])))))
  }

  lemma {:induction false} DecimalNotEmpty(n: nat)
    ensures Decimal(n) != ""
  {
    if n >= 10 {
      DecimalNotEmpty(n / 10);
    }
  }

  lemma {:induction false} BlankText(v: Json)
    ensures ToText(v) == "" <==> IsBlank(v)
  {
    match v
    case JNum(n) => DecimalNotEmpty(if n.digits < 0 then -n.digits else n.digits);
    case JArr(items) =>
      if |items| == 1 {
        BlankText(items[0]);
      }
    case _ =>
  }

  /** Core refused with a list that prints as nothing for a message, or the transport gave no message. */
  predicate GivesBlank(r: Response) {
    if r.Transport? then r.message == ""
    else !Succeeds(r) && Field(r.body, "message").Some? && Field(r.body, "message").value.JArr? && IsBlank(Field(r.body, "message").value)
  }

  /** The worker sees an empty message if and only if Core's answer is of that kind. */
  lemma ThrownBlankIff(r: Response)
    ensures Thrown(r) == Some("") <==> GivesBlank(r)
  {
    if r.Answer? && Truthy(Field(r.body, "message")) {
      BlankText(Field(r.body, "message").value);
    }
  }

  /** Never when Core answers with a message that is a text, or with none, as its interface declares. */
  lemma TextMessagesAreNotBlank(r: Response)
    requires r.Answer? && (Field(r.body, "message").Some? ==> Field(r.body, "message").value.JStr?)
    ensures Thrown(r) != Some("")
  {
    ThrownBlankIff(r);
  }


  /** Core's answer has no message, or one that counts as none. */
  predicate GivesNoMessage(body: Option<Json>) {
    body.None? || !body.value.JObj? || "message" !in body.value.fields ||
    match body.value.fields["message"]
    case JNull => true
    case JBool(b) => !b
    case JNum(n) => n == Number(0, n.exponent)
    case JStr(t) => t == ""
    case _ => false
  }

  /** A call succeeds if and only if Core answers with a good status and code zero; otherwise the message is the text
      Core gave, if it gave one, or tells the HTTP status, and it is the transport's own if there was no answer. */
  lemma ThrownSays(r: Response)
    ensures Thrown(r).None? <==> r.Answer? && r.ok && r.body.Some? && r.body.value.JObj?
                                 && "code" in r.body.value.fields && r.body.value.fields["code"] == JNum(Number(0, 0))
    ensures r.Transport? ==> Thrown(r) == Some(r.message)
    ensures r.Answer? && Thrown(r).Some? && r.body.Some? && r.body.value.JObj? && "message" in r.body.value.fields ==>
              var m := r.body.value.fields["message"]; m.JStr? && m.text != "" ==> Thrown(r) == Some(m.text)
    ensures r.Answer? && Thrown(r).Some? && GivesNoMessage(r.body) ==> Thrown(r) == Some("Core request failed (HTTP " + Decimal(r.status) + ")")
  {
  }
}
