/** The three token accountings of the proxy: the credit buckets, the ClickHouse row and the Langfuse usage
    details, each computed from the same usage object. Numbers are reals. */
module TokenAccounting {

  /** A usage field: missing or of another type, a number, or a string that `Number` reads as a number. */
  datatype Field = Absent | Num(value: real) | Text(value: real)

  datatype Usage = Usage(
    promptTokens: Field, completionTokens: Field, inputTokens: Field, outputTokens: Field, totalTokens: Field,
    cacheReadInputTokens: Field, cacheCreationInputTokens: Field,   // Anthropic
    ephemeral5m: Field,                                             // cache_creation.ephemeral_5m_input_tokens
    cachedTokens: Field, cacheReadTokens: Field,                    // prompt_tokens_details.cached_tokens, cache_read_tokens
    promptCacheHit: Field, promptCacheWrite: Field)                 // DeepSeek

  datatype Protocol = Anthropic | OpenAI

  /** `num` of the ClickHouse and Langfuse writers: strings count as 0. */
  function NumOf(f: Field): real {
    if f.Num? then f.value else 0.0
  }

  /** `numField` of the credit reporter: numeric strings count. */
  function NumField(f: Field): real {
    if f.Absent? then 0.0 else f.value
  }

  /** `a || b` */
  function Or(a: real, b: real): real {
    if a != 0.0 then a else b
  }

  function MaxR(a: real, b: real): real {
    if a >= b then a else b
  }

  // ----- The three mappings -----

  datatype Buckets = Buckets(nonCacheInput: real, cacheRead: real, cacheWrite5m: real, cacheWrite1h: real, output: real)
  {
    function Input(): real {
      nonCacheInput + cacheRead + cacheWrite5m + cacheWrite1h
    }
  }

  function CreditBuckets(u: Usage, p: Protocol): Buckets {
    var output := Or(NumField(u.completionTokens), NumField(u.outputTokens));
    if p.Anthropic? then
      var ephemeral := NumField(u.ephemeral5m);
      Buckets(NumField(u.inputTokens), NumField(u.cacheReadInputTokens), ephemeral,
              MaxR(0.0, NumField(u.cacheCreationInputTokens) - ephemeral), output)
    else
      var cacheRead := Or(NumField(u.cacheReadTokens), NumField(u.cachedTokens));
      Buckets(MaxR(0.0, NumField(u.promptTokens) - cacheRead), cacheRead, 0.0, 0.0, output)
  }

  datatype Pricing = Pricing(input: real, output: real, cacheRead: real, cacheWrite5m: real, cacheWrite1h: real)

  /** The credit of one call to a priced model of a TokenHub upstream. */
  function Credit(b: Buckets, price: Pricing): real {
    b.nonCacheInput / 1000.0 * price.input + b.output / 1000.0 * price.output + b.cacheRead / 1000.0 * price.cacheRead
    + b.cacheWrite5m / 1000.0 * price.cacheWrite5m + b.cacheWrite1h / 1000.0 * price.cacheWrite1h
  }

  datatype Row = Row(promptTokens: real, completionTokens: real, totalTokens: real, cacheHit: real, cacheWrite: real,
                     inputTokens: real, ephemeral5m: real)

  function ClickHouseRow(u: Usage): Row {
    var cacheHit := Or(Or(NumOf(u.promptCacheHit), NumOf(u.cacheReadInputTokens)), NumOf(u.cachedTokens));
    var cacheWrite := Or(NumOf(u.promptCacheWrite), NumOf(u.cacheCreationInputTokens));
    var prompt := Or(NumOf(u.promptTokens), NumOf(u.inputTokens) + cacheHit + cacheWrite);
    var completion := Or(NumOf(u.completionTokens), NumOf(u.outputTokens));
    Row(prompt, completion, Or(NumOf(u.totalTokens), prompt + completion), cacheHit, cacheWrite,
        NumOf(u.inputTokens), NumOf(u.ephemeral5m))
  }

  /** A cache part is reported only when it is positive. */
  datatype Details = Details(input: real, output: real, total: real, cacheRead: real, cacheWrite: real)
  {
    function InputParts(): real {
      input + cacheRead + cacheWrite
    }

    function Parts(): real {
      InputParts() + output
    }
  }

  function LangfuseDetails(u: Usage): Details {
    var cacheRead := Or(Or(NumOf(u.promptCacheHit), NumOf(u.cacheReadInputTokens)), NumOf(u.cachedTokens));
    var cacheWrite := Or(NumOf(u.promptCacheWrite), NumOf(u.cacheCreationInputTokens));
    var prompt := Or(NumOf(u.promptTokens), NumOf(u.inputTokens) + cacheRead + cacheWrite);
    var output := Or(NumOf(u.completionTokens), NumOf(u.outputTokens));
    Details(MaxR(prompt - cacheRead - cacheWrite, 0.0), output, Or(NumOf(u.totalTokens), prompt + output),
            MaxR(cacheRead, 0.0), MaxR(cacheWrite, 0.0))
  }

  // ----- Which usage objects are well formed -----

  predicate Count(f: Field) {
    f.Absent? || (f.Num? && f.value >= 0.0)
  }

  predicate Counts(u: Usage) {
    && Count(u.promptTokens) && Count(u.completionTokens) && Count(u.inputTokens) && Count(u.outputTokens) && Count(u.totalTokens)
    && Count(u.cacheReadInputTokens) && Count(u.cacheCreationInputTokens) && Count(u.ephemeral5m)
    && Count(u.cachedTokens) && Count(u.cacheReadTokens) && Count(u.promptCacheHit) && Count(u.promptCacheWrite)
  }

  /** Only the fields Anthropic sends. */
  predicate AnthropicShaped(u: Usage) {
    u.promptTokens.Absent? && u.completionTokens.Absent? && u.totalTokens.Absent? && u.cachedTokens.Absent?
    && u.cacheReadTokens.Absent? && u.promptCacheHit.Absent? && u.promptCacheWrite.Absent?
  }

  /** Only the fields OpenAI and DeepSeek send. */
  predicate OpenAIShaped(u: Usage) {
    u.inputTokens.Absent? && u.outputTokens.Absent? && u.cacheReadInputTokens.Absent?
    && u.cacheCreationInputTokens.Absent? && u.ephemeral5m.Absent?
  }

  // ----- Agreement -----

  /** Langfuse's input parts sum to ClickHouse's `prompt_tokens` if and only if the cached tokens do not
      exceed the reported prompt; when no prompt is reported they always do. */
  lemma LangfuseAgreesWithClickHouse(u: Usage)
    requires Counts(u)
    ensures LangfuseDetails(u).InputParts() == ClickHouseRow(u).promptTokens <==>
              NumOf(u.promptTokens) == 0.0 || ClickHouseRow(u).cacheHit + ClickHouseRow(u).cacheWrite <= NumOf(u.promptTokens)
    ensures LangfuseDetails(u).total == ClickHouseRow(u).totalTokens && LangfuseDetails(u).output == ClickHouseRow(u).completionTokens
  {
  }

  /** Langfuse's parts sum to its `total`, given that cached tokens fit the prompt, if and only if the upstream
      total is missing or is itself prompt plus completion. */
  lemma LangfusePartsSumToTotal(u: Usage)
    requires Counts(u)
    requires NumOf(u.promptTokens) == 0.0 || ClickHouseRow(u).cacheHit + ClickHouseRow(u).cacheWrite <= NumOf(u.promptTokens)
    ensures LangfuseDetails(u).Parts() == LangfuseDetails(u).total <==>
              NumOf(u.totalTokens) == 0.0 || NumOf(u.totalTokens) == ClickHouseRow(u).promptTokens + ClickHouseRow(u).completionTokens
  {
  }

  lemma AnthropicRow(u: Usage)
    requires Counts(u) && AnthropicShaped(u)
    ensures ClickHouseRow(u).promptTokens == NumOf(u.inputTokens) + NumOf(u.cacheReadInputTokens) + NumOf(u.cacheCreationInputTokens)
    ensures ClickHouseRow(u).completionTokens == NumOf(u.outputTokens)
    ensures ClickHouseRow(u).cacheHit == NumOf(u.cacheReadInputTokens) && ClickHouseRow(u).cacheWrite == NumOf(u.cacheCreationInputTokens)
    ensures ClickHouseRow(u).inputTokens == NumOf(u.inputTokens) && ClickHouseRow(u).ephemeral5m == NumOf(u.ephemeral5m)
  {
  }

  lemma AnthropicCredit(u: Usage)
    requires Counts(u) && AnthropicShaped(u)
    ensures CreditBuckets(u, Anthropic).Input() ==
              NumOf(u.inputTokens) + NumOf(u.cacheReadInputTokens) + MaxR(NumOf(u.ephemeral5m), NumOf(u.cacheCreationInputTokens))
    ensures CreditBuckets(u, Anthropic).output == NumOf(u.outputTokens)
  {
  }

  lemma InputsAgree(b: Buckets, row: Row, rest: real, fiveMinute: real, creation: real)
    requires b.Input() == rest + MaxR(fiveMinute, creation) && row.promptTokens == rest + creation
    ensures b.Input() == row.promptTokens <==> fiveMinute <= creation
  {
  }

  lemma AnthropicInput(u: Usage)
    requires Counts(u) && AnthropicShaped(u)
    ensures CreditBuckets(u, Anthropic).Input() == ClickHouseRow(u).promptTokens <==>
              NumOf(u.ephemeral5m) <= NumOf(u.cacheCreationInputTokens)
    ensures CreditBuckets(u, Anthropic).output == ClickHouseRow(u).completionTokens
  {
    AnthropicRow(u);
    AnthropicCredit(u);
    InputsAgree(CreditBuckets(u, Anthropic), ClickHouseRow(u), NumOf(u.inputTokens) + NumOf(u.cacheReadInputTokens),
                NumOf(u.ephemeral5m), NumOf(u.cacheCreationInputTokens));
  }

  lemma AnthropicDetails(u: Usage)
    requires Counts(u) && AnthropicShaped(u)
    ensures var details := LangfuseDetails(u);
            && details.input == NumOf(u.inputTokens) && details.output == NumOf(u.outputTokens)
            && details.cacheRead == NumOf(u.cacheReadInputTokens) && details.cacheWrite == NumOf(u.cacheCreationInputTokens)
            && details.total == details.input + details.cacheRead + details.cacheWrite + details.output
  {
  }

  lemma PartsAreTheTotal(details: Details, row: Row)
    requires details.total == details.input + details.cacheRead + details.cacheWrite + details.output
    requires row.promptTokens == details.input + details.cacheRead + details.cacheWrite
    ensures details.InputParts() == row.promptTokens && details.Parts() == details.total
  {
  }

  lemma AnthropicLangfuse(u: Usage)
    requires Counts(u) && AnthropicShaped(u)
    ensures LangfuseDetails(u).InputParts() == ClickHouseRow(u).promptTokens && LangfuseDetails(u).Parts() == LangfuseDetails(u).total
  {
    AnthropicDetails(u);
    AnthropicRow(u);
    PartsAreTheTotal(LangfuseDetails(u), ClickHouseRow(u));
  }

  lemma BucketsFromRow(u: Usage)
    requires Counts(u) && AnthropicShaped(u) && NumOf(u.ephemeral5m) <= NumOf(u.cacheCreationInputTokens)
    ensures var row := ClickHouseRow(u);
            CreditBuckets(u, Anthropic)
            == Buckets(row.inputTokens, row.cacheHit, row.ephemeral5m, row.cacheWrite - row.ephemeral5m, row.completionTokens)
  {
  }

  /** For Anthropic usage all three accountings of the input are the same number if and only if the five-minute
      cache writes are part of the cache creation total. Langfuse and ClickHouse agree in any case. Where all agree,
      the columns of the row determine the buckets, and with them the credit at any prices. */
  lemma AnthropicAccountsAgree(u: Usage)
    requires Counts(u) && AnthropicShaped(u)
    ensures CreditBuckets(u, Anthropic).Input() == ClickHouseRow(u).promptTokens <==>
              NumOf(u.ephemeral5m) <= NumOf(u.cacheCreationInputTokens)
    ensures LangfuseDetails(u).InputParts() == ClickHouseRow(u).promptTokens
    ensures LangfuseDetails(u).Parts() == LangfuseDetails(u).total
    ensures CreditBuckets(u, Anthropic).output == ClickHouseRow(u).completionTokens
    ensures var row := ClickHouseRow(u);
            NumOf(u.ephemeral5m) <= NumOf(u.cacheCreationInputTokens) ==>
              CreditBuckets(u, Anthropic)
              == Buckets(row.inputTokens, row.cacheHit, row.ephemeral5m, row.cacheWrite - row.ephemeral5m, row.completionTokens)
  {
    AnthropicInput(u);
    AnthropicLangfuse(u);
    if NumOf(u.ephemeral5m) <= NumOf(u.cacheCreationInputTokens) {
      BucketsFromRow(u);
    }
  }

  /** For OpenAI and DeepSeek usage the credit buckets sum to ClickHouse's `prompt_tokens` if and only if the counters
      fit: with a prompt reported, the cached tokens the credit reporter reads do not exceed it; without one, the
      tokens it reads are the hits, or failing these the cached tokens, together with the cache writes. */
  lemma OpenAIAccountsAgree(u: Usage)
    requires Counts(u) && OpenAIShaped(u)
    ensures var prompt, read, cached, hit, write :=
              NumOf(u.promptTokens), NumOf(u.cacheReadTokens), NumOf(u.cachedTokens), NumOf(u.promptCacheHit), NumOf(u.promptCacheWrite);
            CreditBuckets(u, OpenAI).Input() == ClickHouseRow(u).promptTokens <==>
              (if prompt > 0.0 then (if read > 0.0 then read <= prompt else cached <= prompt)
               else if read == 0.0 && hit == 0.0 then write == 0.0
               else if read == 0.0 then cached == hit + write
               else if hit == 0.0 then read == cached + write
               else read == hit + write)
    ensures CreditBuckets(u, OpenAI).output == ClickHouseRow(u).completionTokens
  {
  }

  /** Plain OpenAI usage, with a prompt that covers its cached tokens: all three agree, and so do the cached
      tokens themselves. DeepSeek's hit counter breaks only the latter. */
  lemma PlainOpenAIAgrees(u: Usage)
    requires Counts(u) && OpenAIShaped(u) && u.cacheReadTokens.Absent? && u.promptCacheWrite.Absent?
    requires NumOf(u.promptTokens) > 0.0 && NumOf(u.promptCacheHit) <= NumOf(u.promptTokens) && NumOf(u.cachedTokens) <= NumOf(u.promptTokens)
    ensures var credit, row, details := CreditBuckets(u, OpenAI), ClickHouseRow(u), LangfuseDetails(u);
            && credit.Input() == row.promptTokens == details.InputParts() == NumOf(u.promptTokens)
            && (credit.cacheRead == row.cacheHit <==> NumOf(u.promptCacheHit) == 0.0 || NumOf(u.promptCacheHit) == NumOf(u.cachedTokens))
  {
  }

  /** A numeric string is invisible to ClickHouse and Langfuse but is paid for. */
  lemma NumericStringsDiffer(n: real)
    ensures var u := Usage(Absent, Absent, Text(n), Absent, Absent, Absent, Absent, Absent, Absent, Absent, Absent, Absent);
            CreditBuckets(u, Anthropic).Input() == n && ClickHouseRow(u).promptTokens == 0.0 && LangfuseDetails(u).InputParts() == 0.0
  {
  }

  function AtOnePrice(price: real): Pricing {
    Pricing(price, price, price, price, price)
  }

  /** Credit at one price for every kind of token is that price for ClickHouse's prompt and completion tokens. */
  predicate PaysAt(b: Buckets, row: Row, price: real) {
    Credit(b, AtOnePrice(price)) == (row.promptTokens + row.completionTokens) / 1000.0 * price
  }

  ghost predicate PaysAtEveryPrice(b: Buckets, row: Row) {
    forall price :: price > 0.0 ==> PaysAt(b, row, price)
  }

  ghost predicate PaysAtSomePrice(b: Buckets, row: Row) {
    exists price :: price > 0.0 && PaysAt(b, row, price)
  }

  lemma CreditAtOnePrice(b: Buckets, price: real)
    ensures Credit(b, AtOnePrice(price)) == (b.Input() + b.output) / 1000.0 * price
  {
  }

  lemma PricesAreMonotone(a: real, b: real, price: real)
    requires price > 0.0
    ensures a / 1000.0 * price == b / 1000.0 * price <==> a == b
  {
    if a / 1000.0 * price == b / 1000.0 * price {
      assert (a - b) / 1000.0 * price == 0.0;
    }
  }

  lemma PaysAtIff(b: Buckets, row: Row, price: real)
    requires price > 0.0 && b.output == row.completionTokens
    ensures PaysAt(b, row, price) <==> b.Input() == row.promptTokens
  {
    CreditAtOnePrice(b, price);
    PricesAreMonotone(b.Input() + b.output, row.promptTokens + row.completionTokens, price);
  }

  lemma CreditPaysForTheRow(b: Buckets, row: Row)
    requires b.output == row.completionTokens
    ensures PaysAtEveryPrice(b, row) <==> b.Input() == row.promptTokens
    ensures PaysAtSomePrice(b, row) <==> b.Input() == row.promptTokens
  {
    PaysAtIff(b, row, 1.0);
    forall price | price > 0.0 ensures PaysAt(b, row, price) <==> b.Input() == row.promptTokens {
      PaysAtIff(b, row, price);
    }
  }

  /** No Anthropic token is charged twice and none is free: credit at any one price pays for the tokens of the row if
      and only if the five-minute cache writes are part of the cache creation total; otherwise it does at no price. */
  lemma AnthropicCreditPaysForTheRow(u: Usage)
    requires Counts(u) && AnthropicShaped(u)
    ensures PaysAtEveryPrice(CreditBuckets(u, Anthropic), ClickHouseRow(u)) <==> NumOf(u.ephemeral5m) <= NumOf(u.cacheCreationInputTokens)
    ensures PaysAtSomePrice(CreditBuckets(u, Anthropic), ClickHouseRow(u)) <==> NumOf(u.ephemeral5m) <= NumOf(u.cacheCreationInputTokens)
  {
    AnthropicInput(u);
    CreditPaysForTheRow(CreditBuckets(u, Anthropic), ClickHouseRow(u));
  }

  /** The same for OpenAI and DeepSeek usage with a prompt: if and only if the cached tokens fit it. */
  lemma OpenAICreditPaysForTheRow(u: Usage)
    requires Counts(u) && OpenAIShaped(u) && NumOf(u.promptTokens) > 0.0
    ensures var cached := if NumOf(u.cacheReadTokens) > 0.0 then NumOf(u.cacheReadTokens) else NumOf(u.cachedTokens);
            && (PaysAtEveryPrice(CreditBuckets(u, OpenAI), ClickHouseRow(u)) <==> cached <= NumOf(u.promptTokens))
            && (PaysAtSomePrice(CreditBuckets(u, OpenAI), ClickHouseRow(u)) <==> cached <= NumOf(u.promptTokens))
  {
    OpenAIAccountsAgree(u);
    CreditPaysForTheRow(CreditBuckets(u, OpenAI), ClickHouseRow(u));
  }

  // ----- Every kind of token at its own price -----

  /** The credit is the sum of what each kind costs by itself, and each kind costs its own price. */
  lemma KindsAreAdded(b: Buckets, price: Pricing)
    ensures Credit(b, price) ==
              Credit(b, Pricing(price.input, 0.0, 0.0, 0.0, 0.0)) + Credit(b, Pricing(0.0, price.output, 0.0, 0.0, 0.0))
              + Credit(b, Pricing(0.0, 0.0, price.cacheRead, 0.0, 0.0)) + Credit(b, Pricing(0.0, 0.0, 0.0, price.cacheWrite5m, 0.0))
              + Credit(b, Pricing(0.0, 0.0, 0.0, 0.0, price.cacheWrite1h))
  {
  }

  lemma OneKind(b: Buckets, p: real)
    ensures Credit(b, Pricing(p, 0.0, 0.0, 0.0, 0.0)) == p * b.nonCacheInput / 1000.0
    ensures Credit(b, Pricing(0.0, p, 0.0, 0.0, 0.0)) == p * b.output / 1000.0
    ensures Credit(b, Pricing(0.0, 0.0, p, 0.0, 0.0)) == p * b.cacheRead / 1000.0
    ensures Credit(b, Pricing(0.0, 0.0, 0.0, p, 0.0)) == p * b.cacheWrite5m / 1000.0
    ensures Credit(b, Pricing(0.0, 0.0, 0.0, 0.0, p)) == p * b.cacheWrite1h / 1000.0
  {
  }

  /** Which tokens of an Anthropic call are of which kind. */
  lemma AnthropicKinds(u: Usage)
    requires Counts(u) && AnthropicShaped(u)
    ensures var b := CreditBuckets(u, Anthropic);
            && b.nonCacheInput == NumOf(u.inputTokens) && b.output == NumOf(u.outputTokens) && b.cacheRead == NumOf(u.cacheReadInputTokens)
            && b.cacheWrite5m == NumOf(u.ephemeral5m)
            && (if NumOf(u.cacheCreationInputTokens) >= b.cacheWrite5m then b.cacheWrite5m + b.cacheWrite1h == NumOf(u.cacheCreationInputTokens)
                else b.cacheWrite1h == 0.0)
  {
  }

  /** And of an OpenAI or DeepSeek call, which knows no cache writes. */
  lemma OpenAIKinds(u: Usage)
    requires Counts(u) && OpenAIShaped(u)
    ensures var b := CreditBuckets(u, OpenAI);
            && b.output == NumOf(u.completionTokens) && b.cacheWrite5m == 0.0 && b.cacheWrite1h == 0.0
            && b.cacheRead == (if NumOf(u.cacheReadTokens) > 0.0 then NumOf(u.cacheReadTokens) else NumOf(u.cachedTokens))
            && (if NumOf(u.promptTokens) >= b.cacheRead then b.nonCacheInput + b.cacheRead == NumOf(u.promptTokens)
                else b.nonCacheInput == 0.0)
  {
  }


  /** What ClickHouse records of an OpenAI or DeepSeek call with a prompt. */
  lemma OpenAIRow(u: Usage)
    requires Counts(u) && OpenAIShaped(u) && NumOf(u.promptTokens) > 0.0
    ensures var row := ClickHouseRow(u);
            && row.promptTokens == NumOf(u.promptTokens) && row.completionTokens == NumOf(u.completionTokens)
            && row.totalTokens == (if NumOf(u.totalTokens) > 0.0 then NumOf(u.totalTokens) else row.promptTokens + row.completionTokens)
            && row.cacheHit == (if NumOf(u.promptCacheHit) > 0.0 then NumOf(u.promptCacheHit) else NumOf(u.cachedTokens))
            && row.cacheWrite == NumOf(u.promptCacheWrite) && row.inputTokens == 0.0 && row.ephemeral5m == 0.0
  {
  }

  /** And what Langfuse is told: the cached tokens are taken out of the prompt, as far as they fit. */
  lemma OpenAIDetails(u: Usage)
    requires Counts(u) && OpenAIShaped(u) && NumOf(u.promptTokens) > 0.0
    ensures var details, row := LangfuseDetails(u), ClickHouseRow(u);
            && details.output == row.completionTokens && details.total == row.totalTokens
            && details.cacheRead == row.cacheHit && details.cacheWrite == row.cacheWrite
            && details.input == (if row.cacheHit + row.cacheWrite <= row.promptTokens then row.promptTokens - row.cacheHit - row.cacheWrite else 0.0)
  {
  }
}
