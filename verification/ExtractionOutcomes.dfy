/** What becomes of an extraction: the answers its calls got since the row was inserted, and the starts that made
    no call, explain its status, its attempts and its error in every reachable state. */
module ExtractionOutcomes {
  import opened Basics
  import opened GatewayDb
  import opened CaptureQueue
  import opened CaptureInvariant
  import opened CaptureTheorems

  // ----- One step, on the row -----

  /** 1000 * 2^n milliseconds, for at most eight doublings. */
  predicate IsBackOff(attempts: nat, delay: int) {
    && (attempts <= 8 ==> delay == 1000 * Pow2(attempts))
    && (attempts > 8 ==> delay == 256_000)
  }

  /** The row is as it was but for what a settled or skipped extraction may change. */
  predicate SameExtraction(row: Extraction, after: Extraction) {
    after.contextId == row.contextId && after.reason == row.reason && after.createdAt == row.createdAt
  }

  predicate IsSubmitted(row: Extraction, after: Extraction, taskId: Option<string>, now: int) {
    && after.updatedAt == now && after.status.Submitted? && after.taskId == taskId && after.lastError.None?
    && after.attempts == row.attempts && SameExtraction(row, after)
  }

  predicate IsRefused(maxAttempts: nat, row: Extraction, after: Extraction, message: string, now: int) {
    && IsCut(message, after.lastError) && after.taskId == row.taskId && after.updatedAt == now && SameExtraction(row, after)
    && (if row.attempts + 1 >= maxAttempts then after.status.Abandoned? && after.attempts == row.attempts
        else after.status.Queued? && after.attempts == row.attempts + 1 && IsBackOff(after.attempts, after.nextAttemptAt - now))
  }

  predicate IsSkipped(row: Extraction, after: Extraction, reason: string, now: int) {
    && after.updatedAt == now && after.status.Skipped? && IsCut(reason, after.lastError) && after.taskId == row.taskId
    && after.attempts == row.attempts && SameExtraction(row, after)
  }

  lemma BackOffIs(attempts: nat)
    ensures IsBackOff(attempts, RetryDelay(attempts))
  {
    assert Pow2(8) == 256 by {
      assert Pow2(4) == 16;
    }
    if attempts <= 8 {
      PowersGrow(attempts, 8);
    }
  }

  lemma {:induction false} PowersGrow(m: nat, n: nat)
    requires m <= n
    ensures Pow2(m) <= Pow2(n)
  {
    if m < n {
      PowersGrow(m, n - 1);
    }
  }

  lemma SettleTouchesOneRow(cfg: Config, w: World, id: string, outcome: Call, taskId: Option<string>, now: int)
    requires CanSettleExtraction(w, id, outcome) && id in w.db.extractions
    ensures var next := ApplyExtractionSettles(cfg, w, id, outcome, taskId, now);
            && id in next.db.extractions && next.db == w.db.(extractions := w.db.extractions[id := next.db.extractions[id]])
            && next.phase == w.phase.(calls := w.phase.calls - {id})
  {
  }

  /** A call that succeeded submits its extraction, with the task id it returned; one that was refused leaves it to be
      tried again after the back-off, or dead when that was the last attempt. No other row changes. */
  lemma SettledExtraction(cfg: Config, w: World, id: string, outcome: Call, taskId: Option<string>, now: int)
    requires CanSettleExtraction(w, id, outcome) && w.phase.calls[id].eventId == id && CurrentExtraction(w.db, w.phase.calls[id])
    ensures var next := ApplyExtractionSettles(cfg, w, id, outcome, taskId, now);
            && id in next.db.extractions && next.db == w.db.(extractions := w.db.extractions[id := next.db.extractions[id]])
            && next.phase == w.phase.(calls := w.phase.calls - {id})
            && (outcome.Fulfilled? ==> IsSubmitted(w.db.extractions[id], next.db.extractions[id], taskId, now))
            && (outcome.Rejected? ==> IsRefused(cfg.maxAttempts, w.db.extractions[id], next.db.extractions[id], outcome.message, now))
  {
    SettleTouchesOneRow(cfg, w, id, outcome, taskId, now);
    BackOffIs(w.db.extractions[id].attempts + 1);
  }

  /** Why an extraction is not submitted at all. */
  function Objection(verdict: Verdict): Option<string> {
    match verdict
    case NoConversation => Some("no completed conversation was captured")
    case TooLittle(detail) => Some(detail)
    case Worthwhile => None
  }

  lemma SkippedRow(db: Db, id: string, reason: string, now: int)
    requires id in db.extractions
    ensures var next := MarkSkipped(db, id, reason, now);
            && id in next.extractions && next == db.(extractions := db.extractions[id := next.extractions[id]])
            && IsSkipped(db.extractions[id], next.extractions[id], reason, now)
  {
  }

  lemma StartByVerdict(w: World, now: int)
    requires w.phase.Extracting? && w.phase.waiting != [] && w.phase.waiting[0].contextId in w.db.contexts
    ensures var next, item := ApplyExtractionStart(w, now), w.phase.waiting[0];
            && next.phase.waiting == w.phase.waiting[1..]
            && (item.verdict.Worthwhile? ==> next.db == w.db && next.phase.calls == w.phase.calls[item.eventId := item])
            && (!item.verdict.Worthwhile? ==>
                  && next.phase.calls == w.phase.calls && next.history == w.history
                  && next.db == MarkSkipped(w.db, item.eventId, Objection(item.verdict).value, now))
  {
  }

  /** A start submits the extraction if and only if there is work to review; otherwise the row is skipped, with the
      reason, and no call is made. */
  lemma StartedExtraction(cfg: Config, w: World, now: int)
    requires CanStartExtraction(cfg, w) && CurrentExtraction(w.db, w.phase.waiting[0]) && w.phase.waiting[0].contextId in w.db.contexts
    ensures var next, item := ApplyExtractionStart(w, now), w.phase.waiting[0];
            && next.phase.waiting == w.phase.waiting[1..] && item.eventId in next.db.extractions
            && (item.verdict.Worthwhile? ==>
                  && next.db == w.db && next.phase.calls == w.phase.calls[item.eventId := item]
                  && (item.eventId in w.history.extractCalls ==>
                        next.history.extractCalls == w.history.extractCalls[item.eventId := w.history.extractCalls[item.eventId] + 1]))
            && (!item.verdict.Worthwhile? ==>
                  && next.phase.calls == w.phase.calls && next.history == w.history
                  && next.db == w.db.(extractions := w.db.extractions[item.eventId := next.db.extractions[item.eventId]])
                  && IsSkipped(w.db.extractions[item.eventId], next.db.extractions[item.eventId], Objection(item.verdict).value, now))
  {
    StartByVerdict(w, now);
    var item := w.phase.waiting[0];
    if !item.verdict.Worthwhile? {
      SkippedRow(w.db, item.eventId, Objection(item.verdict).value, now);
    }
  }

  /** A drain's extractions are those selected, in order, each with the attempts of its row and the verdict on its own
      transcript. */
  lemma SelectedExtractions(cfg: Config, w: World, a: Action)
    requires a.CapturesDone? && Enabled(cfg, w, a)
    ensures var next := Apply(cfg, w, a);
            && next.db == w.db && next.history == w.history && next.phase.Extracting? && next.phase.calls == map[]
            && |next.phase.waiting| == |a.picked|
            && forall i :: 0 <= i < |a.picked| ==>
                 var item, row := next.phase.waiting[i], w.db.extractions[a.picked[i]];
                 item.eventId == a.picked[i] && item.contextId == row.contextId && item.attempts == row.attempts
                 && item.verdict == a.verdicts[a.picked[i]]
  {
  }

  // ----- Whole runs -----

  datatype Entry = Accepted(taskId: Option<string>) | Refused(message: string, at: int) | Declined(reason: string)

  /** What a step adds to the record of an extraction. */
  function Entries(w: World, a: Action, id: string): seq<Entry> {
    if a.ExtractionSettles? && a.id == id && a.outcome.Fulfilled? then [Accepted(a.taskId)]
    else if a.ExtractionSettles? && a.id == id && a.outcome.Rejected? then [Entry.Refused(a.outcome.message, a.now)]
    else if a.ExtractionStart? && w.phase.Extracting? && w.phase.waiting != [] && w.phase.waiting[0].eventId == id then
      (if Objection(w.phase.waiting[0].verdict).Some? then [Declined(Objection(w.phase.waiting[0].verdict).value)] else [])
    else []
  }

  /** The record of an extraction since its row was inserted, given the one before the run. */
  ghost function Record(cfg: Config, w: World, run: seq<Action>, id: string, before: seq<Entry>): seq<Entry>
    requires IsRun(cfg, w, run)
    decreases |run|
  {
    if run == [] then before else
      var next := Apply(cfg, w, run[0]);
      Record(cfg, next, run[1..], id, if id in next.db.extractions then before + Entries(w, run[0], id) else [])
  }

  predicate AllRefused(record: seq<Entry>) {
    forall k :: 0 <= k < |record| ==> record[k].Refused?
  }

  /** The row is what the record says. */
  ghost predicate Explained(maxAttempts: nat, row: Extraction, record: seq<Entry>) {
    match row.status
    case Queued =>
      && AllRefused(record) && |record| == row.attempts < maxAttempts && row.taskId.None?
      && (record != [] ==>
            && IsCut(Last(record).message, row.lastError)
            && exists delay :: IsBackOff(row.attempts, delay) && row.nextAttemptAt >= Last(record).at + delay)
    case Submitted =>
      record != [] && AllRefused(Init(record)) && Last(record) == Accepted(row.taskId) && row.lastError.None?
    case Skipped =>
      record != [] && AllRefused(Init(record)) && Last(record).Declined? && IsCut(Last(record).reason, row.lastError)
    case Abandoned =>
      AllRefused(record) && |record| == maxAttempts && record != [] && IsCut(Last(record).message, row.lastError)
  }

  /** What is not the worker's doing changes at most the due time of an extraction, and never to an earlier one. */
  predicate OnlyLater(row: Extraction, after: Extraction) {
    && after.status == row.status && after.attempts == row.attempts && after.taskId == row.taskId && after.lastError == row.lastError
    && after.nextAttemptAt >= row.nextAttemptAt
  }

  predicate Fresh(row: Extraction) {
    row.status.Queued? && row.attempts == 0 && row.taskId.None?
  }

  /** Across a step that is not the worker's: an old row, at most later, or a fresh one. */
  ghost predicate HooksKeep(db: Db, db': Db) {
    forall id :: id in db'.extractions ==>
      if id in db.extractions then OnlyLater(db.extractions[id], db'.extractions[id]) else Fresh(db'.extractions[id])
  }

  lemma StopKeepsRows(cfg: Config, w: World, a: Action)
    requires a.HookStop?
    ensures HooksKeep(w.db, ApplyStop(cfg, w, a).db)
  {
  }

  lemma ToolUseKeepsRows(cfg: Config, w: World, a: Action)
    requires a.HookToolUse?
    ensures HooksKeep(w.db, ApplyToolUse(cfg, w, a).db)
  {
  }

  lemma SessionEndKeepsRows(cfg: Config, w: World, a: Action)
    requires a.HookSessionEnd?
    ensures HooksKeep(w.db, ApplySessionEnd(cfg, w, a).db)
  {
  }

  lemma PruneKeepsRows(db: Db, table: Table, now: int)
    ensures HooksKeep(db, ApplyPrune(db, table, now))
  {
  }

  lemma HooksKeepRows(cfg: Config, w: World, a: Action)
    requires IsEnvironment(a) && Enabled(cfg, w, a)
    ensures HooksKeep(w.db, Apply(cfg, w, a).db)
  {
    if a.HookStop? {
      StopKeepsRows(cfg, w, a);
    } else if a.HookToolUse? {
      ToolUseKeepsRows(cfg, w, a);
    } else if a.HookSessionEnd? {
      SessionEndKeepsRows(cfg, w, a);
    } else if a.PruneTable? {
      PruneKeepsRows(w.db, a.table, a.now);
    }
  }

  lemma LaterIsExplained(maxAttempts: nat, row: Extraction, after: Extraction, record: seq<Entry>)
    requires Explained(maxAttempts, row, record) && OnlyLater(row, after)
    ensures Explained(maxAttempts, after, record)
  {
  }

  lemma FreshIsExplained(maxAttempts: nat, row: Extraction)
    requires Fresh(row) && maxAttempts >= 1
    ensures Explained(maxAttempts, row, [])
  {
  }

  lemma SnocRecord(record: seq<Entry>, e: Entry)
    ensures Last(record + [e]) == e && Init(record + [e]) == record
  {
  }

  lemma SubmittedIsExplained(maxAttempts: nat, row: Extraction, after: Extraction, record: seq<Entry>, taskId: Option<string>, now: int)
    requires row.status.Queued? && Explained(maxAttempts, row, record) && IsSubmitted(row, after, taskId, now)
    ensures Explained(maxAttempts, after, record + [Accepted(taskId)])
  {
    SnocRecord(record, Accepted(taskId));
  }

  lemma RefusedIsExplained(maxAttempts: nat, row: Extraction, after: Extraction, record: seq<Entry>, message: string, now: int)
    requires row.status.Queued? && Explained(maxAttempts, row, record) && IsRefused(maxAttempts, row, after, message, now)
    ensures Explained(maxAttempts, after, record + [Entry.Refused(message, now)])
  {
    SnocRecord(record, Entry.Refused(message, now));
    if after.status.Queued? {
      assert IsBackOff(after.attempts, after.nextAttemptAt - now);
    }
  }

  lemma SkippedIsExplained(maxAttempts: nat, row: Extraction, after: Extraction, record: seq<Entry>, reason: string, now: int)
    requires row.status.Queued? && Explained(maxAttempts, row, record) && IsSkipped(row, after, reason, now)
    ensures Explained(maxAttempts, after, record + [Declined(reason)])
  {
    SnocRecord(record, Declined(reason));
  }

  lemma StartExplains(cfg: Config, w: World, now: int, id: string, record: seq<Entry>)
    requires CanStartExtraction(cfg, w) && CurrentExtraction(w.db, w.phase.waiting[0]) && w.phase.waiting[0].contextId in w.db.contexts
    requires id in w.db.extractions && Explained(cfg.maxAttempts, w.db.extractions[id], record)
    ensures var next := ApplyExtractionStart(w, now);
            id in next.db.extractions && Explained(cfg.maxAttempts, next.db.extractions[id], record + Entries(w, ExtractionStart(now), id))
  {
    StartedExtraction(cfg, w, now);
    var item, row, after := w.phase.waiting[0], w.db.extractions[id], ApplyExtractionStart(w, now).db.extractions[id];
    if item.eventId == id && !item.verdict.Worthwhile? {
      assert Entries(w, ExtractionStart(now), id) == [Declined(Objection(item.verdict).value)];
      SkippedIsExplained(cfg.maxAttempts, row, after, record, Objection(item.verdict).value, now);
    } else {
      assert after == row && Entries(w, ExtractionStart(now), id) == [];
      assert record + [] == record;
    }
  }

  lemma SettleExplains(cfg: Config, w: World, a: Action, id: string, record: seq<Entry>)
    requires a.ExtractionSettles? && CanSettleExtraction(w, a.id, a.outcome)
    requires w.phase.calls[a.id].eventId == a.id && CurrentExtraction(w.db, w.phase.calls[a.id])
    requires id in w.db.extractions && Explained(cfg.maxAttempts, w.db.extractions[id], record)
    ensures var next := ApplyExtractionSettles(cfg, w, a.id, a.outcome, a.taskId, a.now);
            id in next.db.extractions && Explained(cfg.maxAttempts, next.db.extractions[id], record + Entries(w, a, id))
  {
    SettledExtraction(cfg, w, a.id, a.outcome, a.taskId, a.now);
    var row, after := w.db.extractions[id], ApplyExtractionSettles(cfg, w, a.id, a.outcome, a.taskId, a.now).db.extractions[id];
    if a.id != id {
      assert record + [] == record;
    } else if a.outcome.Fulfilled? {
      SubmittedIsExplained(cfg.maxAttempts, row, after, record, a.taskId, a.now);
    } else {
      RefusedIsExplained(cfg.maxAttempts, row, after, record, a.outcome.message, a.now);
    }
  }

  lemma OthersKeepRows(cfg: Config, w: World, a: Action)
    requires References(w.db) && DrainOk(cfg, w.db, w.phase) && Enabled(cfg, w, a) && !IsEnvironment(a) && !a.ExtractionStart? && !a.ExtractionSettles?
    ensures Apply(cfg, w, a).db.extractions == w.db.extractions
  {
    if a.CaptureStart? {
      CaptureStartKeepsDrain(cfg, w, a.now);
    } else {
      ExtractionsLeftAlone(cfg, w, a);
    }
  }

  /** Before the row there is no record. */
  ghost predicate RecordOk(cfg: Config, w: World, id: string, record: seq<Entry>) {
    if id in w.db.extractions then Explained(cfg.maxAttempts, w.db.extractions[id], record) else record == []
  }

  lemma HookExplains(cfg: Config, w: World, a: Action, id: string, record: seq<Entry>)
    requires ValidConfig(cfg) && IsEnvironment(a) && Enabled(cfg, w, a) && RecordOk(cfg, w, id, record)
    requires id in Apply(cfg, w, a).db.extractions
    ensures Explained(cfg.maxAttempts, Apply(cfg, w, a).db.extractions[id], record)
  {
    HooksKeepRows(cfg, w, a);
    if id in w.db.extractions {
      LaterIsExplained(cfg.maxAttempts, w.db.extractions[id], Apply(cfg, w, a).db.extractions[id], record);
    } else {
      FreshIsExplained(cfg.maxAttempts, Apply(cfg, w, a).db.extractions[id]);
    }
  }

  lemma WorkerExplains(cfg: Config, w: World, a: Action, id: string, record: seq<Entry>)
    requires References(w.db) && Budgets(cfg, w.db) && DrainOk(cfg, w.db, w.phase)
    requires !IsEnvironment(a) && Enabled(cfg, w, a) && RecordOk(cfg, w, id, record)
    requires id in Apply(cfg, w, a).db.extractions
    ensures Explained(cfg.maxAttempts, Apply(cfg, w, a).db.extractions[id], record + Entries(w, a, id))
  {
    if a.ExtractionStart? {
      ExtractionStartKeepsDrain(cfg, w, a.now);
      StartedExtraction(cfg, w, a.now);
      StartExplains(cfg, w, a.now, id, record);
    } else if a.ExtractionSettles? {
      SettledExtraction(cfg, w, a.id, a.outcome, a.taskId, a.now);
      SettleExplains(cfg, w, a, id, record);
    } else {
      OthersKeepRows(cfg, w, a);
      assert record + [] == record;
    }
  }

  lemma StepExplains(cfg: Config, w: World, a: Action, id: string, record: seq<Entry>)
    requires Inv(cfg, w) && Enabled(cfg, w, a) && RecordOk(cfg, w, id, record)
    ensures RecordOk(cfg, Apply(cfg, w, a), id, if id in Apply(cfg, w, a).db.extractions then record + Entries(w, a, id) else [])
  {
    if id in Apply(cfg, w, a).db.extractions {
      if IsEnvironment(a) {
        HookExplains(cfg, w, a, id, record);
        assert record + [] == record;
      } else {
        WorkerExplains(cfg, w, a, id, record);
      }
    }
  }

  lemma {:induction false} RunExplains(cfg: Config, w: World, run: seq<Action>, id: string, record: seq<Entry>)
    requires Inv(cfg, w) && IsRun(cfg, w, run) && RecordOk(cfg, w, id, record)
    ensures RecordOk(cfg, Exec(cfg, w, run), id, Record(cfg, w, run, id, record))
    decreases |run|
  {
    if run != [] {
      var next := Apply(cfg, w, run[0]);
      StepExplains(cfg, w, run[0], id, record);
      StepKeepsInv(cfg, w, run[0]);
      RunExplains(cfg, next, run[1..], id, if id in next.db.extractions then record + Entries(w, run[0], id) else []);
    }
  }

  /** In every reachable state the record of an extraction explains its row. It was submitted if and only if its last
      call succeeded, is dead if and only if it was refused as often as allowed, and was skipped if and only if a
      start found nothing worth a call; otherwise it waits, with one attempt used per refusal. */
  lemma ExtractionIsExplained(cfg: Config, run: seq<Action>, id: string)
    requires ValidConfig(cfg) && IsRun(cfg, INIT, run) && id in Exec(cfg, INIT, run).db.extractions
    ensures var row, record := Exec(cfg, INIT, run).db.extractions[id], Record(cfg, INIT, run, id, []);
            && Explained(cfg.maxAttempts, row, record)
            && (row.status.Submitted? <==> exists k :: 0 <= k < |record| && record[k].Accepted?)
            && (row.status.Skipped? <==> exists k :: 0 <= k < |record| && record[k].Declined?)
            && (row.status.Abandoned? <==> AllRefused(record) && |record| == cfg.maxAttempts)
  {
    InitInv(cfg);
    RunExplains(cfg, INIT, run, id, []);
    var row, record := Exec(cfg, INIT, run).db.extractions[id], Record(cfg, INIT, run, id, []);
    StatusByRecord(cfg.maxAttempts, row, record);
  }

  lemma StatusByRecord(maxAttempts: nat, row: Extraction, record: seq<Entry>)
    requires Explained(maxAttempts, row, record)
    ensures row.status.Submitted? <==> exists k :: 0 <= k < |record| && record[k].Accepted?
    ensures row.status.Skipped? <==> exists k :: 0 <= k < |record| && record[k].Declined?
    ensures row.status.Abandoned? <==> AllRefused(record) && |record| == maxAttempts
  {
    if row.status.Submitted? || row.status.Skipped? {
      assert record[|record| - 1] == Last(record);
      assert forall k :: 0 <= k < |record| - 1 ==> record[k] == Init(record)[k];
    }
  }
}
