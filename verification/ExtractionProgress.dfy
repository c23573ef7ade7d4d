/** The retry budget of the skill-extraction queue: how often an extraction is submitted, why the queue of
    extractions empties, and how long one waits behind older ones. */
module ExtractionProgress {
  import opened Basics
  import opened GatewayDb
  import opened CaptureQueue
  import opened CaptureInvariant
  import opened CaptureTheorems

  // ----- Submissions -----

  predicate HasCall(phase: Phase, id: string) {
    phase.Extracting? && id in phase.calls
  }

  /** An extraction has been submitted at most once per used attempt and per crash, plus once for the call that
      is under way or ended it. */
  predicate SubmissionOk(w: World, id: string)
    requires id in w.db.extractions
  {
    && id in w.history.extractCalls
    && w.history.extractCalls[id] <= w.db.extractions[id].attempts + w.history.crashes +
         (if HasCall(w.phase, id) || !w.db.extractions[id].status.Queued? then 1 else 0)
  }

  ghost predicate SubmissionsOk(w: World) {
    forall id :: id in w.db.extractions ==> SubmissionOk(w, id)
  }

  lemma StopAddsNone(cfg: Config, w: World, a: Action)
    requires a.HookStop? || a.HookToolUse?
    ensures a.HookStop? ==> ApplyStop(cfg, w, a).db.extractions.Keys == w.db.extractions.Keys
    ensures a.HookToolUse? ==> ApplyToolUse(cfg, w, a).db.extractions.Keys == w.db.extractions.Keys
  {
  }

  lemma SessionEndAddsFresh(cfg: Config, w: World, a: Action, id: string)
    requires a.HookSessionEnd? && id in ApplySessionEnd(cfg, w, a).db.extractions && id !in w.db.extractions
    ensures var h := ApplySessionEnd(cfg, w, a).history; id in h.extractCalls && h.extractCalls[id] == 0
  {
  }

  lemma NewExtraction(cfg: Config, w: World, a: Action, id: string)
    requires IsEnvironment(a) && Enabled(cfg, w, a) && id in Apply(cfg, w, a).db.extractions && id !in w.db.extractions
    ensures var h := Apply(cfg, w, a).history; id in h.extractCalls && h.extractCalls[id] == 0
  {
    if a.HookSessionEnd? {
      SessionEndAddsFresh(cfg, w, a, id);
    } else if a.HookStop? || a.HookToolUse? {
      StopAddsNone(cfg, w, a);
    } else if a.PruneTable? {
      PruneAddsNothing(w.db, a.table, a.now);
    }
  }

  lemma EnvironmentKeepsSubmission(cfg: Config, w: World, a: Action, id: string)
    requires IsEnvironment(a) && Enabled(cfg, w, a) && id in Apply(cfg, w, a).db.extractions
    requires id in w.db.extractions ==> SubmissionOk(w, id)
    ensures SubmissionOk(Apply(cfg, w, a), id)
  {
    EnvironmentIsQuiet(cfg, w, a);
    EnvironmentKeepsCrashes(cfg, w, a);
    if id in w.db.extractions {
      EnvironmentKeepsExtractCalls(cfg, w, a, id);
    } else {
      NewExtraction(cfg, w, a, id);
    }
  }

  lemma EnvironmentKeepsCrashes(cfg: Config, w: World, a: Action)
    requires IsEnvironment(a) && Enabled(cfg, w, a)
    ensures Apply(cfg, w, a).history.crashes == w.history.crashes
  {
  }

  lemma EnvironmentKeepsSubmissions(cfg: Config, w: World, a: Action)
    requires IsEnvironment(a) && Enabled(cfg, w, a) && SubmissionsOk(w)
    ensures SubmissionsOk(Apply(cfg, w, a))
  {
    forall id | id in Apply(cfg, w, a).db.extractions
      ensures SubmissionOk(Apply(cfg, w, a), id)
    {
      EnvironmentKeepsSubmission(cfg, w, a, id);
    }
  }

  lemma StartKeepsSubmissions(cfg: Config, w: World, now: int)
    requires CanStartExtraction(cfg, w) && References(w.db) && Budgets(cfg, w.db) && DrainOk(cfg, w.db, w.phase)
    requires SubmissionsOk(w)
    ensures SubmissionsOk(ApplyExtractionStart(w, now))
  {
    ExtractionStartKeepsDrain(cfg, w, now);
    ExtractionStartStatement(cfg, w, now);
  }

  /** After its call an extraction is either out of the queue or has used one more attempt. */
  lemma SettledRow(cfg: Config, w: World, id: string, outcome: Call, taskId: Option<string>, now: int)
    requires CanSettleExtraction(w, id, outcome) && CurrentExtraction(w.db, w.phase.calls[id]) && w.phase.calls[id].eventId == id
    ensures var db := ApplyExtractionSettles(cfg, w, id, outcome, taskId, now).db;
            && id in db.extractions && db == w.db.(extractions := w.db.extractions[id := db.extractions[id]])
            && db.extractions[id].createdAt == w.db.extractions[id].createdAt
            && if db.extractions[id].status.Queued? then db.extractions[id].attempts == w.db.extractions[id].attempts + 1 < cfg.maxAttempts
               else db.extractions[id].attempts == w.db.extractions[id].attempts
  {
  }

  lemma SettleKeepsSubmissions(cfg: Config, w: World, id: string, outcome: Call, taskId: Option<string>, now: int)
    requires CanSettleExtraction(w, id, outcome) && DrainOk(cfg, w.db, w.phase) && SubmissionsOk(w)
    ensures SubmissionsOk(ApplyExtractionSettles(cfg, w, id, outcome, taskId, now))
  {
    SettledRow(cfg, w, id, outcome, taskId, now);
    var next := ApplyExtractionSettles(cfg, w, id, outcome, taskId, now);
    forall other | other in next.db.extractions
      ensures SubmissionOk(next, other)
    {
      assert SubmissionOk(w, other);
    }
  }

  lemma OtherKeepsSubmissions(cfg: Config, w: World, a: Action)
    requires Enabled(cfg, w, a) && !IsEnvironment(a) && !a.ExtractionStart? && !a.ExtractionSettles?
    requires References(w.db) && DrainOk(cfg, w.db, w.phase) && SubmissionsOk(w)
    ensures SubmissionsOk(Apply(cfg, w, a))
  {
    if a.CaptureStart? {
      CaptureStartKeepsDrain(cfg, w, a.now);
    } else {
      ExtractionsLeftAlone(cfg, w, a);
    }
  }

  lemma StepKeepsSubmissions(cfg: Config, w: World, a: Action)
    requires Inv(cfg, w) && Enabled(cfg, w, a) && SubmissionsOk(w)
    ensures SubmissionsOk(Apply(cfg, w, a))
  {
    if IsEnvironment(a) {
      EnvironmentKeepsSubmissions(cfg, w, a);
    } else if a.ExtractionStart? {
      StartKeepsSubmissions(cfg, w, a.now);
    } else if a.ExtractionSettles? {
      SettleKeepsSubmissions(cfg, w, a.id, a.outcome, a.taskId, a.now);
    } else {
      OtherKeepsSubmissions(cfg, w, a);
    }
  }

  lemma {:induction false} RunKeepsSubmissions(cfg: Config, w: World, run: seq<Action>)
    requires Inv(cfg, w) && IsRun(cfg, w, run) && SubmissionsOk(w)
    ensures SubmissionsOk(Exec(cfg, w, run))
    decreases |run|
  {
    if run != [] {
      StepKeepsSubmissions(cfg, w, run[0]);
      StepKeepsInv(cfg, w, run[0]);
      RunKeepsSubmissions(cfg, Apply(cfg, w, run[0]), run[1..]);
    }
  }

  /** In any run an extraction has been submitted at most once per allowed attempt and per crash. */
  lemma SubmissionsWithinBudget(cfg: Config, run: seq<Action>, id: string)
    requires ValidConfig(cfg) && IsRun(cfg, INIT, run) && id in Exec(cfg, INIT, run).db.extractions
    ensures var w := Exec(cfg, INIT, run);
            id in w.history.extractCalls && w.history.extractCalls[id] <= cfg.maxAttempts + w.history.crashes
  {
    InitInv(cfg);
    RunKeepsInv(cfg, INIT, run);
    RunKeepsSubmissions(cfg, INIT, run);
  }

  // ----- The budget -----

  function Weight(maxAttempts: nat, scope: Scope, id: string, e: Extraction): nat {
    if InScope(scope, id, e.createdAt) && e.status.Queued? && e.attempts < maxAttempts then maxAttempts - e.attempts else 0
  }

  function Weights(maxAttempts: nat, scope: Scope, db: Db): map<string, nat> {
    map id | id in db.extractions :: Weight(maxAttempts, scope, id, db.extractions[id])
  }

  /** The attempts the queued extractions in scope may still use. */
  ghost function Budget(maxAttempts: nat, scope: Scope, db: Db): nat {
    MapSum(Weights(maxAttempts, scope, db))
  }

  lemma NoBudgetNoQueue(cfg: Config, db: Db)
    requires Budgets(cfg, db) && Budget(cfg.maxAttempts, Everyone, db) == 0
    ensures forall id :: id in db.extractions ==> !db.extractions[id].status.Queued?
  {
    forall id | id in db.extractions ensures !db.extractions[id].status.Queued? {
      MapSumRemove(Weights(cfg.maxAttempts, Everyone, db), id);
    }
  }

  /** Rows may go, and the rest may only get lighter. */
  lemma LighterRows(maxAttempts: nat, scope: Scope, db: Db, db': Db)
    requires forall id :: id in db'.extractions ==>
               (&& id in db.extractions
                && Weight(maxAttempts, scope, id, db'.extractions[id]) <= Weight(maxAttempts, scope, id, db.extractions[id]))
    ensures Budget(maxAttempts, scope, db') <= Budget(maxAttempts, scope, db)
  {
    MapSumShrink(Weights(maxAttempts, scope, db), Weights(maxAttempts, scope, db'));
  }

  lemma OneRowBudget(maxAttempts: nat, scope: Scope, db: Db, id: string, e: Extraction)
    ensures Budget(maxAttempts, scope, db.(extractions := db.extractions[id := e])) ==
            Budget(maxAttempts, scope, db) - (if id in db.extractions then Weight(maxAttempts, scope, id, db.extractions[id]) else 0)
              + Weight(maxAttempts, scope, id, e)
  {
    MapSumSet(Weights(maxAttempts, scope, db), id, Weight(maxAttempts, scope, id, e));
    assert Weights(maxAttempts, scope, db.(extractions := db.extractions[id := e]))
        == Weights(maxAttempts, scope, db)[id := Weight(maxAttempts, scope, id, e)];
  }

  /** An extraction that leaves the worker's hands in this step: settled, or skipped without a call. */
  predicate Handles(w: World, a: Action) {
    a.ExtractionSettles? || (a.ExtractionStart? && w.phase.Extracting? && w.phase.waiting != [] && !w.phase.waiting[0].verdict.Worthwhile?)
  }

  function HandledId(w: World, a: Action): string
    requires Handles(w, a)
  {
    if a.ExtractionSettles? then a.id else w.phase.waiting[0].eventId
  }

  /** The step handles an extraction in scope. */
  predicate Pays(scope: Scope, w: World, a: Action) {
    Handles(w, a) && (HandledId(w, a) in w.db.extractions ==> InScope(scope, HandledId(w, a), w.db.extractions[HandledId(w, a)].createdAt))
  }

  /** A session end that inserts an extraction. */
  predicate Arrives(w: World, a: Action) {
    a.HookSessionEnd? && ContextUsable(w.db, a.contextId, a.principalId, a.now)
    && ExtractionSeed(a.contextId, w.db.contexts[a.contextId].place.sessionId) !in w.db.extractions
  }

  /** The attempts that the step brings into scope at most. */
  function Brings(cfg: Config, scope: Scope, w: World, a: Action): nat {
    if Arrives(w, a) && (scope.NoYoungerThan? ==> a.now <= scope.createdAt) then cfg.maxAttempts else 0
  }

  lemma SessionEndBudget(cfg: Config, scope: Scope, w: World, a: Action)
    requires a.HookSessionEnd?
    ensures Budget(cfg.maxAttempts, scope, ApplySessionEnd(cfg, w, a).db) <= Budget(cfg.maxAttempts, scope, w.db) + Brings(cfg, scope, w, a)
  {
    if Arrives(w, a) {
      var id := ExtractionSeed(a.contextId, w.db.contexts[a.contextId].place.sessionId);
      OneRowBudget(cfg.maxAttempts, scope, w.db, id, ApplySessionEnd(cfg, w, a).db.extractions[id]);
    } else {
      LighterRows(cfg.maxAttempts, scope, w.db, ApplySessionEnd(cfg, w, a).db);
    }
  }

  lemma HookBudget(cfg: Config, scope: Scope, w: World, a: Action)
    requires a.HookStop? || a.HookToolUse?
    ensures a.HookStop? ==> Budget(cfg.maxAttempts, scope, ApplyStop(cfg, w, a).db) <= Budget(cfg.maxAttempts, scope, w.db)
    ensures a.HookToolUse? ==> Budget(cfg.maxAttempts, scope, ApplyToolUse(cfg, w, a).db) <= Budget(cfg.maxAttempts, scope, w.db)
  {
    if a.HookStop? {
      LighterRows(cfg.maxAttempts, scope, w.db, ApplyStop(cfg, w, a).db);
    } else {
      LighterRows(cfg.maxAttempts, scope, w.db, ApplyToolUse(cfg, w, a).db);
    }
  }

  lemma PruneBudget(maxAttempts: nat, scope: Scope, db: Db, table: Table, now: int)
    ensures Budget(maxAttempts, scope, ApplyPrune(db, table, now)) <= Budget(maxAttempts, scope, db)
  {
    LighterRows(maxAttempts, scope, db, ApplyPrune(db, table, now));
  }

  lemma SettleBudget(cfg: Config, scope: Scope, w: World, a: Action)
    requires a.ExtractionSettles? && CanSettleExtraction(w, a.id, a.outcome) && DrainOk(cfg, w.db, w.phase) && Budgets(cfg, w.db)
    ensures Budget(cfg.maxAttempts, scope, ApplyExtractionSettles(cfg, w, a.id, a.outcome, a.taskId, a.now).db) + (if Pays(scope, w, a) then 1 else 0)
         <= Budget(cfg.maxAttempts, scope, w.db)
  {
    SettledRow(cfg, w, a.id, a.outcome, a.taskId, a.now);
    var db := ApplyExtractionSettles(cfg, w, a.id, a.outcome, a.taskId, a.now).db;
    OneRowBudget(cfg.maxAttempts, scope, w.db, a.id, db.extractions[a.id]);
  }

  lemma StartBudget(cfg: Config, scope: Scope, w: World, a: Action)
    requires a.ExtractionStart? && CanStartExtraction(cfg, w) && References(w.db) && DrainOk(cfg, w.db, w.phase) && Budgets(cfg, w.db)
    ensures Budget(cfg.maxAttempts, scope, ApplyExtractionStart(w, a.now).db) + (if Pays(scope, w, a) then 1 else 0)
         <= Budget(cfg.maxAttempts, scope, w.db)
  {
    ExtractionStartKeepsDrain(cfg, w, a.now);
    var item, db := w.phase.waiting[0], ApplyExtractionStart(w, a.now).db;
    if !item.verdict.Worthwhile? {
      SkippedRow(w, a.now);
      OneRowBudget(cfg.maxAttempts, scope, w.db, item.eventId, db.extractions[item.eventId]);
    }
  }

  lemma SkippedRow(w: World, now: int)
    requires w.phase.Extracting? && w.phase.waiting != [] && CurrentExtraction(w.db, w.phase.waiting[0])
    requires w.phase.waiting[0].contextId in w.db.contexts && !w.phase.waiting[0].verdict.Worthwhile?
    ensures var id, db := w.phase.waiting[0].eventId, ApplyExtractionStart(w, now).db;
            && id in db.extractions && !db.extractions[id].status.Queued?
            && db == w.db.(extractions := w.db.extractions[id := db.extractions[id]])
            && db.extractions[id].createdAt == w.db.extractions[id].createdAt
  {
  }

  lemma OtherBudget(cfg: Config, w: World, a: Action)
    requires References(w.db) && DrainOk(cfg, w.db, w.phase) && Enabled(cfg, w, a)
    requires !a.HookStop? && !a.HookToolUse? && !a.HookSessionEnd? && !a.PruneTable? && !a.ExtractionStart? && !a.ExtractionSettles?
    ensures Apply(cfg, w, a).db.extractions == w.db.extractions
  {
    if a.CaptureStart? {
      CaptureStartKeepsDrain(cfg, w, a.now);
    } else if !IsEnvironment(a) {
      ExtractionsLeftAlone(cfg, w, a);
    }
  }

  lemma SameRowsBudget(maxAttempts: nat, scope: Scope, db: Db, db': Db)
    requires db'.extractions == db.extractions
    ensures Budget(maxAttempts, scope, db') == Budget(maxAttempts, scope, db)
  {
    assert Weights(maxAttempts, scope, db') == Weights(maxAttempts, scope, db);
  }

  /** Every extraction handled uses up an attempt; only new extractions bring any. */
  lemma StepBudget(cfg: Config, scope: Scope, w: World, a: Action)
    requires Inv(cfg, w) && Enabled(cfg, w, a)
    ensures Budget(cfg.maxAttempts, scope, Apply(cfg, w, a).db) + (if Pays(scope, w, a) then 1 else 0) <=
            Budget(cfg.maxAttempts, scope, w.db) + Brings(cfg, scope, w, a)
  {
    if a.HookStop? || a.HookToolUse? {
      HookBudget(cfg, scope, w, a);
    } else if a.HookSessionEnd? {
      SessionEndBudget(cfg, scope, w, a);
    } else if a.PruneTable? {
      PruneBudget(cfg.maxAttempts, scope, w.db, a.table, a.now);
    } else if a.ExtractionStart? {
      StartBudget(cfg, scope, w, a);
    } else if a.ExtractionSettles? {
      SettleBudget(cfg, scope, w, a);
    } else {
      OtherBudget(cfg, w, a);
      SameRowsBudget(cfg.maxAttempts, scope, w.db, Apply(cfg, w, a).db);
    }
  }

  ghost function Handled(cfg: Config, w: World, run: seq<Action>): nat
    requires IsRun(cfg, w, run)
    decreases |run|
  {
    if run == [] then 0 else (if Handles(w, run[0]) then 1 else 0) + Handled(cfg, Apply(cfg, w, run[0]), run[1..])
  }

  /** The attempts that the extractions arriving in a run bring along. */
  ghost function Allowance(cfg: Config, w: World, run: seq<Action>): nat
    requires IsRun(cfg, w, run)
    decreases |run|
  {
    if run == [] then 0 else (if Arrives(w, run[0]) then cfg.maxAttempts else 0) + Allowance(cfg, Apply(cfg, w, run[0]), run[1..])
  }

  /** Over any run, with failures and crashes anywhere. */
  lemma {:induction false} HandledWithinBudget(cfg: Config, w: World, run: seq<Action>)
    requires Inv(cfg, w) && IsRun(cfg, w, run)
    ensures Handled(cfg, w, run) + Budget(cfg.maxAttempts, Everyone, Exec(cfg, w, run).db)
         <= Budget(cfg.maxAttempts, Everyone, w.db) + Allowance(cfg, w, run)
    decreases |run|
  {
    if run != [] {
      StepBudget(cfg, Everyone, w, run[0]);
      StepKeepsInv(cfg, w, run[0]);
      HandledWithinBudget(cfg, Apply(cfg, w, run[0]), run[1..]);
    }
  }

  // ----- The queue drains -----

  /** The drains of a run that had extractions to handle and came to their end. */
  ghost function BusyDrains(cfg: Config, w: World, run: seq<Action>): nat
    requires IsRun(cfg, w, run)
    decreases |run|
  {
    if run == [] then 0 else
      (if run[0].DrainEnd? && w.phase.picked != [] then 1 else 0) + BusyDrains(cfg, Apply(cfg, w, run[0]), run[1..])
  }

  /** What the drain under way has handled of its extractions. */
  function Progress(phase: Phase): nat {
    if phase.Extracting? && |phase.waiting| + |phase.calls| < |phase.picked| then |phase.picked| - |phase.waiting| - |phase.calls| else 0
  }

  lemma StartProgress(w: World, now: int)
    requires w.phase.Extracting? && w.phase.waiting != []
    requires w.phase.waiting[0].contextId in w.db.contexts && w.phase.waiting[0].eventId !in w.phase.calls
    ensures var next := ApplyExtractionStart(w, now).phase;
            next.picked == w.phase.picked && Progress(next) <= Progress(w.phase) + (if w.phase.waiting[0].verdict.Worthwhile? then 0 else 1)
  {
  }

  lemma SettleProgress(cfg: Config, w: World, id: string, outcome: Call, taskId: Option<string>, now: int)
    requires CanSettleExtraction(w, id, outcome)
    ensures var next := ApplyExtractionSettles(cfg, w, id, outcome, taskId, now).phase;
            next.picked == w.phase.picked && Progress(next) <= Progress(w.phase) + 1
  {
  }

  /** Only a step that handles an extraction gets a drain further, and at its end all of its items are handled. */
  lemma StepProgress(cfg: Config, w: World, a: Action)
    requires Inv(cfg, w) && Enabled(cfg, w, a)
    ensures var next := Apply(cfg, w, a).phase;
            && (a.DrainEnd? ==> Progress(w.phase) == |w.phase.picked|)
            && (a.CapturesDone? ==> Progress(next) == 0)
            && (next.Extracting? && !a.CapturesDone? ==>
                  && w.phase.Extracting? && next.picked == w.phase.picked
                  && Progress(next) <= Progress(w.phase) + (if Handles(w, a) then 1 else 0))
  {
    if a.ExtractionStart? {
      ExtractionStartKeepsDrain(cfg, w, a.now);
      StartProgress(w, a.now);
    } else if a.ExtractionSettles? {
      SettleProgress(cfg, w, a.id, a.outcome, a.taskId, a.now);
    } else if IsEnvironment(a) {
      EnvironmentIsQuiet(cfg, w, a);
    }
  }

  function Begun(phase: Phase): nat {
    if Progress(phase) > 0 then 1 else 0
  }

  lemma {:induction false} BusyDrainsHandle(cfg: Config, w: World, run: seq<Action>)
    requires Inv(cfg, w) && IsRun(cfg, w, run)
    ensures BusyDrains(cfg, w, run) + Begun(Exec(cfg, w, run).phase) <= Handled(cfg, w, run) + Begun(w.phase)
    decreases |run|
  {
    if run != [] {
      StepProgress(cfg, w, run[0]);
      StepKeepsInv(cfg, w, run[0]);
      BusyDrainsHandle(cfg, Apply(cfg, w, run[0]), run[1..]);
    }
  }

  /** Without new extractions, at most as many drains find some as there is budget, whatever fails or crashes, and
      once that many have, none is queued any more. */
  lemma ExtractionsEmpty(cfg: Config, w: World, run: seq<Action>)
    requires Inv(cfg, w) && !w.phase.Extracting? && IsRun(cfg, w, run) && Allowance(cfg, w, run) == 0
    ensures BusyDrains(cfg, w, run) + Budget(cfg.maxAttempts, Everyone, Exec(cfg, w, run).db) <= Budget(cfg.maxAttempts, Everyone, w.db)
    ensures BusyDrains(cfg, w, run) == Budget(cfg.maxAttempts, Everyone, w.db) ==>
              forall id :: id in Exec(cfg, w, run).db.extractions ==> !Exec(cfg, w, run).db.extractions[id].status.Queued?
  {
    HandledWithinBudget(cfg, w, run);
    BusyDrainsHandle(cfg, w, run);
    if BusyDrains(cfg, w, run) == Budget(cfg.maxAttempts, Everyone, w.db) {
      RunKeepsInv(cfg, w, run);
      NoBudgetNoQueue(cfg, Exec(cfg, w, run).db);
    }
  }

  // ----- Bounded waiting -----

  /** The extraction is due whenever a drain selects extractions, and whatever arrives is strictly younger. */
  ghost predicate StaysDue(cfg: Config, w: World, run: seq<Action>, scope: Scope)
    requires scope.NoYoungerThan? && IsRun(cfg, w, run)
    decreases |run|
  {
    run != [] ==>
      && (run[0].CapturesDone? ==> ExtractionDue(w.db, scope.id, run[0].now) && w.db.extractions[scope.id].createdAt == scope.createdAt)
      && (Arrives(w, run[0]) ==> run[0].now > scope.createdAt)
      && StaysDue(cfg, Apply(cfg, w, run[0]), run[1..], scope)
  }

  predicate PassesOver(phase: Phase, id: string) {
    phase.Extracting? && id !in phase.picked
  }

  /** The completed drains of a run that did not take the extraction. */
  ghost function Skips(cfg: Config, w: World, run: seq<Action>, id: string): nat
    requires IsRun(cfg, w, run)
    decreases |run|
  {
    if run == [] then 0 else
      (if run[0].DrainEnd? && PassesOver(w.phase, id) then 1 else 0) + Skips(cfg, Apply(cfg, w, run[0]), run[1..], id)
  }

  /** The extractions that a drain has still to handle, or is handling. */
  predicate Outstanding(phase: Phase, id: string) {
    phase.Extracting? && (id in phase.calls || exists i :: 0 <= i < |phase.waiting| && phase.waiting[i].eventId == id)
  }

  /** A drain that passes the extraction over is a full one, and all it has left to do is at least as old. */
  ghost predicate OnlyOlder(w: World, scope: Scope)
    requires scope.NoYoungerThan?
  {
    PassesOver(w.phase, scope.id) ==>
      && |w.phase.picked| == EXTRACTION_LIMIT
      && forall id :: Outstanding(w.phase, id) && id in w.db.extractions ==> InScope(scope, id, w.db.extractions[id].createdAt)
  }

  lemma SelectionPassesForOlder(cfg: Config, w: World, a: Action, scope: Scope)
    requires scope.NoYoungerThan? && a.CapturesDone? && Enabled(cfg, w, a)
    requires ExtractionDue(w.db, scope.id, a.now) && w.db.extractions[scope.id].createdAt == scope.createdAt
    ensures OnlyOlder(Apply(cfg, w, a), scope)
  {
    if scope.id !in a.picked {
      assert scope.id in DueExtractions(w.db, a.now);
      forall i | 0 <= i < |a.picked| ensures InScope(scope, a.picked[i], w.db.extractions[a.picked[i]].createdAt) {
        assert a.picked[i] in a.picked;
      }
    }
  }

  ghost predicate KeepCreation(db: Db, db': Db) {
    forall id :: id in db.extractions && id in db'.extractions ==> db'.extractions[id].createdAt == db.extractions[id].createdAt
  }

  lemma HooksKeepCreation(cfg: Config, w: World, a: Action)
    ensures a.HookStop? ==> KeepCreation(w.db, ApplyStop(cfg, w, a).db)
    ensures a.HookToolUse? ==> KeepCreation(w.db, ApplyToolUse(cfg, w, a).db)
  {
  }

  lemma SessionEndKeepsCreation(cfg: Config, w: World, a: Action)
    requires a.HookSessionEnd?
    ensures KeepCreation(w.db, ApplySessionEnd(cfg, w, a).db)
  {
  }

  lemma PruneKeepsCreation(db: Db, table: Table, now: int)
    ensures KeepCreation(db, ApplyPrune(db, table, now))
  {
  }

  lemma SkippingKeepsCreation(db: Db, id: string, reason: string, now: int)
    ensures KeepCreation(db, MarkSkipped(db, id, reason, now)) && KeepCreation(db, MarkExtractionDead(db, id, reason, now))
  {
  }

  lemma StartKeepsCreation(w: World, now: int)
    requires w.phase.Extracting? && w.phase.waiting != []
    ensures KeepCreation(w.db, ApplyExtractionStart(w, now).db)
  {
    var item := w.phase.waiting[0];
    if item.contextId !in w.db.contexts {
      SkippingKeepsCreation(w.db, item.eventId, "session context expired or missing", now);
    } else if item.verdict.NoConversation? {
      SkippingKeepsCreation(w.db, item.eventId, "no completed conversation was captured", now);
    } else if item.verdict.TooLittle? {
      SkippingKeepsCreation(w.db, item.eventId, item.verdict.detail, now);
    }
  }

  lemma SettleKeepsCreation(cfg: Config, w: World, id: string, outcome: Call, taskId: Option<string>, now: int)
    requires CanSettleExtraction(w, id, outcome)
    ensures KeepCreation(w.db, ApplyExtractionSettles(cfg, w, id, outcome, taskId, now).db)
  {
  }

  /** No statement changes when a row was created. */
  lemma RowsKeepCreation(cfg: Config, w: World, a: Action)
    requires References(w.db) && DrainOk(cfg, w.db, w.phase) && Enabled(cfg, w, a)
    ensures KeepCreation(w.db, Apply(cfg, w, a).db)
  {
    if a.HookStop? || a.HookToolUse? {
      HooksKeepCreation(cfg, w, a);
    } else if a.HookSessionEnd? {
      SessionEndKeepsCreation(cfg, w, a);
    } else if a.PruneTable? {
      PruneKeepsCreation(w.db, a.table, a.now);
    } else if a.ExtractionStart? {
      StartKeepsCreation(w, a.now);
    } else if a.ExtractionSettles? {
      SettleKeepsCreation(cfg, w, a.id, a.outcome, a.taskId, a.now);
    } else {
      OtherBudget(cfg, w, a);
    }
  }

  /** A step adds nothing to what a drain has left to do. */
  lemma NothingNewOutstanding(cfg: Config, w: World, a: Action, id: string)
    requires Inv(cfg, w) && Enabled(cfg, w, a) && !a.CapturesDone? && Outstanding(Apply(cfg, w, a).phase, id)
    ensures Outstanding(w.phase, id) && id in w.db.extractions
  {
    if a.ExtractionStart? {
      StartLeavesOutstanding(w, a.now, id);
    } else if IsEnvironment(a) {
      EnvironmentIsQuiet(cfg, w, a);
    }
  }

  lemma StartLeavesOutstanding(w: World, now: int, id: string)
    requires w.phase.Extracting? && w.phase.waiting != [] && Outstanding(ApplyExtractionStart(w, now).phase, id)
    ensures Outstanding(w.phase, id)
  {
    var next := ApplyExtractionStart(w, now).phase;
    if id !in next.calls {
      var i :| 0 <= i < |next.waiting| && next.waiting[i].eventId == id;
      assert w.phase.waiting[i + 1].eventId == id;
    } else if id !in w.phase.calls {
      assert w.phase.waiting[0].eventId == id;
    }
  }

  lemma StepOnlyOlder(cfg: Config, w: World, a: Action, scope: Scope)
    requires scope.NoYoungerThan? && Inv(cfg, w) && Enabled(cfg, w, a) && OnlyOlder(w, scope)
    requires a.CapturesDone? ==> ExtractionDue(w.db, scope.id, a.now) && w.db.extractions[scope.id].createdAt == scope.createdAt
    ensures OnlyOlder(Apply(cfg, w, a), scope)
  {
    var next := Apply(cfg, w, a);
    if a.CapturesDone? {
      SelectionPassesForOlder(cfg, w, a, scope);
    } else if PassesOver(next.phase, scope.id) {
      StepProgress(cfg, w, a);
      RowsKeepCreation(cfg, w, a);
      forall id | Outstanding(next.phase, id) && id in next.db.extractions
        ensures InScope(scope, id, next.db.extractions[id].createdAt)
      {
        NothingNewOutstanding(cfg, w, a, id);
      }
    }
  }

  ghost function Spent(w: World, id: string): nat {
    if PassesOver(w.phase, id) then Progress(w.phase) else 0
  }

  /** While a drain passes the extraction over, whatever it handles uses up attempts of older ones. */
  lemma StepSpends(cfg: Config, w: World, a: Action, scope: Scope)
    requires scope.NoYoungerThan? && Inv(cfg, w) && Enabled(cfg, w, a) && OnlyOlder(w, scope)
    requires Arrives(w, a) ==> a.now > scope.createdAt
    ensures (if a.DrainEnd? && PassesOver(w.phase, scope.id) then EXTRACTION_LIMIT else 0) +
            Budget(cfg.maxAttempts, scope, Apply(cfg, w, a).db) + Spent(Apply(cfg, w, a), scope.id)
         <= Budget(cfg.maxAttempts, scope, w.db) + Spent(w, scope.id)
  {
    StepBudget(cfg, scope, w, a);
    StepProgress(cfg, w, a);
    if Handles(w, a) {
      assert Outstanding(w.phase, HandledId(w, a));
    }
  }

  lemma {:induction false} SkipsSpendBudget(cfg: Config, w: World, run: seq<Action>, scope: Scope)
    requires scope.NoYoungerThan? && Inv(cfg, w) && IsRun(cfg, w, run) && StaysDue(cfg, w, run, scope) && OnlyOlder(w, scope)
    ensures EXTRACTION_LIMIT * Skips(cfg, w, run, scope.id) + Budget(cfg.maxAttempts, scope, Exec(cfg, w, run).db)
         <= Budget(cfg.maxAttempts, scope, w.db) + Spent(w, scope.id)
    decreases |run|
  {
    if run != [] {
      StepSpends(cfg, w, run[0], scope);
      StepOnlyOlder(cfg, w, run[0], scope);
      StepKeepsInv(cfg, w, run[0]);
      SkipsSpendBudget(cfg, Apply(cfg, w, run[0]), run[1..], scope);
    }
  }

  /** An extraction that stays due is passed over by at most B/10 drains, where B is the budget of the queued
      extractions that are at least as old: it is selected within 1 + B/10 drains. */
  lemma BoundedWaiting(cfg: Config, w: World, run: seq<Action>, id: string, createdAt: int)
    requires Inv(cfg, w) && !w.phase.Extracting? && IsRun(cfg, w, run)
    requires StaysDue(cfg, w, run, NoYoungerThan(id, createdAt))
    ensures Skips(cfg, w, run, id) <= Budget(cfg.maxAttempts, NoYoungerThan(id, createdAt), w.db) / EXTRACTION_LIMIT
  {
    SkipsSpendBudget(cfg, w, run, NoYoungerThan(id, createdAt));
  }
}
