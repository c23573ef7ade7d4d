/** The promises of the capture queue, for every run: any order of hooks, pruning, worker steps, remote
    answers and crashes. */
module CaptureTheorems {
  import opened Basics
  import opened GatewayDb
  import opened CaptureQueue
  import opened CoreClient
  import opened Json
  import opened CaptureInvariant

  lemma {:induction false} RunKeepsInv(cfg: Config, w: World, run: seq<Action>)
    requires Inv(cfg, w) && IsRun(cfg, w, run)
    ensures Inv(cfg, Exec(cfg, w, run))
    decreases |run|
  {
    if run != [] {
      StepKeepsInv(cfg, w, run[0]);
      RunKeepsInv(cfg, Apply(cfg, w, run[0]), run[1..]);
    }
  }

  // ----- Effectively once at Core -----

  /** Core applies no idempotency key twice, and only what a stop hook had enqueued under that key. */
  lemma CoreAppliesAtMostOnce(cfg: Config, run: seq<Action>)
    requires ValidConfig(cfg) && IsRun(cfg, INIT, run)
    ensures var w := Exec(cfg, INIT, run);
            && (forall i, j :: 0 <= i < j < |w.remote.applied| ==> w.remote.applied[i].key != w.remote.applied[j].key)
            && (forall i :: 0 <= i < |w.remote.applied| ==> w.remote.applied[i] in w.history.enqueued)
  {
    InitInv(cfg);
    RunKeepsInv(cfg, INIT, run);
  }

  /** Core, or the transport, answers a call for the event in a way that leaves the worker with an empty message. */
  predicate IsBlankAnswer(a: Action, id: string) {
    a.CallSettles? && a.id == id && a.sink.Core? && GivesBlank(a.response)
  }

  lemma NoBlankStep(cfg: Config, w: World, a: Action, id: string)
    requires Enabled(cfg, w, a) && !IsBlankAnswer(a, id) && id !in w.history.blank
    ensures id !in Apply(cfg, w, a).history.blank
  {
    if a.CallSettles? {
      ThrownBlankIff(a.response);
    }
  }

  lemma {:induction false} NoBlankAnswers(cfg: Config, w: World, run: seq<Action>, id: string)
    requires IsRun(cfg, w, run) && id !in w.history.blank && forall i :: 0 <= i < |run| ==> !IsBlankAnswer(run[i], id)
    ensures id !in Exec(cfg, w, run).history.blank
    decreases |run|
  {
    if run != [] {
      assert !IsBlankAnswer(run[0], id);
      NoBlankStep(cfg, w, run[0], id);
      NoBlankAnswers(cfg, Apply(cfg, w, run[0]), run[1..], id);
    }
  }

  /** `core_status = 'done'` means Core applied the event exactly once, in every run in which no refusal of a call
      to Core for this event prints as nothing. */
  lemma DoneMeansAppliedOnce(cfg: Config, run: seq<Action>, id: string)
    requires ValidConfig(cfg) && IsRun(cfg, INIT, run) && forall i :: 0 <= i < |run| ==> !IsBlankAnswer(run[i], id)
    requires var w := Exec(cfg, INIT, run); id in w.db.captures && w.db.captures[id].core.Done?
    ensures var applied := Exec(cfg, INIT, run).remote.applied;
            exists i :: 0 <= i < |applied| && applied[i].key == id && forall j :: 0 <= j < |applied| && j != i ==> applied[j].key != id
  {
    InitInv(cfg);
    RunKeepsInv(cfg, INIT, run);
    NoBlankAnswers(cfg, INIT, run, id);
    var applied := Exec(cfg, INIT, run).remote.applied;
    var i :| 0 <= i < |applied| && applied[i].key == id;
    assert forall j :: 0 <= j < i ==> applied[j].key != applied[i].key;
    assert forall j :: i < j < |applied| ==> applied[i].key != applied[j].key;
  }

  /** A response as Core's interface declares it, with a text for a message if it has one, or a transport failure
      that says something. */
  predicate IsDeclared(r: Response) {
    if r.Transport? then r.message != ""
    else Field(r.body, "message").Some? ==> Field(r.body, "message").value.JStr?
  }

  /** With such responses the promise holds in every run. */
  lemma DoneMeansAppliedOnceAsDeclared(cfg: Config, run: seq<Action>, id: string)
    requires ValidConfig(cfg) && IsRun(cfg, INIT, run)
    requires forall i :: 0 <= i < |run| && run[i].CallSettles? ==> IsDeclared(run[i].response)
    requires var w := Exec(cfg, INIT, run); id in w.db.captures && w.db.captures[id].core.Done?
    ensures var applied := Exec(cfg, INIT, run).remote.applied;
            exists i :: 0 <= i < |applied| && applied[i].key == id && forall j :: 0 <= j < |applied| && j != i ==> applied[j].key != id
  {
    DoneMeansAppliedOnce(cfg, run, id);
  }

  /** A rejected call is recorded as done exactly when its message is empty. */
  lemma RejectionMarkedDoneIffBlank(maxAttempts: nat, item: Item, message: string, skill: Option<Call>)
    requires item.core.Pending? && skill.Some? == item.skill.Pending? && Settled(skill)
    ensures Succeed(Core) in FinishMarks(maxAttempts, item, Some(Rejected(message)), skill) <==> message == ""
  {
    FinishMarksSafe(maxAttempts, item, Some(Rejected(message)), skill);
  }

  /** A call's response marks Core done exactly when it is a success or a refusal that prints as nothing. */
  lemma MarkedDoneIff(maxAttempts: nat, item: Item, response: Response, skill: Option<Call>)
    requires item.core.Pending? && skill.Some? == item.skill.Pending? && Settled(skill)
    ensures Succeed(Core) in FinishMarks(maxAttempts, item, Some(Outcome(response)), skill) <==> Succeeds(response) || GivesBlank(response)
  {
    FinishMarksSafe(maxAttempts, item, Some(Outcome(response)), skill);
    ThrownBlankIff(response);
  }

  // ----- In-flight rows and their contexts -----

  /** No drain ever meets a row without its context: the worker's branches for it are dead. */
  lemma ContextNeverMissing(cfg: Config, run: seq<Action>)
    requires ValidConfig(cfg) && IsRun(cfg, INIT, run)
    ensures var w := Exec(cfg, INIT, run);
            && (CanStart(cfg, w) ==> w.phase.todo[0].contextId in w.db.contexts)
            && (CanStartExtraction(cfg, w) ==> w.phase.waiting[0].contextId in w.db.contexts)
  {
    InitInv(cfg);
    RunKeepsInv(cfg, INIT, run);
    var w := Exec(cfg, INIT, run);
    if CanStart(cfg, w) {
      CaptureStartKeepsDrain(cfg, w, 0);
    }
    if CanStartExtraction(cfg, w) {
      ExtractionStartKeepsDrain(cfg, w, 0);
    }
  }

  /** A row that is waiting in the snapshot or in a worker's hands exists, is pending and equals the snapshot, and
      no more are handled at a time than there are lanes: for captures and for extractions. */
  lemma InFlightRowsExist(cfg: Config, run: seq<Action>)
    requires ValidConfig(cfg) && IsRun(cfg, INIT, run)
    ensures var w := Exec(cfg, INIT, run);
            && (w.phase.Capturing? ==>
                  && (forall i :: 0 <= i < |w.phase.todo| ==> Current(w.db, w.phase.todo[i]))
                  && (forall id :: id in w.phase.jobs ==> Current(w.db, w.phase.jobs[id].item))
                  && |w.phase.jobs| <= Lanes(cfg, |w.phase.picked|))
            && (w.phase.Extracting? ==>
                  && (forall i :: 0 <= i < |w.phase.waiting| ==> CurrentExtraction(w.db, w.phase.waiting[i]))
                  && (forall id :: id in w.phase.calls ==> CurrentExtraction(w.db, w.phase.calls[id]))
                  && |w.phase.calls| <= Lanes(cfg, |w.phase.picked|))
  {
    InitInv(cfg);
    RunKeepsInv(cfg, INIT, run);
  }

  // ----- Terminal states absorb -----

  ghost predicate Persists(cfg: Config, w: World, run: seq<Action>, id: string)
    requires IsRun(cfg, w, run)
    decreases |run|
  {
    id in w.db.captures && (run != [] ==> Persists(cfg, Apply(cfg, w, run[0]), run[1..], id))
  }

  lemma EnvironmentKeepsCounts(cfg: Config, w: World, a: Action, id: string)
    requires IsEnvironment(a) && Enabled(cfg, w, a) && id in w.db.captures && id in w.history.calls
    ensures id in Apply(cfg, w, a).history.calls && Apply(cfg, w, a).history.calls[id] == w.history.calls[id]
  {
  }

  ghost predicate SameSink(w: World, next: World, id: string, sink: Sink) {
    id in w.db.captures && id in w.history.calls && id in next.db.captures ==>
      && next.db.captures[id].Status(sink) == w.db.captures[id].Status(sink)
      && id in next.history.calls && next.history.calls[id].Of(sink) == w.history.calls[id].Of(sink)
  }

  lemma CaptureStartAbsorbs(cfg: Config, w: World, now: int, id: string, sink: Sink)
    requires CanStart(cfg, w) && References(w.db) && DrainOk(cfg, w.db, w.phase)
    requires id in w.db.captures && !w.db.captures[id].Status(sink).Pending?
    ensures SameSink(w, ApplyCaptureStart(w, now), id, sink)
  {
    CaptureStartKeepsDrain(cfg, w, now);
    assert Current(w.db, w.phase.todo[0]);
  }

  lemma CaptureMarkAbsorbs(cfg: Config, w: World, other: string, now: int, id: string, sink: Sink)
    requires CanMark(w, other) && DrainOk(cfg, w.db, w.phase)
    requires id in w.db.captures && !w.db.captures[id].Status(sink).Pending?
    ensures SameSink(w, ApplyCaptureMark(w, other, now), id, sink)
  {
    MarkKeepsItem(w.db, w.phase.jobs[other].item, w.phase.jobs[other].todo[0], now);
  }

  lemma StepAbsorbs(cfg: Config, w: World, a: Action, id: string, sink: Sink)
    requires Inv(cfg, w) && Enabled(cfg, w, a) && id in w.db.captures && !w.db.captures[id].Status(sink).Pending?
    ensures id in w.history.calls && SameSink(w, Apply(cfg, w, a), id, sink)
  {
    if IsEnvironment(a) {
      EnvironmentIsQuiet(cfg, w, a);
      EnvironmentKeepsCounts(cfg, w, a, id);
    } else if a.CaptureStart? {
      CaptureStartAbsorbs(cfg, w, a.now, id, sink);
    } else if a.CaptureMark? {
      CaptureMarkAbsorbs(cfg, w, a.id, a.now, id, sink);
    } else {
      CapturesLeftAlone(cfg, w, a);
    }
  }

  /** Once a sink is done or dead it stays so, and is not called again, for as long as the row exists. */
  lemma {:induction false} TerminalSinkAbsorbs(cfg: Config, w: World, run: seq<Action>, id: string, sink: Sink)
    requires Inv(cfg, w) && IsRun(cfg, w, run) && Persists(cfg, w, run, id)
    requires !w.db.captures[id].Status(sink).Pending?
    ensures var end := Exec(cfg, w, run);
            && id in end.db.captures && end.db.captures[id].Status(sink) == w.db.captures[id].Status(sink)
            && id in end.history.calls && end.history.calls[id].Of(sink) == w.history.calls[id].Of(sink)
    decreases |run|
  {
    if run != [] {
      StepAbsorbs(cfg, w, run[0], id, sink);
      StepKeepsInv(cfg, w, run[0]);
      TerminalSinkAbsorbs(cfg, Apply(cfg, w, run[0]), run[1..], id, sink);
    }
  }

  ghost predicate ExtractionPersists(cfg: Config, w: World, run: seq<Action>, id: string)
    requires IsRun(cfg, w, run)
    decreases |run|
  {
    id in w.db.extractions && (run != [] ==> ExtractionPersists(cfg, Apply(cfg, w, run[0]), run[1..], id))
  }

  lemma EnvironmentKeepsExtractCalls(cfg: Config, w: World, a: Action, id: string)
    requires IsEnvironment(a) && Enabled(cfg, w, a) && id in w.db.extractions && id in w.history.extractCalls
    ensures id in Apply(cfg, w, a).history.extractCalls
    ensures Apply(cfg, w, a).history.extractCalls[id] == w.history.extractCalls[id]
  {
  }

  ghost predicate SameExtractionState(w: World, next: World, id: string) {
    id in w.db.extractions && id in w.history.extractCalls && id in next.db.extractions ==>
      && next.db.extractions[id].status == w.db.extractions[id].status
      && id in next.history.extractCalls && next.history.extractCalls[id] == w.history.extractCalls[id]
  }

  lemma ExtractionStartAbsorbs(cfg: Config, w: World, now: int, id: string)
    requires CanStartExtraction(cfg, w) && References(w.db) && Budgets(cfg, w.db) && DrainOk(cfg, w.db, w.phase)
    requires id in w.db.extractions && !w.db.extractions[id].status.Queued?
    ensures SameExtractionState(w, ApplyExtractionStart(w, now), id)
  {
    ExtractionStartKeepsDrain(cfg, w, now);
    ExtractionStartStatement(cfg, w, now);
  }

  lemma ExtractionSettlesAbsorbs(cfg: Config, w: World, other: string, outcome: Call, taskId: Option<string>, now: int, id: string)
    requires CanSettleExtraction(w, other, outcome) && Budgets(cfg, w.db) && DrainOk(cfg, w.db, w.phase)
    requires id in w.db.extractions && !w.db.extractions[id].status.Queued?
    ensures SameExtractionState(w, ApplyExtractionSettles(cfg, w, other, outcome, taskId, now), id)
  {
    ExtractionSettlesStatement(cfg, w, other, outcome, taskId, now);
  }

  lemma EnvironmentAbsorbsExtraction(cfg: Config, w: World, a: Action, id: string)
    requires IsEnvironment(a) && Enabled(cfg, w, a) && id in w.db.extractions && id in w.history.extractCalls
    ensures SameExtractionState(w, Apply(cfg, w, a), id)
  {
    EnvironmentIsQuiet(cfg, w, a);
    EnvironmentKeepsExtractCalls(cfg, w, a, id);
  }

  lemma OtherStepAbsorbsExtraction(cfg: Config, w: World, a: Action, id: string)
    requires Enabled(cfg, w, a) && !IsEnvironment(a) && !a.ExtractionStart? && !a.ExtractionSettles?
    requires References(w.db) && DrainOk(cfg, w.db, w.phase) && id in w.db.extractions && id in w.history.extractCalls
    ensures SameExtractionState(w, Apply(cfg, w, a), id)
  {
    if a.CaptureStart? {
      CaptureStartKeepsDrain(cfg, w, a.now);
    } else {
      ExtractionsLeftAlone(cfg, w, a);
    }
  }

  lemma ExtractionStepAbsorbs(cfg: Config, w: World, a: Action, id: string)
    requires Inv(cfg, w) && Enabled(cfg, w, a) && id in w.db.extractions && !w.db.extractions[id].status.Queued?
    ensures id in w.history.extractCalls && SameExtractionState(w, Apply(cfg, w, a), id)
  {
    if IsEnvironment(a) {
      EnvironmentAbsorbsExtraction(cfg, w, a, id);
    } else if a.ExtractionStart? {
      ExtractionStartAbsorbs(cfg, w, a.now, id);
    } else if a.ExtractionSettles? {
      ExtractionSettlesAbsorbs(cfg, w, a.id, a.outcome, a.taskId, a.now, id);
    } else {
      OtherStepAbsorbsExtraction(cfg, w, a, id);
    }
  }

  /** Once an extraction is submitted, skipped or dead it stays so, and is not submitted again. */
  lemma {:induction false} TerminalExtractionAbsorbs(cfg: Config, w: World, run: seq<Action>, id: string)
    requires Inv(cfg, w) && IsRun(cfg, w, run) && ExtractionPersists(cfg, w, run, id)
    requires !w.db.extractions[id].status.Queued?
    ensures var end := Exec(cfg, w, run);
            && id in end.db.extractions && end.db.extractions[id].status == w.db.extractions[id].status
            && id in end.history.extractCalls && end.history.extractCalls[id] == w.history.extractCalls[id]
    decreases |run|
  {
    if run != [] {
      ExtractionStepAbsorbs(cfg, w, run[0], id);
      StepKeepsInv(cfg, w, run[0]);
      TerminalExtractionAbsorbs(cfg, Apply(cfg, w, run[0]), run[1..], id);
    }
  }

  // ----- The attempt budget -----

  /** In any run a sink of an existing row has been called at most once per allowed attempt and per crash. */
  lemma CallsWithinBudget(cfg: Config, run: seq<Action>, id: string, sink: Sink)
    requires ValidConfig(cfg) && IsRun(cfg, INIT, run)
    requires id in Exec(cfg, INIT, run).db.captures
    ensures var w := Exec(cfg, INIT, run);
            id in w.history.calls && w.history.calls[id].Of(sink) <= cfg.maxAttempts + w.history.crashes
  {
    InitInv(cfg);
    RunKeepsInv(cfg, INIT, run);
  }

  // ----- The settle window -----

  /** The moment an extraction is enqueued, and the moments of the later tool and stop hooks it must wait out. */
  ghost predicate HookCounts(cfg: Config, w: World, a: Action, id: string) {
    match a
    case HookSessionEnd(principalId, contextId, _, now) =>
      && ContextUsable(w.db, contextId, principalId, now)
      && id == ExtractionSeed(contextId, w.db.contexts[contextId].place.sessionId) && id !in w.db.extractions
    case HookStop(principalId, contextId, turnId, _, supplied, now) =>
      && ContextUsable(w.db, contextId, principalId, now) && TurnPrompt(w.db, contextId, turnId, supplied) != ""
      && id in w.db.extractions && w.db.extractions[id].contextId == contextId && w.db.extractions[id].status.Queued?
    case HookToolUse(principalId, contextId, _, _, _, _, _, now) =>
      && ContextUsable(w.db, contextId, principalId, now)
      && id in w.db.extractions && w.db.extractions[id].contextId == contextId && w.db.extractions[id].status.Queued?
    case _ => false
  }

  lemma HookIsNoted(cfg: Config, w: World, a: Action, id: string)
    requires HookCounts(cfg, w, a, id) && SettleOk(cfg, w.db, w.history)
    ensures var h := Apply(cfg, w, a).history; id in h.hooks && a.now in h.hooks[id]
  {
  }

  lemma WorkerKeepsHooks(cfg: Config, w: World, a: Action)
    requires Enabled(cfg, w, a) && !IsEnvironment(a)
    ensures Apply(cfg, w, a).history.hooks == w.history.hooks
  {
  }

  lemma StepKeepsHooks(cfg: Config, w: World, a: Action, id: string, t: int)
    requires Enabled(cfg, w, a)
    requires id in w.db.extractions && id in w.history.hooks && t in w.history.hooks[id]
    ensures id in Apply(cfg, w, a).history.hooks && t in Apply(cfg, w, a).history.hooks[id]
  {
    if !IsEnvironment(a) {
      WorkerKeepsHooks(cfg, w, a);
    }
  }

  lemma {:induction false} RunKeepsHooks(cfg: Config, w: World, run: seq<Action>, id: string, t: int)
    requires Inv(cfg, w) && IsRun(cfg, w, run) && ExtractionPersists(cfg, w, run, id) && t in w.history.hooks[id]
    ensures var h := Exec(cfg, w, run).history; id in h.hooks && t in h.hooks[id]
    decreases |run|
  {
    if run != [] {
      StepKeepsHooks(cfg, w, run[0], id, t);
      StepKeepsInv(cfg, w, run[0]);
      RunKeepsHooks(cfg, Apply(cfg, w, run[0]), run[1..], id, t);
    }
  }

  lemma SelectedAfterHooks(cfg: Config, w: World, selection: Action, id: string, t: int)
    requires SettleOk(cfg, w.db, w.history) && selection.CapturesDone? && Enabled(cfg, w, selection) && id in selection.picked
    requires id in w.db.extractions && w.db.extractions[id].attempts == 0 && id in w.history.hooks && t in w.history.hooks[id]
    ensures selection.now >= t + Max(0, cfg.settleMs)
  {
    assert id in DueExtractions(w.db, selection.now);
  }

  /** An extraction that has not failed yet is selected no earlier than the settle delay after its
      enqueue and after every later hook on its context, whatever the order of the hooks. */
  lemma SettleWindow(cfg: Config, w: World, hook: Action, run: seq<Action>, selection: Action, id: string)
    requires Inv(cfg, w) && HookCounts(cfg, w, hook, id) && Enabled(cfg, w, hook)
    requires var w1 := Apply(cfg, w, hook);
             && IsRun(cfg, w1, run) && ExtractionPersists(cfg, w1, run, id)
             && var w2 := Exec(cfg, w1, run);
                && selection.CapturesDone? && Enabled(cfg, w2, selection) && id in selection.picked
                && id in w2.db.extractions && w2.db.extractions[id].attempts == 0
    ensures selection.now >= hook.now + Max(0, cfg.settleMs)
  {
    StepKeepsInv(cfg, w, hook);
    HookIsNoted(cfg, w, hook, id);
    var w1 := Apply(cfg, w, hook);
    RunKeepsHooks(cfg, w1, run, id, hook.now);
    RunKeepsInv(cfg, w1, run);
    SelectedAfterHooks(cfg, Exec(cfg, w1, run), selection, id, hook.now);
  }
}
