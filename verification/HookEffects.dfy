/** What the hooks leave in the tables, field by field, whose hooks count, and what each DELETE takes away. */
module HookEffects {
  import opened Basics
  import opened GatewayDb
  import opened CaptureQueue
  import opened CaptureInvariant
  import SseText

  /** The row of a turn that was just enqueued: both sinks pending, due at once. */
  predicate IsNewRow(row: Capture, contextId: string, turnId: string, user: string, assistant: string, now: int) {
    && row.contextId == contextId && row.turnId == turnId && row.user == user && row.assistant == assistant
    && row.core.Pending? && row.skill.Pending? && row.attempts == 0 && row.lastError.None?
    && row.nextAttemptAt == now && row.createdAt == now && row.updatedAt == now
  }

  /** The hook brings no prompt of its own. */
  predicate BringsNone(supplied: Option<string>) {
    supplied.Some? ==> forall k :: 0 <= k < |supplied.value| ==> IsSpace(supplied.value[k])
  }

  predicate IsOf(a: Action, contextId: string, turnId: string) {
    (a.HookPrompt? || a.HookStop?) && a.contextId == contextId && a.turnId == turnId
  }

  /** The step neither opens nor ends the turn, and is no pruning that comes a day or more after it was opened. */
  predicate SparesTurn(a: Action, contextId: string, turnId: string, since: int) {
    !IsOf(a, contextId, turnId) && !(a.PruneTable? && a.table.TurnRows? && since < a.now - 24 * 60 * 60 * 1000)
  }

  lemma StepSparesTurn(cfg: Config, w: World, a: Action, contextId: string, turnId: string, turn: PendingTurn)
    requires Enabled(cfg, w, a) && SparesTurn(a, contextId, turnId, turn.updatedAt)
    requires (contextId, turnId) in w.db.turns && w.db.turns[(contextId, turnId)] == turn
    ensures var db := Apply(cfg, w, a).db; (contextId, turnId) in db.turns && db.turns[(contextId, turnId)] == turn
  {
    if a.HookStop? {
      OtherStopSpares(cfg, w, a, (contextId, turnId));
    } else if a.HookToolUse? {
      ToolUseSpares(cfg, w, a);
    } else if a.HookSessionEnd? {
      SessionEndSpares(cfg, w, a);
    } else if a.PruneTable? {
      PruneSpares(w.db, a.table, a.now, (contextId, turnId));
    } else if !IsEnvironment(a) {
      WorkerSpares(cfg, w, a);
    }
  }

  lemma OtherStopSpares(cfg: Config, w: World, a: Action, key: TurnKey)
    requires a.HookStop? && key in w.db.turns && key != (a.contextId, a.turnId)
    ensures var db := ApplyStop(cfg, w, a).db; key in db.turns && db.turns[key] == w.db.turns[key]
  {
  }

  lemma ToolUseSpares(cfg: Config, w: World, a: Action)
    requires a.HookToolUse?
    ensures ApplyToolUse(cfg, w, a).db.turns == w.db.turns
  {
  }

  lemma SessionEndSpares(cfg: Config, w: World, a: Action)
    requires a.HookSessionEnd?
    ensures ApplySessionEnd(cfg, w, a).db.turns == w.db.turns
  {
  }

  lemma PruneSpares(db: Db, table: Table, now: int, key: TurnKey)
    requires key in db.turns && (table.TurnRows? ==> db.turns[key].updatedAt >= now - DAY)
    ensures var after := ApplyPrune(db, table, now); key in after.turns && after.turns[key] == db.turns[key]
  {
  }

  lemma WorkerSpares(cfg: Config, w: World, a: Action)
    requires Enabled(cfg, w, a) && !IsEnvironment(a)
    ensures Apply(cfg, w, a).db.turns == w.db.turns
  {
  }

  lemma {:induction false} RunSparesTurn(cfg: Config, w: World, run: seq<Action>, contextId: string, turnId: string, turn: PendingTurn)
    requires IsRun(cfg, w, run) && forall i :: 0 <= i < |run| ==> SparesTurn(run[i], contextId, turnId, turn.updatedAt)
    requires (contextId, turnId) in w.db.turns && w.db.turns[(contextId, turnId)] == turn
    ensures var db := Exec(cfg, w, run).db; (contextId, turnId) in db.turns && db.turns[(contextId, turnId)] == turn
    decreases |run|
  {
    if run != [] {
      StepSparesTurn(cfg, w, run[0], contextId, turnId, turn);
      RunSparesTurn(cfg, Apply(cfg, w, run[0]), run[1..], contextId, turnId, turn);
    }
  }

  /** A stop hook of a live context with a text to store has its row afterwards, a new one if there was none with that
      content, and its turn is closed. Without a text it changes nothing. */
  lemma StopStores(cfg: Config, w: World, stop: Action, user: string)
    requires stop.HookStop? && ContextUsable(w.db, stop.contextId, stop.principalId, stop.now)
    requires user == TurnPrompt(w.db, stop.contextId, stop.turnId, stop.supplied)
    ensures var id, next := CaptureSeed(stop.contextId, stop.turnId, user, stop.assistant), ApplyStop(cfg, w, stop);
            if user == "" then next == w else
              && id in next.db.captures && (stop.contextId, stop.turnId) !in next.db.turns
              && (forall other :: other in w.db.captures ==> other in next.db.captures && next.db.captures[other] == w.db.captures[other])
              && next.db.captures.Keys == w.db.captures.Keys + {id}
              && (id !in w.db.captures ==>
                    IsNewRow(next.db.captures[id], stop.contextId, stop.turnId, user, stop.assistant, stop.now))
  {
  }

  lemma BlankBringsNone(supplied: Option<string>)
    ensures BringsNone(supplied) <==> supplied.None? || Trim(supplied.value) == ""
  {
    if supplied.Some? {
      SseText.TrimBlank(supplied.value);
    }
  }

  /** The latest prompt of a turn is what a stop hook without one stores, if the turn was neither ended nor pruned
      in between. */
  lemma LatestPromptIsStored(cfg: Config, w: World, prompt: Action, run: seq<Action>, stop: Action)
    requires prompt.HookPrompt? && ContextUsable(w.db, prompt.contextId, prompt.principalId, prompt.now) && prompt.prompt != ""
    requires IsRun(cfg, Apply(cfg, w, prompt), run)
    requires forall i :: 0 <= i < |run| ==> SparesTurn(run[i], prompt.contextId, prompt.turnId, prompt.now)
    requires stop.HookStop? && IsOf(stop, prompt.contextId, prompt.turnId) && BringsNone(stop.supplied)
    requires ContextUsable(Exec(cfg, Apply(cfg, w, prompt), run).db, stop.contextId, stop.principalId, stop.now)
    ensures var id := CaptureSeed(stop.contextId, stop.turnId, prompt.prompt, stop.assistant);
            var end := Exec(cfg, Apply(cfg, w, prompt), run);
            var next := Apply(cfg, end, stop);
            && id in next.db.captures && (stop.contextId, stop.turnId) !in next.db.turns
            && (id !in end.db.captures ==>
                  IsNewRow(next.db.captures[id], stop.contextId, stop.turnId, prompt.prompt, stop.assistant, stop.now))
  {
    var begun := Apply(cfg, w, prompt);
    RunSparesTurn(cfg, begun, run, prompt.contextId, prompt.turnId, PendingTurn(prompt.prompt, prompt.now));
    BlankBringsNone(stop.supplied);
    StopStores(cfg, Exec(cfg, begun, run), stop, prompt.prompt);
  }

  /** A prompt the hook brings along goes before the stored one. */
  lemma SuppliedPromptIsStored(cfg: Config, w: World, stop: Action, user: string)
    requires stop.HookStop? && ContextUsable(w.db, stop.contextId, stop.principalId, stop.now)
    requires !BringsNone(stop.supplied) && user == Trim(stop.supplied.value)
    ensures var id, next := CaptureSeed(stop.contextId, stop.turnId, user, stop.assistant), ApplyStop(cfg, w, stop);
            && id in next.db.captures && (stop.contextId, stop.turnId) !in next.db.turns
            && (id !in w.db.captures ==>
                  IsNewRow(next.db.captures[id], stop.contextId, stop.turnId, user, stop.assistant, stop.now))
  {
    BlankBringsNone(stop.supplied);
    StopStores(cfg, w, stop, user);
  }

  // ----- Tool uses and session ends -----

  predicate IsNewTool(row: ToolEvent, contextId: string, turnId: string, toolUseId: string, name: string, input: string, response: string, now: int) {
    && row.contextId == contextId && row.turnId == turnId && row.toolUseId == toolUseId
    && row.toolName <= name && |row.toolName| == Min(|name|, 256)
    && row.inputJson == input && row.responseJson == response && row.createdAt == now
  }

  /** A tool use is stored once, with what went in and what came out. */
  lemma ToolUseStores(cfg: Config, w: World, a: Action)
    requires a.HookToolUse? && ContextUsable(w.db, a.contextId, a.principalId, a.now)
    ensures var id, next := a.contextId + "\0" + a.turnId + "\0" + a.toolUseId, ApplyToolUse(cfg, w, a);
            && next.db.tools.Keys == w.db.tools.Keys + {id}
            && (forall other :: other in w.db.tools ==> next.db.tools[other] == w.db.tools[other])
            && (id !in w.db.tools ==> IsNewTool(next.db.tools[id], a.contextId, a.turnId, a.toolUseId, a.toolName, a.input, a.result, a.now))
            && next.db.captures == w.db.captures && next.db.turns == w.db.turns
  {
  }

  predicate IsNewExtraction(row: Extraction, contextId: string, reason: string, due: int, now: int) {
    && row.contextId == contextId && row.reason <= reason && |row.reason| == Min(|reason|, 500)
    && row.status.Queued? && row.taskId.None? && row.attempts == 0 && row.lastError.None?
    && row.nextAttemptAt == due && row.createdAt == now && row.updatedAt == now
  }

  /** A session end asks for an extraction once per session, due when the settle delay is over. */
  lemma SessionEndStores(cfg: Config, w: World, a: Action)
    requires a.HookSessionEnd? && ContextUsable(w.db, a.contextId, a.principalId, a.now)
    ensures var id := a.contextId + "\0" + w.db.contexts[a.contextId].place.sessionId + "\0skill-extract";
            var next := ApplySessionEnd(cfg, w, a);
            && next.db.extractions.Keys == w.db.extractions.Keys + {id}
            && (forall other :: other in w.db.extractions ==> next.db.extractions[other] == w.db.extractions[other])
            && (id !in w.db.extractions ==>
                  IsNewExtraction(next.db.extractions[id], a.contextId, a.reason, a.now + Max(0, cfg.settleMs), a.now))
            && next.db == w.db.(extractions := next.db.extractions)
  {
  }

  predicate IsTouched(row: Extraction, after: Extraction, contextId: string, due: int) {
    if row.contextId == contextId && row.status.Queued? then
      after == row.(nextAttemptAt := if due > row.nextAttemptAt then due else row.nextAttemptAt, updatedAt := after.updatedAt)
    else after == row
  }

  /** A tool use or a stored turn puts off the queued extraction of its own context, and no other. */
  lemma HooksTouch(cfg: Config, w: World, a: Action)
    requires a.HookToolUse? || a.HookStop?
    requires ContextUsable(w.db, a.contextId, a.principalId, a.now)
    ensures a.HookToolUse? ==>
              var after := ApplyToolUse(cfg, w, a).db.extractions;
              && after.Keys == w.db.extractions.Keys
              && forall id :: id in after ==> IsTouched(w.db.extractions[id], after[id], a.contextId, a.now + Max(0, cfg.settleMs))
    ensures a.HookStop? && TurnPrompt(w.db, a.contextId, a.turnId, a.supplied) != "" ==>
              var after := ApplyStop(cfg, w, a).db.extractions;
              && after.Keys == w.db.extractions.Keys
              && forall id :: id in after ==> IsTouched(w.db.extractions[id], after[id], a.contextId, a.now + Max(0, cfg.settleMs))
  {
  }

  // ----- Whose hooks count -----

  predicate IsHook(a: Action) {
    a.HookPrompt? || a.HookStop? || a.HookToolUse? || a.HookSessionEnd?
  }

  /** A hook for a context that is unknown, expired or another principal's changes nothing. */
  lemma ForeignHookIsIgnored(cfg: Config, w: World, a: Action)
    requires IsHook(a) && Enabled(cfg, w, a)
    requires a.contextId in w.db.contexts ==>
               w.db.contexts[a.contextId].principalId != a.principalId || w.db.contexts[a.contextId].expiresAt <= a.now
    ensures Apply(cfg, w, a) == w
  {
  }

  /** Any other prompt is stored. */
  lemma PromptStores(cfg: Config, w: World, a: Action)
    requires a.HookPrompt? && Enabled(cfg, w, a) && a.contextId in w.db.contexts
    requires w.db.contexts[a.contextId].principalId == a.principalId && w.db.contexts[a.contextId].expiresAt > a.now
    ensures var next, key := Apply(cfg, w, a), (a.contextId, a.turnId);
            && next == w.(db := w.db.(turns := next.db.turns)) && next.db.turns.Keys == w.db.turns.Keys + {key}
            && next.db.turns[key].prompt == a.prompt && next.db.turns[key].updatedAt == a.now
            && forall other :: other in w.db.turns && other != key ==> next.db.turns[other] == w.db.turns[other]
  {
  }

  // ----- Pruning -----

  ghost predicate IsPruned<K, V>(before: map<K, V>, after: map<K, V>, goes: set<K>) {
    after.Keys == before.Keys - goes && forall k :: k in after ==> after[k] == before[k]
  }

  const DAY_MS := 86_400_000

  ghost predicate HasWork(db: Db, contextId: string) {
    || (exists id :: id in db.captures && db.captures[id].contextId == contextId && (db.captures[id].core.Pending? || db.captures[id].skill.Pending?))
    || (exists id :: id in db.extractions && db.extractions[id].contextId == contextId && db.extractions[id].status.Queued?)
  }

  /** What each DELETE takes away: turns after a day, contexts that have expired and have no work left, finished captures
      and extractions and all tool uses after a week, and expired requests. */
  lemma PruneTakes(db: Db, table: Table, now: int)
    ensures var next := ApplyPrune(db, table, now);
            match table
            case TurnRows =>
              next == db.(turns := next.turns)
              && IsPruned(db.turns, next.turns, set k | k in db.turns && db.turns[k].updatedAt < now - DAY_MS)
            case ContextRows =>
              next == db.(contexts := next.contexts)
              && (forall id :: id in next.contexts <==> id in db.contexts && (db.contexts[id].expiresAt >= now || HasWork(db, id)))
              && forall id :: id in next.contexts ==> next.contexts[id] == db.contexts[id]
            case CaptureRows =>
              next == db.(captures := next.captures)
              && IsPruned(db.captures, next.captures, set id | id in db.captures
                          && !db.captures[id].core.Pending? && !db.captures[id].skill.Pending? && db.captures[id].updatedAt < now - 7 * DAY_MS)
            case ToolRows =>
              next == db.(tools := next.tools)
              && IsPruned(db.tools, next.tools, set id | id in db.tools && db.tools[id].createdAt < now - 7 * DAY_MS)
            case ExtractionRows =>
              next == db.(extractions := next.extractions)
              && IsPruned(db.extractions, next.extractions, set id | id in db.extractions
                          && !db.extractions[id].status.Queued? && db.extractions[id].updatedAt < now - 7 * DAY_MS)
            case RequestRows =>
              next == db.(requests := next.requests)
              && IsPruned(db.requests, next.requests, set id | id in db.requests && db.requests[id].expiresAt < now)
  {
    assert forall id :: HasWork(db, id) <==> ContextReferenced(db, id);
  }
}
