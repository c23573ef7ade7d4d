/** Progress of the capture queue: the unused attempts of the pending rows are a budget that every
    handled event draws on, so the queue drains and no due event waits long behind older ones. */
module CaptureProgress {
  import opened Basics
  import opened GatewayDb
  import opened CaptureQueue
  import opened CaptureInvariant
  import opened CaptureTheorems

  function Weight(maxAttempts: nat, scope: Scope, id: string, row: Capture): nat {
    if InScope(scope, id, row.createdAt) && row.IsPending() && row.attempts < maxAttempts then maxAttempts - row.attempts else 0
  }

  function Weights(maxAttempts: nat, scope: Scope, db: Db): map<string, nat> {
    map id | id in db.captures :: Weight(maxAttempts, scope, id, db.captures[id])
  }

  /** The attempts the pending rows in scope may still use. */
  ghost function Budget(maxAttempts: nat, scope: Scope, db: Db): nat {
    MapSum(Weights(maxAttempts, scope, db))
  }

  /** An empty budget means an empty queue. */
  lemma NoBudgetNoPending(cfg: Config, db: Db)
    requires Budgets(cfg, db) && Budget(cfg.maxAttempts, Everyone, db) == 0
    ensures forall id :: id in db.captures ==> !db.captures[id].IsPending()
  {
    forall id | id in db.captures ensures !db.captures[id].IsPending() {
      MapSumRemove(Weights(cfg.maxAttempts, Everyone, db), id);
    }
  }

  lemma FewerRowsSmallerBudget(maxAttempts: nat, scope: Scope, db: Db, db': Db)
    requires forall id :: id in db'.captures ==> id in db.captures && db'.captures[id] == db.captures[id]
    ensures Budget(maxAttempts, scope, db') <= Budget(maxAttempts, scope, db)
  {
    MapSumShrink(Weights(maxAttempts, scope, db), Weights(maxAttempts, scope, db'));
  }

  lemma OneRowBudget(maxAttempts: nat, scope: Scope, db: Db, id: string, row: Capture)
    ensures Budget(maxAttempts, scope, db.(captures := db.captures[id := row])) ==
            Budget(maxAttempts, scope, db) - (if id in db.captures then Weight(maxAttempts, scope, id, db.captures[id]) else 0)
              + Weight(maxAttempts, scope, id, row)
  {
    MapSumSet(Weights(maxAttempts, scope, db), id, Weight(maxAttempts, scope, id, row));
    assert Weights(maxAttempts, scope, db.(captures := db.captures[id := row]))
        == Weights(maxAttempts, scope, db)[id := Weight(maxAttempts, scope, id, row)];
  }

  lemma SameRowsBudget(maxAttempts: nat, scope: Scope, db: Db, db': Db)
    requires db'.captures == db.captures
    ensures Budget(maxAttempts, scope, db') == Budget(maxAttempts, scope, db)
  {
    assert Weights(maxAttempts, scope, db') == Weights(maxAttempts, scope, db);
  }

  lemma StopBudget(cfg: Config, scope: Scope, w: World, a: Action)
    requires a.HookStop?
    ensures var next := ApplyStop(cfg, w, a);
            && w.history.arrivals <= next.history.arrivals <= w.history.arrivals + 1
            && next.history.finished == w.history.finished
            && Budget(cfg.maxAttempts, scope, next.db) <=
               Budget(cfg.maxAttempts, scope, w.db) +
               (if next.history.arrivals > w.history.arrivals && (scope.NoYoungerThan? ==> a.now <= scope.createdAt) then cfg.maxAttempts else 0)
  {
    var next := ApplyStop(cfg, w, a);
    var user := TurnPrompt(w.db, a.contextId, a.turnId, a.supplied);
    if ContextUsable(w.db, a.contextId, a.principalId, a.now) && user != "" {
      var id := CaptureSeed(a.contextId, a.turnId, user, a.assistant);
      if id in w.db.captures {
        SameRowsBudget(cfg.maxAttempts, scope, w.db, next.db);
      } else {
        var row := NewCapture(a.contextId, a.turnId, user, a.assistant, a.now);
        OneRowBudget(cfg.maxAttempts, scope, w.db, id, row);
        SameRowsBudget(cfg.maxAttempts, scope, w.db.(captures := w.db.captures[id := row]), next.db);
      }
    }
  }

  lemma PruneBudget(maxAttempts: nat, scope: Scope, db: Db, table: Table, now: int)
    ensures Budget(maxAttempts, scope, ApplyPrune(db, table, now)) <= Budget(maxAttempts, scope, db)
  {
    FewerRowsSmallerBudget(maxAttempts, scope, db, ApplyPrune(db, table, now));
  }

  /** Each mark leaves the budget no larger; the last one of an event in scope uses some of it up. */
  lemma MarkBudget(cfg: Config, scope: Scope, db: Db, item: Item, todo: seq<Mark>, now: int)
    requires Current(db, item) && Budgets(cfg, db) && SafeMarks(cfg.maxAttempts, item, todo)
    ensures Budget(cfg.maxAttempts, scope, MarkDb(db, item.eventId, todo[0], now)) +
            (if |todo| == 1 && InScope(scope, item.eventId, item.createdAt) then 1 else 0)
         <= Budget(cfg.maxAttempts, scope, db)
  {
    MarkKeepsItem(db, item, todo[0], now);
    OneRowBudget(cfg.maxAttempts, scope, db, item.eventId, MarkDb(db, item.eventId, todo[0], now).captures[item.eventId]);
  }

  /** Steps that neither insert, mark nor prune captures. */
  lemma OtherSteps(cfg: Config, w: World, a: Action)
    requires References(w.db) && DrainOk(cfg, w.db, w.phase)
    requires Enabled(cfg, w, a) && !a.HookStop? && !a.PruneTable? && !a.CaptureMark?
    ensures var next := Apply(cfg, w, a);
            && next.db.captures == w.db.captures
            && next.history.finished == w.history.finished && next.history.arrivals == w.history.arrivals
  {
    if a.CaptureStart? {
      CaptureStartKeepsDrain(cfg, w, a.now);
    } else if !IsEnvironment(a) {
      CapturesLeftAlone(cfg, w, a);
    }
  }

  lemma OtherPhases(cfg: Config, w: World, a: Action)
    requires References(w.db) && DrainOk(cfg, w.db, w.phase)
    requires Enabled(cfg, w, a) && !a.CaptureMark?
    ensures var next := Apply(cfg, w, a);
            next.phase.Capturing? ==>
              if a.DrainBegin? then next.phase.finished == 0
              else w.phase.Capturing? && next.phase.picked == w.phase.picked && next.phase.finished == w.phase.finished
  {
    if a.CaptureStart? {
      CaptureStartKeepsDrain(cfg, w, a.now);
    }
  }

  /** Every handled event is paid for: by the budget there was, or by the attempts of new arrivals. */
  lemma StepBudget(cfg: Config, w: World, a: Action)
    requires Inv(cfg, w) && Enabled(cfg, w, a)
    ensures var next := Apply(cfg, w, a);
            && w.history.arrivals <= next.history.arrivals <= w.history.arrivals + 1 && w.history.finished <= next.history.finished
            && Budget(cfg.maxAttempts, Everyone, next.db) + (next.history.finished - w.history.finished) <=
               Budget(cfg.maxAttempts, Everyone, w.db) + (if next.history.arrivals > w.history.arrivals then cfg.maxAttempts else 0)
  {
    if a.HookStop? {
      StopBudget(cfg, Everyone, w, a);
    } else if a.PruneTable? {
      PruneBudget(cfg.maxAttempts, Everyone, w.db, a.table, a.now);
    } else if a.CaptureMark? {
      MarkBudget(cfg, Everyone, w.db, w.phase.jobs[a.id].item, w.phase.jobs[a.id].todo, a.now);
    } else {
      OtherSteps(cfg, w, a);
      SameRowsBudget(cfg.maxAttempts, Everyone, w.db, Apply(cfg, w, a).db);
    }
  }

  /** The budget and the events handled, less what the events that arrived brought along. */
  ghost function Balance(cfg: Config, w: World): int {
    Budget(cfg.maxAttempts, Everyone, w.db) + w.history.finished - cfg.maxAttempts * w.history.arrivals
  }

  lemma OneArrivalMore(m: nat, k: nat)
    ensures m * (k + 1) == m * k + m
  {
  }

  lemma StepBalance(cfg: Config, w: World, a: Action)
    requires Inv(cfg, w) && Enabled(cfg, w, a)
    ensures Balance(cfg, Apply(cfg, w, a)) <= Balance(cfg, w)
  {
    StepBudget(cfg, w, a);
    OneArrivalMore(cfg.maxAttempts, w.history.arrivals);
  }

  lemma {:induction false} BalanceNeverRises(cfg: Config, w: World, run: seq<Action>)
    requires Inv(cfg, w) && IsRun(cfg, w, run)
    ensures Balance(cfg, Exec(cfg, w, run)) <= Balance(cfg, w)
    decreases |run|
  {
    if run != [] {
      StepBalance(cfg, w, run[0]);
      StepKeepsInv(cfg, w, run[0]);
      BalanceNeverRises(cfg, Apply(cfg, w, run[0]), run[1..]);
    }
  }

  /** Over any run, with failures and crashes anywhere, every handled event is paid for by the budget
      there was or by the attempts of new arrivals. */
  lemma HandledWithinBudget(cfg: Config, w: World, run: seq<Action>)
    requires Inv(cfg, w) && IsRun(cfg, w, run)
    ensures var end := Exec(cfg, w, run);
            Budget(cfg.maxAttempts, Everyone, end.db) + end.history.finished + cfg.maxAttempts * w.history.arrivals <=
            Budget(cfg.maxAttempts, Everyone, w.db) + w.history.finished + cfg.maxAttempts * end.history.arrivals
  {
    BalanceNeverRises(cfg, w, run);
  }

  lemma EmptyBudget(maxAttempts: nat)
    ensures Budget(maxAttempts, Everyone, EMPTY_DB) == 0
  {
    assert Weights(maxAttempts, Everyone, EMPTY_DB) == map[];
  }

  /** From an empty store, the events ever handled number at most the allowed attempts of all events accepted. */
  lemma HandledOverall(cfg: Config, run: seq<Action>)
    requires ValidConfig(cfg) && IsRun(cfg, INIT, run)
    ensures Exec(cfg, INIT, run).history.finished <= cfg.maxAttempts * Exec(cfg, INIT, run).history.arrivals
  {
    InitInv(cfg);
    EmptyBudget(cfg.maxAttempts);
    BalanceNeverRises(cfg, INIT, run);
  }

  // ----- The queue drains -----

  /** The completed drains of a run that had something to do. */
  ghost function BusyDrains(cfg: Config, w: World, run: seq<Action>): nat
    requires IsRun(cfg, w, run)
    decreases |run|
  {
    if run == [] then 0 else
      (if run[0].CapturesDone? && w.phase.picked != [] then 1 else 0) + BusyDrains(cfg, Apply(cfg, w, run[0]), run[1..])
  }

  function Begun(phase: Phase): nat {
    if phase.Capturing? && phase.finished > 0 then 1 else 0
  }

  lemma StepBegun(cfg: Config, w: World, a: Action)
    requires Inv(cfg, w) && Enabled(cfg, w, a)
    ensures var next := Apply(cfg, w, a);
            (if a.CapturesDone? && w.phase.picked != [] then 1 else 0) + Begun(next.phase) <=
            next.history.finished - w.history.finished + Begun(w.phase)
  {
    if a.HookStop? {
      StopBudget(cfg, Everyone, w, a);
      OtherPhases(cfg, w, a);
    } else if !a.CaptureMark? {
      if !a.PruneTable? {
        OtherSteps(cfg, w, a);
      }
      OtherPhases(cfg, w, a);
    }
  }

  lemma {:induction false} BusyDrainsFinishEvents(cfg: Config, w: World, run: seq<Action>)
    requires Inv(cfg, w) && IsRun(cfg, w, run)
    ensures var end := Exec(cfg, w, run);
            BusyDrains(cfg, w, run) + Begun(end.phase) <= end.history.finished - w.history.finished + Begun(w.phase)
    decreases |run|
  {
    if run != [] {
      StepBegun(cfg, w, run[0]);
      StepKeepsInv(cfg, w, run[0]);
      BusyDrainsFinishEvents(cfg, Apply(cfg, w, run[0]), run[1..]);
    }
  }

  /** Without new arrivals, at most as many drains find work as there is budget, whatever fails or crashes. */
  lemma QueueDrains(cfg: Config, w: World, run: seq<Action>)
    requires Inv(cfg, w) && w.phase.Idle? && IsRun(cfg, w, run)
    requires Exec(cfg, w, run).history.arrivals == w.history.arrivals
    ensures BusyDrains(cfg, w, run) + Budget(cfg.maxAttempts, Everyone, Exec(cfg, w, run).db)
         <= Budget(cfg.maxAttempts, Everyone, w.db)
  {
    BalanceNeverRises(cfg, w, run);
    BusyDrainsFinishEvents(cfg, w, run);
  }

  /** A drain that begins while some row is due finds work. */
  lemma DueRowMakesDrainBusy(cfg: Config, w: World, picked: seq<string>, now: int, id: string)
    requires Enabled(cfg, w, DrainBegin(picked, now)) && CaptureDue(w.db, id, now)
    ensures picked != []
  {
    assert id in DueCaptures(w.db, now);
  }

  /** So, without arrivals, the queue is empty once as many drains have found work as there was budget. */
  lemma QueueEmpties(cfg: Config, w: World, run: seq<Action>)
    requires Inv(cfg, w) && w.phase.Idle? && IsRun(cfg, w, run)
    requires Exec(cfg, w, run).history.arrivals == w.history.arrivals
    requires BusyDrains(cfg, w, run) >= Budget(cfg.maxAttempts, Everyone, w.db)
    ensures var db := Exec(cfg, w, run).db; forall id :: id in db.captures ==> !db.captures[id].IsPending()
  {
    QueueDrains(cfg, w, run);
    RunKeepsInv(cfg, w, run);
    NoBudgetNoPending(cfg, Exec(cfg, w, run).db);
  }

  // ----- Bounded waiting -----

  /** The event is due at every drain of the run, and whatever arrives is strictly younger. */
  ghost predicate StaysDue(cfg: Config, w: World, run: seq<Action>, scope: Scope)
    requires scope.NoYoungerThan? && IsRun(cfg, w, run)
    decreases |run|
  {
    run != [] ==>
      var next := Apply(cfg, w, run[0]);
      && (run[0].DrainBegin? ==> CaptureDue(w.db, scope.id, run[0].now) && w.db.captures[scope.id].createdAt == scope.createdAt)
      && (run[0].HookStop? && next.history.arrivals > w.history.arrivals ==> run[0].now > scope.createdAt)
      && StaysDue(cfg, next, run[1..], scope)
  }

  ghost predicate SkipsEvent(phase: Phase, id: string) {
    phase.Capturing? && id !in phase.picked
  }

  /** The completed drains of a run that did not take the event. */
  ghost function Skips(cfg: Config, w: World, run: seq<Action>, id: string): nat
    requires IsRun(cfg, w, run)
    decreases |run|
  {
    if run == [] then 0 else
      (if run[0].CapturesDone? && SkipsEvent(w.phase, id) then 1 else 0) + Skips(cfg, Apply(cfg, w, run[0]), run[1..], id)
  }

  /** A drain that skips the event is a full one, and all it has left to do is at least as old. */
  ghost predicate OnlyOlder(phase: Phase, scope: Scope)
    requires scope.NoYoungerThan?
  {
    SkipsEvent(phase, scope.id) ==>
      && |phase.picked| == CAPTURE_LIMIT
      && (forall i :: 0 <= i < |phase.todo| ==> InScope(scope, phase.todo[i].eventId, phase.todo[i].createdAt))
      && (forall id :: id in phase.jobs ==> InScope(scope, id, phase.jobs[id].item.createdAt))
  }

  ghost function Spent(w: World, id: string): nat {
    if SkipsEvent(w.phase, id) then w.phase.finished else 0
  }

  lemma DrainBeginSkipsForOlder(w: World, picked: seq<string>, now: int, scope: Scope)
    requires scope.NoYoungerThan? && OldestFirst(DueCaptures(w.db, now), CAPTURE_LIMIT, picked)
    requires CaptureDue(w.db, scope.id, now) && w.db.captures[scope.id].createdAt == scope.createdAt
    ensures OnlyOlder(Capturing(picked, seq(|picked|, i requires 0 <= i < |picked| => ItemOf(picked[i], w.db.captures[picked[i]])), map[], 0), scope)
  {
    if scope.id !in picked {
      assert scope.id in DueCaptures(w.db, now);
      forall i | 0 <= i < |picked| ensures InScope(scope, picked[i], w.db.captures[picked[i]].createdAt) {
        assert picked[i] in picked;
      }
    }
  }

  lemma SettleOnlyOlder(cfg: Config, w: World, id: string, sink: Sink, outcome: Call, scope: Scope)
    requires scope.NoYoungerThan? && OnlyOlder(w.phase, scope) && CanSettle(w, id, sink, outcome)
    ensures OnlyOlder(ApplyCallSettles(cfg, w, id, sink, outcome).phase, scope)
  {
  }

  lemma MarkOnlyOlder(w: World, id: string, now: int, scope: Scope)
    requires scope.NoYoungerThan? && OnlyOlder(w.phase, scope) && CanMark(w, id)
    ensures OnlyOlder(ApplyCaptureMark(w, id, now).phase, scope)
  {
  }

  lemma StartOnlyOlder(w: World, now: int, scope: Scope)
    requires scope.NoYoungerThan? && OnlyOlder(w.phase, scope) && w.phase.Capturing? && w.phase.todo != []
    ensures OnlyOlder(ApplyCaptureStart(w, now).phase, scope)
  {
  }

  lemma StepOnlyOlder(cfg: Config, w: World, a: Action, scope: Scope)
    requires scope.NoYoungerThan? && OnlyOlder(w.phase, scope) && Enabled(cfg, w, a)
    requires a.DrainBegin? ==> CaptureDue(w.db, scope.id, a.now) && w.db.captures[scope.id].createdAt == scope.createdAt
    ensures OnlyOlder(Apply(cfg, w, a).phase, scope)
  {
    if a.DrainBegin? {
      DrainBeginSkipsForOlder(w, a.picked, a.now, scope);
    } else if a.CaptureStart? {
      StartOnlyOlder(w, a.now, scope);
    } else if a.CallSettles? {
      SettleOnlyOlder(cfg, w, a.id, a.sink, Outcome(a.response), scope);
    } else if a.CaptureMark? {
      MarkOnlyOlder(w, a.id, a.now, scope);
    } else if IsEnvironment(a) {
      EnvironmentIsQuiet(cfg, w, a);
    }
  }

  lemma StepSpends(cfg: Config, w: World, a: Action, scope: Scope)
    requires scope.NoYoungerThan? && Inv(cfg, w) && Enabled(cfg, w, a) && OnlyOlder(w.phase, scope)
    requires a.HookStop? && Apply(cfg, w, a).history.arrivals > w.history.arrivals ==> a.now > scope.createdAt
    ensures (if a.CapturesDone? && SkipsEvent(w.phase, scope.id) then CAPTURE_LIMIT else 0) +
            Budget(cfg.maxAttempts, scope, Apply(cfg, w, a).db) + Spent(Apply(cfg, w, a), scope.id)
         <= Budget(cfg.maxAttempts, scope, w.db) + Spent(w, scope.id)
  {
    if a.HookStop? {
      StopBudget(cfg, scope, w, a);
    } else if a.PruneTable? {
      PruneBudget(cfg.maxAttempts, scope, w.db, a.table, a.now);
    } else if a.CaptureMark? {
      MarkBudget(cfg, scope, w.db, w.phase.jobs[a.id].item, w.phase.jobs[a.id].todo, a.now);
    } else {
      OtherSteps(cfg, w, a);
      SameRowsBudget(cfg.maxAttempts, scope, w.db, Apply(cfg, w, a).db);
    }
    if !a.CaptureMark? {
      OtherPhases(cfg, w, a);
    }
  }

  lemma {:induction false} SkipsSpendBudget(cfg: Config, w: World, run: seq<Action>, scope: Scope)
    requires scope.NoYoungerThan? && Inv(cfg, w) && IsRun(cfg, w, run) && StaysDue(cfg, w, run, scope) && OnlyOlder(w.phase, scope)
    ensures CAPTURE_LIMIT * Skips(cfg, w, run, scope.id) + Budget(cfg.maxAttempts, scope, Exec(cfg, w, run).db)
         <= Budget(cfg.maxAttempts, scope, w.db) + Spent(w, scope.id)
    decreases |run|
  {
    if run != [] {
      StepSpends(cfg, w, run[0], scope);
      StepOnlyOlder(cfg, w, run[0], scope);
      StepKeepsInv(cfg, w, run[0]);
      SkipsSpendBudget(cfg, Apply(cfg, w, run[0]), run[1..], scope);
    }
  }

  /** An event that stays due is passed over by at most B/20 drains, where B is the budget of the pending
      events that are at least as old: it is selected within 1 + B/20 drains. */
  lemma BoundedWaiting(cfg: Config, w: World, run: seq<Action>, id: string, createdAt: int)
    requires Inv(cfg, w) && w.phase.Idle? && IsRun(cfg, w, run)
    requires StaysDue(cfg, w, run, NoYoungerThan(id, createdAt))
    ensures Skips(cfg, w, run, id) <= Budget(cfg.maxAttempts, NoYoungerThan(id, createdAt), w.db) / CAPTURE_LIMIT
  {
    SkipsSpendBudget(cfg, w, run, NoYoungerThan(id, createdAt));
  }
}
