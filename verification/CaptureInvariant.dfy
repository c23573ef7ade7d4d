/** What every step of the capture queue keeps. The UPDATE statements behind the marks carry no status
    guard, so each of these facts is one about the whole system. */
module CaptureInvariant {
  import opened Basics
  import opened GatewayDb
  import opened CaptureQueue

  ghost predicate ValidConfig(cfg: Config) {
    cfg.maxAttempts >= 1
  }

  /** Every row with work left has its session context. */
  ghost predicate References(db: Db) {
    && (forall id :: id in db.captures && db.captures[id].IsPending() ==> db.captures[id].contextId in db.contexts)
    && (forall id :: id in db.extractions && db.extractions[id].status.Queued? ==> db.extractions[id].contextId in db.contexts)
  }

  ghost predicate Budgets(cfg: Config, db: Db) {
    && (forall id :: id in db.captures ==> db.captures[id].attempts < cfg.maxAttempts)
    && (forall id :: id in db.extractions ==> db.extractions[id].attempts < cfg.maxAttempts)
  }

  predicate Current(db: Db, item: Item) {
    item.eventId in db.captures && ItemOf(item.eventId, db.captures[item.eventId]) == item && item.IsPending()
  }

  predicate CurrentExtraction(db: Db, item: ExtractionItem) {
    && item.eventId in db.extractions
    && var e := db.extractions[item.eventId]; e.status.Queued? && e.contextId == item.contextId && e.attempts == item.attempts
  }

  predicate LegalMark(maxAttempts: nat, item: Item, m: Mark) {
    match m
    case Succeed(sink) => item.Status(sink).Pending?
    case GiveUp(sink, _) => item.Status(sink).Pending?
    case Retry(attempts, _) => attempts == item.attempts + 1 < maxAttempts
  }

  /** A list of marks that touches only pending sinks and ends by using up an attempt or the last pending sink. */
  predicate SafeMarks(maxAttempts: nat, item: Item, todo: seq<Mark>)
    decreases |todo|
  {
    && todo != [] && LegalMark(maxAttempts, item, todo[0])
    && if |todo| == 1 then todo[0].Retry? || !MarkItem(item, todo[0]).IsPending()
       else !todo[0].Retry? && MarkItem(item, todo[0]).IsPending() && SafeMarks(maxAttempts, MarkItem(item, todo[0]), todo[1..])
  }

  predicate JobOk(cfg: Config, job: Job) {
    match job
    case Calling(item, core, skill) =>
      core.Some? == item.core.Pending? && skill.Some? == item.skill.Pending? && !(Settled(core) && Settled(skill))
    case Marking(item, todo) => SafeMarks(cfg.maxAttempts, item, todo)
  }

  ghost predicate CapturingOk(cfg: Config, db: Db, picked: seq<string>, todo: seq<Item>, jobs: map<string, Job>, finished: nat) {
    && (forall i, j :: 0 <= i < j < |todo| ==> todo[i].eventId != todo[j].eventId)
    && (forall i :: 0 <= i < |todo| ==> todo[i].eventId !in jobs && Current(db, todo[i]))
    && (forall id :: id in jobs ==> jobs[id].item.eventId == id && Current(db, jobs[id].item) && JobOk(cfg, jobs[id]))
    && |picked| == |todo| + |jobs| + finished
    && |jobs| <= Lanes(cfg, |picked|)
  }

  ghost predicate ExtractingOk(cfg: Config, db: Db, picked: seq<string>, waiting: seq<ExtractionItem>, calls: map<string, ExtractionItem>) {
    && (forall i, j :: 0 <= i < j < |waiting| ==> waiting[i].eventId != waiting[j].eventId)
    && (forall i :: 0 <= i < |waiting| ==> waiting[i].eventId !in calls && CurrentExtraction(db, waiting[i]))
    && (forall id :: id in calls ==> calls[id].eventId == id && CurrentExtraction(db, calls[id]))
    && |calls| <= Lanes(cfg, |picked|)
  }

  /** The snapshot is never stale: an item that waits or is being handled equals its row, which exists
      and is pending, and no id occurs twice. */
  ghost predicate DrainOk(cfg: Config, db: Db, phase: Phase) {
    match phase
    case Idle => true
    case Capturing(picked, todo, jobs, finished) => CapturingOk(cfg, db, picked, todo, jobs, finished)
    case Extracting(picked, waiting, calls) => ExtractingOk(cfg, db, picked, waiting, calls)
  }

  /** The content a row or a waiting item would send was enqueued under its id. */
  ghost predicate RemoteOk(w: World) {
    && (forall i, j :: 0 <= i < j < |w.remote.applied| ==> w.remote.applied[i].key != w.remote.applied[j].key)
    && (forall i :: 0 <= i < |w.remote.applied| ==> w.remote.applied[i] in w.remote.sent)
    && w.remote.sent <= w.history.enqueued
    && (forall id :: id in w.db.captures ==> Message(id, w.db.captures[id].user, w.db.captures[id].assistant) in w.history.enqueued)
  }

  ghost predicate Delivered(w: World, id: string) {
    IsApplied(w.remote, id) || id in w.history.blank
  }

  /** A capture is or will be marked done at Core only after Core applied it, blank rejections apart. */
  ghost predicate DoneOk(w: World) {
    && (forall id :: id in w.db.captures && w.db.captures[id].core.Done? ==> Delivered(w, id))
    && (w.phase.Capturing? ==> forall id :: id in w.phase.jobs ==>
          match w.phase.jobs[id]
          case Calling(_, core, _) => core.Some? && !core.value.InFlight? && !core.value.Failed() ==> Delivered(w, id)
          case Marking(_, todo) => Succeed(Core) in todo ==> Delivered(w, id))
  }

  predicate HasJob(phase: Phase, id: string) {
    phase.Capturing? && id in phase.jobs
  }

  /** A sink has been called at most once per used attempt and per crash, plus once for the call that
      is under way or settled it. */
  ghost predicate CallsOk(w: World) {
    forall id :: id in w.db.captures ==>
      && id in w.history.calls
      && forall sink: Sink :: w.history.calls[id].Of(sink) <= w.db.captures[id].attempts + w.history.crashes +
           (if HasJob(w.phase, id) || !w.db.captures[id].Status(sink).Pending? then 1 else 0)
  }

  /** A queued extraction that never failed is not due before every hook on its context has settled. */
  ghost predicate SettleOk(cfg: Config, db: Db, h: History) {
    forall id :: id in db.extractions ==>
      && id in h.hooks && id in h.extractCalls
      && (db.extractions[id].status.Queued? && db.extractions[id].attempts == 0 ==>
            forall t :: t in h.hooks[id] ==> t + Max(0, cfg.settleMs) <= db.extractions[id].nextAttemptAt)
  }

  ghost predicate Inv(cfg: Config, w: World) {
    && ValidConfig(cfg)
    && References(w.db) && Budgets(cfg, w.db) && DrainOk(cfg, w.db, w.phase)
    && RemoteOk(w) && DoneOk(w) && CallsOk(w) && SettleOk(cfg, w.db, w.history)
  }

  lemma InitInv(cfg: Config)
    requires ValidConfig(cfg)
    ensures Inv(cfg, INIT)
  {
  }

  // ----- Facts about marks -----

  /** `FinishMarks` case by case. */
  lemma FinishMarksCases(maxAttempts: nat, item: Item, core: Option<Call>, skill: Option<Call>)
    requires core.Some? || skill.Some?
    ensures var todo := FinishMarks(maxAttempts, item, core, skill);
            var coreBad := core.Some? && core.value.Failed();
            var skillBad := skill.Some? && skill.value.Failed();
            var last := item.attempts + 1 >= maxAttempts;
            var retry := Retry(item.attempts + 1, JoinComplaints(Complaint(Core, core), Complaint(Skill, skill)));
            if !coreBad && !skillBad then
              todo == if core.None? then [Succeed(Skill)] else if skill.None? then [Succeed(Core)] else [Succeed(Core), Succeed(Skill)]
            else if coreBad && !skillBad then
              (var end := if last then GiveUp(Core, core.value.message) else retry;
               todo == if skill.None? then [end] else [Succeed(Skill), end])
            else if !coreBad && skillBad then
              (var end := if last then GiveUp(Skill, skill.value.message) else retry;
               todo == if core.None? then [end] else [Succeed(Core), end])
            else todo == if last then [GiveUp(Core, core.value.message), GiveUp(Skill, skill.value.message)] else [retry]
  {
  }

  lemma SafePair(maxAttempts: nat, item: Item, first: Mark, second: Mark)
    requires LegalMark(maxAttempts, item, first) && !first.Retry? && MarkItem(item, first).IsPending()
    requires LegalMark(maxAttempts, MarkItem(item, first), second)
    requires second.Retry? || !MarkItem(MarkItem(item, first), second).IsPending()
    ensures SafeMarks(maxAttempts, item, [first, second])
  {
    assert [first, second][1..] == [second];
    assert SafeMarks(maxAttempts, MarkItem(item, first), [second]);
  }

  lemma FinishMarksSafe(maxAttempts: nat, item: Item, core: Option<Call>, skill: Option<Call>)
    requires item.IsPending() && core.Some? == item.core.Pending? && skill.Some? == item.skill.Pending?
    ensures SafeMarks(maxAttempts, item, FinishMarks(maxAttempts, item, core, skill))
    ensures Succeed(Core) in FinishMarks(maxAttempts, item, core, skill) <==> core.Some? && !core.value.Failed()
  {
    var todo := FinishMarks(maxAttempts, item, core, skill);
    FinishMarksCases(maxAttempts, item, core, skill);
    if |todo| == 2 {
      assert todo == [todo[0], todo[1]];
      SafePair(maxAttempts, item, todo[0], todo[1]);
    }
  }

  lemma MarkKeepsItem(db: Db, item: Item, m: Mark, now: int)
    requires Current(db, item)
    ensures item.eventId in MarkDb(db, item.eventId, m, now).captures
    ensures ItemOf(item.eventId, MarkDb(db, item.eventId, m, now).captures[item.eventId]) == MarkItem(item, m)
    ensures MarkDb(db, item.eventId, m, now) == db.(captures := db.captures[item.eventId := MarkDb(db, item.eventId, m, now).captures[item.eventId]])
  {
  }

  // ----- Hooks, pruning and context opening -----

  predicate IsEnvironment(a: Action) {
    a.OpenContext? || a.HookPrompt? || a.HookStop? || a.HookToolUse? || a.HookSessionEnd? || a.PruneTable?
  }

  predicate SameExtraction(e: Extraction, f: Extraction) {
    f.contextId == e.contextId && f.status == e.status && f.attempts == e.attempts && f.nextAttemptAt >= e.nextAttemptAt
  }

  /** What the worker may rely on across an await: referenced contexts and pending rows stay, no row it
      holds changes apart from a later due time, and new rows start from scratch with their context present. */
  ghost predicate QuietDb(db: Db, db': Db) {
    && (forall c :: c in db.contexts && ContextReferenced(db, c) ==> c in db'.contexts)
    && (forall id :: id in db.captures && db.captures[id].IsPending() ==> id in db'.captures)
    && (forall id :: id in db.captures && id in db'.captures ==> db'.captures[id] == db.captures[id])
    && (forall id :: id in db'.captures && id !in db.captures ==>
          var r := db'.captures[id]; r.core.Pending? && r.skill.Pending? && r.attempts == 0 && r.contextId in db'.contexts)
    && (forall id :: id in db.extractions && db.extractions[id].status.Queued? ==> id in db'.extractions)
    && (forall id :: id in db.extractions && id in db'.extractions ==> SameExtraction(db.extractions[id], db'.extractions[id]))
    && (forall id :: id in db'.extractions && id !in db.extractions ==>
          var e := db'.extractions[id]; e.status.Queued? && e.attempts == 0 && e.contextId in db'.contexts)
  }

  lemma StopIsQuiet(cfg: Config, w: World, a: Action)
    requires a.HookStop?
    ensures QuietDb(w.db, ApplyStop(cfg, w, a).db)
  {
  }

  lemma ToolUseIsQuiet(cfg: Config, w: World, a: Action)
    requires a.HookToolUse?
    ensures QuietDb(w.db, ApplyToolUse(cfg, w, a).db)
  {
  }

  lemma SessionEndIsQuiet(cfg: Config, w: World, a: Action)
    requires a.HookSessionEnd?
    ensures QuietDb(w.db, ApplySessionEnd(cfg, w, a).db)
  {
  }

  lemma PruneIsQuiet(db: Db, table: Table, now: int)
    ensures QuietDb(db, ApplyPrune(db, table, now))
  {
  }

  lemma EnvironmentIsQuiet(cfg: Config, w: World, a: Action)
    requires IsEnvironment(a) && Enabled(cfg, w, a)
    ensures QuietDb(w.db, Apply(cfg, w, a).db)
    ensures Apply(cfg, w, a).phase == w.phase && Apply(cfg, w, a).remote == w.remote
  {
    match a
    case HookStop(_, _, _, _, _, _) => StopIsQuiet(cfg, w, a);
    case HookToolUse(_, _, _, _, _, _, _, _) => ToolUseIsQuiet(cfg, w, a);
    case HookSessionEnd(_, _, _, _) => SessionEndIsQuiet(cfg, w, a);
    case PruneTable(table, now) => PruneIsQuiet(w.db, table, now);
    case _ =>
  }

  lemma QuietKeepsReferences(db: Db, db': Db)
    requires References(db) && QuietDb(db, db')
    ensures References(db')
  {
  }

  lemma QuietKeepsBudgets(cfg: Config, db: Db, db': Db)
    requires ValidConfig(cfg) && Budgets(cfg, db) && QuietDb(db, db')
    ensures Budgets(cfg, db')
  {
  }

  lemma QuietKeepsCapturing(cfg: Config, db: Db, db': Db, picked: seq<string>, todo: seq<Item>, jobs: map<string, Job>, finished: nat)
    requires CapturingOk(cfg, db, picked, todo, jobs, finished) && QuietDb(db, db')
    ensures CapturingOk(cfg, db', picked, todo, jobs, finished)
  {
    assert forall item :: Current(db, item) ==> Current(db', item);
  }

  lemma QuietKeepsExtracting(cfg: Config, db: Db, db': Db, picked: seq<string>, waiting: seq<ExtractionItem>, calls: map<string, ExtractionItem>)
    requires ExtractingOk(cfg, db, picked, waiting, calls) && QuietDb(db, db')
    ensures ExtractingOk(cfg, db', picked, waiting, calls)
  {
    assert forall item :: CurrentExtraction(db, item) ==> CurrentExtraction(db', item);
  }

  lemma QuietKeepsDrain(cfg: Config, db: Db, db': Db, phase: Phase)
    requires DrainOk(cfg, db, phase) && QuietDb(db, db')
    ensures DrainOk(cfg, db', phase)
  {
    match phase
    case Idle =>
    case Capturing(picked, todo, jobs, finished) => QuietKeepsCapturing(cfg, db, db', picked, todo, jobs, finished);
    case Extracting(picked, waiting, calls) => QuietKeepsExtracting(cfg, db, db', picked, waiting, calls);
  }

  // Of the environment actions only these three touch the history.

  lemma StopKeepsRemote(cfg: Config, w: World, a: Action)
    requires a.HookStop? && RemoteOk(w) && DoneOk(w) && DrainOk(cfg, w.db, w.phase)
    ensures RemoteOk(ApplyStop(cfg, w, a)) && DoneOk(ApplyStop(cfg, w, a))
  {
    var next := ApplyStop(cfg, w, a);
    forall id | id in w.db.captures && Delivered(w, id) ensures Delivered(next, id) {}
  }

  lemma StopKeepsCalls(cfg: Config, w: World, a: Action)
    requires a.HookStop? && CallsOk(w)
    ensures CallsOk(ApplyStop(cfg, w, a))
  {
  }

  lemma StopKeepsSettle(cfg: Config, w: World, a: Action)
    requires a.HookStop? && SettleOk(cfg, w.db, w.history)
    ensures SettleOk(cfg, ApplyStop(cfg, w, a).db, ApplyStop(cfg, w, a).history)
  {
  }

  lemma ToolUseKeepsSettle(cfg: Config, w: World, a: Action)
    requires a.HookToolUse? && SettleOk(cfg, w.db, w.history)
    ensures SettleOk(cfg, ApplyToolUse(cfg, w, a).db, ApplyToolUse(cfg, w, a).history)
  {
  }

  lemma SessionEndKeepsSettle(cfg: Config, w: World, a: Action)
    requires a.HookSessionEnd? && SettleOk(cfg, w.db, w.history)
    ensures SettleOk(cfg, ApplySessionEnd(cfg, w, a).db, ApplySessionEnd(cfg, w, a).history)
  {
  }

  lemma SameHistoryKeeps(cfg: Config, w: World, db: Db)
    requires RemoteOk(w) && DoneOk(w) && CallsOk(w) && QuietDb(w.db, db)
    requires forall id :: id in db.captures ==> id in w.db.captures
    ensures RemoteOk(w.(db := db)) && DoneOk(w.(db := db)) && CallsOk(w.(db := db))
  {
    var next := w.(db := db);
    assert forall id :: Delivered(w, id) <==> Delivered(next, id);
  }

  lemma SameCapturesKeep(cfg: Config, w: World, next: World)
    requires RemoteOk(w) && DoneOk(w) && CallsOk(w)
    requires next.db.captures == w.db.captures && next.remote == w.remote && next.phase == w.phase
    requires next.history.(hooks := w.history.hooks, extractCalls := w.history.extractCalls) == w.history
    ensures RemoteOk(next) && DoneOk(next) && CallsOk(next)
  {
    assert forall id :: Delivered(w, id) <==> Delivered(next, id);
  }

  lemma PruneAddsNothing(db: Db, table: Table, now: int)
    ensures var db' := ApplyPrune(db, table, now);
            && (forall id :: id in db'.extractions ==> id in db.extractions && db'.extractions[id] == db.extractions[id])
            && (forall id :: id in db'.captures ==> id in db.captures)
  {
  }

  lemma SilentKeepsHistory(cfg: Config, w: World, a: Action)
    requires RemoteOk(w) && DoneOk(w) && CallsOk(w) && SettleOk(cfg, w.db, w.history)
    requires Enabled(cfg, w, a) && (a.OpenContext? || a.HookPrompt? || a.PruneTable?) && QuietDb(w.db, Apply(cfg, w, a).db)
    ensures var next := Apply(cfg, w, a); RemoteOk(next) && DoneOk(next) && CallsOk(next) && SettleOk(cfg, next.db, next.history)
  {
    if a.PruneTable? {
      PruneAddsNothing(w.db, a.table, a.now);
    }
    SameHistoryKeeps(cfg, w, Apply(cfg, w, a).db);
  }

  lemma ToolUseKeepsHistory(cfg: Config, w: World, a: Action)
    requires a.HookToolUse? && RemoteOk(w) && DoneOk(w) && CallsOk(w)
    ensures var next := ApplyToolUse(cfg, w, a); RemoteOk(next) && DoneOk(next) && CallsOk(next)
  {
    SameCapturesKeep(cfg, w, ApplyToolUse(cfg, w, a));
  }

  lemma SessionEndKeepsHistory(cfg: Config, w: World, a: Action)
    requires a.HookSessionEnd? && RemoteOk(w) && DoneOk(w) && CallsOk(w)
    ensures var next := ApplySessionEnd(cfg, w, a); RemoteOk(next) && DoneOk(next) && CallsOk(next)
  {
    SameCapturesKeep(cfg, w, ApplySessionEnd(cfg, w, a));
  }

  lemma EnvironmentKeepsHistory(cfg: Config, w: World, a: Action)
    requires RemoteOk(w) && DoneOk(w) && CallsOk(w) && SettleOk(cfg, w.db, w.history) && DrainOk(cfg, w.db, w.phase)
    requires IsEnvironment(a) && Enabled(cfg, w, a) && QuietDb(w.db, Apply(cfg, w, a).db)
    ensures var next := Apply(cfg, w, a); RemoteOk(next) && DoneOk(next) && CallsOk(next) && SettleOk(cfg, next.db, next.history)
  {
    if a.HookStop? {
      StopKeepsRemote(cfg, w, a);
      StopKeepsCalls(cfg, w, a);
      StopKeepsSettle(cfg, w, a);
    } else if a.HookToolUse? {
      ToolUseKeepsHistory(cfg, w, a);
      ToolUseKeepsSettle(cfg, w, a);
    } else if a.HookSessionEnd? {
      SessionEndKeepsHistory(cfg, w, a);
      SessionEndKeepsSettle(cfg, w, a);
    } else {
      SilentKeepsHistory(cfg, w, a);
    }
  }

  lemma EnvironmentKeepsInv(cfg: Config, w: World, a: Action)
    requires Inv(cfg, w) && IsEnvironment(a) && Enabled(cfg, w, a)
    ensures Inv(cfg, Apply(cfg, w, a))
  {
    var db := Apply(cfg, w, a).db;
    EnvironmentIsQuiet(cfg, w, a);
    QuietKeepsReferences(w.db, db);
    QuietKeepsBudgets(cfg, w.db, db);
    QuietKeepsDrain(cfg, w.db, db, w.phase);
    EnvironmentKeepsHistory(cfg, w, a);
  }

  // ----- The worker's captures -----

  lemma DrainBeginKeepsDrain(cfg: Config, db: Db, picked: seq<string>, now: int)
    requires OldestFirst(DueCaptures(db, now), CAPTURE_LIMIT, picked)
    ensures DrainOk(cfg, db, Capturing(picked, seq(|picked|, i requires 0 <= i < |picked| => ItemOf(picked[i], db.captures[picked[i]])), map[], 0))
  {
  }

  lemma CaptureStartKeepsDrain(cfg: Config, w: World, now: int)
    requires CanStart(cfg, w)
    requires References(w.db) && DrainOk(cfg, w.db, w.phase)
    ensures w.phase.todo[0].contextId in w.db.contexts
    ensures DrainOk(cfg, w.db, ApplyCaptureStart(w, now).phase)
  {
    assert Current(w.db, w.phase.todo[0]);
  }

  lemma CaptureStartKeepsRemote(cfg: Config, w: World, now: int)
    requires w.phase.Capturing? && w.phase.todo != [] && Current(w.db, w.phase.todo[0])
    requires w.phase.todo[0].contextId in w.db.contexts
    requires RemoteOk(w) && DoneOk(w)
    ensures RemoteOk(ApplyCaptureStart(w, now)) && DoneOk(ApplyCaptureStart(w, now))
  {
    var next := ApplyCaptureStart(w, now);
    assert forall id :: Delivered(w, id) <==> Delivered(next, id);
  }

  lemma CaptureStartKeepsCalls(cfg: Config, w: World, now: int)
    requires w.phase.Capturing? && w.phase.todo != [] && Current(w.db, w.phase.todo[0])
    requires w.phase.todo[0].contextId in w.db.contexts && w.phase.todo[0].eventId !in w.phase.jobs
    requires CallsOk(w)
    ensures CallsOk(ApplyCaptureStart(w, now))
  {
    var item, next := w.phase.todo[0], ApplyCaptureStart(w, now);
    assert next.history.calls.Keys == w.history.calls.Keys;
    assert forall id :: id in w.history.calls && id != item.eventId ==> next.history.calls[id] == w.history.calls[id];
    forall sink: Sink
      ensures next.history.calls[item.eventId].Of(sink)
              == w.history.calls[item.eventId].Of(sink) + (if item.Status(sink).Pending? then 1 else 0)
    {
    }
  }

  lemma ReceiveAppliesOnce(remote: Remote, m: Message)
    ensures forall key :: IsApplied(remote, key) ==> IsApplied(Receive(remote, m), key)
    ensures IsApplied(Receive(remote, m), m.key)
  {
    var next := Receive(remote, m);
    assert forall i :: 0 <= i < |remote.applied| ==> next.applied[i] == remote.applied[i];
    if !IsApplied(remote, m.key) {
      assert next.applied[|remote.applied|].key == m.key;
    }
  }

  lemma CoreReceivesKeepsRemote(w: World, m: Message)
    requires RemoteOk(w) && DoneOk(w) && m in w.remote.sent
    ensures var next := w.(remote := Receive(w.remote, m)); RemoteOk(next) && DoneOk(next)
  {
    ReceiveAppliesOnce(w.remote, m);
    var next := w.(remote := Receive(w.remote, m));
    assert forall id :: Delivered(w, id) ==> Delivered(next, id);
  }

  lemma CallSettlesKeepsJob(cfg: Config, w: World, id: string, sink: Sink, outcome: Call)
    requires CanSettle(w, id, sink, outcome)
    requires JobOk(cfg, w.phase.jobs[id]) && w.phase.jobs[id].item.IsPending()
    ensures var job := ApplyCallSettles(cfg, w, id, sink, outcome).phase.jobs[id];
            job.item == w.phase.jobs[id].item && JobOk(cfg, job)
    ensures match ApplyCallSettles(cfg, w, id, sink, outcome).phase.jobs[id]
            case Calling(_, core, _) => core == if sink.Core? then Some(outcome) else w.phase.jobs[id].core
            case Marking(_, todo) => Succeed(Core) in todo <==>
                var core := if sink.Core? then Some(outcome) else w.phase.jobs[id].core; core.Some? && !core.value.Failed()
  {
    var job := w.phase.jobs[id];
    var core := if sink.Core? then Some(outcome) else job.core;
    var skill := if sink.Core? then job.skill else Some(outcome);
    if Settled(core) && Settled(skill) {
      FinishMarksSafe(cfg.maxAttempts, job.item, core, skill);
    }
  }

  lemma CallSettlesKeepsDrain(cfg: Config, w: World, id: string, sink: Sink, outcome: Call)
    requires CanSettle(w, id, sink, outcome) && DrainOk(cfg, w.db, w.phase)
    ensures DrainOk(cfg, w.db, ApplyCallSettles(cfg, w, id, sink, outcome).phase)
  {
    CallSettlesKeepsJob(cfg, w, id, sink, outcome);
    var next := ApplyCallSettles(cfg, w, id, sink, outcome);
    assert next.phase.jobs.Keys == w.phase.jobs.Keys;
    assert |next.phase.jobs| == |next.phase.jobs.Keys|;
    assert |w.phase.jobs| == |w.phase.jobs.Keys|;
  }

  lemma CallSettlesKeepsDone(cfg: Config, w: World, id: string, sink: Sink, outcome: Call)
    requires CanSettle(w, id, sink, outcome) && DrainOk(cfg, w.db, w.phase) && DoneOk(w)
    ensures DoneOk(ApplyCallSettles(cfg, w, id, sink, outcome))
  {
    CallSettlesKeepsJob(cfg, w, id, sink, outcome);
    var next := ApplyCallSettles(cfg, w, id, sink, outcome);
    assert forall other :: Delivered(w, other) ==> Delivered(next, other);
    if sink.Core? && !outcome.Failed() {
      assert Delivered(next, id);
    }
  }

  lemma CaptureMarkKeepsTables(cfg: Config, db: Db, item: Item, m: Mark, now: int)
    requires References(db) && Budgets(cfg, db) && Current(db, item) && LegalMark(cfg.maxAttempts, item, m)
    ensures References(MarkDb(db, item.eventId, m, now)) && Budgets(cfg, MarkDb(db, item.eventId, m, now))
  {
    MarkKeepsItem(db, item, m, now);
  }

  lemma CaptureMarkCounts(w: World, id: string, now: int)
    requires CanMark(w, id)
    ensures var next := ApplyCaptureMark(w, id, now).phase;
            |next.jobs| + next.finished == |w.phase.jobs| + w.phase.finished && |next.jobs| <= |w.phase.jobs|
  {
    var jobs, next := w.phase.jobs, ApplyCaptureMark(w, id, now).phase.jobs;
    if |jobs[id].todo| == 1 {
      assert jobs.Keys == next.Keys + {id};
    } else {
      assert next.Keys == jobs.Keys;
    }
    assert |next| == |next.Keys| && |jobs| == |jobs.Keys|;
  }

  lemma CaptureMarkKeepsDrain(cfg: Config, w: World, id: string, now: int)
    requires CanMark(w, id) && DrainOk(cfg, w.db, w.phase)
    ensures DrainOk(cfg, ApplyCaptureMark(w, id, now).db, ApplyCaptureMark(w, id, now).phase)
  {
    var job := w.phase.jobs[id];
    var next := ApplyCaptureMark(w, id, now);
    MarkKeepsItem(w.db, job.item, job.todo[0], now);
    forall item | Current(w.db, item) && item.eventId != id ensures Current(next.db, item) {}
    CaptureMarkCounts(w, id, now);
  }

  lemma CaptureMarkKeepsRemote(cfg: Config, w: World, id: string, now: int)
    requires CanMark(w, id) && DrainOk(cfg, w.db, w.phase) && RemoteOk(w)
    ensures RemoteOk(ApplyCaptureMark(w, id, now))
  {
    MarkKeepsItem(w.db, w.phase.jobs[id].item, w.phase.jobs[id].todo[0], now);
  }

  lemma CaptureMarkKeepsDone(cfg: Config, w: World, id: string, now: int)
    requires CanMark(w, id) && DrainOk(cfg, w.db, w.phase) && DoneOk(w)
    ensures DoneOk(ApplyCaptureMark(w, id, now))
  {
    var job := w.phase.jobs[id];
    var next := ApplyCaptureMark(w, id, now);
    MarkKeepsItem(w.db, job.item, job.todo[0], now);
    assert forall other :: Delivered(w, other) <==> Delivered(next, other);
    assert job.todo[0] in job.todo;
  }

  lemma CaptureMarkKeepsCalls(cfg: Config, w: World, id: string, now: int)
    requires CanMark(w, id) && DrainOk(cfg, w.db, w.phase) && CallsOk(w)
    ensures CallsOk(ApplyCaptureMark(w, id, now))
  {
    var job := w.phase.jobs[id];
    MarkKeepsItem(w.db, job.item, job.todo[0], now);
  }

  lemma DrainBeginKeepsInv(cfg: Config, w: World, a: Action)
    requires Inv(cfg, w) && a.DrainBegin? && Enabled(cfg, w, a)
    ensures Inv(cfg, Apply(cfg, w, a))
  {
    DrainBeginKeepsDrain(cfg, w.db, a.picked, a.now);
    SameHistoryKeeps(cfg, w, w.db);
  }

  lemma CaptureStartKeepsInv(cfg: Config, w: World, now: int)
    requires Inv(cfg, w) && CanStart(cfg, w)
    ensures Inv(cfg, ApplyCaptureStart(w, now))
  {
    CaptureStartKeepsDrain(cfg, w, now);
    CaptureStartKeepsRemote(cfg, w, now);
    CaptureStartKeepsCalls(cfg, w, now);
  }

  lemma CallSettlesKeepsInv(cfg: Config, w: World, id: string, sink: Sink, outcome: Call)
    requires Inv(cfg, w) && CanSettle(w, id, sink, outcome)
    ensures Inv(cfg, ApplyCallSettles(cfg, w, id, sink, outcome))
  {
    CallSettlesKeepsDrain(cfg, w, id, sink, outcome);
    CallSettlesKeepsDone(cfg, w, id, sink, outcome);
  }

  lemma CaptureMarkKeepsInv(cfg: Config, w: World, id: string, now: int)
    requires Inv(cfg, w) && CanMark(w, id)
    ensures Inv(cfg, ApplyCaptureMark(w, id, now))
  {
    CaptureMarkKeepsTables(cfg, w.db, w.phase.jobs[id].item, w.phase.jobs[id].todo[0], now);
    CaptureMarkKeepsDrain(cfg, w, id, now);
    CaptureMarkKeepsRemote(cfg, w, id, now);
    CaptureMarkKeepsDone(cfg, w, id, now);
    CaptureMarkKeepsCalls(cfg, w, id, now);
  }

  // ----- The worker's extractions -----

  /** A statement on one extraction row leaves it as it is otherwise. */
  ghost predicate OneExtraction(cfg: Config, db: Db, id: string, db': Db) {
    && id in db.extractions && id in db'.extractions
    && db' == db.(extractions := db.extractions[id := db'.extractions[id]])
    && db'.extractions[id].contextId == db.extractions[id].contextId
    && db'.extractions[id].attempts < cfg.maxAttempts
    && (db'.extractions[id].status.Queued? ==> db.extractions[id].status.Queued? && db'.extractions[id].attempts > 0)
  }

  lemma OneExtractionKeepsTables(cfg: Config, db: Db, id: string, db': Db)
    requires References(db) && Budgets(cfg, db) && OneExtraction(cfg, db, id, db')
    ensures References(db') && Budgets(cfg, db')
  {
  }

  lemma OneExtractionKeepsSettle(cfg: Config, db: Db, h: History, id: string, db': Db)
    requires SettleOk(cfg, db, h) && OneExtraction(cfg, db, id, db')
    ensures SettleOk(cfg, db', h)
  {
  }

  lemma NoJobsKeep(w: World, next: World)
    requires RemoteOk(w) && DoneOk(w) && CallsOk(w)
    requires !w.phase.Capturing? && !next.phase.Capturing?
    requires next.db.captures == w.db.captures && next.remote == w.remote
    requires next.history.(hooks := w.history.hooks, extractCalls := w.history.extractCalls) == w.history
    ensures RemoteOk(next) && DoneOk(next) && CallsOk(next)
  {
    assert forall id :: Delivered(w, id) <==> Delivered(next, id);
  }

  lemma CapturesDoneKeepsDrain(cfg: Config, db: Db, picked: seq<string>, verdicts: map<string, Verdict>, now: int)
    requires OldestFirst(DueExtractions(db, now), EXTRACTION_LIMIT, picked) && forall id :: id in picked ==> id in verdicts
    ensures DrainOk(cfg, db, Extracting(picked,
          seq(|picked|, i requires 0 <= i < |picked| =>
            ExtractionItem(picked[i], db.extractions[picked[i]].contextId, db.extractions[picked[i]].attempts, verdicts[picked[i]])),
          map[]))
  {
  }

  lemma CapturesDoneKeepsInv(cfg: Config, w: World, a: Action)
    requires Inv(cfg, w) && a.CapturesDone? && Enabled(cfg, w, a)
    ensures Inv(cfg, Apply(cfg, w, a))
  {
    CapturesDoneKeepsDrain(cfg, w.db, a.picked, a.verdicts, a.now);
    SameHistoryKeeps(cfg, w, w.db);
  }

  lemma OneExtractionKeepsOthers(cfg: Config, db: Db, id: string, db': Db)
    requires OneExtraction(cfg, db, id, db')
    ensures forall item :: CurrentExtraction(db, item) && item.eventId != id ==> CurrentExtraction(db', item)
  {
  }

  lemma SkipIsOneExtraction(cfg: Config, db: Db, id: string, reason: string, now: int)
    requires id in db.extractions && db.extractions[id].status.Queued? && Budgets(cfg, db)
    ensures OneExtraction(cfg, db, id, MarkSkipped(db, id, reason, now))
  {
  }

  lemma ExtractionStartStatement(cfg: Config, w: World, now: int)
    requires CanStartExtraction(cfg, w) && Budgets(cfg, w.db) && CurrentExtraction(w.db, w.phase.waiting[0])
    requires w.phase.waiting[0].contextId in w.db.contexts
    ensures var next := ApplyExtractionStart(w, now);
            if w.phase.waiting[0].verdict.Worthwhile? then next.db == w.db
            else OneExtraction(cfg, w.db, w.phase.waiting[0].eventId, next.db) && next.history == w.history
  {
    var item := w.phase.waiting[0];
    match item.verdict
    case NoConversation => SkipIsOneExtraction(cfg, w.db, item.eventId, "no completed conversation was captured", now);
    case TooLittle(detail) => SkipIsOneExtraction(cfg, w.db, item.eventId, detail, now);
    case Worthwhile =>
  }

  lemma ExtractionStartKeepsDrain(cfg: Config, w: World, now: int)
    requires CanStartExtraction(cfg, w) && References(w.db) && Budgets(cfg, w.db) && DrainOk(cfg, w.db, w.phase)
    ensures CurrentExtraction(w.db, w.phase.waiting[0]) && w.phase.waiting[0].contextId in w.db.contexts
    ensures DrainOk(cfg, ApplyExtractionStart(w, now).db, ApplyExtractionStart(w, now).phase)
  {
    ExtractionStartStatement(cfg, w, now);
    if !w.phase.waiting[0].verdict.Worthwhile? {
      OneExtractionKeepsOthers(cfg, w.db, w.phase.waiting[0].eventId, ApplyExtractionStart(w, now).db);
    }
  }

  lemma ExtractionStartKeepsInv(cfg: Config, w: World, now: int)
    requires Inv(cfg, w) && CanStartExtraction(cfg, w)
    ensures Inv(cfg, ApplyExtractionStart(w, now))
  {
    ExtractionStartKeepsDrain(cfg, w, now);
    ExtractionStartStatement(cfg, w, now);
    var next := ApplyExtractionStart(w, now);
    NoJobsKeep(w, next);
    if !w.phase.waiting[0].verdict.Worthwhile? {
      OneExtractionKeepsTables(cfg, w.db, w.phase.waiting[0].eventId, next.db);
      OneExtractionKeepsSettle(cfg, w.db, w.history, w.phase.waiting[0].eventId, next.db);
    }
  }

  lemma ExtractionSettlesStatement(cfg: Config, w: World, id: string, outcome: Call, taskId: Option<string>, now: int)
    requires CanSettleExtraction(w, id, outcome) && CurrentExtraction(w.db, w.phase.calls[id]) && w.phase.calls[id].eventId == id
    requires Budgets(cfg, w.db)
    ensures OneExtraction(cfg, w.db, id, ApplyExtractionSettles(cfg, w, id, outcome, taskId, now).db)
  {
  }

  lemma ExtractionSettlesKeepsDrain(cfg: Config, w: World, id: string, outcome: Call, taskId: Option<string>, now: int)
    requires CanSettleExtraction(w, id, outcome) && DrainOk(cfg, w.db, w.phase) && Budgets(cfg, w.db)
    ensures OneExtraction(cfg, w.db, id, ApplyExtractionSettles(cfg, w, id, outcome, taskId, now).db)
    ensures DrainOk(cfg, ApplyExtractionSettles(cfg, w, id, outcome, taskId, now).db,
                    ApplyExtractionSettles(cfg, w, id, outcome, taskId, now).phase)
  {
    var next := ApplyExtractionSettles(cfg, w, id, outcome, taskId, now);
    ExtractionSettlesStatement(cfg, w, id, outcome, taskId, now);
    OneExtractionKeepsOthers(cfg, w.db, id, next.db);
    assert w.phase.calls.Keys == next.phase.calls.Keys + {id};
    assert |next.phase.calls| == |next.phase.calls.Keys| && |w.phase.calls| == |w.phase.calls.Keys|;
  }

  lemma ExtractionSettlesKeepsInv(cfg: Config, w: World, id: string, outcome: Call, taskId: Option<string>, now: int)
    requires Inv(cfg, w) && CanSettleExtraction(w, id, outcome)
    ensures Inv(cfg, ApplyExtractionSettles(cfg, w, id, outcome, taskId, now))
  {
    ExtractionSettlesKeepsDrain(cfg, w, id, outcome, taskId, now);
    var next := ApplyExtractionSettles(cfg, w, id, outcome, taskId, now);
    NoJobsKeep(w, next);
    OneExtractionKeepsTables(cfg, w.db, id, next.db);
    OneExtractionKeepsSettle(cfg, w.db, w.history, id, next.db);
  }

  // ----- What the other steps leave alone -----

  predicate LeavesCaptures(a: Action) {
    !IsEnvironment(a) && !a.CaptureStart? && !a.CaptureMark?
  }

  lemma CapturesLeftAlone(cfg: Config, w: World, a: Action)
    requires Enabled(cfg, w, a) && LeavesCaptures(a)
    ensures var next := Apply(cfg, w, a);
            && next.db.captures == w.db.captures && next.history.calls == w.history.calls
            && next.history.finished == w.history.finished && next.history.arrivals == w.history.arrivals
  {
  }

  lemma ExtractionsLeftAlone(cfg: Config, w: World, a: Action)
    requires Enabled(cfg, w, a) && !IsEnvironment(a) && !a.CaptureStart? && !a.ExtractionStart? && !a.ExtractionSettles?
    ensures var next := Apply(cfg, w, a);
            && next.db.extractions == w.db.extractions && next.history.extractCalls == w.history.extractCalls
            && next.history.hooks == w.history.hooks
  {
  }

  lemma StepKeepsInv(cfg: Config, w: World, a: Action)
    requires Inv(cfg, w) && Enabled(cfg, w, a)
    ensures Inv(cfg, Apply(cfg, w, a))
  {
    if IsEnvironment(a) {
      EnvironmentKeepsInv(cfg, w, a);
    } else {
      match a
      case DrainBegin(_, _) => DrainBeginKeepsInv(cfg, w, a);
      case CaptureStart(now) => CaptureStartKeepsInv(cfg, w, now);
      case CoreReceives(m) => CoreReceivesKeepsRemote(w, m);
      case CallSettles(id, sink, response) => CallSettlesKeepsInv(cfg, w, id, sink, Outcome(response));
      case CaptureMark(id, now) => CaptureMarkKeepsInv(cfg, w, id, now);
      case CapturesDone(_, _, _) => CapturesDoneKeepsInv(cfg, w, a);
      case ExtractionStart(now) => ExtractionStartKeepsInv(cfg, w, now);
      case ExtractionSettles(id, outcome, taskId, now) => ExtractionSettlesKeepsInv(cfg, w, id, outcome, taskId, now);
      case _ =>
    }
  }
}
