/** The durable capture and skill-extraction queue as a transition system: hooks, the polled worker
    and the pruner interleave at every `await`, the process may crash between any two statements, and
    a request once sent may reach Core at any later time, also after its caller gave up.

    `Enabled` and `Apply` give one atomic step; a run is a sequence of actions. `History` is not part
    of the program: it only records what happened, so that properties of whole runs can be stated. */
module CaptureQueue {
  import opened Basics
  import opened GatewayDb
  import opened CoreClient

  datatype Config = Config(concurrency: int, maxAttempts: nat, settleMs: int)

  /** How a remote call stands. The worker tests `!result.error`, so a rejection whose message is empty
      counts as success. */
  datatype Call = InFlight | Fulfilled | Rejected(message: string)
  {
    predicate Failed() {
      Rejected? && message != ""
    }
  }

  /** How a call ends that got this response. */
  function Outcome(r: Response): Call {
    if Thrown(r).None? then Fulfilled else Rejected(Thrown(r).value)
  }

  /** The worker's in-memory copy of a capture row. */
  datatype Item = Item(eventId: string, contextId: string, user: string, assistant: string,
                       core: SinkStatus, skill: SinkStatus, attempts: nat, createdAt: int)
  {
    predicate IsPending() {
      core.Pending? || skill.Pending?
    }

    function Status(sink: Sink): SinkStatus {
      if sink.Core? then core else skill
    }

    function SetStatus(sink: Sink, status: SinkStatus): Item {
      if sink.Core? then this.(core := status) else this.(skill := status)
    }
  }

  datatype Mark = Succeed(sink: Sink) | GiveUp(sink: Sink, error: string) | Retry(attempts: nat, error: string)

  /** A capture being handled: its calls are under way, or all have settled and statements are left to run. */
  datatype Job =
    | Calling(item: Item, core: Option<Call>, skill: Option<Call>)
    | Marking(item: Item, todo: seq<Mark>)

  datatype Verdict = NoConversation | TooLittle(detail: string) | Worthwhile
  datatype ExtractionItem = ExtractionItem(eventId: string, contextId: string, attempts: nat, verdict: Verdict)

  datatype Phase =
    | Idle
    | Capturing(picked: seq<string>, todo: seq<Item>, jobs: map<string, Job>, finished: nat)
    | Extracting(picked: seq<string>, waiting: seq<ExtractionItem>, calls: map<string, ExtractionItem>)

  datatype Message = Message(key: string, user: string, assistant: string)

  /** Core: the requests on the wire and the conversations applied, one per idempotency key. */
  datatype Remote = Remote(sent: set<Message>, applied: seq<Message>)

  datatype Counts = Counts(core: nat, skill: nat)
  {
    function Of(sink: Sink): nat {
      if sink.Core? then core else skill
    }

    function Bump(sink: Sink): Counts {
      if sink.Core? then Counts(core + 1, skill) else Counts(core, skill + 1)
    }
  }

  datatype History = History(
    enqueued: set<Message>,            // the content of every capture row ever inserted
    calls: map<string, Counts>,        // calls made per sink since the row was inserted
    extractCalls: map<string, nat>,
    blank: set<string>,                // captures whose Core call was rejected with an empty message
    hooks: map<string, set<int>>,      // per extraction: its enqueue time and that of each later hook
    crashes: nat, arrivals: nat, finished: nat)

  datatype World = World(db: Db, phase: Phase, remote: Remote, history: History)

  const INIT := World(EMPTY_DB, Idle, Remote({}, []), History({}, map[], map[], {}, map[], 0, 0, 0))

  datatype Table = TurnRows | ContextRows | CaptureRows | ToolRows | ExtractionRows | RequestRows

  datatype Action =
    | OpenContext(id: string, principalId: string, identity: Identity, place: Place, ttl: int, now: int)
    | HookPrompt(principalId: string, contextId: string, turnId: string, prompt: string, now: int)
    | HookStop(principalId: string, contextId: string, turnId: string, assistant: string, supplied: Option<string>, now: int)
    | HookToolUse(principalId: string, contextId: string, turnId: string, toolUseId: string, toolName: string,
                  input: string, result: string, now: int)
    | HookSessionEnd(principalId: string, contextId: string, reason: string, now: int)
    | PruneTable(table: Table, now: int)
    | DrainBegin(picked: seq<string>, now: int)
    | CaptureStart(now: int)
    | CoreReceives(message: Message)
    | CallSettles(id: string, sink: Sink, response: Response)
    | CaptureMark(id: string, now: int)
    | CapturesDone(picked: seq<string>, verdicts: map<string, Verdict>, now: int)
    | ExtractionStart(now: int)
    | ExtractionSettles(id: string, outcome: Call, taskId: Option<string>, now: int)
    | DrainEnd
    | Crash

  // ----- Rows, items and marks -----

  function ItemOf(id: string, row: Capture): Item {
    Item(id, row.contextId, row.user, row.assistant, row.core, row.skill, row.attempts, row.createdAt)
  }

  function MarkItem(item: Item, m: Mark): Item {
    match m
    case Succeed(sink) => item.SetStatus(sink, Done)
    case GiveUp(sink, _) => item.SetStatus(sink, Dead)
    case Retry(attempts, _) => item.(attempts := attempts)
  }

  function MarkDb(db: Db, id: string, m: Mark, now: int): (next: Db)
    ensures next == db.(captures := next.captures)
  {
    match m
    case Succeed(sink) => MarkSink(db, id, sink, now)
    case GiveUp(sink, error) => MarkDeadSink(db, id, sink, error, now)
    case Retry(attempts, error) => MarkRetry(db, id, attempts, error, now)
  }

  function SinkName(sink: Sink): string {
    if sink.Core? then "core" else "skill"
  }

  function Successes(sink: Sink, call: Option<Call>): seq<Mark> {
    if call.Some? && !call.value.Failed() then [Succeed(sink)] else []
  }

  function GiveUps(sink: Sink, call: Option<Call>): seq<Mark> {
    if call.Some? && call.value.Failed() then [GiveUp(sink, call.value.message)] else []
  }

  function Complaint(sink: Sink, call: Option<Call>): string {
    if call.Some? && call.value.Failed() then SinkName(sink) + ": " + call.value.message else ""
  }

  function JoinComplaints(a: string, b: string): string {
    if a == "" then b else if b == "" then a else a + "; " + b
  }

  /** The statements the worker runs once both calls have settled. */
  function FinishMarks(maxAttempts: nat, item: Item, core: Option<Call>, skill: Option<Call>): seq<Mark> {
    var failures := GiveUps(Core, core) + GiveUps(Skill, skill);
    Successes(Core, core) + Successes(Skill, skill) +
    (if failures == [] then []
     else if item.attempts + 1 >= maxAttempts then failures
     else [Retry(item.attempts + 1, JoinComplaints(Complaint(Core, core), Complaint(Skill, skill)))])
  }

  predicate Settled(call: Option<Call>) {
    call.None? || !call.value.InFlight?
  }

  function Lanes(cfg: Config, items: nat): int {
    Min(Max(1, cfg.concurrency), items)
  }

  predicate IsApplied(remote: Remote, key: string) {
    exists i :: 0 <= i < |remote.applied| && remote.applied[i].key == key
  }

  // ----- Steps -----

  predicate CanStart(cfg: Config, w: World) {
    w.phase.Capturing? && w.phase.todo != [] && |w.phase.jobs| < Lanes(cfg, |w.phase.picked|)
  }

  /** A call under way may settle either way at any time, but Core only acknowledges what it has applied. */
  predicate CanSettle(w: World, id: string, sink: Sink, outcome: Call) {
    && w.phase.Capturing? && id in w.phase.jobs && w.phase.jobs[id].Calling? && !outcome.InFlight?
    && (if sink.Core? then w.phase.jobs[id].core else w.phase.jobs[id].skill) == Some(InFlight)
    && (sink.Core? && outcome.Fulfilled? ==> IsApplied(w.remote, id))
  }

  predicate CanMark(w: World, id: string) {
    w.phase.Capturing? && id in w.phase.jobs && w.phase.jobs[id].Marking? && w.phase.jobs[id].todo != []
  }

  predicate CanStartExtraction(cfg: Config, w: World) {
    w.phase.Extracting? && w.phase.waiting != [] && |w.phase.calls| < Lanes(cfg, |w.phase.picked|)
  }

  predicate CanSettleExtraction(w: World, id: string, outcome: Call) {
    w.phase.Extracting? && id in w.phase.calls && !outcome.InFlight?
  }

  ghost predicate Enabled(cfg: Config, w: World, a: Action) {
    match a
    case OpenContext(id, _, _, _, _, _) => id !in w.db.contexts
    case DrainBegin(picked, now) => w.phase.Idle? && OldestFirst(DueCaptures(w.db, now), CAPTURE_LIMIT, picked)
    case CaptureStart(_) => CanStart(cfg, w)
    case CoreReceives(message) => message in w.remote.sent
    case CallSettles(id, sink, response) => CanSettle(w, id, sink, Outcome(response))
    case CaptureMark(id, _) => CanMark(w, id)
    case CapturesDone(picked, verdicts, now) =>
      && w.phase.Capturing? && w.phase.todo == [] && w.phase.jobs == map[]
      && OldestFirst(DueExtractions(w.db, now), EXTRACTION_LIMIT, picked)
      && forall id :: id in picked ==> id in verdicts
    case ExtractionStart(_) => CanStartExtraction(cfg, w)
    case ExtractionSettles(id, outcome, _, _) => CanSettleExtraction(w, id, outcome)
    case DrainEnd => w.phase.Extracting? && w.phase.waiting == [] && w.phase.calls == map[]
    case _ => true
  }

  function NoteHook(h: History, db: Db, contextId: string, now: int): History {
    h.(hooks := map id | id in h.hooks ::
        if id in db.extractions && db.extractions[id].contextId == contextId && db.extractions[id].status.Queued?
        then h.hooks[id] + {now} else h.hooks[id])
  }

  function NoteCapture(h: History, id: string, user: string, assistant: string): History {
    h.(enqueued := h.enqueued + {Message(id, user, assistant)}, calls := h.calls[id := Counts(0, 0)],
       blank := h.blank - {id}, arrivals := h.arrivals + 1)
  }

  function NoteCall(h: History, id: string, sink: Sink): History {
    if id in h.calls then h.(calls := h.calls[id := h.calls[id].Bump(sink)]) else h
  }

  function ApplyStop(cfg: Config, w: World, a: Action): World
    requires a.HookStop?
  {
    if !ContextUsable(w.db, a.contextId, a.principalId, a.now) then w else
      var (db, r) := EnqueueCapture(w.db, a.contextId, a.turnId, a.assistant, a.supplied, a.now);
      if r.Refused? then w else
        var h := if r.duplicate then w.history
                 else NoteCapture(w.history, r.eventId, TurnPrompt(w.db, a.contextId, a.turnId, a.supplied), a.assistant);
        w.(db := TouchSkillExtraction(db, a.contextId, cfg.settleMs, a.now), history := NoteHook(h, db, a.contextId, a.now))
  }

  function ApplyToolUse(cfg: Config, w: World, a: Action): World
    requires a.HookToolUse?
  {
    if !ContextUsable(w.db, a.contextId, a.principalId, a.now) then w else
      var (db, _) := RecordToolUse(w.db, a.contextId, a.turnId, a.toolUseId, a.toolName, a.input, a.result, a.now);
      w.(db := TouchSkillExtraction(db, a.contextId, cfg.settleMs, a.now), history := NoteHook(w.history, db, a.contextId, a.now))
  }

  function ApplySessionEnd(cfg: Config, w: World, a: Action): World
    requires a.HookSessionEnd?
  {
    if !ContextUsable(w.db, a.contextId, a.principalId, a.now) then w else
      var (db, r) := EnqueueSkillExtraction(w.db, a.contextId, a.reason, cfg.settleMs, a.now);
      if r.Refused? || r.duplicate then w.(db := db) else
        w.(db := db, history := w.history.(hooks := w.history.hooks[r.eventId := {a.now}],
                                           extractCalls := w.history.extractCalls[r.eventId := 0]))
  }

  function ApplyPrune(db: Db, table: Table, now: int): Db {
    match table
    case TurnRows => PruneTurns(db, now)
    case ContextRows => PruneContexts(db, now)
    case CaptureRows => PruneCaptures(db, now)
    case ToolRows => PruneTools(db, now)
    case ExtractionRows => PruneExtractions(db, now)
    case RequestRows => PruneRequests(db, now)
  }

  /** The branch for a capture whose context is gone. */
  function AbandonCapture(db: Db, item: Item, now: int): (next: Db)
    ensures next == db.(captures := next.captures)
  {
    var error := "session context expired or missing";
    var db1 := if item.core.Pending? then MarkDeadSink(db, item.eventId, Core, error, now) else db;
    if item.skill.Pending? then MarkDeadSink(db1, item.eventId, Skill, error, now) else db1
  }

  function StartedJob(item: Item): Job {
    Calling(item, if item.core.Pending? then Some(InFlight) else None, if item.skill.Pending? then Some(InFlight) else None)
  }

  function NoteCalls(h: History, item: Item): (next: History)
    ensures next == h.(calls := next.calls)
  {
    var h1 := if item.core.Pending? then NoteCall(h, item.eventId, Core) else h;
    if item.skill.Pending? then NoteCall(h1, item.eventId, Skill) else h1
  }

  function ApplyCaptureStart(w: World, now: int): (next: World)
    requires w.phase.Capturing? && w.phase.todo != []
    ensures next.db == w.db.(captures := next.db.captures)
    ensures next.history == w.history.(calls := next.history.calls, finished := next.history.finished)
    ensures next.phase.Capturing? && next.phase.picked == w.phase.picked
    ensures w.phase.todo[0].contextId in w.db.contexts ==>
              next.db == w.db && next.history.finished == w.history.finished && next.phase.finished == w.phase.finished
  {
    var item, rest := w.phase.todo[0], w.phase.todo[1..];
    if item.contextId !in w.db.contexts then
      w.(db := AbandonCapture(w.db, item, now), phase := w.phase.(todo := rest, finished := w.phase.finished + 1),
         history := w.history.(finished := w.history.finished + 1))
    else
      w.(phase := w.phase.(todo := rest, jobs := w.phase.jobs[item.eventId := StartedJob(item)]),
         remote := if item.core.Pending?
                   then w.remote.(sent := w.remote.sent + {Message(item.eventId, item.user, item.assistant)})
                   else w.remote,
         history := NoteCalls(w.history, item))
  }

  function Receive(remote: Remote, m: Message): Remote {
    if IsApplied(remote, m.key) then remote else remote.(applied := remote.applied + [m])
  }

  function ApplyCallSettles(cfg: Config, w: World, id: string, sink: Sink, outcome: Call): (next: World)
    requires w.phase.Capturing? && id in w.phase.jobs && w.phase.jobs[id].Calling?
    ensures next.db == w.db && next.remote == w.remote
    ensures next.history == w.history.(blank := next.history.blank)
    ensures next.phase.Capturing? && next.phase == w.phase.(jobs := next.phase.jobs)
  {
    var job := w.phase.jobs[id];
    var core := if sink.Core? then Some(outcome) else job.core;
    var skill := if sink.Core? then job.skill else Some(outcome);
    var next := if Settled(core) && Settled(skill) then Marking(job.item, FinishMarks(cfg.maxAttempts, job.item, core, skill))
                else Calling(job.item, core, skill);
    w.(phase := w.phase.(jobs := w.phase.jobs[id := next]),
       history := if sink.Core? && outcome == Rejected("") then w.history.(blank := w.history.blank + {id}) else w.history)
  }

  function ApplyCaptureMark(w: World, id: string, now: int): (next: World)
    requires CanMark(w, id)
    ensures next.db == w.db.(captures := next.db.captures) && next.remote == w.remote
    ensures next.history == w.history.(finished := next.history.finished)
  {
    var job := w.phase.jobs[id];
    var db := MarkDb(w.db, id, job.todo[0], now);
    if |job.todo| == 1 then
      w.(db := db, phase := w.phase.(jobs := w.phase.jobs - {id}, finished := w.phase.finished + 1),
         history := w.history.(finished := w.history.finished + 1))
    else
      w.(db := db, phase := w.phase.(jobs := w.phase.jobs[id := Marking(MarkItem(job.item, job.todo[0]), job.todo[1..])]))
  }

  function RetryOrDeadSkill(cfg: Config, db: Db, id: string, previousAttempts: nat, error: string, now: int): Db {
    if previousAttempts + 1 >= cfg.maxAttempts then MarkExtractionDead(db, id, error, now)
    else MarkExtractionRetry(db, id, previousAttempts + 1, error, now)
  }

  function ApplyExtractionStart(w: World, now: int): (next: World)
    requires w.phase.Extracting? && w.phase.waiting != []
    ensures next.phase.Extracting? && next.remote == w.remote
    ensures next.db == w.db.(extractions := next.db.extractions)
    ensures next.history == w.history.(extractCalls := next.history.extractCalls)
  {
    var item, rest := w.phase.waiting[0], w.phase.waiting[1..];
    var next := w.(phase := w.phase.(waiting := rest));
    if item.contextId !in w.db.contexts then
      next.(db := MarkExtractionDead(w.db, item.eventId, "session context expired or missing", now))
    else match item.verdict
      case NoConversation => next.(db := MarkSkipped(w.db, item.eventId, "no completed conversation was captured", now))
      case TooLittle(detail) => next.(db := MarkSkipped(w.db, item.eventId, detail, now))
      case Worthwhile =>
        next.(phase := next.phase.(calls := w.phase.calls[item.eventId := item]),
              history := if item.eventId in w.history.extractCalls
                         then w.history.(extractCalls := w.history.extractCalls[item.eventId := w.history.extractCalls[item.eventId] + 1])
                         else w.history)
  }

  function ApplyExtractionSettles(cfg: Config, w: World, id: string, outcome: Call, taskId: Option<string>, now: int): (next: World)
    requires w.phase.Extracting? && id in w.phase.calls
    ensures next.phase.Extracting? && next.remote == w.remote && next.history == w.history
    ensures next.db == w.db.(extractions := next.db.extractions)
  {
    w.(db := if outcome.Rejected? then RetryOrDeadSkill(cfg, w.db, id, w.phase.calls[id].attempts, outcome.message, now)
             else MarkSubmitted(w.db, id, taskId, now),
       phase := w.phase.(calls := w.phase.calls - {id}))
  }

  ghost function Apply(cfg: Config, w: World, a: Action): World
    requires Enabled(cfg, w, a)
  {
    match a
    case OpenContext(id, principalId, identity, place, ttl, now) =>
      w.(db := InsertContext(w.db, id, principalId, identity, place, now, ttl))
    case HookPrompt(principalId, contextId, turnId, prompt, now) =>
      if ContextUsable(w.db, contextId, principalId, now) then w.(db := BeginTurn(w.db, contextId, turnId, prompt, now)) else w
    case HookStop(_, _, _, _, _, _) => ApplyStop(cfg, w, a)
    case HookToolUse(_, _, _, _, _, _, _, _) => ApplyToolUse(cfg, w, a)
    case HookSessionEnd(_, _, _, _) => ApplySessionEnd(cfg, w, a)
    case PruneTable(table, now) => w.(db := ApplyPrune(w.db, table, now))
    case DrainBegin(picked, now) =>
      w.(phase := Capturing(picked, seq(|picked|, i requires 0 <= i < |picked| => ItemOf(picked[i], w.db.captures[picked[i]])), map[], 0))
    case CaptureStart(now) => ApplyCaptureStart(w, now)
    case CoreReceives(message) => w.(remote := Receive(w.remote, message))
    case CallSettles(id, sink, response) => ApplyCallSettles(cfg, w, id, sink, Outcome(response))
    case CaptureMark(id, now) => ApplyCaptureMark(w, id, now)
    case CapturesDone(picked, verdicts, now) =>
      w.(phase := Extracting(picked,
          seq(|picked|, i requires 0 <= i < |picked| =>
            ExtractionItem(picked[i], w.db.extractions[picked[i]].contextId, w.db.extractions[picked[i]].attempts, verdicts[picked[i]])),
          map[]))
    case ExtractionStart(now) => ApplyExtractionStart(w, now)
    case ExtractionSettles(id, outcome, taskId, now) => ApplyExtractionSettles(cfg, w, id, outcome, taskId, now)
    case DrainEnd => w.(phase := Idle)
    case Crash => w.(phase := Idle, history := w.history.(crashes := w.history.crashes + 1))
  }

  // ----- Runs -----

  ghost predicate IsRun(cfg: Config, w: World, run: seq<Action>)
    decreases |run|
  {
    run == [] || (Enabled(cfg, w, run[0]) && IsRun(cfg, Apply(cfg, w, run[0]), run[1..]))
  }

  ghost function Exec(cfg: Config, w: World, run: seq<Action>): World
    requires IsRun(cfg, w, run)
    decreases |run|
  {
    if run == [] then w else Exec(cfg, Apply(cfg, w, run[0]), run[1..])
  }

  // ----- Budgets -----

  /** Whose attempts are counted: every row's, or those of the rows at least as old as a given one. */
  datatype Scope = Everyone | NoYoungerThan(id: string, createdAt: int)

  predicate InScope(scope: Scope, id: string, createdAt: int) {
    scope.NoYoungerThan? ==> id != scope.id && createdAt <= scope.createdAt
  }
}
