/** The worker as the program has it: the code between two awaits as one method each, run against the
    store object. Each method is proved to be one step of the transition system, except `RecordResults`,
    which is a whole sequence of mark steps. */
module CaptureWorkerClass {
  import opened Basics
  import opened GatewayDb
  import opened CaptureQueue
  import opened CaptureInvariant
  import opened GatewayStoreClass

  datatype SinkResult = SinkResult(sink: Sink, call: Call)

  /** What `Promise.all(jobs)` yields: the calls that were made, Core's first. */
  function Results(core: Option<Call>, skill: Option<Call>): seq<SinkResult> {
    (if core.Some? then [SinkResult(Core, core.value)] else []) + (if skill.Some? then [SinkResult(Skill, skill.value)] else [])
  }

  datatype Failure = Failure(sink: Sink, error: string)

  /** `results.filter((item) => item.error)` */
  function Failures(results: seq<SinkResult>): seq<Failure> {
    if results == [] then [] else
      var last := results[|results| - 1];
      Failures(results[..|results| - 1]) + (if last.call.Failed() then [Failure(last.sink, last.call.message)] else [])
  }

  function SuccessMarks(results: seq<SinkResult>): seq<Mark> {
    if results == [] then [] else
      var last := results[|results| - 1];
      SuccessMarks(results[..|results| - 1]) + (if last.call.Failed() then [] else [Succeed(last.sink)])
  }

  function GiveUpMarks(failed: seq<Failure>): seq<Mark> {
    if failed == [] then [] else
      GiveUpMarks(failed[..|failed| - 1]) + [GiveUp(failed[|failed| - 1].sink, failed[|failed| - 1].error)]
  }

  function JoinErrors(failed: seq<Failure>): string {
    if failed == [] then "" else
      var last := failed[|failed| - 1];
      var error := SinkName(last.sink) + ": " + last.error;
      if |failed| == 1 then error else JoinErrors(failed[..|failed| - 1]) + "; " + error
  }

  /** The statements run one after the other. */
  function RunMarks(db: Db, id: string, marks: seq<Mark>, now: int): Db {
    if marks == [] then db else MarkDb(RunMarks(db, id, marks[..|marks| - 1], now), id, marks[|marks| - 1], now)
  }

  lemma {:induction false} RunMarksAppend(db: Db, id: string, a: seq<Mark>, b: seq<Mark>, now: int)
    ensures RunMarks(RunMarks(db, id, a, now), id, b, now) == RunMarks(db, id, a + b, now)
    decreases |b|
  {
    if b == [] {
      assert a + b == a;
    } else {
      RunMarksAppend(db, id, a, b[..|b| - 1], now);
      assert (a + b)[..|a + b| - 1] == a + b[..|b| - 1];
    }
  }

  lemma RunMarksOne(db: Db, id: string, marks: seq<Mark>, m: Mark, now: int)
    ensures RunMarks(db, id, marks + [m], now) == MarkDb(RunMarks(db, id, marks, now), id, m, now)
  {
    assert (marks + [m])[..|marks|] == marks;
  }

  lemma ResultsOfOne(r: SinkResult)
    ensures Failures([r]) == if r.call.Failed() then [Failure(r.sink, r.call.message)] else []
    ensures SuccessMarks([r]) == if r.call.Failed() then [] else [Succeed(r.sink)]
  {
    assert [r][..0] == [];
  }

  lemma ResultsOfTwo(r: SinkResult, s: SinkResult)
    ensures Failures([r, s]) == Failures([r]) + Failures([s])
    ensures SuccessMarks([r, s]) == SuccessMarks([r]) + SuccessMarks([s])
  {
    assert [r, s][..1] == [r];
    ResultsOfOne(s);
  }

  lemma FailuresJoined(f: Failure, g: Failure)
    ensures GiveUpMarks([f]) == [GiveUp(f.sink, f.error)] && JoinErrors([f]) == SinkName(f.sink) + ": " + f.error
    ensures GiveUpMarks([f, g]) == [GiveUp(f.sink, f.error), GiveUp(g.sink, g.error)]
    ensures JoinErrors([f, g]) == SinkName(f.sink) + ": " + f.error + "; " + (SinkName(g.sink) + ": " + g.error)
  {
    assert [f][..0] == [] && [f, g][..1] == [f];
  }

  function FailureMarks(maxAttempts: nat, attempts: nat, failed: seq<Failure>): seq<Mark> {
    if failed == [] then []
    else if attempts + 1 >= maxAttempts then GiveUpMarks(failed)
    else [Retry(attempts + 1, JoinErrors(failed))]
  }

  lemma OneResult(maxAttempts: nat, item: Item, core: Option<Call>, skill: Option<Call>)
    requires core.Some? != skill.Some?
    ensures var results := Results(core, skill);
            SuccessMarks(results) + FailureMarks(maxAttempts, item.attempts, Failures(results)) == FinishMarks(maxAttempts, item, core, skill)
  {
    var r := if core.Some? then SinkResult(Core, core.value) else SinkResult(Skill, skill.value);
    assert Results(core, skill) == [r];
    ResultsOfOne(r);
    if r.call.Failed() {
      FailuresJoined(Failure(r.sink, r.call.message), Failure(Core, ""));
    }
  }

  lemma TwoResults(maxAttempts: nat, item: Item, core: Option<Call>, skill: Option<Call>)
    requires core.Some? && skill.Some?
    ensures var results := Results(core, skill);
            SuccessMarks(results) + FailureMarks(maxAttempts, item.attempts, Failures(results)) == FinishMarks(maxAttempts, item, core, skill)
  {
    var r, s, none := SinkResult(Core, core.value), SinkResult(Skill, skill.value), Failure(Core, "");
    assert Results(core, skill) == [r, s];
    ResultsOfTwo(r, s);
    ResultsOfOne(r);
    ResultsOfOne(s);
    if r.call.Failed() && s.call.Failed() {
      FailuresJoined(Failure(Core, r.call.message), Failure(Skill, s.call.message));
    } else if r.call.Failed() {
      FailuresJoined(Failure(Core, r.call.message), none);
    } else if s.call.Failed() {
      FailuresJoined(Failure(Skill, s.call.message), none);
    }
  }

  /** The loops over the result array compute the marks of the model. */
  lemma ResultMarksAreFinishMarks(maxAttempts: nat, item: Item, core: Option<Call>, skill: Option<Call>)
    requires core.Some? || skill.Some?
    ensures var results := Results(core, skill);
            SuccessMarks(results) + FailureMarks(maxAttempts, item.attempts, Failures(results)) == FinishMarks(maxAttempts, item, core, skill)
  {
    if core.Some? && skill.Some? {
      TwoResults(maxAttempts, item, core, skill);
    } else {
      OneResult(maxAttempts, item, core, skill);
    }
  }

  function MarkSteps(id: string, now: int, n: nat): seq<Action> {
    if n == 0 then [] else [CaptureMark(id, now)] + MarkSteps(id, now, n - 1)
  }

  /** Running the marks is a run of `CaptureMark` steps that takes the job out of the worker's hands. */
  lemma {:induction false} MarksAreSteps(cfg: Config, w: World, id: string, now: int)
    requires CanMark(w, id)
    ensures var steps := MarkSteps(id, now, |w.phase.jobs[id].todo|);
            && IsRun(cfg, w, steps)
            && Exec(cfg, w, steps).db == RunMarks(w.db, id, w.phase.jobs[id].todo, now)
            && Exec(cfg, w, steps).phase == w.phase.(jobs := w.phase.jobs - {id}, finished := w.phase.finished + 1)
    decreases |w.phase.jobs[id].todo|
  {
    var todo, next := w.phase.jobs[id].todo, ApplyCaptureMark(w, id, now);
    var rest := MarkSteps(id, now, |todo| - 1);
    assert MarkSteps(id, now, |todo|)[0] == CaptureMark(id, now) && MarkSteps(id, now, |todo|)[1..] == rest;
    FirstMark(w.db, id, todo, now);
    if |todo| > 1 {
      MarksAreSteps(cfg, next, id, now);
      assert next.phase.jobs - {id} == w.phase.jobs - {id};
    }
  }

  lemma FirstMark(db: Db, id: string, todo: seq<Mark>, now: int)
    requires todo != []
    ensures RunMarks(db, id, todo, now) == RunMarks(MarkDb(db, id, todo[0], now), id, todo[1..], now)
  {
    RunMarksAppend(db, id, [todo[0]], todo[1..], now);
    assert [todo[0]] + todo[1..] == todo && [todo[0]][..0] == [];
  }

  // ----- What the marks amount to -----

  function SinkAfter(maxAttempts: nat, row: Capture, sink: Sink, call: Option<Call>): SinkStatus {
    if call.None? then row.Status(sink)
    else if !call.value.Failed() then Done
    else if row.attempts + 1 >= maxAttempts then Dead
    else Pending
  }

  predicate HasFailed(call: Option<Call>) {
    call.Some? && call.value.Failed()
  }

  function MarkRow(row: Capture, m: Mark, now: int): Capture {
    match m
    case Succeed(sink) => row.SetStatus(sink, Done).(updatedAt := now)
    case GiveUp(sink, error) => row.SetStatus(sink, Dead).(lastError := Some(Prefix(error, 1000)), updatedAt := now)
    case Retry(attempts, error) => row.(attempts := attempts, nextAttemptAt := now + RetryDelay(attempts),
                                        lastError := Some(Prefix(error, 1000)), updatedAt := now)
  }

  lemma MarkIsOneRow(db: Db, id: string, m: Mark, now: int)
    requires id in db.captures
    ensures MarkDb(db, id, m, now) == db.(captures := db.captures[id := MarkRow(db.captures[id], m, now)])
  {
  }

  lemma RunOneMark(db: Db, id: string, m: Mark, now: int)
    requires id in db.captures
    ensures RunMarks(db, id, [m], now) == db.(captures := db.captures[id := MarkRow(db.captures[id], m, now)])
  {
    RunMarksOne(db, id, [], m, now);
    assert [] + [m] == [m];
    MarkIsOneRow(db, id, m, now);
  }

  lemma RunTwoMarks(db: Db, id: string, m: Mark, n: Mark, now: int)
    requires id in db.captures
    ensures RunMarks(db, id, [m, n], now) == db.(captures := db.captures[id := MarkRow(MarkRow(db.captures[id], m, now), n, now)])
  {
    var once := RunMarks(db, id, [m], now);
    RunOneMark(db, id, m, now);
    RunMarksOne(db, id, [m], n, now);
    assert [m] + [n] == [m, n];
    MarkIsOneRow(once, id, n, now);
    assert once.captures[id := MarkRow(once.captures[id], n, now)] == db.captures[id := MarkRow(once.captures[id], n, now)];
  }

  /** What is recorded when the event is to be tried again. */
  function Report(core: Option<Call>, skill: Option<Call>): string
    requires HasFailed(core) || HasFailed(skill)
  {
    if HasFailed(core) && HasFailed(skill) then "core: " + core.value.message + "; skill: " + skill.value.message
    else if HasFailed(core) then "core: " + core.value.message
    else "skill: " + skill.value.message
  }

  ghost predicate IsOutcome(maxAttempts: nat, row: Capture, after: Capture, core: Option<Call>, skill: Option<Call>, now: int) {
    var retry := (HasFailed(core) || HasFailed(skill)) && row.attempts + 1 < maxAttempts;
    && after.core == SinkAfter(maxAttempts, row, Core, core)
    && after.skill == SinkAfter(maxAttempts, row, Skill, skill)
    && after.attempts == row.attempts + (if retry then 1 else 0)
    && after.nextAttemptAt == (if retry then now + RetryDelay(row.attempts + 1) else row.nextAttemptAt)
    && after.updatedAt == now
    && after.contextId == row.contextId && after.turnId == row.turnId && after.user == row.user
    && after.assistant == row.assistant && after.createdAt == row.createdAt
  }

  /** The error kept with the row: the report of a retry, or what the last sink that died was told. */
  ghost predicate IsNoted(maxAttempts: nat, row: Capture, after: Capture, core: Option<Call>, skill: Option<Call>) {
    if !HasFailed(core) && !HasFailed(skill) then after.lastError == row.lastError
    else if row.attempts + 1 < maxAttempts then IsCut(Report(core, skill), after.lastError)
    else IsCut(if HasFailed(skill) then skill.value.message else core.value.message, after.lastError)
  }

  lemma ReportIs(core: Option<Call>, skill: Option<Call>)
    requires HasFailed(core) || HasFailed(skill)
    ensures Report(core, skill) == JoinComplaints(Complaint(Core, core), Complaint(Skill, skill))
  {
    assert SinkName(Core) == "core" && SinkName(Skill) == "skill";
    if HasFailed(core) && HasFailed(skill) {
      assert "core: " + core.value.message + "; " + ("skill: " + skill.value.message) == Report(core, skill);
    }
  }

  lemma LastMarkNotes(row: Capture, marks: seq<Mark>, now: int)
    requires 1 <= |marks| <= 2
    ensures var last, error := marks[|marks| - 1], AfterMarks(row, marks, now).lastError;
            && (last.GiveUp? ==> IsCut(last.error, error)) && (last.Retry? ==> IsCut(last.error, error))
            && ((forall k :: 0 <= k < |marks| ==> marks[k].Succeed?) ==> error == row.lastError)
  {
  }

  lemma ErrorIsNoted(maxAttempts: nat, row: Capture, marks: seq<Mark>, core: Option<Call>, skill: Option<Call>, now: int, id: string)
    requires (core.Some? || skill.Some?) && marks == FinishMarks(maxAttempts, ItemOf(id, row), core, skill) && 1 <= |marks| <= 2
    ensures IsNoted(maxAttempts, row, AfterMarks(row, marks, now), core, skill)
  {
    FinishMarksCases(maxAttempts, ItemOf(id, row), core, skill);
    LastMarkNotes(row, marks, now);
    if HasFailed(core) || HasFailed(skill) {
      ReportIs(core, skill);
      var last := marks[|marks| - 1];
      assert if row.attempts + 1 < maxAttempts then last == Retry(row.attempts + 1, Report(core, skill))
             else last == if HasFailed(skill) then GiveUp(Skill, skill.value.message) else GiveUp(Core, core.value.message);
    } else {
      assert forall k :: 0 <= k < |marks| ==> marks[k].Succeed?;
    }
  }

  function AfterMarks(row: Capture, marks: seq<Mark>, now: int): Capture
    requires 1 <= |marks| <= 2
  {
    if |marks| == 1 then MarkRow(row, marks[0], now) else MarkRow(MarkRow(row, marks[0], now), marks[1], now)
  }

  lemma RunFewMarks(db: Db, id: string, marks: seq<Mark>, now: int)
    requires id in db.captures && 1 <= |marks| <= 2
    ensures RunMarks(db, id, marks, now) == db.(captures := db.captures[id := AfterMarks(db.captures[id], marks, now)])
  {
    if |marks| == 1 {
      assert marks == [marks[0]];
      RunOneMark(db, id, marks[0], now);
    } else {
      assert marks == [marks[0], marks[1]];
      RunTwoMarks(db, id, marks[0], marks[1], now);
    }
  }

  lemma CoreOutcome(maxAttempts: nat, row: Capture, marks: seq<Mark>, core: Option<Call>, now: int, id: string)
    requires core.Some? && row.core.Pending? && marks == FinishMarks(maxAttempts, ItemOf(id, row), core, None)
    ensures |marks| == 1 && IsOutcome(maxAttempts, row, AfterMarks(row, marks, now), core, None, now)
  {
    FinishMarksCases(maxAttempts, ItemOf(id, row), core, None);
  }

  lemma SkillOutcome(maxAttempts: nat, row: Capture, marks: seq<Mark>, skill: Option<Call>, now: int, id: string)
    requires skill.Some? && row.skill.Pending? && marks == FinishMarks(maxAttempts, ItemOf(id, row), None, skill)
    ensures |marks| == 1 && IsOutcome(maxAttempts, row, AfterMarks(row, marks, now), None, skill, now)
  {
    FinishMarksCases(maxAttempts, ItemOf(id, row), None, skill);
  }

  lemma TwoOutcomes(maxAttempts: nat, row: Capture, marks: seq<Mark>, core: Option<Call>, skill: Option<Call>, now: int, id: string)
    requires core.Some? && skill.Some? && marks == FinishMarks(maxAttempts, ItemOf(id, row), core, skill)
    requires row.core.Pending? && row.skill.Pending?
    ensures 1 <= |marks| <= 2 && IsOutcome(maxAttempts, row, AfterMarks(row, marks, now), core, skill, now)
  {
    FinishMarksCases(maxAttempts, ItemOf(id, row), core, skill);
  }

  /** One handled capture, whatever its calls returned: each called sink is done, dead or still pending, the
      attempts are used up together, a row to be retried is due after the back-off, and nothing else changes. */
  lemma RowAfterMarks(maxAttempts: nat, db: Db, id: string, core: Option<Call>, skill: Option<Call>, now: int)
    requires id in db.captures && (core.Some? || skill.Some?)
    requires (core.Some? ==> db.captures[id].core.Pending?) && (skill.Some? ==> db.captures[id].skill.Pending?)
    ensures var after := RunMarks(db, id, FinishMarks(maxAttempts, ItemOf(id, db.captures[id]), core, skill), now);
            && id in after.captures && after == db.(captures := db.captures[id := after.captures[id]])
            && IsOutcome(maxAttempts, db.captures[id], after.captures[id], core, skill, now)
            && IsNoted(maxAttempts, db.captures[id], after.captures[id], core, skill)
  {
    var row := db.captures[id];
    var marks := FinishMarks(maxAttempts, ItemOf(id, row), core, skill);
    if core.Some? && skill.Some? {
      TwoOutcomes(maxAttempts, row, marks, core, skill, now, id);
    } else if core.Some? {
      CoreOutcome(maxAttempts, row, marks, core, now, id);
    } else {
      SkillOutcome(maxAttempts, row, marks, skill, now, id);
    }
    ErrorIsNoted(maxAttempts, row, marks, core, skill, now, id);
    RunFewMarks(db, id, marks, now);
    SameRow(db, id, AfterMarks(row, marks, now));
  }

  lemma SameRow(db: Db, id: string, row: Capture)
    ensures var after := db.(captures := db.captures[id := row]); after.captures[id] == row && after == db.(captures := db.captures[id := after.captures[id]])
  {
  }

  class CaptureWorker {
    const store: GatewayStore
    const cfg: Config
    var running: bool
    /** The local variables of the drain that is under way. */
    var phase: Phase

    constructor (store: GatewayStore, cfg: Config)
      ensures this.store == store && this.cfg == cfg && !running && phase == Idle
    {
      this.store, this.cfg, running, phase := store, cfg, false, Idle;
    }

    ghost predicate Valid()
      reads this
    {
      running <==> !phase.Idle?
    }

    ghost function AsWorld(remote: Remote, h: History): World
      reads this, store
    {
      World(store.Tables(), phase, remote, h)
    }

    /** Does nothing while another drain is running; otherwise takes the snapshot of due captures. */
    method BeginDrain(now: int, ghost remote: Remote, ghost h: History) returns (began: bool, picked: seq<string>)
      requires Valid()
      modifies this
      ensures Valid() && began == !old(running)
      ensures !began ==> phase == old(phase)
      ensures began ==> var w := old(AsWorld(remote, h));
                        Enabled(cfg, w, DrainBegin(picked, now)) && Apply(cfg, w, DrainBegin(picked, now)) == AsWorld(remote, h)
    {
      if running {
        return false, [];
      }
      running := true;
      picked := store.DueCaptures(CAPTURE_LIMIT, now);
      assert forall i :: 0 <= i < |picked| ==> picked[i] in GatewayDb.DueCaptures(store.Tables(), now);
      var items := ReadRows(picked);
      phase := Capturing(picked, items, map[], 0);
      began := true;
    }

    /** The rows of a selection, copied into memory. */
    method ReadRows(picked: seq<string>) returns (items: seq<Item>)
      requires forall i :: 0 <= i < |picked| ==> picked[i] in store.captures
      ensures |items| == |picked|
      ensures forall i :: 0 <= i < |picked| ==> items[i] == ItemOf(picked[i], store.captures[picked[i]])
    {
      items := [];
      for i := 0 to |picked|
        invariant |items| == i
        invariant forall j :: 0 <= j < i ==> items[j] == ItemOf(picked[j], store.captures[picked[j]])
      {
        items := items + [ItemOf(picked[i], store.captures[picked[i]])];
      }
    }

    /** The synchronous part of the capture callback: look up the context, then send the calls. */
    method StartCapture(now: int, ghost remote: Remote, ghost h: History)
      requires Valid() && CanStart(cfg, AsWorld(remote, h))
      modifies this, store
      ensures Valid()
      ensures var next := ApplyCaptureStart(old(AsWorld(remote, h)), now); store.Tables() == next.db && phase == next.phase
    {
      var event := phase.todo[0];
      if event.contextId !in store.contexts {
        if event.core.Pending? {
          store.MarkDeadSink(event.eventId, Core, "session context expired or missing", now);
        }
        if event.skill.Pending? {
          store.MarkDeadSink(event.eventId, Skill, "session context expired or missing", now);
        }
        phase := phase.(todo := phase.todo[1..], finished := phase.finished + 1);
        return;
      }
      var core: Option<Call> := None;
      var skill: Option<Call> := None;
      if event.core.Pending? {
        core := Some(InFlight);
      }
      if event.skill.Pending? {
        skill := Some(InFlight);
      }
      phase := phase.(todo := phase.todo[1..], jobs := phase.jobs[event.eventId := Calling(event, core, skill)]);
    }

    method MarkSuccesses(eventId: string, results: seq<SinkResult>, now: int)
      modifies store
      ensures store.Tables() == RunMarks(old(store.Tables()), eventId, SuccessMarks(results), now)
    {
      for i := 0 to |results|
        invariant store.Tables() == RunMarks(old(store.Tables()), eventId, SuccessMarks(results[..i]), now)
      {
        assert results[..i + 1][..i] == results[..i];
        if !results[i].call.Failed() {
          store.MarkSink(eventId, results[i].sink, now);
          RunMarksOne(old(store.Tables()), eventId, SuccessMarks(results[..i]), Succeed(results[i].sink), now);
        } else {
          assert SuccessMarks(results[..i]) + [] == SuccessMarks(results[..i]);
        }
      }
      assert results[..|results|] == results;
    }

    method GiveUpAll(eventId: string, failed: seq<Failure>, now: int)
      modifies store
      ensures store.Tables() == RunMarks(old(store.Tables()), eventId, GiveUpMarks(failed), now)
    {
      for i := 0 to |failed|
        invariant store.Tables() == RunMarks(old(store.Tables()), eventId, GiveUpMarks(failed[..i]), now)
      {
        assert failed[..i + 1][..i] == failed[..i];
        store.MarkDeadSink(eventId, failed[i].sink, failed[i].error, now);
        RunMarksOne(old(store.Tables()), eventId, GiveUpMarks(failed[..i]), GiveUp(failed[i].sink, failed[i].error), now);
      }
      assert failed[..|failed|] == failed;
    }

    method MarkFailures(eventId: string, previousAttempts: nat, failed: seq<Failure>, now: int)
      modifies store
      ensures store.Tables() == RunMarks(old(store.Tables()), eventId, FailureMarks(cfg.maxAttempts, previousAttempts, failed), now)
    {
      if |failed| > 0 {
        var attempts := previousAttempts + 1;
        var error := JoinErrors(failed);
        if attempts >= cfg.maxAttempts {
          GiveUpAll(eventId, failed, now);
        } else {
          store.MarkRetry(eventId, attempts, error, now);
          RunMarksOne(old(store.Tables()), eventId, [], Retry(attempts, error), now);
          assert [] + [Retry(attempts, error)] == [Retry(attempts, error)];
        }
      }
    }

    /** The continuation of `await Promise.all(jobs)`. */
    method RecordResults(event: Item, core: Option<Call>, skill: Option<Call>, now: int)
      requires core.Some? || skill.Some?
      modifies store
      ensures store.Tables() == RunMarks(old(store.Tables()), event.eventId, FinishMarks(cfg.maxAttempts, event, core, skill), now)
    {
      var results := Results(core, skill);
      var failed: seq<Failure> := [];
      for i := 0 to |results|
        invariant failed == Failures(results[..i])
      {
        assert results[..i + 1][..i] == results[..i];
        match results[i].call {
          case Rejected(message) =>
            if message != "" {
              failed := failed + [Failure(results[i].sink, message)];
            }
          case _ =>
        }
      }
      assert results[..|results|] == results;
      MarkSuccesses(event.eventId, results, now);
      MarkFailures(event.eventId, event.attempts, failed, now);
      RunMarksAppend(old(store.Tables()), event.eventId, SuccessMarks(results), FailureMarks(cfg.maxAttempts, event.attempts, failed), now);
      ResultMarksAreFinishMarks(cfg.maxAttempts, event, core, skill);
    }

    method RetryOrDeadSkill(eventId: string, previousAttempts: nat, error: string, now: int)
      modifies store
      ensures store.Tables() == CaptureQueue.RetryOrDeadSkill(cfg, old(store.Tables()), eventId, previousAttempts, error, now)
    {
      var attempts := previousAttempts + 1;
      if attempts >= cfg.maxAttempts {
        store.MarkSkillExtractionDead(eventId, error, now);
      } else {
        store.MarkSkillExtractionRetry(eventId, attempts, error, now);
      }
    }

    /** The synchronous part of the extraction callback. */
    method StartExtraction(now: int, ghost remote: Remote, ghost h: History)
      requires Valid() && CanStartExtraction(cfg, AsWorld(remote, h))
      modifies this, store
      ensures Valid()
      ensures var next := ApplyExtractionStart(old(AsWorld(remote, h)), now); store.Tables() == next.db && phase == next.phase
    {
      var event := phase.waiting[0];
      phase := phase.(waiting := phase.waiting[1..]);
      if event.contextId !in store.contexts {
        store.MarkSkillExtractionDead(event.eventId, "session context expired or missing", now);
        return;
      }
      match event.verdict {
        case NoConversation =>
          store.MarkSkillExtractionSkipped(event.eventId, "no completed conversation was captured", now);
        case TooLittle(detail) =>
          store.MarkSkillExtractionSkipped(event.eventId, detail, now);
        case Worthwhile =>
          phase := phase.(calls := phase.calls[event.eventId := event]);
      }
    }

    method FinishExtraction(eventId: string, outcome: Call, taskId: Option<string>, now: int, ghost remote: Remote, ghost h: History)
      requires Valid() && CanSettleExtraction(AsWorld(remote, h), eventId, outcome)
      modifies this, store
      ensures Valid()
      ensures var next := ApplyExtractionSettles(cfg, old(AsWorld(remote, h)), eventId, outcome, taskId, now);
              store.Tables() == next.db && phase == next.phase
    {
      var event := phase.calls[eventId];
      phase := phase.(calls := phase.calls - {eventId});
      if outcome.Rejected? {
        RetryOrDeadSkill(eventId, event.attempts, outcome.message, now);
      } else {
        store.MarkSkillExtractionSubmitted(eventId, taskId, now);
      }
    }

    /** The `finally` block. */
    method EndDrain(ghost remote: Remote, ghost h: History)
      requires Valid() && Enabled(cfg, AsWorld(remote, h), DrainEnd)
      modifies this
      ensures Valid() && !running
      ensures Apply(cfg, old(AsWorld(remote, h)), DrainEnd) == AsWorld(remote, h)
    {
      phase := Idle;
      running := false;
    }
  }
}
