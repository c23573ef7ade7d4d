/** What becomes of a capture: which calls a start makes, what the last answer to them decides, and how the answers
    since the row was inserted explain the status of its sinks in every reachable state. */
module CaptureOutcomes {
  import opened Basics
  import opened GatewayDb
  import opened CaptureQueue
  import opened CoreClient
  import opened CaptureInvariant
  import opened CaptureTheorems
  import opened CaptureWorkerClass

  // ----- One event, from its start to its row -----

  /** A sink is called if and only if it is pending; Core is sent the row's own conversation under its id. */
  lemma StartedCapture(cfg: Config, w: World, now: int)
    requires CanStart(cfg, w) && Current(w.db, w.phase.todo[0]) && w.phase.todo[0].contextId in w.db.contexts
    requires w.phase.todo[0].eventId in w.history.calls
    ensures var item, next := w.phase.todo[0], ApplyCaptureStart(w, now);
            var id := item.eventId;
            && next.db == w.db && next.phase.todo == w.phase.todo[1..] && id in next.history.calls
            && next.phase.jobs == w.phase.jobs[id := next.phase.jobs[id]]
            && next.phase.jobs[id].Calling? && next.phase.jobs[id].item == item
            && (next.phase.jobs[id].core == if w.db.captures[id].core.Pending? then Some(InFlight) else None)
            && (next.phase.jobs[id].skill == if w.db.captures[id].skill.Pending? then Some(InFlight) else None)
            && next.remote.applied == w.remote.applied
            && (next.remote.sent == if w.db.captures[id].core.Pending?
                                    then w.remote.sent + {Message(id, w.db.captures[id].user, w.db.captures[id].assistant)}
                                    else w.remote.sent)
            && (forall sink: Sink :: next.history.calls[id].Of(sink) ==
                  w.history.calls[id].Of(sink) + (if w.db.captures[id].Status(sink).Pending? then 1 else 0))
  {
  }

  function WithAnswer(call: Option<Call>, sink: Sink, answered: Sink, outcome: Call): Option<Call> {
    if sink == answered then Some(outcome) else call
  }

  lemma AnswerIsNoted(cfg: Config, w: World, id: string, sink: Sink, outcome: Call)
    requires CanSettle(w, id, sink, outcome)
    ensures var job, next := w.phase.jobs[id], ApplyCallSettles(cfg, w, id, sink, outcome);
            var core, skill := WithAnswer(job.core, Core, sink, outcome), WithAnswer(job.skill, Skill, sink, outcome);
            && id in next.phase.jobs && next.phase.jobs == w.phase.jobs[id := next.phase.jobs[id]]
            && next.phase.jobs[id] ==
               if core != Some(InFlight) && skill != Some(InFlight) then Marking(job.item, FinishMarks(cfg.maxAttempts, job.item, core, skill))
               else Calling(job.item, core, skill)
  {
  }

  /** The last answer decides: once both calls have ended the marks that follow are a run of the queue, at the end of
      which each called sink is done, dead or to be tried again as its own answer says. */
  lemma LastAnswerDecides(cfg: Config, w: World, id: string, sink: Sink, outcome: Call, now: int)
    requires CanSettle(w, id, sink, outcome) && w.phase.jobs[id].item.eventId == id && Current(w.db, w.phase.jobs[id].item)
    requires w.phase.jobs[id].core.Some? == w.db.captures[id].core.Pending? && w.phase.jobs[id].skill.Some? == w.db.captures[id].skill.Pending?
    requires (if sink.Core? then w.phase.jobs[id].skill else w.phase.jobs[id].core) != Some(InFlight)
    ensures var job, next := w.phase.jobs[id], ApplyCallSettles(cfg, w, id, sink, outcome);
            && CanMark(next, id) && next.db == w.db
            && var marks := MarkSteps(id, now, |next.phase.jobs[id].todo|);
               && IsRun(cfg, next, marks)
               && var end := Exec(cfg, next, marks);
                  && end.phase.Capturing? && id !in end.phase.jobs && id in end.db.captures
                  && end.db == w.db.(captures := w.db.captures[id := end.db.captures[id]])
                  && IsOutcome(cfg.maxAttempts, w.db.captures[id], end.db.captures[id],
                               WithAnswer(job.core, Core, sink, outcome), WithAnswer(job.skill, Skill, sink, outcome), now)
                  && IsNoted(cfg.maxAttempts, w.db.captures[id], end.db.captures[id],
                             WithAnswer(job.core, Core, sink, outcome), WithAnswer(job.skill, Skill, sink, outcome))
  {
    var job, next := w.phase.jobs[id], ApplyCallSettles(cfg, w, id, sink, outcome);
    var core, skill := WithAnswer(job.core, Core, sink, outcome), WithAnswer(job.skill, Skill, sink, outcome);
    AnswerIsNoted(cfg, w, id, sink, outcome);
    FinishMarksCases(cfg.maxAttempts, job.item, core, skill);
    MarksAreSteps(cfg, next, id, now);
    RowAfterMarks(cfg.maxAttempts, w.db, id, core, skill, now);
  }

  // ----- Whole runs -----

  datatype Ended = Ended(sink: Sink, call: Call)

  function Answers(a: Action, id: string): seq<Ended> {
    if a.CallSettles? && a.id == id then [Ended(a.sink, Outcome(a.response))] else []
  }

  /** The answers a capture's calls got since its row was inserted, given those before the run. */
  ghost function Record(cfg: Config, w: World, run: seq<Action>, id: string, before: seq<Ended>): seq<Ended>
    requires IsRun(cfg, w, run)
    decreases |run|
  {
    if run == [] then before else
      var next := Apply(cfg, w, run[0]);
      Record(cfg, next, run[1..], id, if id in next.db.captures then before + Answers(run[0], id) else [])
  }

  function Refusals(record: seq<Ended>): nat {
    if record == [] then 0 else Refusals(Init(record)) + (if Last(record).call.Failed() then 1 else 0)
  }

  /** Some call of the sink was taken for a success, or for a failure. */
  predicate Good(record: seq<Ended>, sink: Sink) {
    exists k :: 0 <= k < |record| && record[k].sink == sink && !record[k].call.Failed()
  }

  predicate Bad(record: seq<Ended>, sink: Sink) {
    exists k :: 0 <= k < |record| && record[k].sink == sink && record[k].call.Failed()
  }

  predicate SinkExplained(maxAttempts: nat, status: SinkStatus, record: seq<Ended>, sink: Sink) {
    match status
    case Pending => true
    case Done => Good(record, sink)
    case Dead => Bad(record, sink) && Refusals(record) >= maxAttempts
  }

  predicate RowExplained(maxAttempts: nat, row: Capture, record: seq<Ended>) {
    && SinkExplained(maxAttempts, row.core, record, Core) && SinkExplained(maxAttempts, row.skill, record, Skill)
    && row.attempts <= Refusals(record)
  }

  predicate CallExplained(call: Option<Call>, record: seq<Ended>, sink: Sink) {
    call.Some? && !call.value.InFlight? ==> if call.value.Failed() then Bad(record, sink) else Good(record, sink)
  }

  predicate MarkExplained(maxAttempts: nat, m: Mark, record: seq<Ended>) {
    match m
    case Succeed(sink) => Good(record, sink)
    case GiveUp(sink, _) => Bad(record, sink) && Refusals(record) >= maxAttempts
    case Retry(attempts, _) => attempts <= Refusals(record)
  }

  predicate JobExplained(maxAttempts: nat, job: Job, record: seq<Ended>) {
    match job
    case Calling(item, core, skill) =>
      && CallExplained(core, record, Core) && CallExplained(skill, record, Skill)
      && item.attempts + (if HasFailed(core) || HasFailed(skill) then 1 else 0) <= Refusals(record)
    case Marking(_, todo) => forall k :: 0 <= k < |todo| ==> MarkExplained(maxAttempts, todo[k], record)
  }

  /** Before the row there is no record. */
  ghost predicate RecordOk(cfg: Config, w: World, id: string, record: seq<Ended>) {
    if id in w.db.captures then
      && RowExplained(cfg.maxAttempts, w.db.captures[id], record)
      && (HasJob(w.phase, id) ==> JobExplained(cfg.maxAttempts, w.phase.jobs[id], record))
    else record == []
  }

  lemma OneAnswerMore(record: seq<Ended>, sink: Sink, call: Call)
    ensures var more := record + [Ended(sink, call)];
            && Refusals(more) == Refusals(record) + (if call.Failed() then 1 else 0)
            && (if call.Failed() then Bad(more, sink) else Good(more, sink))
            && (forall other: Sink :: Good(record, other) ==> Good(more, other))
            && (forall other: Sink :: Bad(record, other) ==> Bad(more, other))
  {
    var more := record + [Ended(sink, call)];
    assert Init(more) == record && more[|record|] == Ended(sink, call);
    assert forall k :: 0 <= k < |record| ==> more[k] == record[k];
  }

  lemma MarksExplained(maxAttempts: nat, item: Item, core: Option<Call>, skill: Option<Call>, record: seq<Ended>)
    requires core.Some? || skill.Some?
    requires core != Some(InFlight) && skill != Some(InFlight)
    requires JobExplained(maxAttempts, Calling(item, core, skill), record)
    ensures JobExplained(maxAttempts, Marking(item, FinishMarks(maxAttempts, item, core, skill)), record)
  {
    FinishMarksCases(maxAttempts, item, core, skill);
    var todo := FinishMarks(maxAttempts, item, core, skill);
    assert MarkExplained(maxAttempts, todo[0], record);
    assert |todo| == 1 || (|todo| == 2 && MarkExplained(maxAttempts, todo[1], record));
  }

  lemma AnswerExplains(cfg: Config, w: World, id: string, sink: Sink, outcome: Call, record: seq<Ended>)
    requires CanSettle(w, id, sink, outcome) && id in w.db.captures
    requires RecordOk(cfg, w, id, record)
    ensures RecordOk(cfg, ApplyCallSettles(cfg, w, id, sink, outcome), id, record + [Ended(sink, outcome)])
  {
    var job, more := w.phase.jobs[id], record + [Ended(sink, outcome)];
    var core, skill := WithAnswer(job.core, Core, sink, outcome), WithAnswer(job.skill, Skill, sink, outcome);
    AnswerIsNoted(cfg, w, id, sink, outcome);
    OneAnswerMore(record, sink, outcome);
    assert JobExplained(cfg.maxAttempts, Calling(job.item, core, skill), more);
    if core != Some(InFlight) && skill != Some(InFlight) {
      MarksExplained(cfg.maxAttempts, job.item, core, skill, more);
    }
  }

  lemma MarkRowExplained(maxAttempts: nat, row: Capture, m: Mark, record: seq<Ended>, now: int)
    requires RowExplained(maxAttempts, row, record) && MarkExplained(maxAttempts, m, record)
    ensures RowExplained(maxAttempts, MarkRow(row, m, now), record)
  {
  }

  lemma MarkExplains(cfg: Config, w: World, marked: string, now: int, id: string, record: seq<Ended>)
    requires CanMark(w, marked) && DrainOk(cfg, w.db, w.phase) && id in w.db.captures && RecordOk(cfg, w, id, record)
    ensures RecordOk(cfg, ApplyCaptureMark(w, marked, now), id, record)
  {
    assert marked in w.db.captures;
    MarkIsOneRow(w.db, marked, w.phase.jobs[marked].todo[0], now);
    if id == marked {
      MarkRowExplained(cfg.maxAttempts, w.db.captures[id], w.phase.jobs[id].todo[0], record, now);
    }
  }

  lemma StartExplains(cfg: Config, w: World, now: int, id: string, record: seq<Ended>)
    requires CanStart(cfg, w) && References(w.db) && DrainOk(cfg, w.db, w.phase) && w.phase.todo[0].eventId in w.history.calls
    requires id in w.db.captures && RecordOk(cfg, w, id, record)
    ensures RecordOk(cfg, ApplyCaptureStart(w, now), id, record)
  {
    CaptureStartKeepsDrain(cfg, w, now);
    StartedCapture(cfg, w, now);
  }

  lemma HookExplains(cfg: Config, w: World, a: Action, id: string, record: seq<Ended>)
    requires IsEnvironment(a) && Enabled(cfg, w, a) && RecordOk(cfg, w, id, record) && DrainOk(cfg, w.db, w.phase)
    requires id in Apply(cfg, w, a).db.captures
    ensures RecordOk(cfg, Apply(cfg, w, a), id, record)
  {
    EnvironmentIsQuiet(cfg, w, a);
  }

  lemma SettleExplains(cfg: Config, w: World, a: Action, id: string, record: seq<Ended>)
    requires a.CallSettles? && Enabled(cfg, w, a) && id in w.db.captures && RecordOk(cfg, w, id, record)
    ensures RecordOk(cfg, Apply(cfg, w, a), id, record + Answers(a, id))
  {
    if a.id == id {
      AnswerExplains(cfg, w, id, a.sink, Outcome(a.response), record);
    } else {
      AnswerIsNoted(cfg, w, a.id, a.sink, Outcome(a.response));
      assert record + [] == record;
    }
  }

  lemma OthersExplain(cfg: Config, w: World, a: Action, id: string, record: seq<Ended>)
    requires LeavesCaptures(a) && !a.CallSettles? && Enabled(cfg, w, a) && id in w.db.captures && RecordOk(cfg, w, id, record)
    ensures id in Apply(cfg, w, a).db.captures && RecordOk(cfg, Apply(cfg, w, a), id, record)
  {
    CapturesLeftAlone(cfg, w, a);
  }

  lemma WorkerExplains(cfg: Config, w: World, a: Action, id: string, record: seq<Ended>)
    requires References(w.db) && DrainOk(cfg, w.db, w.phase) && CallsOk(w)
    requires !IsEnvironment(a) && Enabled(cfg, w, a) && id in w.db.captures && RecordOk(cfg, w, id, record)
    ensures RecordOk(cfg, Apply(cfg, w, a), id, record + Answers(a, id))
  {
    if a.CallSettles? {
      SettleExplains(cfg, w, a, id, record);
    } else {
      assert record + [] == record;
      if a.CaptureStart? {
        assert Current(w.db, w.phase.todo[0]);
        StartExplains(cfg, w, a.now, id, record);
      } else if a.CaptureMark? {
        MarkExplains(cfg, w, a.id, a.now, id, record);
      } else {
        OthersExplain(cfg, w, a, id, record);
      }
    }
  }

  lemma StepExplains(cfg: Config, w: World, a: Action, id: string, record: seq<Ended>)
    requires Inv(cfg, w) && Enabled(cfg, w, a) && RecordOk(cfg, w, id, record)
    ensures RecordOk(cfg, Apply(cfg, w, a), id, if id in Apply(cfg, w, a).db.captures then record + Answers(a, id) else [])
  {
    if id in Apply(cfg, w, a).db.captures {
      if IsEnvironment(a) {
        assert record + [] == record;
        HookExplains(cfg, w, a, id, record);
      } else {
        WorkerAddsNone(cfg, w, a, id);
        WorkerExplains(cfg, w, a, id, record);
      }
    }
  }

  lemma WorkerAddsNone(cfg: Config, w: World, a: Action, id: string)
    requires Inv(cfg, w) && !IsEnvironment(a) && Enabled(cfg, w, a) && id in Apply(cfg, w, a).db.captures
    ensures id in w.db.captures
  {
    if a.CaptureStart? {
      CaptureStartKeepsDrain(cfg, w, a.now);
    } else if a.CaptureMark? {
      MarkKeepsItem(w.db, w.phase.jobs[a.id].item, w.phase.jobs[a.id].todo[0], a.now);
    } else {
      CapturesLeftAlone(cfg, w, a);
    }
  }

  lemma {:induction false} RunExplains(cfg: Config, w: World, run: seq<Action>, id: string, record: seq<Ended>)
    requires Inv(cfg, w) && IsRun(cfg, w, run) && RecordOk(cfg, w, id, record)
    ensures RecordOk(cfg, Exec(cfg, w, run), id, Record(cfg, w, run, id, record))
    decreases |run|
  {
    if run != [] {
      var next := Apply(cfg, w, run[0]);
      StepExplains(cfg, w, run[0], id, record);
      StepKeepsInv(cfg, w, run[0]);
      RunExplains(cfg, next, run[1..], id, if id in next.db.captures then record + Answers(run[0], id) else []);
    }
  }

  /** In every reachable state: a sink that is done had a call taken for a success, a dead one had a call that failed
      and at least as many of the event's calls failed as there are attempts, and each attempt used stands for a
      failed call. */
  lemma CaptureIsExplained(cfg: Config, run: seq<Action>, id: string)
    requires ValidConfig(cfg) && IsRun(cfg, INIT, run) && id in Exec(cfg, INIT, run).db.captures
    ensures RowExplained(cfg.maxAttempts, Exec(cfg, INIT, run).db.captures[id], Record(cfg, INIT, run, id, []))
  {
    InitInv(cfg);
    RunExplains(cfg, INIT, run, id, []);
  }


  // ----- The worker is never stuck -----

  /** What the next step of a drain of captures can be: an idle worker can begin one, a waiting event starts when a lane
      is free, every event being handled can proceed, and with nothing left the drain turns to its extractions. */
  lemma CapturesCanGoOn(cfg: Config, w: World, picked: seq<string>, verdicts: map<string, Verdict>, now: int)
    requires DrainOk(cfg, w.db, w.phase)
    ensures w.phase.Idle? && OldestFirst(DueCaptures(w.db, now), 20, picked) ==> Enabled(cfg, w, DrainBegin(picked, now))
    ensures w.phase.Capturing? && w.phase.todo != [] && |w.phase.jobs| < Min(Max(1, cfg.concurrency), |w.phase.picked|) ==>
              Enabled(cfg, w, CaptureStart(now))
    ensures w.phase.Capturing? ==> forall id :: id in w.phase.jobs ==> CanProceed(cfg, w, id, now)
    ensures (&& w.phase.Capturing? && w.phase.todo == [] && w.phase.jobs == map[] && OldestFirst(DueExtractions(w.db, now), 10, picked)
             && forall id :: id in picked ==> id in verdicts) ==> Enabled(cfg, w, CapturesDone(picked, verdicts, now))
  {
    if w.phase.Capturing? {
      forall id | id in w.phase.jobs ensures CanProceed(cfg, w, id, now) {
        JobCanProceed(cfg, w, id, now);
      }
    }
  }

  /** The same for its extractions: each call under way may end in any way, and with none left the drain is over. */
  lemma ExtractionsCanGoOn(cfg: Config, w: World, id: string, outcome: Call, taskId: Option<string>, now: int)
    requires w.phase.Extracting?
    ensures w.phase.waiting != [] && |w.phase.calls| < Min(Max(1, cfg.concurrency), |w.phase.picked|) ==> Enabled(cfg, w, ExtractionStart(now))
    ensures id in w.phase.calls && !outcome.InFlight? ==> Enabled(cfg, w, ExtractionSettles(id, outcome, taskId, now))
    ensures w.phase.waiting == [] && w.phase.calls == map[] ==> Enabled(cfg, w, DrainEnd)
  {
  }

  lemma JobCanProceed(cfg: Config, w: World, id: string, now: int)
    requires w.phase.Capturing? && id in w.phase.jobs && JobOk(cfg, w.phase.jobs[id])
    ensures CanProceed(cfg, w, id, now)
  {
    if w.phase.jobs[id].Calling? {
      forall response
        ensures w.phase.jobs[id].skill == Some(InFlight) ==> CanSettle(w, id, Skill, Outcome(response))
        ensures w.phase.jobs[id].core == Some(InFlight) && (!Succeeds(response) || IsApplied(w.remote, id)) ==>
                  CanSettle(w, id, Core, Outcome(response))
      {
        assert Outcome(response).Fulfilled? <==> Succeeds(response);
      }
    }
  }

  /** A job has statements to run, or a call under way: one to the skill service may end in any way, one to Core may fail
      at any time and succeed once Core has applied the event. */
  ghost predicate CanProceed(cfg: Config, w: World, id: string, now: int)
    requires w.phase.Capturing? && id in w.phase.jobs
  {
    match w.phase.jobs[id]
    case Marking(_, _) => Enabled(cfg, w, CaptureMark(id, now))
    case Calling(_, core, skill) =>
      && (core == Some(InFlight) || skill == Some(InFlight))
      && (skill == Some(InFlight) ==> forall response :: Enabled(cfg, w, CallSettles(id, Skill, response)))
      && (core == Some(InFlight) ==> forall response :: !Succeeds(response) || IsApplied(w.remote, id) ==>
                                       Enabled(cfg, w, CallSettles(id, Core, response)))
  }
}
