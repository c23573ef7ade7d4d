/** Two kinds of runs of the capture queue, given step by step. In one a capture reaches Core and is marked done. In
    the other it is recorded as delivered although Core never saw it: Core refuses with a message that prints as
    nothing, and the worker takes an error without a message for success. */
module CaptureExamples {
  import opened Basics
  import opened GatewayDb
  import opened CaptureQueue
  import opened CaptureInvariant
  import opened CaptureTheorems
  import opened CoreClient
  import opened Json

  /** `{"code": 0}` */
  const ACCEPTED := Answer(true, 200, Some(JObj(map["code" := JNum(ZERO)])))

  /** HTTP 500 with `{"code": 1, "message": []}` */
  const BLANK_REFUSAL := Answer(false, 500, Some(JObj(map["code" := JNum(Number(1, 0)), "message" := JArr([])])))

  /** Every answer to a call to Core in the run is this one. */
  ghost predicate CoreAnswers(run: seq<Action>, response: Response) {
    forall i :: 0 <= i < |run| && run[i].CallSettles? && run[i].sink.Core? ==> run[i].response == response
  }

  lemma {:induction false} Extend(cfg: Config, w: World, run: seq<Action>, a: Action)
    requires IsRun(cfg, w, run) && Enabled(cfg, Exec(cfg, w, run), a)
    ensures IsRun(cfg, w, run + [a]) && Exec(cfg, w, run + [a]) == Apply(cfg, Exec(cfg, w, run), a)
    decreases |run|
  {
    if run == [] {
      assert [a][1..] == [];
    } else {
      Extend(cfg, Apply(cfg, w, run[0]), run[1..], a);
      assert (run + [a])[1..] == run[1..] + [a];
    }
  }

  /** Only this capture, just enqueued, and Core has applied nothing. */
  ghost predicate JustEnqueued(w: World, id: string) {
    && w.phase.Idle? && w.remote.applied == [] && w.db.captures.Keys == {id}
    && var row := w.db.captures[id];
       row.core.Pending? && row.skill.Pending? && row.nextAttemptAt == 0 && row.contextId in w.db.contexts
  }

  lemma Enqueue(cfg: Config) returns (run: seq<Action>, id: string)
    ensures IsRun(cfg, INIT, run) && JustEnqueued(Exec(cfg, INIT, run), id)
    ensures forall response :: CoreAnswers(run, response)
  {
    var place := Place("host", "session", "workspace");
    var identity := Identity("team", "user", "agent", None);
    var open := OpenContext("c", "p", identity, place, 1, 0);
    var stop := HookStop("p", "c", "t", "answer", Some("hi"), 0);
    id := CaptureSeed("c", "t", "hi", "answer");
    Extend(cfg, INIT, [], open);
    assert [] + [open] == [open];
    assert TrimStart("hi") == "hi" && TrimEnd("hi") == "hi";
    Extend(cfg, INIT, [open], stop);
    run := [open] + [stop];
  }

  ghost predicate CoreOutstanding(w: World, id: string) {
    && w.phase.Capturing? && w.remote.applied == [] && id in w.db.captures && id in w.phase.jobs
    && w.phase.jobs[id].Calling? && w.phase.jobs[id].core == Some(InFlight) && w.phase.jobs[id].skill == Some(Fulfilled)
  }

  ghost predicate Started(w: World, id: string) {
    && w.phase.Capturing? && w.remote.applied == [] && id in w.db.captures && id in w.phase.jobs
    && w.phase.jobs[id].Calling? && w.phase.jobs[id].core == Some(InFlight) && w.phase.jobs[id].skill == Some(InFlight)
  }

  lemma Start(cfg: Config, start: World, run: seq<Action>, id: string) returns (longer: seq<Action>)
    requires IsRun(cfg, start, run) && JustEnqueued(Exec(cfg, start, run), id)
    ensures IsRun(cfg, start, longer) && Started(Exec(cfg, start, longer), id)
    ensures forall response :: CoreAnswers(run, response) ==> CoreAnswers(longer, response)
    ensures var w := Exec(cfg, start, longer); Message(id, w.db.captures[id].user, w.db.captures[id].assistant) in w.remote.sent
  {
    var w := Exec(cfg, start, run);
    assert DueCaptures(w.db, 0).Keys == {id};
    Extend(cfg, start, run, DrainBegin([id], 0));
    var run1 := run + [DrainBegin([id], 0)];
    Extend(cfg, start, run1, CaptureStart(0));
    longer := run1 + [CaptureStart(0)];
  }

  lemma SettleSkill(cfg: Config, start: World, run: seq<Action>, id: string) returns (longer: seq<Action>)
    requires IsRun(cfg, start, run) && Started(Exec(cfg, start, run), id)
    ensures IsRun(cfg, start, longer) && CoreOutstanding(Exec(cfg, start, longer), id)
    ensures forall response :: CoreAnswers(run, response) ==> CoreAnswers(longer, response)
    ensures var w := Exec(cfg, start, run); Exec(cfg, start, longer).remote == w.remote && Exec(cfg, start, longer).db == w.db
  {
    Extend(cfg, start, run, CallSettles(id, Skill, ACCEPTED));
    longer := run + [CallSettles(id, Skill, ACCEPTED)];
  }

  lemma RejectAndMark(cfg: Config, start: World, run: seq<Action>, id: string, refusal: Response) returns (longer: seq<Action>)
    requires IsRun(cfg, start, run) && CoreOutstanding(Exec(cfg, start, run), id) && GivesBlank(refusal) && CoreAnswers(run, refusal)
    ensures IsRun(cfg, start, longer) && CoreAnswers(longer, refusal)
    ensures var w := Exec(cfg, start, longer); id in w.db.captures && w.db.captures[id].core.Done? && w.remote.applied == []
  {
    ThrownBlankIff(refusal);
    var reject := CallSettles(id, Core, refusal);
    Extend(cfg, start, run, reject);
    var w := Exec(cfg, start, run + [reject]);
    assert w.phase.jobs[id].todo == [Succeed(Core), Succeed(Skill)];
    Extend(cfg, start, run + [reject], CaptureMark(id, 0));
    longer := run + [reject] + [CaptureMark(id, 0)];
  }

  /** `core_status = 'done'` alone does not mean that Core applied the event: every refusal whose message prints as
      nothing leads to a run that ends so. */
  lemma DoneWithoutApplied(cfg: Config, refusal: Response) returns (run: seq<Action>, id: string)
    requires GivesBlank(refusal)
    ensures IsRun(cfg, INIT, run) && CoreAnswers(run, refusal)
    ensures var w := Exec(cfg, INIT, run); id in w.db.captures && w.db.captures[id].core.Done? && !IsApplied(w.remote, id)
  {
    run, id := Enqueue(cfg);
    run := Start(cfg, INIT, run, id);
    run := SettleSkill(cfg, INIT, run, id);
    run := RejectAndMark(cfg, INIT, run, id, refusal);
  }

  /** `{"code": 1, "message": []}` is such a refusal. */
  lemma BlankRefusalIsOne()
    ensures GivesBlank(BLANK_REFUSAL)
  {
  }

  /** Some run in which Core always gives this answer records a capture as delivered that Core never applied. */
  ghost predicate LosesCaptures(cfg: Config, response: Response) {
    exists run, id :: IsRun(cfg, INIT, run) && CoreAnswers(run, response)
      && id in Exec(cfg, INIT, run).db.captures && Exec(cfg, INIT, run).db.captures[id].core.Done?
      && !IsApplied(Exec(cfg, INIT, run).remote, id)
  }

  /** An answer of Core's can lose captures if and only if it is a refusal whose message prints as nothing. */
  lemma LosesCapturesIff(cfg: Config, response: Response)
    requires ValidConfig(cfg)
    ensures LosesCaptures(cfg, response) <==> GivesBlank(response)
  {
    if GivesBlank(response) {
      var run, id := DoneWithoutApplied(cfg, response);
    } else {
      forall run, id | IsRun(cfg, INIT, run) && CoreAnswers(run, response)
                       && id in Exec(cfg, INIT, run).db.captures && Exec(cfg, INIT, run).db.captures[id].core.Done?
        ensures IsApplied(Exec(cfg, INIT, run).remote, id)
      {
        DoneMeansAppliedOnce(cfg, run, id);
      }
    }
  }

  // ----- Delivery -----

  ghost predicate Received(w: World, id: string) {
    && w.phase.Capturing? && id in w.db.captures && id in w.phase.jobs
    && w.phase.jobs[id].Calling? && w.phase.jobs[id].core == Some(InFlight) && w.phase.jobs[id].skill == Some(Fulfilled)
    && w.remote.applied == [Message(id, w.db.captures[id].user, w.db.captures[id].assistant)]
  }

  lemma Receive(cfg: Config, start: World, run: seq<Action>, id: string) returns (longer: seq<Action>)
    requires IsRun(cfg, start, run) && CoreOutstanding(Exec(cfg, start, run), id)
    requires var w := Exec(cfg, start, run); Message(id, w.db.captures[id].user, w.db.captures[id].assistant) in w.remote.sent
    ensures IsRun(cfg, start, longer) && Received(Exec(cfg, start, longer), id)
  {
    var w := Exec(cfg, start, run);
    var arrive := CoreReceives(Message(id, w.db.captures[id].user, w.db.captures[id].assistant));
    Extend(cfg, start, run, arrive);
    longer := run + [arrive];
  }

  lemma AcknowledgeAndMark(cfg: Config, start: World, run: seq<Action>, id: string) returns (longer: seq<Action>)
    requires IsRun(cfg, start, run) && Received(Exec(cfg, start, run), id)
    ensures IsRun(cfg, start, longer)
    ensures var w := Exec(cfg, start, longer);
            && id in w.db.captures && w.db.captures[id].core.Done?
            && w.remote.applied == [Message(id, w.db.captures[id].user, w.db.captures[id].assistant)]
  {
    var acknowledge := CallSettles(id, Core, ACCEPTED);
    assert Exec(cfg, start, run).remote.applied[0].key == id;
    Extend(cfg, start, run, acknowledge);
    var w := Exec(cfg, start, run + [acknowledge]);
    assert w.phase.jobs[id].todo == [Succeed(Core), Succeed(Skill)];
    Extend(cfg, start, run + [acknowledge], CaptureMark(id, 0));
    longer := run + [acknowledge] + [CaptureMark(id, 0)];
  }

  /** A capture can be delivered: Core applies its very content, and the row says so. */
  lemma DeliveryHappens(cfg: Config) returns (run: seq<Action>, id: string)
    ensures IsRun(cfg, INIT, run)
    ensures var w := Exec(cfg, INIT, run);
            && id in w.db.captures && w.db.captures[id].core.Done?
            && w.remote.applied == [Message(id, w.db.captures[id].user, w.db.captures[id].assistant)]
  {
    run, id := Enqueue(cfg);
    run := Start(cfg, INIT, run, id);
    run := SettleSkill(cfg, INIT, run, id);
    run := Receive(cfg, INIT, run, id);
    run := AcknowledgeAndMark(cfg, INIT, run, id);
  }
}
