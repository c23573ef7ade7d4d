/** The worker pool of `concurrent` and `mapLimit`: lanes that share one counter. A step is what a lane does
    between two awaits, so the steps of different lanes interleave freely. Workers do not throw. */
module WorkerPool {
  import opened Basics
  import opened GatewayDb
  import opened CaptureQueue
  import opened CaptureInvariant

  datatype Lane = Ready | Busy(index: nat) | Exited

  /** `taken` records the indices handed out, in order; `results` is the array `mapLimit` fills. */
  datatype Pool<R> = Pool(size: nat, lanes: seq<Lane>, next: nat, taken: seq<nat>, results: map<nat, R>)

  datatype Step<R> = Take(lane: nat) | Finish(lane: nat, result: R)

  function Open<R>(size: nat, width: nat): Pool<R> {
    Pool(size, seq(width, _ => Ready), 0, [], map[])
  }

  /** The two callers: the capture worker forces at least one lane, `mapLimit` is always given 4. */
  function ConcurrentWidth(limit: int, size: nat): nat {
    Min(Max(1, limit), size)
  }

  const MAP_LIMIT: nat := 4

  function MapWidth(size: nat): nat {
    Min(MAP_LIMIT, size)
  }

  predicate CanStep<R>(p: Pool<R>, s: Step<R>) {
    s.lane < |p.lanes| && (if s.Take? then p.lanes[s.lane].Ready? else p.lanes[s.lane].Busy?)
  }

  function ApplyStep<R>(p: Pool<R>, s: Step<R>): Pool<R>
    requires CanStep(p, s)
  {
    match s
    case Take(lane) =>
      if p.next >= p.size then p.(lanes := p.lanes[lane := Exited], next := p.next + 1)
      else p.(lanes := p.lanes[lane := Busy(p.next)], next := p.next + 1, taken := p.taken + [p.next])
    case Finish(lane, result) =>
      p.(lanes := p.lanes[lane := Ready], results := p.results[p.lanes[lane].index := result])
  }

  predicate IsSchedule<R>(p: Pool<R>, run: seq<Step<R>>)
    decreases |run|
  {
    run == [] || (CanStep(p, run[0]) && IsSchedule(ApplyStep(p, run[0]), run[1..]))
  }

  function RunPool<R>(p: Pool<R>, run: seq<Step<R>>): Pool<R>
    requires IsSchedule(p, run)
    decreases |run|
  {
    if run == [] then p else RunPool(ApplyStep(p, run[0]), run[1..])
  }

  /** `Promise.all` over the lanes resolves. */
  predicate Resolved<R>(p: Pool<R>) {
    forall k :: 0 <= k < |p.lanes| ==> p.lanes[k].Exited?
  }

  function InFlight(lanes: seq<Lane>): nat {
    if lanes == [] then 0 else (if lanes[0].Busy? then 1 else 0) + InFlight(lanes[1..])
  }

  // ----- The invariant -----

  ghost predicate Running<R>(p: Pool<R>, i: nat) {
    exists k :: 0 <= k < |p.lanes| && p.lanes[k] == Busy(i)
  }

  /** Every index handed out is either with exactly one lane or has its result, and not both. */
  ghost predicate PoolInv<R>(p: Pool<R>) {
    && |p.taken| == Min(p.next, p.size) && (forall i :: 0 <= i < |p.taken| ==> p.taken[i] == i)
    && (forall j, k :: 0 <= j < k < |p.lanes| && p.lanes[j].Busy? ==> p.lanes[j] != p.lanes[k])
    && (forall k :: 0 <= k < |p.lanes| && p.lanes[k].Busy? ==> p.lanes[k].index < |p.taken| && p.lanes[k].index !in p.results)
    && (forall i :: i in p.results ==> i < |p.taken|)
    && (forall i: nat :: i < |p.taken| && i !in p.results ==> Running(p, i))
    && (forall k :: 0 <= k < |p.lanes| && p.lanes[k].Exited? ==> p.next >= p.size)
    && (p.size > 0 ==> p.lanes != [])
  }

  lemma TakeKeepsInv<R>(p: Pool<R>, lane: nat)
    requires PoolInv(p) && CanStep(p, Take(lane))
    ensures PoolInv(ApplyStep(p, Take(lane)))
  {
    var q := ApplyStep(p, Take(lane));
    forall i: nat | i < |q.taken| && i !in q.results
      ensures Running(q, i)
    {
      if i == p.next {
        assert q.lanes[lane] == Busy(i);
      } else {
        assert Running(p, i);
        var k :| 0 <= k < |p.lanes| && p.lanes[k] == Busy(i);
        assert q.lanes[k] == Busy(i);
      }
    }
  }

  lemma FinishKeepsInv<R>(p: Pool<R>, lane: nat, result: R)
    requires PoolInv(p) && CanStep(p, Finish(lane, result))
    ensures PoolInv(ApplyStep(p, Finish(lane, result)))
  {
    var q := ApplyStep(p, Finish(lane, result));
    forall i: nat | i < |q.taken| && i !in q.results
      ensures Running(q, i)
    {
      assert Running(p, i);
      var k :| 0 <= k < |p.lanes| && p.lanes[k] == Busy(i);
      assert q.lanes[k] == Busy(i);
    }
  }

  lemma {:induction false} ScheduleKeepsInv<R>(p: Pool<R>, run: seq<Step<R>>)
    requires PoolInv(p) && IsSchedule(p, run)
    ensures PoolInv(RunPool(p, run)) && RunPool(p, run).size == p.size && |RunPool(p, run).lanes| == |p.lanes|
    decreases |run|
  {
    if run != [] {
      if run[0].Take? {
        TakeKeepsInv(p, run[0].lane);
      } else {
        FinishKeepsInv(p, run[0].lane, run[0].result);
      }
      ScheduleKeepsInv(ApplyStep(p, run[0]), run[1..]);
    }
  }

  lemma {:induction false} InFlightAtMostLanes(lanes: seq<Lane>)
    ensures InFlight(lanes) <= |lanes|
    ensures (exists k :: 0 <= k < |lanes| && lanes[k].Ready?) ==> InFlight(lanes) < |lanes|
  {
    if lanes != [] {
      InFlightAtMostLanes(lanes[1..]);
      assert forall k :: 1 <= k < |lanes| ==> lanes[k] == lanes[1..][k - 1];
    }
  }

  // ----- The claims -----

  /** Whatever the schedule: indices are handed out once each and in order, the work in flight never exceeds
      the width, and once the pool resolves every index has its result. */
  lemma PoolIsSafe<R>(size: nat, width: nat, run: seq<Step<R>>)
    requires (size > 0 ==> width > 0) && IsSchedule(Open(size, width), run)
    ensures var p := RunPool(Open(size, width), run);
            && (forall i :: 0 <= i < |p.taken| ==> p.taken[i] == i) && |p.taken| <= size
            && InFlight(p.lanes) <= width
            && (Resolved(p) ==> (forall i: nat :: i in p.results <==> i < size))
  {
    var p := RunPool(Open(size, width), run);
    ScheduleKeepsInv(Open(size, width), run);
    InFlightAtMostLanes(p.lanes);
    if Resolved(p) {
      forall i: nat | i < size
        ensures i in p.results
      {
        assert p.lanes[0].Exited?;
        assert !Running(p, i);
      }
    }
  }

  /** A stored result is never replaced, since its index is with no lane any more. */
  lemma {:induction false} ResultsStay<R>(p: Pool<R>, run: seq<Step<R>>, i: nat)
    requires PoolInv(p) && IsSchedule(p, run) && i in p.results
    ensures i in RunPool(p, run).results && RunPool(p, run).results[i] == p.results[i]
    decreases |run|
  {
    if run != [] {
      if run[0].Take? {
        TakeKeepsInv(p, run[0].lane);
      } else {
        FinishKeepsInv(p, run[0].lane, run[0].result);
      }
      ResultsStay(ApplyStep(p, run[0]), run[1..], i);
    }
  }

  /** Every result a lane delivers is the worker's answer for the index the lane holds. */
  ghost predicate Honest<R>(p: Pool<R>, run: seq<Step<R>>, answers: seq<R>)
    requires IsSchedule(p, run)
    decreases |run|
  {
    run == [] ||
    (&& (run[0].Finish? ==> p.lanes[run[0].lane].index < |answers| && run[0].result == answers[p.lanes[run[0].lane].index])
     && Honest(ApplyStep(p, run[0]), run[1..], answers))
  }

  ghost predicate Agree<R>(results: map<nat, R>, answers: seq<R>) {
    forall i: nat :: i in results ==> i < |answers| && results[i] == answers[i]
  }

  lemma {:induction false} HonestResults<R>(p: Pool<R>, run: seq<Step<R>>, answers: seq<R>)
    requires IsSchedule(p, run) && Honest(p, run, answers)
    requires Agree(p.results, answers)
    ensures Agree(RunPool(p, run).results, answers)
    decreases |run|
  {
    if run != [] {
      HonestResults(ApplyStep(p, run[0]), run[1..], answers);
    }
  }

  /** `mapLimit` resolves to exactly the answers, result i at position i, in any schedule. */
  lemma MapLimitIsMap<R>(answers: seq<R>, run: seq<Step<R>>)
    requires IsSchedule(Open(|answers|, MapWidth(|answers|)), run)
    requires Honest(Open(|answers|, MapWidth(|answers|)), run, answers)
    requires Resolved(RunPool(Open(|answers|, MapWidth(|answers|)), run))
    ensures var p := RunPool(Open(|answers|, MapWidth(|answers|)), run);
            p.results == (map i: nat | i < |answers| :: answers[i])
  {
    PoolIsSafe(|answers|, MapWidth(|answers|), run);
    HonestResults(Open(|answers|, MapWidth(|answers|)), run, answers);
  }

  // ----- Termination -----

  function LaneWork(lanes: seq<Lane>): nat {
    if lanes == [] then 0
    else (match lanes[0] case Ready => 1 case Busy(_) => 2 case Exited => 0) + LaneWork(lanes[1..])
  }

  function Work<R>(p: Pool<R>): int {
    2 * (p.size - Min(p.next, p.size)) + LaneWork(p.lanes)
  }

  lemma {:induction false} LaneWorkSet(lanes: seq<Lane>, k: nat, lane: Lane)
    requires k < |lanes|
    ensures LaneWork(lanes[k := lane]) == LaneWork(lanes) - LaneWork([lanes[k]]) + LaneWork([lane])
  {
    if k > 0 {
      LaneWorkSet(lanes[1..], k - 1, lane);
      assert lanes[k := lane][1..] == lanes[1..][k - 1 := lane];
    } else {
      assert lanes[k := lane][1..] == lanes[1..];
    }
  }

  lemma StepIsOneUnit<R>(p: Pool<R>, s: Step<R>)
    requires CanStep(p, s)
    ensures Work(ApplyStep(p, s)) == Work(p) - 1
  {
    LaneWorkSet(p.lanes, s.lane, ApplyStep(p, s).lanes[s.lane]);
  }

  lemma {:induction false} NoWorkMeansExited(lanes: seq<Lane>)
    ensures LaneWork(lanes) == 0 <==> forall k :: 0 <= k < |lanes| ==> lanes[k].Exited?
  {
    if lanes != [] {
      NoWorkMeansExited(lanes[1..]);
      assert forall k :: 1 <= k < |lanes| ==> lanes[k] == lanes[1..][k - 1];
    }
  }

  lemma {:induction false} OpenWork<R>(size: nat, width: nat)
    ensures Work(Open<R>(size, width)) == 2 * size + width
  {
    if width > 0 {
      OpenWork<R>(size, width - 1);
      assert Open<R>(size, width).lanes[1..] == Open<R>(size, width - 1).lanes;
    }
  }

  lemma {:induction false} StepsAreUnits<R>(p: Pool<R>, run: seq<Step<R>>)
    requires IsSchedule(p, run)
    ensures Work(RunPool(p, run)) == Work(p) - |run|
    decreases |run|
  {
    if run != [] {
      StepIsOneUnit(p, run[0]);
      StepsAreUnits(ApplyStep(p, run[0]), run[1..]);
    }
  }

  lemma NoWorkMeansResolved<R>(p: Pool<R>)
    requires PoolInv(p)
    ensures Work(p) == 0 <==> Resolved(p)
  {
    NoWorkMeansExited(p.lanes);
    assert p.size > 0 && Resolved(p) ==> p.lanes[0].Exited?;
  }

  lemma SomeLaneCanMove<R>(p: Pool<R>, answer: R)
    requires !Resolved(p)
    ensures exists lane: nat :: CanStep(p, Take(lane)) || CanStep(p, Finish(lane, answer))
  {
    var k: nat :| k < |p.lanes| && !p.lanes[k].Exited?;
    assert CanStep(p, Take(k)) || CanStep(p, Finish(k, answer));
  }

  /** No schedule goes on forever or gets stuck: the pool resolves after exactly two steps per item and one
      per lane, and until then some lane can move. */
  lemma PoolResolves<R>(size: nat, width: nat, run: seq<Step<R>>, answer: R)
    requires (size > 0 ==> width > 0) && IsSchedule(Open(size, width), run)
    ensures |run| <= 2 * size + width
    ensures var p := RunPool(Open(size, width), run);
            && (Resolved(p) <==> |run| == 2 * size + width)
            && (!Resolved(p) ==> exists lane: nat :: CanStep(p, Take(lane)) || CanStep(p, Finish(lane, answer)))
  {
    var start := Open<R>(size, width);
    var p := RunPool(start, run);
    ScheduleKeepsInv(start, run);
    OpenWork<R>(size, width);
    StepsAreUnits(start, run);
    NoWorkMeansResolved(p);
    if !Resolved(p) {
      SomeLaneCanMove(p, answer);
    }
  }

  // ----- The pool that drives the capture queue -----

  ghost function BusyIds(lanes: seq<Lane>, picked: seq<string>): set<string> {
    set k: nat | k < |lanes| && lanes[k].Busy? && lanes[k].index < |picked| :: picked[lanes[k].index]
  }

  /** The items of a drain that no lane has fetched yet, and those that are being handled: captures first, then
      extractions, each with a pool of its own. */
  function WaitingItems(phase: Phase): nat {
    match phase
    case Idle => 0
    case Capturing(_, todo, _, _) => |todo|
    case Extracting(_, waiting, _) => |waiting|
  }

  function WaitingId(phase: Phase, i: nat): string
    requires i < WaitingItems(phase)
  {
    if phase.Capturing? then phase.todo[i].eventId else phase.waiting[i].eventId
  }

  function Handled(phase: Phase): set<string> {
    match phase
    case Idle => {}
    case Capturing(_, _, jobs, _) => jobs.Keys
    case Extracting(_, _, calls) => calls.Keys
  }

  /** What the lanes have left over is the queue's rest, and every item being handled is with a lane. */
  ghost predicate Drives<R>(p: Pool<R>, w: World) {
    && !w.phase.Idle? && p.size == |w.phase.picked|
    && WaitingItems(w.phase) == p.size - Min(p.next, p.size)
    && (forall i :: 0 <= i < WaitingItems(w.phase) ==> WaitingId(w.phase, i) == w.phase.picked[p.next + i])
    && Handled(w.phase) <= BusyIds(p.lanes, w.phase.picked)
  }

  lemma {:induction false} BusyIdsAtMostInFlight(lanes: seq<Lane>, picked: seq<string>)
    ensures |BusyIds(lanes, picked)| <= InFlight(lanes)
  {
    if lanes == [] {
      assert BusyIds(lanes, picked) == {};
    } else {
      BusyIdsAtMostInFlight(lanes[1..], picked);
      var rest := BusyIds(lanes[1..], picked);
      var first := if lanes[0].Busy? && lanes[0].index < |picked| then {picked[lanes[0].index]} else {};
      forall id | id in BusyIds(lanes, picked)
        ensures id in rest + first
      {
        var k: nat :| k < |lanes| && lanes[k].Busy? && lanes[k].index < |picked| && picked[lanes[k].index] == id;
        if k > 0 {
          assert lanes[1..][k - 1] == lanes[k];
        }
      }
      SubsetSize(BusyIds(lanes, picked), rest + first);
    }
  }

  lemma {:induction false} SubsetSize<T>(a: set<T>, b: set<T>)
    requires a <= b
    ensures |a| <= |b|
  {
    if a != {} {
      var x :| x in a;
      SubsetSize(a - {x}, b - {x});
    }
  }

  predicate MayStart(cfg: Config, w: World) {
    CanStart(cfg, w) || CanStartExtraction(cfg, w)
  }

  function StartAction(phase: Phase, now: int): Action {
    if phase.Capturing? then CaptureStart(now) else ExtractionStart(now)
  }

  /** The callback up to its first await. */
  function Started(w: World, now: int): World
    requires !w.phase.Idle? && WaitingItems(w.phase) > 0
  {
    if w.phase.Capturing? then ApplyCaptureStart(w, now) else ApplyExtractionStart(w, now)
  }

  lemma ReadyLaneMayStart<R>(cfg: Config, p: Pool<R>, w: World, lane: nat)
    requires Drives(p, w) && |p.lanes| == ConcurrentWidth(cfg.concurrency, p.size)
    requires CanStep(p, Take(lane)) && p.next < p.size
    ensures MayStart(cfg, w) && WaitingId(w.phase, 0) == w.phase.picked[p.next]
  {
    InFlightAtMostLanes(p.lanes);
    BusyIdsAtMostInFlight(p.lanes, w.phase.picked);
    SubsetSize(Handled(w.phase), BusyIds(p.lanes, w.phase.picked));
    if w.phase.Capturing? {
      assert |w.phase.jobs| == |w.phase.jobs.Keys|;
    } else {
      assert |w.phase.calls| == |w.phase.calls.Keys|;
    }
  }

  lemma BusyIdsAfterTake(lanes: seq<Lane>, lane: nat, i: nat, picked: seq<string>)
    requires lane < |lanes| && !lanes[lane].Busy? && i < |picked|
    ensures BusyIds(lanes, picked) + {picked[i]} <= BusyIds(lanes[lane := Busy(i)], picked)
  {
    var after := lanes[lane := Busy(i)];
    assert after[lane] == Busy(i);
    forall id | id in BusyIds(lanes, picked)
      ensures id in BusyIds(after, picked)
    {
      var k: nat :| k < |lanes| && lanes[k].Busy? && lanes[k].index < |picked| && picked[lanes[k].index] == id;
      assert after[k] == lanes[k];
    }
  }

  /** A drain that begins its captures, or turns to its extractions, is in line with a fresh pool. */
  lemma DrainOpensPool<R>(cfg: Config, w: World, a: Action)
    requires Enabled(cfg, w, a) && (a.DrainBegin? || a.CapturesDone?)
    ensures var p := Open<R>(|a.picked|, ConcurrentWidth(cfg.concurrency, |a.picked|));
            PoolInv(p) && Drives(p, Apply(cfg, w, a))
  {
  }

  lemma StartLeavesRest(w: World, now: int)
    requires !w.phase.Idle? && WaitingItems(w.phase) > 0
    ensures var next := Started(w, now);
            && !next.phase.Idle? && next.phase.picked == w.phase.picked && WaitingItems(next.phase) == WaitingItems(w.phase) - 1
            && (forall i :: 0 <= i < WaitingItems(next.phase) ==> WaitingId(next.phase, i) == WaitingId(w.phase, i + 1))
            && Handled(next.phase) <= Handled(w.phase) + {WaitingId(w.phase, 0)}
  {
  }

  /** A lane that fetches an item makes a step the queue allows, and the two stay in line. */
  lemma TakeStartsItem<R>(cfg: Config, p: Pool<R>, w: World, lane: nat, now: int)
    requires Drives(p, w) && |p.lanes| == ConcurrentWidth(cfg.concurrency, p.size)
    requires CanStep(p, Take(lane)) && p.next < p.size
    ensures MayStart(cfg, w) && WaitingId(w.phase, 0) == w.phase.picked[p.next]
    ensures Drives(ApplyStep(p, Take(lane)), Started(w, now))
  {
    ReadyLaneMayStart(cfg, p, w, lane);
    BusyIdsAfterTake(p.lanes, lane, p.next, w.phase.picked);
    StartLeavesRest(w, now);
  }

  lemma LanesKeepBusyIds(lanes: seq<Lane>, lane: nat, next: Lane, picked: seq<string>, handled: set<string>)
    requires lane < |lanes| && handled <= BusyIds(lanes, picked)
    requires lanes[lane].Busy? && lanes[lane].index < |picked| ==> picked[lanes[lane].index] !in handled
    ensures handled <= BusyIds(lanes[lane := next], picked)
  {
    forall id | id in handled
      ensures id in BusyIds(lanes[lane := next], picked)
    {
      var k: nat :| k < |lanes| && lanes[k].Busy? && lanes[k].index < |picked| && picked[lanes[k].index] == id;
      assert lanes[lane := next][k] == lanes[k];
    }
  }

  /** A lane whose callback has returned, so that its item is no longer handled, becomes ready again. */
  lemma FinishKeepsDrives<R>(p: Pool<R>, w: World, lane: nat, result: R)
    requires PoolInv(p) && Drives(p, w) && CanStep(p, Finish(lane, result))
    requires w.phase.picked[p.lanes[lane].index] !in Handled(w.phase)
    ensures Drives(ApplyStep(p, Finish(lane, result)), w)
  {
    LanesKeepBusyIds(p.lanes, lane, Ready, w.phase.picked, Handled(w.phase));
  }

  /** The drain goes on with the same items, none more of them handled. */
  ghost predicate GoesOn(phase: Phase, next: Phase) {
    && !phase.Idle? && !next.Idle? && next.picked == phase.picked
    && WaitingItems(next) == WaitingItems(phase)
    && (forall i :: 0 <= i < WaitingItems(next) ==> WaitingId(next, i) == WaitingId(phase, i))
    && Handled(next) <= Handled(phase)
  }

  lemma SettleGoesOn(cfg: Config, w: World, id: string, sink: Sink, outcome: Call)
    requires CanSettle(w, id, sink, outcome)
    ensures GoesOn(w.phase, ApplyCallSettles(cfg, w, id, sink, outcome).phase)
  {
  }

  lemma MarkGoesOn(w: World, id: string, now: int)
    requires CanMark(w, id)
    ensures GoesOn(w.phase, ApplyCaptureMark(w, id, now).phase)
  {
  }

  lemma ExtractionGoesOn(cfg: Config, w: World, id: string, outcome: Call, taskId: Option<string>, now: int)
    requires CanSettleExtraction(w, id, outcome)
    ensures GoesOn(w.phase, ApplyExtractionSettles(cfg, w, id, outcome, taskId, now).phase)
  {
  }

  /** The other steps of an item take at most its key out of those handled. */
  lemma OtherStepsKeepDrives<R>(cfg: Config, p: Pool<R>, w: World, a: Action)
    requires Drives(p, w) && Enabled(cfg, w, a) && (a.CallSettles? || a.CaptureMark? || a.ExtractionSettles?)
    ensures Drives(p, Apply(cfg, w, a))
  {
    match a
    case CallSettles(id, sink, response) => SettleGoesOn(cfg, w, id, sink, Outcome(response));
    case CaptureMark(id, now) => MarkGoesOn(w, id, now);
    case ExtractionSettles(id, outcome, taskId, now) => ExtractionGoesOn(cfg, w, id, outcome, taskId, now);
    assert GoesOn(w.phase, Apply(cfg, w, a).phase);
  }

  /** When `await concurrent(...)` returns, the queue has nothing left to start and nothing under way. */
  lemma ResolvedMeansDrained<R>(p: Pool<R>, w: World)
    requires PoolInv(p) && Drives(p, w) && Resolved(p)
    ensures w.phase.Capturing? ==> w.phase.todo == [] && w.phase.jobs == map[]
    ensures w.phase.Extracting? ==> w.phase.waiting == [] && w.phase.calls == map[]
  {
    if p.size > 0 {
      assert p.lanes[0].Exited?;
    }
    assert BusyIds(p.lanes, w.phase.picked) == {};
  }

  // ----- Whole drains -----

  /** The pool and everything around it: a lane fetches an item or finds none left, a lane's callback returns,
      or something else happens while the lanes are busy. */
  datatype DrainStep = LaneTakes(lane: nat, now: int) | LaneReturns(lane: nat) | Elsewhere(a: Action)

  /** What may happen between two steps of lanes: hooks, pruning, Core, and the answers and marks of items. */
  predicate BesideLanes(a: Action) {
    IsEnvironment(a) || a.CoreReceives? || a.CallSettles? || a.CaptureMark? || a.ExtractionSettles?
  }

  /** A lane's own steps depend on the pool alone; its callback has returned when its item is not handled any more. */
  ghost predicate DrainStepEnabled(cfg: Config, p: Pool<()>, w: World, s: DrainStep) {
    match s
    case LaneTakes(lane, _) => CanStep(p, Take(lane))
    case LaneReturns(lane) =>
      && CanStep(p, Finish(lane, ())) && !w.phase.Idle? && p.lanes[lane].index < |w.phase.picked|
      && w.phase.picked[p.lanes[lane].index] !in Handled(w.phase)
    case Elsewhere(a) => BesideLanes(a) && Enabled(cfg, w, a)
  }

  ghost function NextPool(cfg: Config, p: Pool<()>, w: World, s: DrainStep): Pool<()>
    requires DrainStepEnabled(cfg, p, w, s)
  {
    match s
    case LaneTakes(lane, _) => ApplyStep(p, Take(lane))
    case LaneReturns(lane) => ApplyStep(p, Finish(lane, ()))
    case Elsewhere(_) => p
  }

  /** A lane that fetches an item runs the callback up to its first await, whether or not the queue allows it. */
  ghost function NextWorld(cfg: Config, p: Pool<()>, w: World, s: DrainStep): World
    requires DrainStepEnabled(cfg, p, w, s)
  {
    match s
    case LaneTakes(_, now) => if p.next < p.size && WaitingItems(w.phase) > 0 then Started(w, now) else w
    case LaneReturns(_) => w
    case Elsewhere(a) => Apply(cfg, w, a)
  }

  /** The queue's actions in a step: a start when a lane fetches an item, none when it finds none left or returns. */
  function QueueActions(p: Pool<()>, w: World, s: DrainStep): seq<Action> {
    match s
    case LaneTakes(_, now) => if p.next < p.size then [StartAction(w.phase, now)] else []
    case LaneReturns(_) => []
    case Elsewhere(a) => [a]
  }

  ghost predicate IsDrain(cfg: Config, p: Pool<()>, w: World, steps: seq<DrainStep>)
    decreases |steps|
  {
    steps == [] ||
    (DrainStepEnabled(cfg, p, w, steps[0]) && IsDrain(cfg, NextPool(cfg, p, w, steps[0]), NextWorld(cfg, p, w, steps[0]), steps[1..]))
  }

  ghost function EndPool(cfg: Config, p: Pool<()>, w: World, steps: seq<DrainStep>): Pool<()>
    requires IsDrain(cfg, p, w, steps)
    decreases |steps|
  {
    if steps == [] then p else EndPool(cfg, NextPool(cfg, p, w, steps[0]), NextWorld(cfg, p, w, steps[0]), steps[1..])
  }

  ghost function EndWorld(cfg: Config, p: Pool<()>, w: World, steps: seq<DrainStep>): World
    requires IsDrain(cfg, p, w, steps)
    decreases |steps|
  {
    if steps == [] then w else EndWorld(cfg, NextPool(cfg, p, w, steps[0]), NextWorld(cfg, p, w, steps[0]), steps[1..])
  }

  ghost function Actions(cfg: Config, p: Pool<()>, w: World, steps: seq<DrainStep>): seq<Action>
    requires IsDrain(cfg, p, w, steps)
    decreases |steps|
  {
    if steps == [] then [] else
      QueueActions(p, w, steps[0]) + Actions(cfg, NextPool(cfg, p, w, steps[0]), NextWorld(cfg, p, w, steps[0]), steps[1..])
  }

  /** The pool matches the queue and has as many lanes as the queue allows. */
  ghost predicate InLine(cfg: Config, p: Pool<()>, w: World) {
    PoolInv(p) && Drives(p, w) && |p.lanes| == ConcurrentWidth(cfg.concurrency, p.size)
  }

  lemma ElsewhereKeepsLine(cfg: Config, p: Pool<()>, w: World, a: Action)
    requires InLine(cfg, p, w) && BesideLanes(a) && Enabled(cfg, w, a)
    ensures InLine(cfg, p, Apply(cfg, w, a))
  {
    if IsEnvironment(a) {
      EnvironmentIsQuiet(cfg, w, a);
    } else if !a.CoreReceives? {
      OtherStepsKeepDrives(cfg, p, w, a);
    }
  }

  lemma StartIsAction(cfg: Config, w: World, now: int)
    requires MayStart(cfg, w)
    ensures Enabled(cfg, w, StartAction(w.phase, now)) && Apply(cfg, w, StartAction(w.phase, now)) == Started(w, now)
  {
  }

  lemma TakeKeepsLine(cfg: Config, p: Pool<()>, w: World, lane: nat, now: int)
    requires InLine(cfg, p, w) && CanStep(p, Take(lane))
    ensures p.next < p.size ==> MayStart(cfg, w)
    ensures InLine(cfg, ApplyStep(p, Take(lane)), if p.next < p.size then Started(w, now) else w)
  {
    TakeKeepsInv(p, lane);
    if p.next < p.size {
      TakeStartsItem(cfg, p, w, lane, now);
    } else {
      LanesKeepBusyIds(p.lanes, lane, Exited, w.phase.picked, Handled(w.phase));
    }
  }

  lemma DrainStepKeepsLine(cfg: Config, p: Pool<()>, w: World, s: DrainStep)
    requires InLine(cfg, p, w) && DrainStepEnabled(cfg, p, w, s)
    ensures InLine(cfg, NextPool(cfg, p, w, s), NextWorld(cfg, p, w, s))
    ensures QueueActions(p, w, s) == [] ==> NextWorld(cfg, p, w, s) == w
    ensures QueueActions(p, w, s) != [] ==>
              |QueueActions(p, w, s)| == 1 && Enabled(cfg, w, QueueActions(p, w, s)[0])
              && NextWorld(cfg, p, w, s) == Apply(cfg, w, QueueActions(p, w, s)[0])
  {
    match s
    case LaneTakes(lane, now) =>
      TakeKeepsLine(cfg, p, w, lane, now);
      if p.next < p.size {
        StartIsAction(cfg, w, now);
      }
    case LaneReturns(lane) =>
      FinishKeepsInv(p, lane, ());
      FinishKeepsDrives(p, w, lane, ());
    case Elsewhere(a) => ElsewhereKeepsLine(cfg, p, w, a);
  }

  lemma OneActionFirst(cfg: Config, w: World, a: Action, rest: seq<Action>)
    requires Enabled(cfg, w, a) && IsRun(cfg, Apply(cfg, w, a), rest)
    ensures IsRun(cfg, w, [a] + rest) && Exec(cfg, w, [a] + rest) == Exec(cfg, Apply(cfg, w, a), rest)
  {
    assert ([a] + rest)[0] == a && ([a] + rest)[1..] == rest;
  }

  /** Every schedule of the lanes, with anything else in between, is a run of the queue: each lane that fetches an
      item makes a start that the queue allows. When the pool resolves, nothing is waiting or under way. */
  lemma {:induction false} SchedulesAreRuns(cfg: Config, p: Pool<()>, w: World, steps: seq<DrainStep>)
    requires InLine(cfg, p, w) && IsDrain(cfg, p, w, steps)
    ensures IsRun(cfg, w, Actions(cfg, p, w, steps)) && Exec(cfg, w, Actions(cfg, p, w, steps)) == EndWorld(cfg, p, w, steps)
    ensures InLine(cfg, EndPool(cfg, p, w, steps), EndWorld(cfg, p, w, steps))
    decreases |steps|
  {
    if steps != [] {
      var p', w', rest := NextPool(cfg, p, w, steps[0]), NextWorld(cfg, p, w, steps[0]), steps[1..];
      DrainStepKeepsLine(cfg, p, w, steps[0]);
      SchedulesAreRuns(cfg, p', w', rest);
      FirstActions(cfg, w, w', QueueActions(p, w, steps[0]), Actions(cfg, p', w', rest));
    }
  }

  lemma FirstActions(cfg: Config, w: World, w': World, first: seq<Action>, rest: seq<Action>)
    requires first == [] ==> w' == w
    requires first != [] ==> |first| == 1 && Enabled(cfg, w, first[0]) && w' == Apply(cfg, w, first[0])
    requires IsRun(cfg, w', rest)
    ensures IsRun(cfg, w, first + rest) && Exec(cfg, w, first + rest) == Exec(cfg, w', rest)
  {
    if first == [] {
      assert first + rest == rest;
    } else {
      OneActionFirst(cfg, w, first[0], rest);
      assert first == [first[0]];
    }
  }

  /** A whole drain, captures or extractions, from its selection on: any schedule is a run of the queue, and when
      `concurrent` resolves the queue has nothing left of it. */
  lemma DrainIsQueueRun(cfg: Config, w: World, a: Action, steps: seq<DrainStep>)
    requires Enabled(cfg, w, a) && (a.DrainBegin? || a.CapturesDone?)
    requires IsDrain(cfg, Open(|a.picked|, ConcurrentWidth(cfg.concurrency, |a.picked|)), Apply(cfg, w, a), steps)
    ensures var p, v := Open<()>(|a.picked|, ConcurrentWidth(cfg.concurrency, |a.picked|)), Apply(cfg, w, a);
            var end := EndWorld(cfg, p, v, steps);
            && IsRun(cfg, v, Actions(cfg, p, v, steps)) && Exec(cfg, v, Actions(cfg, p, v, steps)) == end
            && (Resolved(EndPool(cfg, p, v, steps)) ==>
                  && (end.phase.Capturing? ==> end.phase.todo == [] && end.phase.jobs == map[])
                  && (end.phase.Extracting? ==> end.phase.waiting == [] && end.phase.calls == map[]))
  {
    var p, v := Open<()>(|a.picked|, ConcurrentWidth(cfg.concurrency, |a.picked|)), Apply(cfg, w, a);
    DrainOpensPool<()>(cfg, w, a);
    SchedulesAreRuns(cfg, p, v, steps);
    if Resolved(EndPool(cfg, p, v, steps)) {
      ResolvedMeansDrained(EndPool(cfg, p, v, steps), EndWorld(cfg, p, v, steps));
    }
  }


  // ----- How many lanes -----

  /** As many as the limit says, but at least one and no more than there are items; `mapLimit` has four. */
  lemma WidthsAre(cfg: Config, size: nat)
    ensures ConcurrentWidth(cfg.concurrency, size) == Lanes(cfg, size)
    ensures if size == 0 then Lanes(cfg, size) == 0
            else if cfg.concurrency < 1 then Lanes(cfg, size) == 1
            else if cfg.concurrency < size then Lanes(cfg, size) == cfg.concurrency
            else Lanes(cfg, size) == size
    ensures if size < 4 then MapWidth(size) == size else MapWidth(size) == 4
  {
  }
}
