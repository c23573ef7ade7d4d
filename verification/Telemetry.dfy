/** The knowledge service's telemetry buffer: rows are recorded at any time, at most one insert is in
    flight, a failed insert puts its rows back in front, and an overflow drops the oldest rows. Shutting down
    awaits up to two flushes, and rows may be recorded during both awaits. */
module Telemetry {
  import opened Basics

  const MAX_BUFFER_ROWS: nat := 10_000
  const RETAINED_BUFFER_ROWS: nat := 5_000

  /** The flush promise: none, waiting for the server, or settled but not yet cleared by `finally`. */
  datatype Flushing<T> = NotFlushing | Sending(rows: seq<T>) | Settled

  /** How far `shutdown` has come: not called, awaiting the first or the second `flush()` by the number of the
      flush it got, or returned. A `flush()` with nothing to do is over at once, as is the flush before it. */
  datatype Shutdown = NotCalled | AwaitingFirst(flush: nat) | AwaitingSecond(flush: nat) | Returned

  /** What happened, as far as the program does not store it: every row recorded, the rows the server has
      acknowledged, whether any were dropped, and how many rows had been recorded when a flush last took the
      buffer; a flush that fails gives its rows back, and then only the acknowledged ones count as taken. */
  datatype History<T> = History(accepted: seq<T>, acknowledged: seq<T>, overflowed: bool, taken: nat)

  /** `started` and `cleared` number the flushes. */
  datatype State<T> = State(buffer: seq<T>, flushing: Flushing<T>, started: nat, cleared: nat, shutdown: Shutdown, h: History<T>)
  {
    function Pending(): seq<T> {
      if flushing.Sending? then flushing.rows else []
    }
  }

  function Initial<T>(): State<T> {
    State([], NotFlushing, 0, 0, NotCalled, History([], [], false, 0))
  }

  /** `Tick` is the interval timer, which `shutdown` stops. */
  datatype Event<T> = Record(row: T) | Tick | Insert(ok: bool) | Clear | CallShutdown | Resume | Return

  function Trimmed<T>(buffer: seq<T>): seq<T> {
    if |buffer| <= MAX_BUFFER_ROWS then buffer else buffer[|buffer| - RETAINED_BUFFER_ROWS..]
  }

  function WithinBound<T>(s: State<T>): State<T> {
    s.(buffer := Trimmed(s.buffer), h := s.h.(overflowed := s.h.overflowed || |s.buffer| > MAX_BUFFER_ROWS))
  }

  /** `flush()` up to its first await. */
  function StartFlush<T>(s: State<T>): State<T> {
    if !s.flushing.NotFlushing? || s.buffer == [] then s else
      s.(buffer := [], flushing := Sending(s.buffer), started := s.started + 1, h := s.h.(taken := |s.h.accepted|))
  }

  function Append<T>(s: State<T>, row: T): State<T> {
    WithinBound(s.(buffer := s.buffer + [row], h := s.h.(accepted := s.h.accepted + [row])))
  }

  function RecordRow<T>(s: State<T>, row: T, threshold: int): State<T> {
    var t := Append(s, row);
    if |t.buffer| >= threshold then StartFlush(t) else t
  }

  function SettleInsert<T>(s: State<T>, ok: bool): State<T>
    requires s.flushing.Sending?
  {
    if ok then s.(flushing := Settled, h := s.h.(acknowledged := s.h.acknowledged + s.flushing.rows))
    else WithinBound(s.(flushing := Settled, buffer := s.flushing.rows + s.buffer, h := s.h.(taken := |s.h.acknowledged|)))
  }

  function BeginShutdown<T>(s: State<T>): State<T> {
    var t := StartFlush(s);
    t.(shutdown := AwaitingFirst(t.started))
  }

  /** `if (this.buffer.length > 0) await this.flush()` */
  function ResumeShutdown<T>(s: State<T>): State<T> {
    if s.buffer == [] then s.(shutdown := Returned) else
      var t := StartFlush(s);
      t.(shutdown := AwaitingSecond(t.started))
  }

  predicate Enabled<T>(s: State<T>, e: Event<T>) {
    match e
    case Record(_) => true
    case Tick => s.shutdown.NotCalled?
    case Insert(_) => s.flushing.Sending?
    case Clear => s.flushing.Settled?
    case CallShutdown => s.shutdown.NotCalled?
    case Resume => s.shutdown.AwaitingFirst? && s.cleared >= s.shutdown.flush
    case Return => s.shutdown.AwaitingSecond? && s.cleared >= s.shutdown.flush
  }

  function Apply<T>(s: State<T>, e: Event<T>, threshold: int): State<T>
    requires Enabled(s, e)
  {
    match e
    case Record(row) => RecordRow(s, row, threshold)
    case Tick => StartFlush(s)
    case Insert(ok) => SettleInsert(s, ok)
    case Clear => s.(flushing := NotFlushing, cleared := s.cleared + 1)
    case CallShutdown => BeginShutdown(s)
    case Resume => ResumeShutdown(s)
    case Return => s.(shutdown := Returned)
  }

  predicate IsRun<T>(s: State<T>, run: seq<Event<T>>, threshold: int)
    decreases |run|
  {
    run == [] || (Enabled(s, run[0]) && IsRun(Apply(s, run[0], threshold), run[1..], threshold))
  }

  function Exec<T>(s: State<T>, run: seq<Event<T>>, threshold: int): State<T>
    requires IsRun(s, run, threshold)
    decreases |run|
  {
    if run == [] then s else Exec(Apply(s, run[0], threshold), run[1..], threshold)
  }

  // ----- Subsequences -----

  /** `xs` is what remains of `ys` after dropping some elements. */
  ghost predicate Subsequence<T(!new)>(xs: seq<T>, ys: seq<T>)
    decreases |ys|
  {
    xs == [] ||
    (ys != [] && ((xs[|xs| - 1] == ys[|ys| - 1] && Subsequence(xs[..|xs| - 1], ys[..|ys| - 1])) || Subsequence(xs, ys[..|ys| - 1])))
  }

  lemma {:induction false} SubsequenceRefl<T(!new)>(xs: seq<T>)
    ensures Subsequence(xs, xs)
    decreases |xs|
  {
    if xs != [] {
      SubsequenceRefl(xs[..|xs| - 1]);
    }
  }

  lemma SubsequenceSnoc<T(!new)>(xs: seq<T>, ys: seq<T>, x: T)
    requires Subsequence(xs, ys)
    ensures Subsequence(xs + [x], ys + [x])
  {
    assert (xs + [x])[..|xs|] == xs && (ys + [x])[..|ys|] == ys;
  }

  /** Dropping a stretch from the middle of a subsequence leaves a subsequence. */
  lemma {:induction false} SubsequenceDrop<T(!new)>(a: seq<T>, dropped: seq<T>, b: seq<T>, ys: seq<T>)
    requires Subsequence(a + dropped + b, ys)
    ensures Subsequence(a + b, ys)
    decreases |ys|
  {
    var xs := a + dropped + b;
    if a + b == [] || xs == a + b {
    } else {
      var last := ys[..|ys| - 1];
      if Subsequence(xs, last) {
        SubsequenceDrop(a, dropped, b, last);
      } else if b != [] {
        assert xs[..|xs| - 1] == a + dropped + b[..|b| - 1];
        SubsequenceDrop(a, dropped, b[..|b| - 1], last);
        assert (a + b)[..|a + b| - 1] == a + b[..|b| - 1];
      } else {
        assert xs[..|xs| - 1] == a + dropped[..|dropped| - 1] + [];
        SubsequenceDrop(a, dropped[..|dropped| - 1], [], last);
        assert a + b == a + [];
      }
    }
  }

  /** A subsequence holds no value more often than the whole does. */
  lemma {:induction false} SubsequenceCounts<T(!new)>(xs: seq<T>, ys: seq<T>)
    requires Subsequence(xs, ys)
    ensures multiset(xs) <= multiset(ys)
    decreases |ys|
  {
    if xs != [] {
      var ys' := ys[..|ys| - 1];
      assert ys == ys' + [ys[|ys| - 1]];
      if Subsequence(xs, ys') {
        SubsequenceCounts(xs, ys');
      } else {
        assert xs == xs[..|xs| - 1] + [xs[|xs| - 1]];
        SubsequenceCounts(xs[..|xs| - 1], ys');
      }
    }
  }

  // ----- What every step keeps -----

  /** Nothing is invented, reordered or acknowledged twice; without an overflow nothing is lost. */
  ghost predicate Conserved<T(!new)>(s: State<T>) {
    && |s.buffer| <= MAX_BUFFER_ROWS
    && Subsequence(s.h.acknowledged + s.Pending() + s.buffer, s.h.accepted)
    && (!s.h.overflowed ==> s.h.acknowledged + s.Pending() + s.buffer == s.h.accepted)
  }

  /** One flush at a time; as long as nothing was dropped, what counts as taken is acknowledged or under way. A
      shutdown awaits a flush that has started. */
  predicate Numbered<T>(s: State<T>) {
    && s.started == s.cleared + (if s.flushing.NotFlushing? then 0 else 1)
    && (!s.h.overflowed ==> |s.h.acknowledged + s.Pending()| == s.h.taken)
    && (s.shutdown.AwaitingFirst? || s.shutdown.AwaitingSecond? ==> s.shutdown.flush <= s.started)
  }

  ghost predicate Inv<T(!new)>(s: State<T>) {
    Conserved(s) && Numbered(s)
  }

  lemma BoundConserves<T(!new)>(s: State<T>)
    requires Subsequence(s.h.acknowledged + s.Pending() + s.buffer, s.h.accepted)
    requires !s.h.overflowed ==> s.h.acknowledged + s.Pending() + s.buffer == s.h.accepted
    ensures Conserved(WithinBound(s))
  {
    if |s.buffer| > MAX_BUFFER_ROWS {
      var front, dropped := s.h.acknowledged + s.Pending(), |s.buffer| - RETAINED_BUFFER_ROWS;
      assert front + s.buffer == front + s.buffer[..dropped] + s.buffer[dropped..];
      SubsequenceDrop(front, s.buffer[..dropped], s.buffer[dropped..], s.h.accepted);
    }
  }

  lemma FlushConserves<T(!new)>(s: State<T>)
    requires Conserved(s)
    ensures Conserved(StartFlush(s))
  {
    assert s.h.acknowledged + [] + s.buffer == s.h.acknowledged + s.buffer + [];
  }

  lemma AppendConserves<T(!new)>(s: State<T>, row: T)
    requires Conserved(s)
    ensures Conserved(Append(s, row))
  {
    var front := s.h.acknowledged + s.Pending();
    SubsequenceSnoc(front + s.buffer, s.h.accepted, row);
    assert front + (s.buffer + [row]) == (front + s.buffer) + [row];
    BoundConserves(s.(buffer := s.buffer + [row], h := s.h.(accepted := s.h.accepted + [row])));
  }

  lemma SettleConserves<T(!new)>(s: State<T>, ok: bool)
    requires Conserved(s) && s.flushing.Sending?
    ensures Conserved(SettleInsert(s, ok))
  {
    var rows := s.flushing.rows;
    if ok {
      assert (s.h.acknowledged + rows) + [] + s.buffer == s.h.acknowledged + rows + s.buffer;
    } else {
      assert s.h.acknowledged + [] + (rows + s.buffer) == s.h.acknowledged + rows + s.buffer;
      BoundConserves(s.(flushing := Settled, buffer := rows + s.buffer, h := s.h.(taken := |s.h.acknowledged|)));
    }
  }

  lemma StepConserves<T(!new)>(s: State<T>, e: Event<T>, threshold: int)
    requires Conserved(s) && Enabled(s, e)
    ensures Conserved(Apply(s, e, threshold))
  {
    match e
    case Record(row) =>
      AppendConserves(s, row);
      FlushConserves(Append(s, row));
    case Insert(ok) => SettleConserves(s, ok);
    case Clear =>
    case Return =>
    case _ => FlushConserves(s);
  }

  lemma FlushNumbers<T(!new)>(s: State<T>)
    requires Conserved(s) && Numbered(s)
    ensures Numbered(StartFlush(s))
  {
    assert s.h.acknowledged + [] + s.buffer == s.h.acknowledged + s.buffer;
  }

  lemma StepNumbers<T(!new)>(s: State<T>, e: Event<T>, threshold: int)
    requires Conserved(s) && Numbered(s) && Enabled(s, e)
    ensures Numbered(Apply(s, e, threshold))
  {
    match e
    case Record(row) =>
      AppendConserves(s, row);
      FlushNumbers(Append(s, row));
    case Insert(_) => assert s.h.acknowledged + [] == s.h.acknowledged;
    case Clear =>
    case Return =>
    case _ => FlushNumbers(s);
  }

  lemma StepKeepsInv<T(!new)>(s: State<T>, e: Event<T>, threshold: int)
    requires Inv(s) && Enabled(s, e)
    ensures Inv(Apply(s, e, threshold))
  {
    StepConserves(s, e, threshold);
    StepNumbers(s, e, threshold);
  }

  lemma {:induction false} RunKeepsInv<T(!new)>(s: State<T>, run: seq<Event<T>>, threshold: int)
    requires Inv(s) && IsRun(s, run, threshold)
    ensures Inv(Exec(s, run, threshold))
    decreases |run|
  {
    if run != [] {
      StepKeepsInv(s, run[0], threshold);
      RunKeepsInv(Apply(s, run[0], threshold), run[1..], threshold);
    }
  }

  lemma InitialInv<T(!new)>()
    ensures Inv(Initial<T>())
  {
  }

  // ----- Any order of records, timer ticks, answers and shutdown steps -----

  /** What is acknowledged, under way and buffered is what was recorded, in order, with nothing repeated; without
      an overflow nothing is missing, and the buffer stays within its bound. */
  lemma RowsAreConserved<T(!new)>(run: seq<Event<T>>, threshold: int)
    requires IsRun(Initial<T>(), run, threshold)
    ensures var s := Exec(Initial<T>(), run, threshold);
            && |s.buffer| <= MAX_BUFFER_ROWS
            && Subsequence(s.h.acknowledged + s.Pending() + s.buffer, s.h.accepted)
            && multiset(s.h.acknowledged) <= multiset(s.h.accepted)
            && (!s.h.overflowed ==> s.h.acknowledged + s.Pending() + s.buffer == s.h.accepted)
  {
    InitialInv<T>();
    RunKeepsInv(Initial<T>(), run, threshold);
    var s := Exec(Initial<T>(), run, threshold);
    var rest := s.Pending() + s.buffer;
    assert s.h.acknowledged + s.Pending() + s.buffer == s.h.acknowledged + rest;
    SubsequenceCounts(s.h.acknowledged + rest, s.h.accepted);
    assert multiset(s.h.acknowledged + rest) == multiset(s.h.acknowledged) + multiset(rest);
  }

  /** As long as no row was dropped: what counts as taken is acknowledged or under way, and the later rows are in the
      buffer. So at any time, also when `shutdown` has returned and whatever failed before, everything is acknowledged
      if and only if nothing was recorded since the last flush took the buffer and that flush has succeeded. */
  lemma WhatIsLeft<T(!new)>(run: seq<Event<T>>, threshold: int)
    requires IsRun(Initial<T>(), run, threshold) && !Exec(Initial<T>(), run, threshold).h.overflowed
    ensures var s := Exec(Initial<T>(), run, threshold);
            && s.h.taken <= |s.h.accepted|
            && s.h.acknowledged + s.Pending() == s.h.accepted[..s.h.taken] && s.buffer == s.h.accepted[s.h.taken..]
            && (s.h.acknowledged == s.h.accepted <==> s.h.taken == |s.h.accepted| && s.Pending() == [])
  {
    InitialInv<T>();
    RunKeepsInv(Initial<T>(), run, threshold);
    var s := Exec(Initial<T>(), run, threshold);
    var front := s.h.acknowledged + s.Pending();
    assert (front + s.buffer)[..|front|] == front && (front + s.buffer)[|front|..] == s.buffer;
    if s.h.taken == |s.h.accepted| && s.Pending() == [] {
      assert s.h.acknowledged + [] == s.h.acknowledged;
    }
  }

  // ----- What a shutdown saves -----

  /** Every row that is not lost: acknowledged, under way, or in the buffer. */
  function Held<T>(s: State<T>): seq<T> {
    s.h.acknowledged + s.Pending() + s.buffer
  }

  /** No insert fails and no row is dropped. */
  predicate Clean<T>(s: State<T>, e: Event<T>) {
    match e
    case Record(_) => |s.buffer| < MAX_BUFFER_ROWS
    case Insert(ok) => ok
    case _ => true
  }

  predicate CleanRun<T>(s: State<T>, run: seq<Event<T>>, threshold: int)
    requires IsRun(s, run, threshold)
    decreases |run|
  {
    run == [] || (Clean(s, run[0]) && CleanRun(Apply(s, run[0], threshold), run[1..], threshold))
  }

  /** However things go on after `shutdown` is called, as long as they go well, the rows held at the call are
      acknowledged when it returns. */
  ghost predicate SavesAll<T(!new)>(s: State<T>, threshold: int) {
    forall run :: IsRun(BeginShutdown(s), run, threshold) && CleanRun(BeginShutdown(s), run, threshold)
                  && Exec(BeginShutdown(s), run, threshold).shutdown.Returned?
                  ==> Held(s) <= Exec(BeginShutdown(s), run, threshold).h.acknowledged
  }

  /** No flush is under way while rows wait, or none could start before `shutdown` looks at the buffer again. */
  predicate CallIsSafe<T>(s: State<T>, threshold: int) {
    s.flushing.NotFlushing? || s.buffer == [] || |s.buffer| == MAX_BUFFER_ROWS || threshold > MAX_BUFFER_ROWS
  }

  /** The first `n` rows are acknowledged as soon as the flush is over. */
  predicate Covered<T>(s: State<T>, flush: nat, n: nat) {
    && flush <= s.started
    && (if s.started == flush then |s.h.acknowledged| + |s.Pending()| >= n else |s.h.acknowledged| >= n)
  }

  /** How the first `n` rows are on their way at each stage of a shutdown. */
  predicate Safe<T>(s: State<T>, n: nat, threshold: int) {
    match s.shutdown
    case NotCalled => false
    case AwaitingFirst(flush) =>
      || Covered(s, flush, n)
      || (s.started == flush && |Held(s)| >= n && (threshold > MAX_BUFFER_ROWS || |s.buffer| == MAX_BUFFER_ROWS))
    case AwaitingSecond(flush) => Covered(s, flush, n)
    case Returned => |s.h.acknowledged| >= n
  }

  lemma FlushHolds<T>(s: State<T>)
    ensures Held(StartFlush(s)) == Held(s)
  {
    assert s.h.acknowledged + [] + s.buffer == s.h.acknowledged + s.buffer + [];
  }

  lemma CleanStepHolds<T>(s: State<T>, e: Event<T>, threshold: int)
    requires Enabled(s, e) && Clean(s, e)
    ensures Held(s) <= Held(Apply(s, e, threshold))
  {
    match e
    case Record(row) =>
      assert s.h.acknowledged + s.Pending() + (s.buffer + [row]) == Held(s) + [row];
      FlushHolds(Append(s, row));
    case Insert(_) => assert (s.h.acknowledged + s.flushing.rows) + [] + s.buffer == Held(s);
    case Clear =>
    case Return =>
    case _ => FlushHolds(s);
  }

  lemma RecordKeepsSafe<T>(s: State<T>, row: T, n: nat, threshold: int)
    requires Numbered(s) && Safe(s, n, threshold) && |s.buffer| < MAX_BUFFER_ROWS
    ensures Safe(RecordRow(s, row, threshold), n, threshold)
  {
  }

  lemma ResumeKeepsSafe<T>(s: State<T>, n: nat, threshold: int)
    requires Numbered(s) && Safe(s, n, threshold) && Enabled(s, Event<T>.Resume)
    ensures Safe(ResumeShutdown(s), n, threshold)
  {
  }

  lemma CleanStepKeepsSafe<T>(s: State<T>, e: Event<T>, n: nat, threshold: int)
    requires Numbered(s) && Safe(s, n, threshold) && Enabled(s, e) && Clean(s, e)
    ensures Safe(Apply(s, e, threshold), n, threshold)
  {
    match e
    case Record(row) => RecordKeepsSafe(s, row, n, threshold);
    case Resume => ResumeKeepsSafe(s, n, threshold);
    case _ =>
  }

  lemma {:induction false} CleanRunSaves<T(!new)>(s: State<T>, run: seq<Event<T>>, n: nat, threshold: int)
    requires Inv(s) && Safe(s, n, threshold) && IsRun(s, run, threshold) && CleanRun(s, run, threshold)
    ensures var end := Exec(s, run, threshold); Held(s) <= Held(end) && Safe(end, n, threshold)
    decreases |run|
  {
    if run != [] {
      StepKeepsInv(s, run[0], threshold);
      CleanStepHolds(s, run[0], threshold);
      CleanStepKeepsSafe(s, run[0], n, threshold);
      CleanRunSaves(Apply(s, run[0], threshold), run[1..], n, threshold);
    }
  }

  lemma SafeCallSaves<T(!new)>(s: State<T>, run: seq<Event<T>>, threshold: int)
    requires Inv(s) && s.shutdown.NotCalled? && CallIsSafe(s, threshold)
    requires IsRun(BeginShutdown(s), run, threshold) && CleanRun(BeginShutdown(s), run, threshold)
    requires Exec(BeginShutdown(s), run, threshold).shutdown.Returned?
    ensures Held(s) <= Exec(BeginShutdown(s), run, threshold).h.acknowledged
  {
    var t, end := BeginShutdown(s), Exec(BeginShutdown(s), run, threshold);
    StepKeepsInv(s, Event<T>.CallShutdown, threshold);
    FlushHolds(s);
    assert Held(t) == Held(s);
    CleanRunSaves(t, run, |Held(s)|, threshold);
    assert end.h.acknowledged <= Held(end);
  }

  // ----- The runs in which it does not -----

  lemma {:induction false} Extend<T>(s: State<T>, run: seq<Event<T>>, e: Event<T>, threshold: int)
    requires IsRun(s, run, threshold) && Enabled(Exec(s, run, threshold), e)
    ensures IsRun(s, run + [e], threshold) && Exec(s, run + [e], threshold) == Apply(Exec(s, run, threshold), e, threshold)
    ensures CleanRun(s, run, threshold) && Clean(Exec(s, run, threshold), e) ==> CleanRun(s, run + [e], threshold)
    decreases |run|
  {
    if run == [] {
      assert [e][1..] == [];
    } else {
      Extend(Apply(s, run[0], threshold), run[1..], e, threshold);
      assert (run + [e])[1..] == run[1..] + [e];
    }
  }

  lemma ExtendTwice<T>(s: State<T>, run: seq<Event<T>>, e: Event<T>, f: Event<T>, threshold: int) returns (longer: seq<Event<T>>)
    requires IsRun(s, run, threshold) && CleanRun(s, run, threshold)
    requires Enabled(Exec(s, run, threshold), e) && Clean(Exec(s, run, threshold), e)
    requires var t := Apply(Exec(s, run, threshold), e, threshold); Enabled(t, f) && Clean(t, f)
    ensures longer == run + [e, f] && IsRun(s, longer, threshold) && CleanRun(s, longer, threshold)
    ensures Exec(s, longer, threshold) == Apply(Apply(Exec(s, run, threshold), e, threshold), f, threshold)
  {
    Extend(s, run, e, threshold);
    Extend(s, run + [e], f, threshold);
    longer := run + [e] + [f];
    assert longer == run + [e, f];
  }

  /** The flush under way at the call succeeds. */
  lemma FlushEnds<T>(t: State<T>, threshold: int) returns (run: seq<Event<T>>)
    requires !t.flushing.NotFlushing?
    ensures IsRun(t, run, threshold) && CleanRun(t, run, threshold)
    ensures var u := Exec(t, run, threshold);
            && u.flushing.NotFlushing? && u.buffer == t.buffer && u.shutdown == t.shutdown && u.cleared == t.cleared + 1
            && u.h.acknowledged == t.h.acknowledged + t.Pending()
  {
    if t.flushing.Sending? {
      run := ExtendTwice(t, [], Insert(true), Clear, threshold);
    } else {
      Extend(t, [], Event<T>.Clear, threshold);
      run := [] + [Clear];
      assert t.h.acknowledged + [] == t.h.acknowledged;
    }
  }

  /** Rows are recorded until one starts the next flush. */
  lemma {:induction false} RecordUntilFlush<T>(t: State<T>, run: seq<Event<T>>, row: T, threshold: int) returns (longer: seq<Event<T>>)
    requires IsRun(t, run, threshold) && CleanRun(t, run, threshold) && threshold <= MAX_BUFFER_ROWS
    requires var u := Exec(t, run, threshold); u.flushing.NotFlushing? && |u.buffer| < MAX_BUFFER_ROWS
    ensures IsRun(t, longer, threshold) && CleanRun(t, longer, threshold)
    ensures var u, v := Exec(t, run, threshold), Exec(t, longer, threshold);
            && v.buffer == [] && v.shutdown == u.shutdown && v.cleared == u.cleared && v.h.acknowledged == u.h.acknowledged
    decreases MAX_BUFFER_ROWS - |Exec(t, run, threshold).buffer|
  {
    Extend(t, run, Record(row), threshold);
    longer := run + [Record(row)];
    if |Exec(t, run, threshold).buffer| + 1 < threshold {
      longer := RecordUntilFlush(t, longer, row, threshold);
    }
  }

  /** From any other state at the call, a run in which all goes well and `shutdown` returns before the rows that
      waited behind the flush under way are acknowledged: new rows start the next flush just before it looks. */
  lemma UnsafeCallLeavesRows<T(!new)>(s: State<T>, threshold: int) returns (run: seq<Event<T>>)
    requires Inv(s) && s.shutdown.NotCalled? && !CallIsSafe(s, threshold)
    ensures IsRun(BeginShutdown(s), run, threshold) && CleanRun(BeginShutdown(s), run, threshold)
    ensures var end := Exec(BeginShutdown(s), run, threshold); end.shutdown.Returned? && !(Held(s) <= end.h.acknowledged)
  {
    var t := BeginShutdown(s);
    run := FlushEnds(t, threshold);
    run := RecordUntilFlush(t, run, s.buffer[0], threshold);
    Extend(t, run, Event<T>.Resume, threshold);
    run := run + [Resume];
    assert |Exec(t, run, threshold).h.acknowledged| < |Held(s)|;
  }

  /** Whenever `shutdown` is called, every continuation that goes well acknowledges all rows held at the call before it
      returns, if and only if at the call no flush is under way, or no row waits behind it, or no row can start
      another flush, the buffer being full or the threshold out of its reach. Without an overflow the rows held
      are all that were recorded. */
  lemma ShutdownSavesEarlierRows<T(!new)>(s: State<T>, threshold: int)
    requires Inv(s) && s.shutdown.NotCalled?
    ensures SavesAll(s, threshold) <==> CallIsSafe(s, threshold)
    ensures !s.h.overflowed ==> Held(s) == s.h.accepted
  {
    if CallIsSafe(s, threshold) {
      forall run | IsRun(BeginShutdown(s), run, threshold) && CleanRun(BeginShutdown(s), run, threshold)
                   && Exec(BeginShutdown(s), run, threshold).shutdown.Returned?
        ensures Held(s) <= Exec(BeginShutdown(s), run, threshold).h.acknowledged
      {
        SafeCallSaves(s, run, threshold);
      }
    } else {
      var run := UnsafeCallLeavesRows(s, threshold);
    }
  }

  /** Every state a program run can call `shutdown` in is covered by that. */
  lemma ReachableCalls<T(!new)>(run: seq<Event<T>>, threshold: int)
    requires IsRun(Initial<T>(), run, threshold) && Exec(Initial<T>(), run, threshold).shutdown.NotCalled?
    ensures SavesAll(Exec(Initial<T>(), run, threshold), threshold) <==> CallIsSafe(Exec(Initial<T>(), run, threshold), threshold)
  {
    InitialInv<T>();
    RunKeepsInv(Initial<T>(), run, threshold);
    ShutdownSavesEarlierRows(Exec(Initial<T>(), run, threshold), threshold);
  }

  lemma FirstAwait<T>(row: T, late: T, threshold: int) returns (run: seq<Event<T>>)
    requires threshold >= 2
    ensures IsRun(Initial<T>(), run, threshold) && CleanRun(Initial<T>(), run, threshold)
    ensures Exec(Initial<T>(), run, threshold) ==
              State([late], Settled, 1, 0, AwaitingFirst(1), History([row, late], [row], false, 1))
  {
    run := ExtendTwice(Initial<T>(), [], Record(row), CallShutdown, threshold);
    assert [] + [row] == [row];
    assert Exec(Initial<T>(), run, threshold) == State([], Sending([row]), 1, 0, AwaitingFirst(1), History([row], [], false, 1));
    run := ExtendTwice(Initial<T>(), run, Record(late), Insert(true), threshold);
    assert [row] + [late] == [row, late] && [] + [late] == [late];
  }

  lemma SecondAwait<T>(row: T, late: T, threshold: int) returns (run: seq<Event<T>>)
    requires threshold >= 2
    ensures IsRun(Initial<T>(), run, threshold) && CleanRun(Initial<T>(), run, threshold)
    ensures Exec(Initial<T>(), run, threshold) ==
              State([], Sending([late]), 2, 1, AwaitingSecond(2), History([row, late], [row], false, 2))
  {
    run := FirstAwait(row, late, threshold);
    run := ExtendTwice(Initial<T>(), run, Clear, Resume, threshold);
  }

  /** A row recorded during the last await is left in the buffer when `shutdown` returns, although every insert
      succeeded. */
  lemma LateRowIsLeft<T>(row: T, late: T, last: T, threshold: int) returns (run: seq<Event<T>>)
    requires threshold >= 2
    ensures IsRun(Initial<T>(), run, threshold) && CleanRun(Initial<T>(), run, threshold)
    ensures var s := Exec(Initial<T>(), run, threshold);
            s.shutdown.Returned? && s.h.acknowledged == [row, late] && s.buffer == [last] && s.h.accepted == [row, late, last]
  {
    run := SecondAwait(row, late, threshold);
    run := ExtendTwice(Initial<T>(), run, Record(last), Insert(true), threshold);
    run := ExtendTwice(Initial<T>(), run, Clear, Return, threshold);
  }

  lemma JoinFlush<T>(a: T, b: T, early: T) returns (run: seq<Event<T>>)
    ensures run == [Record(a), Record(b), Record(early), CallShutdown]
    ensures IsRun(Initial<T>(), run, 2) && CleanRun(Initial<T>(), run, 2)
    ensures Exec(Initial<T>(), run, 2) ==
              State([early], Sending([a, b]), 1, 0, AwaitingFirst(1), History([a, b, early], [], false, 2))
  {
    run := ExtendTwice(Initial<T>(), [], Record(a), Record(b), 2);
    assert [] + [a] == [a] && [a] + [b] == [a, b];
    assert Exec(Initial<T>(), run, 2) == State([], Sending([a, b]), 1, 0, NotCalled, History([a, b], [], false, 2));
    run := ExtendTwice(Initial<T>(), run, Record(early), CallShutdown, 2);
    assert [] + [early] == [early] && [a, b] + [early] == [a, b, early];
  }

  /** Such a run from the start: a row recorded before `shutdown` is not acknowledged when it returns. It waited behind
      a flush under way, and when that was over a new row had already started the next one. */
  lemma ShutdownIsOvertaken<T>(a: T, b: T, early: T, d: T) returns (run: seq<Event<T>>)
    ensures IsRun(Initial<T>(), run, 2) && CleanRun(Initial<T>(), run, 2)
    ensures var s := Exec(Initial<T>(), run, 2);
            && run == [Record(a), Record(b), Record(early), CallShutdown, Insert(true), Clear, Record(d), Resume]
            && s.shutdown.Returned? && s.h.accepted == [a, b, early, d]
            && s.h.acknowledged == [a, b] && s.flushing == Sending([early, d])
  {
    run := JoinFlush(a, b, early);
    run := ExtendTwice(Initial<T>(), run, Insert(true), Clear, 2);
    assert [] + [a, b] == [a, b];
    run := ExtendTwice(Initial<T>(), run, Record(d), Resume, 2);
    assert [early] + [d] == [early, d];
  }

  // ----- The object -----

  class Buffer<T(!new)> {
    const flushThreshold: int
    var buffer: seq<T>
    var flushing: Flushing<T>
    ghost var shutdown: Shutdown
    ghost var started: nat
    ghost var cleared: nat
    ghost var h: History<T>

    ghost function AsState(): State<T>
      reads this
    {
      State(buffer, flushing, started, cleared, shutdown, h)
    }

    ghost predicate Valid()
      reads this
    {
      Inv(AsState())
    }

    constructor (flushThreshold: int)
      ensures Valid() && AsState() == Initial<T>() && this.flushThreshold == flushThreshold
    {
      this.flushThreshold := flushThreshold;
      buffer, flushing, shutdown, started, cleared := [], NotFlushing, NotCalled, 0, 0;
      h := History([], [], false, 0);
      new;
      InitialInv<T>();
    }

    method TrimBuffer()
      modifies this`buffer, this`h
      ensures AsState() == WithinBound(old(AsState()))
    {
      if |buffer| <= MAX_BUFFER_ROWS {
        return;
      }
      buffer := buffer[|buffer| - RETAINED_BUFFER_ROWS..];
      h := h.(overflowed := true);
    }

    /** The synchronous part of `flush`: at most one insert is in flight, and it takes the whole buffer. */
    method Flush()
      modifies this`buffer, this`flushing, this`started, this`h
      ensures AsState() == StartFlush(old(AsState()))
    {
      if !flushing.NotFlushing? || |buffer| == 0 {
        return;
      }
      var rows := buffer;
      buffer := [];
      flushing := Sending(rows);
      started := started + 1;
      h := h.(taken := |h.accepted|);
    }

    method RecordToolCall(row: T)
      requires Valid()
      modifies this
      ensures Valid() && AsState() == Apply(old(AsState()), Record(row), flushThreshold)
    {
      StepKeepsInv(AsState(), Record(row), flushThreshold);
      buffer := buffer + [row];
      h := h.(accepted := h.accepted + [row]);
      TrimBuffer();
      if |buffer| >= flushThreshold {
        Flush();
      }
    }

    /** The insert's outcome: acknowledged, or caught and put back in front. */
    method SettleInsert(ok: bool)
      requires Valid() && flushing.Sending?
      modifies this
      ensures Valid() && AsState() == Apply(old(AsState()), Insert(ok), flushThreshold)
    {
      StepKeepsInv(AsState(), Insert(ok), flushThreshold);
      var rows := flushing.rows;
      flushing := Settled;
      if ok {
        h := h.(acknowledged := h.acknowledged + rows);
      } else {
        buffer := rows + buffer;
        h := h.(taken := |h.acknowledged|);
        TrimBuffer();
      }
    }

    /** The `finally` handler. */
    method ClearFlushing()
      requires Valid() && flushing.Settled?
      modifies this
      ensures Valid() && AsState() == Apply(old(AsState()), Clear, flushThreshold)
    {
      StepKeepsInv(AsState(), Clear, flushThreshold);
      flushing := NotFlushing;
      cleared := cleared + 1;
    }

    /** `shutdown` up to its first await. */
    method CallShutdown()
      requires Valid() && shutdown.NotCalled?
      modifies this
      ensures Valid() && AsState() == Apply(old(AsState()), Event<T>.CallShutdown, flushThreshold)
    {
      StepKeepsInv(AsState(), Event<T>.CallShutdown, flushThreshold);
      Flush();
      shutdown := AwaitingFirst(started);
    }

    /** From the first await to the second, or to the end. */
    method ResumeShutdown()
      requires Valid() && Enabled(AsState(), Event<T>.Resume)
      modifies this
      ensures Valid() && AsState() == Apply(old(AsState()), Event<T>.Resume, flushThreshold)
    {
      StepKeepsInv(AsState(), Event<T>.Resume, flushThreshold);
      if |buffer| > 0 {
        Flush();
        shutdown := AwaitingSecond(started);
      } else {
        shutdown := Returned;
      }
    }
  }


  // ----- What single steps do with the rows -----

  /** A recorded row goes behind the others; a full buffer first loses all but its newest 4999. */
  lemma RecordedRow<T(!new)>(s: State<T>, row: T, threshold: int)
    requires Inv(s)
    ensures var kept := if |s.buffer| < 10_000 then s.buffer else s.buffer[|s.buffer| - 4_999..];
            var next := Apply(s, Record(row), threshold);
            && next.h.accepted == s.h.accepted + [row] && next.h.acknowledged == s.h.acknowledged && next.shutdown == s.shutdown
            && if |kept| + 1 >= threshold && s.flushing.NotFlushing? then next.flushing == Sending(kept + [row]) && next.buffer == []
               else next.flushing == s.flushing && next.buffer == kept + [row]
  {
    if |s.buffer| == 10_000 {
      assert (s.buffer + [row])[|s.buffer| + 1 - 5_000..] == s.buffer[|s.buffer| - 4_999..] + [row];
    }
  }

  /** The timer sends all rows that wait, unless a flush is under way. */
  lemma TimerSends<T(!new)>(s: State<T>, threshold: int)
    requires s.shutdown.NotCalled?
    ensures Enabled(s, Event<T>.Tick)
    ensures var next := Apply(s, Event<T>.Tick, threshold);
            && next.h.accepted == s.h.accepted && next.h.acknowledged == s.h.acknowledged && next.shutdown == s.shutdown
            && if s.flushing.NotFlushing? && s.buffer != [] then next.flushing == Sending(s.buffer) && next.buffer == [] && next.started == s.started + 1
               else next == s
  {
  }

  /** An insert that succeeds acknowledges its rows; one that fails puts them in front of those recorded since, and of
      more than the buffer holds the newest 5000 are kept. */
  lemma InsertEnds<T(!new)>(s: State<T>, ok: bool, threshold: int)
    requires Inv(s) && s.flushing.Sending?
    ensures var next, back := Apply(s, Insert(ok), threshold), s.flushing.rows + s.buffer;
            && next.h.accepted == s.h.accepted && next.flushing.Settled?
            && (ok ==> next.h.acknowledged == s.h.acknowledged + s.flushing.rows && next.buffer == s.buffer)
            && (!ok ==> next.h.acknowledged == s.h.acknowledged
                        && next.buffer == if |back| <= 10_000 then back else back[|back| - 5_000..])
  {
  }
}
