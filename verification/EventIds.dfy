/** Event ids are hashes of fields joined with NUL characters. These lemmas say when the joined text, and with it
    the id, stands for one content only, and what that means for rows and repeated hooks. SHA-256 is taken
    to be injective. */
module EventIds {
  import opened Basics
  import opened GatewayDb
  import opened CaptureQueue
  import opened CaptureInvariant
  import opened CaptureTheorems

  const NUL := '\0'

  predicate NoNul(s: string) {
    NUL !in s
  }

  /** Text before the first separator is determined by the joined text. */
  lemma {:induction false} HeadIsUnique(a: string, b: string, x: string, y: string)
    requires a + "\0" + x == b + "\0" + y && NoNul(a) && NoNul(b)
    ensures a == b && x == y
  {
    var s := a + "\0" + x;
    assert s[|a|] == NUL && s[|b|] == NUL;
    assert forall k :: 0 <= k < |a| ==> s[k] == a[k] && a[k] in a;
    assert forall k :: 0 <= k < |b| ==> s[k] == b[k] && b[k] in b;
    assert s[..|a|] == a && s[..|b|] == b;
    assert s[|a| + 1..] == x && s[|b| + 1..] == y;
  }

  lemma SeedJoin(contextId: string, turnId: string, user: string, assistant: string)
    ensures CaptureSeed(contextId, turnId, user, assistant) == contextId + "\0" + (turnId + "\0" + (user + "\0" + assistant))
  {
  }

  /** One seed, one content, as long as no part holds a NUL. */
  lemma SeedIsUnique(c: string, t: string, u: string, a: string, c': string, t': string, u': string, a': string)
    requires NoNul(c) && NoNul(t) && NoNul(u) && NoNul(c') && NoNul(t') && NoNul(u')
    requires CaptureSeed(c, t, u, a) == CaptureSeed(c', t', u', a')
    ensures c == c' && t == t' && u == u' && a == a'
  {
    SeedJoin(c, t, u, a);
    SeedJoin(c', t', u', a');
    HeadIsUnique(c, c', t + "\0" + (u + "\0" + a), t' + "\0" + (u' + "\0" + a'));
    HeadIsUnique(t, t', u + "\0" + a, u' + "\0" + a');
    HeadIsUnique(u, u', a, a');
  }

  // ----- Exactly when an id belongs to one content -----

  /** What the hooks accept as turn id, prompt or answer: trimmed and not empty. */
  predicate IsField(s: string) {
    s != "" && !IsSpace(s[0]) && !IsSpace(s[|s| - 1])
  }

  lemma FieldIsTrimmed(s: string)
    ensures IsField(s) <==> s != "" && Trim(s) == s
  {
    if s != "" {
      TrimStartShrinks(s);
      TrimEndShrinks(TrimStart(s));
    }
  }

  lemma {:induction false} TrimStartShrinks(s: string)
    ensures |TrimStart(s)| <= |s|
    ensures TrimStart(s) != "" ==> !IsSpace(TrimStart(s)[0])
    ensures s != "" && IsSpace(s[0]) ==> |TrimStart(s)| < |s|
  {
    if s != "" && IsSpace(s[0]) {
      TrimStartShrinks(s[1..]);
    }
  }

  lemma {:induction false} TrimEndShrinks(s: string)
    ensures |TrimEnd(s)| <= |s| && (TrimEnd(s) != "" ==> !IsSpace(TrimEnd(s)[|TrimEnd(s)| - 1]))
    ensures s != "" && IsSpace(s[|s| - 1]) ==> |TrimEnd(s)| < |s|
  {
    if s != "" && IsSpace(s[|s| - 1]) {
      TrimEndShrinks(s[..|s| - 1]);
    }
  }

  datatype Content = Content(turnId: string, user: string, assistant: string)
  {
    predicate Accepted() {
      IsField(turnId) && IsField(user) && IsField(assistant)
    }

    function Seed(contextId: string): string {
      CaptureSeed(contextId, turnId, user, assistant)
    }

    function Joined(): string {
      turnId + "\0" + (user + "\0" + assistant)
    }
  }

  /** A NUL with no white space beside it: both sides would be fields again if they were not empty. */
  predicate CleanCut(s: string, k: int) {
    0 <= k < |s| && s[k] == NUL && (k > 0 ==> !IsSpace(s[k - 1])) && (k + 1 < |s| ==> !IsSpace(s[k + 1]))
  }

  /** The content can be read differently: a clean cut inside the turn id, inside the prompt, or inside the answer. */
  predicate Ambiguous(c: Content) {
    || (exists k :: 1 <= k < |c.turnId| && CleanCut(c.turnId, k))
    || (|c.user| >= 2 && exists k :: 0 <= k < |c.user| && CleanCut(c.user, k))
    || (exists k :: 0 <= k < |c.assistant| - 1 && CleanCut(c.assistant, k))
  }

  ghost predicate Collides(contextId: string, c: Content, d: Content) {
    c != d && c.Seed(contextId) == d.Seed(contextId)
  }

  lemma SeedIsJoined(contextId: string, c: Content, d: Content)
    ensures c.Seed(contextId) == d.Seed(contextId) <==> c.Joined() == d.Joined()
  {
    SeedJoin(contextId, c.turnId, c.user, c.assistant);
    SeedJoin(contextId, d.turnId, d.user, d.assistant);
    var s, t := c.Seed(contextId), d.Seed(contextId);
    assert s[|contextId| + 1..] == c.Joined() && t[|contextId| + 1..] == d.Joined();
  }

  lemma CutAt(s: string, k: nat)
    requires k < |s| && s[k] == NUL
    ensures s == s[..k] + "\0" + s[k + 1..]
  {
  }

  lemma CutInTurn(contextId: string, c: Content, k: nat) returns (d: Content)
    requires c.Accepted() && 1 <= k < |c.turnId| && CleanCut(c.turnId, k)
    ensures d.Accepted() && Collides(contextId, c, d)
  {
    d := Content(c.turnId[..k], c.turnId[k + 1..] + "\0" + c.user, c.assistant);
    CutAt(c.turnId, k);
    assert c.Joined() == d.Joined();
    SeedIsJoined(contextId, c, d);
    assert |d.turnId| < |c.turnId|;
  }

  lemma CutInUser(contextId: string, c: Content, k: nat) returns (d: Content)
    requires c.Accepted() && |c.user| >= 2 && k < |c.user| && CleanCut(c.user, k)
    ensures d.Accepted() && Collides(contextId, c, d)
  {
    CutAt(c.user, k);
    if k > 0 {
      d := Content(c.turnId, c.user[..k], c.user[k + 1..] + "\0" + c.assistant);
    } else {
      d := Content(c.turnId + "\0" + c.user[..k], c.user[k + 1..], c.assistant);
    }
    assert c.Joined() == d.Joined();
    SeedIsJoined(contextId, c, d);
    assert |d.user| < |c.user|;
  }

  lemma CutInAssistant(contextId: string, c: Content, k: nat) returns (d: Content)
    requires c.Accepted() && k < |c.assistant| - 1 && CleanCut(c.assistant, k)
    ensures d.Accepted() && Collides(contextId, c, d)
  {
    d := Content(c.turnId, c.user + "\0" + c.assistant[..k], c.assistant[k + 1..]);
    CutAt(c.assistant, k);
    assert c.Joined() == d.Joined();
    SeedIsJoined(contextId, c, d);
    assert |d.assistant| < |c.assistant|;
  }

  lemma AmbiguousCollides(contextId: string, c: Content) returns (d: Content)
    requires c.Accepted() && Ambiguous(c)
    ensures d.Accepted() && Collides(contextId, c, d)
  {
    if k :| 1 <= k < |c.turnId| && CleanCut(c.turnId, k) {
      d := CutInTurn(contextId, c, k);
    } else if |c.user| >= 2 && exists k :: 0 <= k < |c.user| && CleanCut(c.user, k) {
      var k :| 0 <= k < |c.user| && CleanCut(c.user, k);
      d := CutInUser(contextId, c, k);
    } else {
      var k :| 0 <= k < |c.assistant| - 1 && CleanCut(c.assistant, k);
      d := CutInAssistant(contextId, c, k);
    }
  }

  /** Where the parts of a content lie in the joined text. */
  lemma JoinedAt(c: Content)
    ensures var j, p, q := c.Joined(), |c.turnId|, |c.turnId| + 1 + |c.user|;
            && |j| == q + 1 + |c.assistant| && j[p] == NUL && j[q] == NUL
            && (forall i :: 0 <= i < p ==> j[i] == c.turnId[i])
            && (forall i :: p < i < q ==> j[i] == c.user[i - p - 1])
            && (forall i :: q < i < |j| ==> j[i] == c.assistant[i - q - 1])
  {
  }

  /** Another reading of the same text starts its answer later, ends its turn id earlier, or lies in between: each
      way some part of the content has a clean cut. */
  lemma CollisionIsAmbiguity(contextId: string, c: Content, d: Content)
    requires c.Accepted() && d.Accepted() && Collides(contextId, c, d)
    ensures Ambiguous(c)
  {
    SeedIsJoined(contextId, c, d);
    JoinedAt(c);
    JoinedAt(d);
    var p, q := |c.turnId|, |c.turnId| + 1 + |c.user|;
    var p', q' := |d.turnId|, |d.turnId| + 1 + |d.user|;
    if q' > q {
      LaterAnswer(c, d);
    } else if p' < p {
      EarlierTurn(c, d);
    } else {
      CutsBetween(c, d);
    }
  }

  lemma LaterAnswer(c: Content, d: Content)
    requires c.Accepted() && d.Accepted() && c.Joined() == d.Joined()
    requires |d.turnId| + |d.user| > |c.turnId| + |c.user|
    ensures Ambiguous(c)
  {
    JoinedAt(c);
    JoinedAt(d);
    var j, q, q' := c.Joined(), |c.turnId| + 1 + |c.user|, |d.turnId| + 1 + |d.user|;
    var k := q' - q - 1;
    assert j[q'] == c.assistant[k] && j[q' + 1] == d.assistant[0] == c.assistant[k + 1];
    assert j[q' - 1] == d.user[|d.user| - 1];
    assert k > 0 ==> c.assistant[k - 1] == j[q' - 1];
    assert CleanCut(c.assistant, k);
  }

  lemma EarlierTurn(c: Content, d: Content)
    requires c.Accepted() && d.Accepted() && c.Joined() == d.Joined()
    requires |d.turnId| < |c.turnId|
    ensures Ambiguous(c)
  {
    JoinedAt(c);
    JoinedAt(d);
    var j, k := c.Joined(), |d.turnId|;
    assert j[k] == c.turnId[k] && j[k - 1] == c.turnId[k - 1] == d.turnId[k - 1] && j[k + 1] == d.user[0];
    assert CleanCut(c.turnId, k);
  }

  lemma CutsBetween(c: Content, d: Content)
    requires c.Accepted() && d.Accepted() && c.Joined() == d.Joined() && c != d
    requires |d.turnId| >= |c.turnId| && |d.turnId| + |d.user| <= |c.turnId| + |c.user|
    ensures Ambiguous(c)
  {
    JoinedAt(c);
    JoinedAt(d);
    var j, p, q := c.Joined(), |c.turnId|, |c.turnId| + 1 + |c.user|;
    var p', q' := |d.turnId|, |d.turnId| + 1 + |d.user|;
    if p' > p {
      var k := p' - p - 1;
      assert j[p'] == c.user[k] && j[p' + 1] == d.user[0] && j[p' - 1] == d.turnId[p' - 1];
      assert CleanCut(c.user, k);
    } else if q' < q {
      var k := q' - p - 1;
      assert j[q'] == c.user[k] && j[q' + 1] == d.assistant[0] && j[q' - 1] == d.user[|d.user| - 1];
      assert CleanCut(c.user, k);
    } else {
      SamePartsSameContent(c, d);
    }
  }

  lemma PartsOfJoined(c: Content)
    ensures var j, p, q := c.Joined(), |c.turnId|, |c.turnId| + 1 + |c.user|;
            && q < |j| && c.turnId == j[..p] && c.user == j[p + 1..q] && c.assistant == j[q + 1..]
  {
  }

  lemma SamePartsSameContent(c: Content, d: Content)
    requires c.Joined() == d.Joined() && |c.turnId| == |d.turnId| && |c.user| == |d.user|
    ensures c == d
  {
    PartsOfJoined(c);
    PartsOfJoined(d);
  }

  /** Within one context the id of an accepted content belongs to no other accepted content if and only if no part
      has a NUL at which it could be cut cleanly. */
  lemma SeedUniqueIff(contextId: string, c: Content)
    requires c.Accepted()
    ensures (forall d: Content :: d.Accepted() ==> !Collides(contextId, c, d)) <==> !Ambiguous(c)
  {
    if Ambiguous(c) {
      var d := AmbiguousCollides(contextId, c);
    } else {
      forall d: Content | d.Accepted()
        ensures !Collides(contextId, c, d)
      {
        if Collides(contextId, c, d) {
          CollisionIsAmbiguity(contextId, c, d);
        }
      }
    }
  }

  function Nuls(s: string): nat {
    if s == "" then 0 else (if s[0] == NUL then 1 else 0) + Nuls(s[1..])
  }

  lemma {:induction false} NulsOfConcat(a: string, b: string)
    ensures Nuls(a + b) == Nuls(a) + Nuls(b)
  {
    if a == "" {
      assert a + b == b;
    } else {
      assert (a + b)[1..] == a[1..] + b;
      NulsOfConcat(a[1..], b);
    }
  }

  lemma {:induction false} NoNulCount(s: string)
    ensures NoNul(s) <==> Nuls(s) == 0
  {
    if s != "" {
      NoNulCount(s[1..]);
      assert s == [s[0]] + s[1..];
    }
  }

  lemma NulsOfJoin(t: string, u: string, a: string)
    ensures Nuls(t + "\0" + (u + "\0" + a)) == Nuls(t) + Nuls(u) + Nuls(a) + 2
  {
    NulsOfConcat(t + "\0", u + "\0" + a);
    NulsOfConcat(t, "\0");
    NulsOfConcat(u + "\0", a);
    NulsOfConcat(u, "\0");
    assert Nuls("\0") == 1;
  }

  // ----- Rows carry the content of their id -----

  ghost predicate NamedByContent(db: Db) {
    forall id :: id in db.captures ==>
      var row := db.captures[id]; id == CaptureSeed(row.contextId, row.turnId, row.user, row.assistant) && row.user != ""
  }

  lemma EnqueueKeepsNames(db: Db, contextId: string, turnId: string, assistant: string, supplied: Option<string>, now: int)
    requires NamedByContent(db)
    ensures NamedByContent(EnqueueCapture(db, contextId, turnId, assistant, supplied, now).0)
  {
  }

  predicate SameContent(row: Capture, row': Capture) {
    row'.contextId == row.contextId && row'.turnId == row.turnId && row'.user == row.user && row'.assistant == row.assistant
  }

  /** No new rows, and the old ones with their content. */
  ghost predicate SameContents(db: Db, db': Db) {
    forall id :: id in db'.captures ==> id in db.captures && SameContent(db.captures[id], db'.captures[id])
  }

  lemma SameContentsKeepNames(db: Db, db': Db)
    requires NamedByContent(db) && SameContents(db, db')
    ensures NamedByContent(db')
  {
  }

  lemma OneRowKeepsContents(db: Db, id: string, row: Capture)
    requires id in db.captures && SameContent(db.captures[id], row)
    ensures SameContents(db, db.(captures := db.captures[id := row]))
  {
  }

  lemma MarkKeepsContents(db: Db, id: string, m: Mark, now: int)
    ensures SameContents(db, MarkDb(db, id, m, now))
  {
    if id in db.captures {
      var row := db.captures[id];
      OneRowKeepsContents(db, id, match m
        case Succeed(sink) => row.SetStatus(sink, Done).(updatedAt := now)
        case GiveUp(sink, error) => row.SetStatus(sink, Dead).(lastError := Some(Prefix(error, 1000)), updatedAt := now)
        case Retry(attempts, error) => row.(attempts := attempts, nextAttemptAt := now + RetryDelay(attempts),
                                            lastError := Some(Prefix(error, 1000)), updatedAt := now));
    }
  }

  lemma StartKeepsContents(w: World, now: int)
    requires w.phase.Capturing? && w.phase.todo != []
    ensures SameContents(w.db, ApplyCaptureStart(w, now).db)
  {
    var item, error := w.phase.todo[0], "session context expired or missing";
    if item.contextId !in w.db.contexts {
      var first := if item.core.Pending? then MarkDb(w.db, item.eventId, GiveUp(Core, error), now) else w.db;
      MarkKeepsContents(w.db, item.eventId, GiveUp(Core, error), now);
      MarkKeepsContents(first, item.eventId, GiveUp(Skill, error), now);
      assert ApplyCaptureStart(w, now).db == if item.skill.Pending? then MarkDb(first, item.eventId, GiveUp(Skill, error), now) else first;
    }
  }

  lemma PruneKeepsContents(db: Db, table: Table, now: int)
    ensures SameContents(db, ApplyPrune(db, table, now))
  {
  }

  lemma OtherStepsKeepCaptures(cfg: Config, w: World, a: Action)
    requires Enabled(cfg, w, a) && !a.HookStop? && !a.CaptureStart? && !a.CaptureMark? && !a.PruneTable?
    ensures Apply(cfg, w, a).db.captures == w.db.captures
  {
    if IsEnvironment(a) {
      OtherHooksKeepCaptures(cfg, w, a);
    } else {
      CapturesLeftAlone(cfg, w, a);
    }
  }

  lemma OtherHooksKeepCaptures(cfg: Config, w: World, a: Action)
    requires Enabled(cfg, w, a) && (a.OpenContext? || a.HookPrompt? || a.HookToolUse? || a.HookSessionEnd?)
    ensures Apply(cfg, w, a).db.captures == w.db.captures
  {
  }

  lemma StopNames(cfg: Config, w: World, a: Action)
    requires a.HookStop? && NamedByContent(w.db)
    ensures NamedByContent(ApplyStop(cfg, w, a).db)
  {
    EnqueueKeepsNames(w.db, a.contextId, a.turnId, a.assistant, a.supplied, a.now);
  }

  lemma StepKeepsNames(cfg: Config, w: World, a: Action)
    requires Enabled(cfg, w, a) && NamedByContent(w.db)
    ensures NamedByContent(Apply(cfg, w, a).db)
  {
    if a.HookStop? {
      StopNames(cfg, w, a);
    } else if a.CaptureStart? {
      StartKeepsContents(w, a.now);
      SameContentsKeepNames(w.db, ApplyCaptureStart(w, a.now).db);
    } else if a.CaptureMark? {
      MarkKeepsContents(w.db, a.id, w.phase.jobs[a.id].todo[0], a.now);
      SameContentsKeepNames(w.db, ApplyCaptureMark(w, a.id, a.now).db);
    } else if a.PruneTable? {
      PruneKeepsContents(w.db, a.table, a.now);
      SameContentsKeepNames(w.db, ApplyPrune(w.db, a.table, a.now));
    } else {
      OtherStepsKeepCaptures(cfg, w, a);
    }
  }

  lemma {:induction false} RunKeepsNames(cfg: Config, w: World, run: seq<Action>)
    requires IsRun(cfg, w, run) && NamedByContent(w.db)
    ensures NamedByContent(Exec(cfg, w, run).db)
    decreases |run|
  {
    if run != [] {
      StepKeepsNames(cfg, w, run[0]);
      RunKeepsNames(cfg, Apply(cfg, w, run[0]), run[1..]);
    }
  }

  /** In any state the gateway can reach, a stop hook that is answered "duplicate" and whose parts are free of NULs
      has a row that holds exactly its content: nothing is dropped that was not recorded. */
  lemma DuplicateIsRecorded(cfg: Config, run: seq<Action>, contextId: string, turnId: string, assistant: string, supplied: Option<string>, now: int)
    requires IsRun(cfg, INIT, run)
    requires var db := Exec(cfg, INIT, run).db;
             && EnqueueCapture(db, contextId, turnId, assistant, supplied, now).1 == Enqueued(CaptureSeed(contextId, turnId, TurnPrompt(db, contextId, turnId, supplied), assistant), true)
             && NoNul(contextId) && NoNul(turnId) && NoNul(TurnPrompt(db, contextId, turnId, supplied)) && NoNul(assistant)
    ensures var db := Exec(cfg, INIT, run).db;
            var user := TurnPrompt(db, contextId, turnId, supplied);
            var id := CaptureSeed(contextId, turnId, user, assistant);
            && id in db.captures
            && var row := db.captures[id];
               row.contextId == contextId && row.turnId == turnId && row.user == user && row.assistant == assistant
  {
    RunKeepsNames(cfg, INIT, run);
    var db := Exec(cfg, INIT, run).db;
    SeedNamesOneRow(db, contextId, turnId, TurnPrompt(db, contextId, turnId, supplied), assistant);
  }

  lemma SeedNamesOneRow(db: Db, contextId: string, turnId: string, user: string, assistant: string)
    requires NamedByContent(db) && CaptureSeed(contextId, turnId, user, assistant) in db.captures
    requires NoNul(contextId) && NoNul(turnId) && NoNul(user) && NoNul(assistant)
    ensures var row := db.captures[CaptureSeed(contextId, turnId, user, assistant)];
            row.contextId == contextId && row.turnId == turnId && row.user == user && row.assistant == assistant
  {
    var row := db.captures[CaptureSeed(contextId, turnId, user, assistant)];
    SeedOfNulFree(contextId, turnId, user, assistant, row.contextId, row.turnId, row.user, row.assistant);
  }

  // ----- What Core applied is what the row holds -----

  ghost predicate NamedMessage(m: Message) {
    exists contextId, turnId :: m.key == CaptureSeed(contextId, turnId, m.user, m.assistant)
  }

  ghost predicate EnqueuedNamed(h: History) {
    forall m :: m in h.enqueued ==> NamedMessage(m)
  }

  lemma StopNamesMessage(cfg: Config, w: World, a: Action)
    requires a.HookStop? && EnqueuedNamed(w.history)
    ensures EnqueuedNamed(ApplyStop(cfg, w, a).history)
  {
    var user := TurnPrompt(w.db, a.contextId, a.turnId, a.supplied);
    assert NamedMessage(Message(CaptureSeed(a.contextId, a.turnId, user, a.assistant), user, a.assistant));
  }

  lemma OnlyStopEnqueues(cfg: Config, w: World, a: Action)
    requires Enabled(cfg, w, a) && !a.HookStop?
    ensures Apply(cfg, w, a).history.enqueued == w.history.enqueued
  {
  }

  lemma {:induction false} RunNamesMessages(cfg: Config, w: World, run: seq<Action>)
    requires IsRun(cfg, w, run) && EnqueuedNamed(w.history)
    ensures EnqueuedNamed(Exec(cfg, w, run).history)
    decreases |run|
  {
    if run != [] {
      if run[0].HookStop? {
        StopNamesMessage(cfg, w, run[0]);
      } else {
        OnlyStopEnqueues(cfg, w, run[0]);
      }
      RunNamesMessages(cfg, Apply(cfg, w, run[0]), run[1..]);
    }
  }

  lemma NulsOfSeed(c: string, t: string, u: string, a: string)
    ensures Nuls(CaptureSeed(c, t, u, a)) == Nuls(c) + Nuls(t) + Nuls(u) + Nuls(a) + 3
  {
    SeedJoin(c, t, u, a);
    NulsOfJoin(t, u, a);
    NulsOfConcat(c + "\0", t + "\0" + (u + "\0" + a));
    NulsOfConcat(c, "\0");
    assert Nuls("\0") == 1;
  }

  /** A NUL-free content shares its seed with no other content of any context. */
  lemma SeedOfNulFree(c: string, t: string, u: string, a: string, c': string, t': string, u': string, a': string)
    requires NoNul(c) && NoNul(t) && NoNul(u) && NoNul(a) && CaptureSeed(c, t, u, a) == CaptureSeed(c', t', u', a')
    ensures c == c' && t == t' && u == u' && a == a'
  {
    NulsOfSeed(c, t, u, a);
    NulsOfSeed(c', t', u', a');
    NoNulCount(c);
    NoNulCount(t);
    NoNulCount(u);
    NoNulCount(a);
    NoNulCount(c');
    NoNulCount(t');
    NoNulCount(u');
    SeedIsUnique(c, t, u, a, c', t', u', a');
  }

  /** In every run, whatever Core has applied under the id of a NUL-free row is exactly that row's conversation. */
  lemma AppliedIsTheRow(cfg: Config, run: seq<Action>, id: string, i: nat)
    requires ValidConfig(cfg) && IsRun(cfg, INIT, run)
    requires var w := Exec(cfg, INIT, run);
             && id in w.db.captures && i < |w.remote.applied| && w.remote.applied[i].key == id
             && var row := w.db.captures[id]; NoNul(row.contextId) && NoNul(row.turnId) && NoNul(row.user) && NoNul(row.assistant)
    ensures var w := Exec(cfg, INIT, run);
            w.remote.applied[i] == Message(id, w.db.captures[id].user, w.db.captures[id].assistant)
  {
    CoreAppliesAtMostOnce(cfg, run);
    RunNamesMessages(cfg, INIT, run);
    RunKeepsNames(cfg, INIT, run);
    var w := Exec(cfg, INIT, run);
    NamedAlike(w.remote.applied[i], w.db.captures[id]);
  }

  lemma NamedAlike(m: Message, row: Capture)
    requires NamedMessage(m) && m.key == CaptureSeed(row.contextId, row.turnId, row.user, row.assistant)
    requires NoNul(row.contextId) && NoNul(row.turnId) && NoNul(row.user) && NoNul(row.assistant)
    ensures m.user == row.user && m.assistant == row.assistant
  {
    var contextId, turnId :| m.key == CaptureSeed(contextId, turnId, m.user, m.assistant);
    SeedOfNulFree(row.contextId, row.turnId, row.user, row.assistant, contextId, turnId, m.user, m.assistant);
  }

  /** A stop hook sent again changes nothing and is called a duplicate if it brings its prompt along; if it
      relied on the stored prompt, that is gone and the repetition is refused. */
  lemma RepeatedStop(db: Db, contextId: string, turnId: string, assistant: string, supplied: Option<string>, t1: int, t2: int)
    requires EnqueueCapture(db, contextId, turnId, assistant, supplied, t1).1.Enqueued?
    ensures var once := EnqueueCapture(db, contextId, turnId, assistant, supplied, t1);
            var twice := EnqueueCapture(once.0, contextId, turnId, assistant, supplied, t2);
            && twice.0 == once.0
            && twice.1 == if supplied.Some? && Trim(supplied.value) != "" then Enqueued(once.1.eventId, true) else Refused
  {
  }

  predicate KeepsCaptures(a: Action) {
    !(a.PruneTable? && a.table.CaptureRows?)
  }

  lemma StopKeepsRow(cfg: Config, w: World, a: Action, id: string)
    requires a.HookStop? && id in w.db.captures
    ensures id in ApplyStop(cfg, w, a).db.captures
  {
  }

  lemma PruneKeepsRow(db: Db, table: Table, now: int, id: string)
    requires !table.CaptureRows? && id in db.captures
    ensures id in ApplyPrune(db, table, now).captures
  {
  }

  lemma MarkKeepsRow(db: Db, marked: string, m: Mark, now: int, id: string)
    requires id in db.captures
    ensures id in MarkDb(db, marked, m, now).captures
  {
  }

  lemma StartKeepsRow(w: World, now: int, id: string)
    requires w.phase.Capturing? && w.phase.todo != [] && id in w.db.captures
    ensures id in ApplyCaptureStart(w, now).db.captures
  {
    var item := w.phase.todo[0];
    if item.contextId !in w.db.contexts {
      MarkKeepsRow(w.db, item.eventId, GiveUp(Core, "session context expired or missing"), now, id);
    }
  }

  lemma StepKeepsRows(cfg: Config, w: World, a: Action, id: string)
    requires Enabled(cfg, w, a) && KeepsCaptures(a) && id in w.db.captures
    ensures id in Apply(cfg, w, a).db.captures
  {
    if a.HookStop? {
      StopKeepsRow(cfg, w, a, id);
    } else if a.CaptureStart? {
      StartKeepsRow(w, a.now, id);
    } else if a.CaptureMark? {
      MarkKeepsRow(w.db, a.id, w.phase.jobs[a.id].todo[0], a.now, id);
    } else if a.PruneTable? {
      PruneKeepsRow(w.db, a.table, a.now, id);
    } else {
      OtherStepsKeepCaptures(cfg, w, a);
    }
  }

  lemma {:induction false} RunKeepsRows(cfg: Config, w: World, run: seq<Action>, id: string)
    requires IsRun(cfg, w, run) && (forall i :: 0 <= i < |run| ==> KeepsCaptures(run[i])) && id in w.db.captures
    ensures id in Exec(cfg, w, run).db.captures
    decreases |run|
  {
    if run != [] {
      StepKeepsRows(cfg, w, run[0], id);
      RunKeepsRows(cfg, Apply(cfg, w, run[0]), run[1..], id);
    }
  }

  predicate SameTurn(a: Action, b: Action) {
    && a.HookStop? && b.HookStop?
    && a.contextId == b.contextId && a.turnId == b.turnId && a.assistant == b.assistant && a.supplied == b.supplied
  }

  /** A stop hook that brings its prompt along is stored once: sent again at any later time, whatever happened in
      between, it changes no capture and is no arrival, as long as finished captures have not been pruned. */
  lemma RepeatedAfterRun(cfg: Config, w: World, stop: Action, run: seq<Action>, again: Action)
    requires SameTurn(stop, again) && ContextUsable(w.db, stop.contextId, stop.principalId, stop.now)
    requires stop.supplied.Some? && Trim(stop.supplied.value) != ""
    requires IsRun(cfg, Apply(cfg, w, stop), run) && forall i :: 0 <= i < |run| ==> KeepsCaptures(run[i])
    ensures var end := Exec(cfg, Apply(cfg, w, stop), run);
            var next := Apply(cfg, end, again);
            && next.db.captures == end.db.captures
            && next.history.arrivals == end.history.arrivals && next.history.enqueued == end.history.enqueued
  {
    StopStores(cfg, w, stop);
    var id := CaptureSeed(stop.contextId, stop.turnId, Trim(stop.supplied.value), stop.assistant);
    RunKeepsRows(cfg, Apply(cfg, w, stop), run, id);
    StoredStopIsQuiet(cfg, Exec(cfg, Apply(cfg, w, stop), run), again);
  }

  lemma StopStores(cfg: Config, w: World, stop: Action)
    requires stop.HookStop? && ContextUsable(w.db, stop.contextId, stop.principalId, stop.now)
    requires stop.supplied.Some? && Trim(stop.supplied.value) != ""
    ensures CaptureSeed(stop.contextId, stop.turnId, Trim(stop.supplied.value), stop.assistant) in ApplyStop(cfg, w, stop).db.captures
  {
  }

  lemma StoredStopIsQuiet(cfg: Config, w: World, stop: Action)
    requires stop.HookStop? && stop.supplied.Some? && Trim(stop.supplied.value) != ""
    requires CaptureSeed(stop.contextId, stop.turnId, Trim(stop.supplied.value), stop.assistant) in w.db.captures
    ensures var next := ApplyStop(cfg, w, stop);
            && next.db.captures == w.db.captures
            && next.history.arrivals == w.history.arrivals && next.history.enqueued == w.history.enqueued
  {
  }

  // ----- Back-off -----

  lemma {:induction false} Pow2Grows(m: nat, n: nat)
    requires m <= n
    ensures 1 <= Pow2(m) <= Pow2(n)
  {
    if m < n {
      Pow2Grows(m, n - 1);
    } else if m > 0 {
      Pow2Grows(m - 1, m - 1);
    }
  }

  /** The delay doubles with each attempt up to the eighth and then stays at 256 seconds; the cap of five
      minutes in the code is never reached. */
  lemma RetryDelayBounds(attempts: nat)
    ensures RetryDelay(attempts) == (if attempts <= 8 then 1000 * Pow2(attempts) else 256_000)
    ensures 1000 <= RetryDelay(attempts) <= 256_000 && RetryDelay(attempts) <= RetryDelay(attempts + 1)
  {
    Pow2Grows(Min(attempts, 8), 8);
    Pow2Grows(Min(attempts, 8), Min(attempts + 1, 8));
    Pow2Grows(Min(attempts + 1, 8), 8);
    assert Pow2(8) == 256;
  }


  // ----- Tool uses and extractions -----

  /** The id of a tool use stands for it alone, and that of an extraction for one session of one context, when the parts
      in front are free of NULs. */
  lemma OtherSeedsAreUnique(contextId: string, turnId: string, toolUseId: string, contextId': string, turnId': string, toolUseId': string)
    requires NoNul(contextId) && NoNul(turnId) && NoNul(contextId') && NoNul(turnId')
    ensures ToolSeed(contextId, turnId, toolUseId) == ToolSeed(contextId', turnId', toolUseId') <==>
              contextId == contextId' && turnId == turnId' && toolUseId == toolUseId'
    ensures ExtractionSeed(contextId, turnId) == ExtractionSeed(contextId', turnId') <==> contextId == contextId' && turnId == turnId'
  {
    if ToolSeed(contextId, turnId, toolUseId) == ToolSeed(contextId', turnId', toolUseId') {
      AppendAssociates(contextId + "\0", turnId, "\0" + toolUseId);
      AppendAssociates(contextId' + "\0", turnId', "\0" + toolUseId');
      assert contextId + "\0" + (turnId + "\0" + toolUseId) == ToolSeed(contextId, turnId, toolUseId);
      assert contextId' + "\0" + (turnId' + "\0" + toolUseId') == ToolSeed(contextId', turnId', toolUseId');
      HeadIsUnique(contextId, contextId', turnId + "\0" + toolUseId, turnId' + "\0" + toolUseId');
      HeadIsUnique(turnId, turnId', toolUseId, toolUseId');
    }
    if ExtractionSeed(contextId, turnId) == ExtractionSeed(contextId', turnId') {
      assert "\0skill-extract" == "\0" + "skill-extract";
      assert contextId + "\0" + (turnId + "\0" + "skill-extract") == ExtractionSeed(contextId, turnId);
      assert contextId' + "\0" + (turnId' + "\0" + "skill-extract") == ExtractionSeed(contextId', turnId');
      HeadIsUnique(contextId, contextId', turnId + "\0" + "skill-extract", turnId' + "\0" + "skill-extract");
      HeadIsUnique(turnId, turnId', "skill-extract", "skill-extract");
    }
  }
}
