/** Binding a workspace to an agent as a protocol: requests are issued, validated against the directory
    across an await, completed or withdrawn, by several principals at once. */
module WorkspaceBinding {
  import opened Basics
  import opened GatewayDb

  /** An `openBoundWorkspace` that waits for the directory. */
  datatype Opening = Opening(principalId: string, requestId: string, teamId: string, agentId: string)

  /** `usedIds` and `validated` only record what happened: the random ids drawn, and the agents the
      directory has confirmed for a principal. */
  datatype World = World(db: Db, clock: int, openings: map<nat, Opening>, usedIds: set<string>, validated: set<(string, string, string)>)

  datatype Action =
    | Advance(now: int)
    | Issue(principalId: string, workspaceKey: string, workspaceLabel: string, place: Place, ttl: int, id: string)
    | BeginOpen(op: nat, opening: Opening)
    | DirectoryRefuses(op: nat)
    | FinishOpen(op: nat, identity: Identity, ttl: int, contextId: string)
    | OpenValidated(principalId: string, identity: Identity, place: Place, ttl: int, contextId: string)
    | Relabel(principalId: string, workspaceKey: string, workspaceLabel: string)
    | Unbind(principalId: string, workspaceKey: string)
    | PruneRows

  ghost predicate LiveContextExists(db: Db, principalId: string, identity: Identity, place: Place, now: int) {
    exists id :: id in db.contexts && LiveContextFor(db.contexts[id], principalId, identity, place, now)
  }

  ghost predicate LiveRequestExists(db: Db, principalId: string, workspaceKey: string, place: Place, now: int) {
    exists id :: id in db.requests && LiveRequestFor(db.requests[id], principalId, workspaceKey, place, now)
  }

  /** `openContext`: nothing to insert when a live context exists. */
  ghost function OpenContextRow(db: Db, id: string, principalId: string, identity: Identity, place: Place, now: int, ttl: int): Db {
    if LiveContextExists(db, principalId, identity, place, now) then db else InsertContext(db, id, principalId, identity, place, now, ttl)
  }

  ghost function IssueRow(db: Db, id: string, principalId: string, workspaceKey: string, workspaceLabel: string, place: Place, now: int, ttl: int): Db {
    if LiveRequestExists(db, principalId, workspaceKey, place, now) then db
    else InsertRequest(db, id, principalId, workspaceKey, workspaceLabel, place, now, ttl)
  }

  ghost predicate Enabled(w: World, a: Action) {
    match a
    case Advance(now) => now >= w.clock
    case Issue(_, _, _, _, _, id) => id !in w.usedIds
    case BeginOpen(op, _) => op !in w.openings
    case DirectoryRefuses(op) => op in w.openings
    case FinishOpen(op, identity, _, contextId) =>
      && op in w.openings && contextId !in w.usedIds
      && identity.teamId == w.openings[op].teamId && identity.agentId == w.openings[op].agentId
    case OpenValidated(_, _, _, _, contextId) => contextId !in w.usedIds
    case _ => true
  }

  /** After the directory's answer: complete the request, or throw when it is no longer usable. */
  ghost function FinishOpenRows(db: Db, o: Opening, identity: Identity, ttl: int, contextId: string, now: int): Db {
    if !RequestUsable(db, o.requestId, o.principalId, now) then db else
      var place := db.requests[o.requestId].place;
      OpenContextRow(CompleteBinding(db, o.requestId, o.principalId, identity, now), contextId, o.principalId, identity, place, now, ttl)
  }

  ghost function Apply(w: World, a: Action): World
    requires Enabled(w, a)
  {
    match a
    case Advance(now) => w.(clock := now)
    case Issue(principalId, key, title, place, ttl, id) =>
      w.(db := IssueRow(w.db, id, principalId, key, title, place, w.clock, ttl), usedIds := w.usedIds + {id})
    case BeginOpen(op, opening) => w.(openings := w.openings[op := opening])
    case DirectoryRefuses(op) => w.(openings := w.openings - {op})
    case FinishOpen(op, identity, ttl, contextId) =>
      var o := w.openings[op];
      w.(db := FinishOpenRows(w.db, o, identity, ttl, contextId, w.clock), openings := w.openings - {op},
         usedIds := w.usedIds + {contextId}, validated := w.validated + {(o.principalId, identity.teamId, identity.agentId)})
    case OpenValidated(principalId, identity, place, ttl, contextId) =>
      w.(db := OpenContextRow(w.db, contextId, principalId, identity, place, w.clock, ttl), usedIds := w.usedIds + {contextId},
         validated := w.validated + {(principalId, identity.teamId, identity.agentId)})
    case Relabel(principalId, key, title) => w.(db := RelabelBinding(w.db, principalId, key, title, w.clock))
    case Unbind(principalId, key) => w.(db := RemoveBinding(w.db, principalId, key))
    case PruneRows => w.(db := Prune(w.db, w.clock))
  }

  ghost predicate IsRun(w: World, run: seq<Action>)
    decreases |run|
  {
    run == [] || (Enabled(w, run[0]) && IsRun(Apply(w, run[0]), run[1..]))
  }

  ghost function Exec(w: World, run: seq<Action>): World
    requires IsRun(w, run)
    decreases |run|
  {
    if run == [] then w else Exec(Apply(w, run[0]), run[1..])
  }

  // ----- No resurrection -----

  /** No binding and no request is left from which one could come. */
  ghost predicate Gone(db: Db, principalId: string, workspaceKey: string) {
    && (principalId, workspaceKey) !in db.bindings
    && forall id :: id in db.requests ==> !(db.requests[id].principalId == principalId && db.requests[id].workspaceKey == workspaceKey)
  }

  predicate IssuesFor(a: Action, principalId: string, workspaceKey: string) {
    a.Issue? && a.principalId == principalId && a.workspaceKey == workspaceKey
  }

  lemma UnbindClears(w: World, principalId: string, workspaceKey: string)
    ensures Gone(Apply(w, Unbind(principalId, workspaceKey)).db, principalId, workspaceKey)
  {
  }

  lemma FinishKeepsGone(db: Db, o: Opening, identity: Identity, ttl: int, contextId: string, now: int, principalId: string, workspaceKey: string)
    requires Gone(db, principalId, workspaceKey)
    ensures Gone(FinishOpenRows(db, o, identity, ttl, contextId, now), principalId, workspaceKey)
  {
  }

  lemma PruneKeepsGone(db: Db, now: int, principalId: string, workspaceKey: string)
    requires Gone(db, principalId, workspaceKey)
    ensures Gone(Prune(db, now), principalId, workspaceKey)
  {
  }

  lemma StepKeepsGone(w: World, a: Action, principalId: string, workspaceKey: string)
    requires Enabled(w, a) && Gone(w.db, principalId, workspaceKey) && !IssuesFor(a, principalId, workspaceKey)
    ensures Gone(Apply(w, a).db, principalId, workspaceKey)
  {
    match a
    case FinishOpen(op, identity, ttl, contextId) =>
      FinishKeepsGone(w.db, w.openings[op], identity, ttl, contextId, w.clock, principalId, workspaceKey);
    case PruneRows => PruneKeepsGone(w.db, w.clock, principalId, workspaceKey);
    case _ =>
  }

  lemma {:induction false} RunKeepsGone(w: World, run: seq<Action>, principalId: string, workspaceKey: string)
    requires IsRun(w, run) && Gone(w.db, principalId, workspaceKey)
    requires forall i :: 0 <= i < |run| ==> !IssuesFor(run[i], principalId, workspaceKey)
    ensures Gone(Exec(w, run).db, principalId, workspaceKey)
    decreases |run|
  {
    if run != [] {
      assert !IssuesFor(run[0], principalId, workspaceKey);
      StepKeepsGone(w, run[0], principalId, workspaceKey);
      RunKeepsGone(Apply(w, run[0]), run[1..], principalId, workspaceKey);
    }
  }

  /** After an unbind nothing brings the binding back until a new request is issued: no old request, and no
      opening whose validation was under way. */
  lemma NoResurrection(w: World, run: seq<Action>, principalId: string, workspaceKey: string)
    requires IsRun(Apply(w, Unbind(principalId, workspaceKey)), run)
    requires forall i :: 0 <= i < |run| ==> !IssuesFor(run[i], principalId, workspaceKey)
    ensures (principalId, workspaceKey) !in Exec(Apply(w, Unbind(principalId, workspaceKey)), run).db.bindings
  {
    UnbindClears(w, principalId, workspaceKey);
    RunKeepsGone(Apply(w, Unbind(principalId, workspaceKey)), run, principalId, workspaceKey);
  }

  // ----- Isolation -----

  /** The principal on whose behalf a step runs, if any. */
  function Actor(w: World, a: Action): Option<string> {
    match a
    case Issue(principalId, _, _, _, _, _) => Some(principalId)
    case FinishOpen(op, _, _, _) => if op in w.openings then Some(w.openings[op].principalId) else None
    case OpenValidated(principalId, _, _, _, _) => Some(principalId)
    case Relabel(principalId, _, _) => Some(principalId)
    case Unbind(principalId, _) => Some(principalId)
    case _ => None
  }

  ghost predicate SameRowsOf(db: Db, db': Db, principalId: string) {
    && (forall key :: (principalId, key) in db.bindings <==> (principalId, key) in db'.bindings)
    && (forall key :: (principalId, key) in db.bindings ==> db.bindings[(principalId, key)] == db'.bindings[(principalId, key)])
    && (forall id :: id in db.requests && db.requests[id].principalId == principalId ==> id in db'.requests && db'.requests[id] == db.requests[id])
    && (forall id :: id in db'.requests && db'.requests[id].principalId == principalId ==> id in db.requests)
    && (forall id :: id in db.contexts && db.contexts[id].principalId == principalId ==> id in db'.contexts && db'.contexts[id] == db.contexts[id])
    && (forall id :: id in db'.contexts && db'.contexts[id].principalId == principalId ==> id in db.contexts)
  }

  /** No live row has an id that could be drawn again. */
  ghost predicate IdsUsed(w: World) {
    w.db.contexts.Keys + w.db.requests.Keys <= w.usedIds
  }

  lemma OpenIsolated(db: Db, id: string, principalId: string, identity: Identity, place: Place, now: int, ttl: int, other: string)
    requires other != principalId && id !in db.contexts
    ensures SameRowsOf(db, OpenContextRow(db, id, principalId, identity, place, now, ttl), other)
  {
  }

  lemma FinishIsolated(db: Db, o: Opening, identity: Identity, ttl: int, contextId: string, now: int, other: string)
    requires other != o.principalId && contextId !in db.contexts
    ensures SameRowsOf(db, FinishOpenRows(db, o, identity, ttl, contextId, now), other)
  {
    if RequestUsable(db, o.requestId, o.principalId, now) {
      var bound := CompleteBinding(db, o.requestId, o.principalId, identity, now);
      var place := db.requests[o.requestId].place;
      var after := OpenContextRow(bound, contextId, o.principalId, identity, place, now, ttl);
      assert bound == db.(bindings := bound.bindings) && after == bound.(contexts := after.contexts);
      assert SameRowsOf(db, bound, other);
      OpenIsolated(bound, contextId, o.principalId, identity, place, now, ttl, other);
    }
  }

  /** One principal's step never touches a row of another. */
  lemma PrincipalsAreIsolated(w: World, a: Action, other: string)
    requires Enabled(w, a) && IdsUsed(w)
    requires Actor(w, a).Some? && Actor(w, a).value != other
    ensures SameRowsOf(w.db, Apply(w, a).db, other)
  {
    if a.FinishOpen? {
      FinishIsolated(w.db, w.openings[a.op], a.identity, a.ttl, a.contextId, w.clock, other);
    }
  }

  // ----- At most one live row -----

  ghost predicate OneLiveContext(db: Db, clock: int) {
    forall i, j :: i in db.contexts && j in db.contexts && i != j ==>
      var c, d := db.contexts[i], db.contexts[j];
      !(c.expiresAt > clock && LiveContextFor(d, c.principalId, c.identity, c.place, clock))
  }

  ghost predicate OneLiveRequest(db: Db, clock: int) {
    forall i, j :: i in db.requests && j in db.requests && i != j ==>
      var r, s := db.requests[i], db.requests[j];
      !(r.expiresAt > clock && LiveRequestFor(s, r.principalId, r.workspaceKey, r.place, clock))
  }

  /** Every binding names an agent the directory confirmed for its owner. */
  ghost predicate BindingsValidated(w: World) {
    forall key :: key in w.db.bindings ==> (key.0, w.db.bindings[key].teamId, w.db.bindings[key].agentId) in w.validated
  }

  ghost predicate Inv(w: World) {
    OneLiveContext(w.db, w.clock) && OneLiveRequest(w.db, w.clock) && BindingsValidated(w) && IdsUsed(w)
  }

  lemma OpenKeepsOneLive(db: Db, id: string, principalId: string, identity: Identity, place: Place, now: int, ttl: int)
    requires OneLiveContext(db, now)
    ensures OneLiveContext(OpenContextRow(db, id, principalId, identity, place, now, ttl), now)
  {
    if !LiveContextExists(db, principalId, identity, place, now) {
      assert forall j :: j in db.contexts ==> !LiveContextFor(db.contexts[j], principalId, identity, place, now);
    }
  }

  lemma IssueKeepsOneLive(db: Db, id: string, principalId: string, workspaceKey: string, workspaceLabel: string, place: Place, now: int, ttl: int)
    requires OneLiveRequest(db, now)
    ensures OneLiveRequest(IssueRow(db, id, principalId, workspaceKey, workspaceLabel, place, now, ttl), now)
  {
    if !LiveRequestExists(db, principalId, workspaceKey, place, now) {
      assert forall j :: j in db.requests ==> !LiveRequestFor(db.requests[j], principalId, workspaceKey, place, now);
    }
  }

  lemma FewerRowsKeepOneLive(db: Db, db': Db, clock: int)
    requires OneLiveContext(db, clock) && OneLiveRequest(db, clock)
    requires forall id :: id in db'.contexts ==> id in db.contexts && db'.contexts[id] == db.contexts[id]
    requires forall id :: id in db'.requests ==> id in db.requests && db'.requests[id] == db.requests[id]
    ensures OneLiveContext(db', clock) && OneLiveRequest(db', clock)
  {
  }

  lemma FinishKeepsInv(w: World, op: nat, identity: Identity, ttl: int, contextId: string)
    requires Inv(w) && Enabled(w, FinishOpen(op, identity, ttl, contextId))
    ensures Inv(Apply(w, FinishOpen(op, identity, ttl, contextId)))
  {
    var o := w.openings[op];
    if RequestUsable(w.db, o.requestId, o.principalId, w.clock) {
      var db := CompleteBinding(w.db, o.requestId, o.principalId, identity, w.clock);
      OpenKeepsOneLive(db, contextId, o.principalId, identity, w.db.requests[o.requestId].place, w.clock, ttl);
    }
  }

  lemma StepKeepsInv(w: World, a: Action)
    requires Inv(w) && Enabled(w, a)
    ensures Inv(Apply(w, a))
  {
    match a
    case Issue(principalId, key, title, place, ttl, id) => IssueKeepsOneLive(w.db, id, principalId, key, title, place, w.clock, ttl);
    case FinishOpen(op, identity, ttl, contextId) => FinishKeepsInv(w, op, identity, ttl, contextId);
    case OpenValidated(principalId, identity, place, ttl, contextId) =>
      OpenKeepsOneLive(w.db, contextId, principalId, identity, place, w.clock, ttl);
    case Unbind(_, _) => FewerRowsKeepOneLive(w.db, Apply(w, a).db, w.clock);
    case PruneRows => FewerRowsKeepOneLive(w.db, Prune(w.db, w.clock), w.clock);
    case _ =>
  }

  /** With a clock that does not go back: at most one live context per principal, place and agent, at most
      one live request per principal, workspace and place, and only validated agents are ever bound. */
  lemma {:induction false} LiveRowsAreUnique(w: World, run: seq<Action>)
    requires Inv(w) && IsRun(w, run)
    ensures Inv(Exec(w, run))
    decreases |run|
  {
    if run != [] {
      StepKeepsInv(w, run[0]);
      LiveRowsAreUnique(Apply(w, run[0]), run[1..]);
    }
  }

  lemma EmptyStoreInv(clock: int)
    ensures Inv(World(EMPTY_DB, clock, map[], {}, {}))
  {
  }

  // ----- Completing -----

  /** Completing a usable request binds exactly its workspace to the validated agent, and completing it again
      with another agent rebinds it and keeps the creation time. */
  lemma CompleteThenRebind(db: Db, requestId: string, principalId: string, first: Identity, second: Identity, t1: int, t2: int)
    requires RequestUsable(db, requestId, principalId, t1) && RequestUsable(db, requestId, principalId, t2)
    ensures var r := db.requests[requestId];
            var key := (principalId, r.workspaceKey);
            var once := CompleteBinding(db, requestId, principalId, first, t1);
            && RequestUsable(once, requestId, principalId, t2)
            && var twice := CompleteBinding(once, requestId, principalId, second, t2);
               && twice.bindings.Keys == db.bindings.Keys + {key}
               && twice.bindings[key].teamId == second.teamId && twice.bindings[key].agentId == second.agentId
               && twice.bindings[key].createdAt == (if key in db.bindings then db.bindings[key].createdAt else t1)
               && (forall k :: k in db.bindings && k != key ==> twice.bindings[k] == db.bindings[k])
  {
  }

  /** What a finished opening leaves behind: a request that is still usable binds its workspace, under its own label, to
      the agent the directory confirmed, and the principal has a live context for that agent at the request's place, an
      old one or a new one; a request that is not leaves everything as it was. */
  lemma FinishedOpening(w: World, op: nat, identity: Identity, ttl: int, contextId: string)
    requires Enabled(w, FinishOpen(op, identity, ttl, contextId)) && IdsUsed(w) && ttl > 0
    ensures var o, next := w.openings[op], Apply(w, FinishOpen(op, identity, ttl, contextId));
            && next.openings == w.openings - {op} && next.db.requests == w.db.requests
            && (!IsUsable(w, o) ==> next.db == w.db)
            && (IsUsable(w, o) ==>
                  var r := w.db.requests[o.requestId];
                  var key := (o.principalId, r.workspaceKey);
                  && next.db.bindings.Keys == w.db.bindings.Keys + {key}
                  && (forall k :: k in w.db.bindings && k != key ==> next.db.bindings[k] == w.db.bindings[k])
                  && IsBoundTo(next.db.bindings[key], r.workspaceLabel, identity, w.clock)
                  && IsOpened(w, next.db, contextId, o.principalId, identity, r.place, ttl))
  {
    var o := w.openings[op];
    if RequestUsable(w.db, o.requestId, o.principalId, w.clock) {
      var r := w.db.requests[o.requestId];
      var bound := CompleteBinding(w.db, o.requestId, o.principalId, identity, w.clock);
      BoundTo(w.db, o.requestId, o.principalId, identity, w.clock);
      OpenedAt(w, bound, contextId, o.principalId, identity, r.place, ttl);
    }
  }

  /** The request exists, is the principal's own and has not expired. */
  predicate IsUsable(w: World, o: Opening) {
    && o.requestId in w.db.requests && w.db.requests[o.requestId].principalId == o.principalId
    && w.db.requests[o.requestId].expiresAt > w.clock
  }

  predicate IsBoundTo(b: Binding, title: string, identity: Identity, now: int) {
    b.workspaceLabel == title && b.teamId == identity.teamId && b.agentId == identity.agentId && b.agentName == identity.agentName
    && b.updatedAt == now
  }

  /** A context of the principal, for that team and agent at that very place, that has not expired. */
  predicate IsLive(c: SessionContext, principalId: string, identity: Identity, place: Place, now: int) {
    c.principalId == principalId && c.identity.teamId == identity.teamId && c.identity.agentId == identity.agentId
    && c.place.host == place.host && c.place.sessionId == place.sessionId && c.place.workspace == place.workspace && c.expiresAt > now
  }

  /** A live context was found, or exactly one was inserted, with all its fields. */
  ghost predicate IsOpened(w: World, db: Db, contextId: string, principalId: string, identity: Identity, place: Place, ttl: int) {
    && (exists id :: id in db.contexts && IsLive(db.contexts[id], principalId, identity, place, w.clock))
    && (if exists id :: id in w.db.contexts && IsLive(w.db.contexts[id], principalId, identity, place, w.clock)
        then db.contexts == w.db.contexts
        else && db.contexts.Keys == w.db.contexts.Keys + {contextId}
             && (forall id :: id in w.db.contexts ==> db.contexts[id] == w.db.contexts[id])
             && var c := db.contexts[contextId];
                c.principalId == principalId && c.identity == identity && c.place == place
                && c.createdAt == w.clock && c.expiresAt == w.clock + ttl)
  }

  lemma BoundTo(db: Db, requestId: string, principalId: string, identity: Identity, now: int)
    requires RequestUsable(db, requestId, principalId, now)
    ensures var r, next := db.requests[requestId], CompleteBinding(db, requestId, principalId, identity, now);
            var key := (principalId, r.workspaceKey);
            && next == db.(bindings := next.bindings) && next.bindings.Keys == db.bindings.Keys + {key}
            && (forall k :: k in db.bindings && k != key ==> next.bindings[k] == db.bindings[k])
            && IsBoundTo(next.bindings[key], r.workspaceLabel, identity, now)
  {
  }

  lemma OpenedAt(w: World, db: Db, contextId: string, principalId: string, identity: Identity, place: Place, ttl: int)
    requires db.contexts == w.db.contexts && contextId !in db.contexts && ttl > 0
    ensures var next := OpenContextRow(db, contextId, principalId, identity, place, w.clock, ttl);
            next == db.(contexts := next.contexts) && IsOpened(w, next, contextId, principalId, identity, place, ttl)
  {
    var next := OpenContextRow(db, contextId, principalId, identity, place, w.clock, ttl);
    assert forall c :: IsLive(c, principalId, identity, place, w.clock) <==> LiveContextFor(c, principalId, identity, place, w.clock);
    if !LiveContextExists(db, principalId, identity, place, w.clock) {
      assert LiveContextFor(next.contexts[contextId], principalId, identity, place, w.clock);
    }
  }

  /** An agent the directory has confirmed is opened in the same way. */
  lemma ValidatedOpening(w: World, principalId: string, identity: Identity, place: Place, ttl: int, contextId: string)
    requires Enabled(w, OpenValidated(principalId, identity, place, ttl, contextId)) && IdsUsed(w) && ttl > 0
    ensures var next := Apply(w, OpenValidated(principalId, identity, place, ttl, contextId));
            next.db == w.db.(contexts := next.db.contexts) && IsOpened(w, next.db, contextId, principalId, identity, place, ttl)
  {
    OpenedAt(w, w.db, contextId, principalId, identity, place, ttl);
  }

  /** A new label reaches the binding it is meant for, and changes no other row. */
  lemma RelabeledBinding(w: World, principalId: string, key: string, title: string)
    ensures var next, row := Apply(w, Relabel(principalId, key, title)), (principalId, key);
            && next == w.(db := w.db.(bindings := next.db.bindings)) && next.db.bindings.Keys == w.db.bindings.Keys
            && (row in w.db.bindings ==>
                  var b := w.db.bindings[row];
                  next.db.bindings[row] == if b.workspaceLabel == title then b else b.(workspaceLabel := title, updatedAt := w.clock))
            && forall other :: other in w.db.bindings && other != row ==> next.db.bindings[other] == w.db.bindings[other]
  {
  }

  /** Unbinding takes the workspace's binding and its requests, whatever place they are from, and nothing else. */
  lemma UnboundWorkspace(w: World, principalId: string, key: string)
    ensures var next := Apply(w, Unbind(principalId, key));
            && next == w.(db := w.db.(bindings := next.db.bindings, requests := next.db.requests))
            && (forall row :: row in next.db.bindings <==> row in w.db.bindings && !(row.0 == principalId && row.1 == key))
            && (forall row :: row in next.db.bindings ==> next.db.bindings[row] == w.db.bindings[row])
            && (forall id :: id in next.db.requests <==>
                  id in w.db.requests && !(w.db.requests[id].principalId == principalId && w.db.requests[id].workspaceKey == key))
            && forall id :: id in next.db.requests ==> next.db.requests[id] == w.db.requests[id]
  {
  }

  /** The request's principal, workspace and place, not expired. */
  predicate IsLiveRequest(r: BindingRequest, principalId: string, key: string, place: Place, now: int) {
    r.principalId == principalId && r.workspaceKey == key && r.expiresAt > now
    && r.place.host == place.host && r.place.sessionId == place.sessionId && r.place.workspace == place.workspace
  }

  /** A request for a selection is the one that is live already, or exactly one new one with all its fields. */
  lemma IssuedRequest(w: World, principalId: string, key: string, title: string, place: Place, ttl: int, id: string)
    requires Enabled(w, Issue(principalId, key, title, place, ttl, id)) && IdsUsed(w) && ttl > 0
    ensures var next := Apply(w, Issue(principalId, key, title, place, ttl, id));
            && (exists other :: other in next.db.requests && IsLiveRequest(next.db.requests[other], principalId, key, place, w.clock))
            && next.db == w.db.(requests := next.db.requests)
            && if exists other :: other in w.db.requests && IsLiveRequest(w.db.requests[other], principalId, key, place, w.clock) then next.db == w.db
               else && next.db.requests.Keys == w.db.requests.Keys + {id}
                    && (forall other :: other in w.db.requests ==> next.db.requests[other] == w.db.requests[other])
                    && var r := next.db.requests[id];
                       r.principalId == principalId && r.workspaceKey == key && r.workspaceLabel == title && r.place == place
                       && r.createdAt == w.clock && r.expiresAt == w.clock + ttl
  {
    var next := Apply(w, Issue(principalId, key, title, place, ttl, id));
    assert forall r :: IsLiveRequest(r, principalId, key, place, w.clock) <==> LiveRequestFor(r, principalId, key, place, w.clock);
    if !LiveRequestExists(w.db, principalId, key, place, w.clock) {
      assert LiveRequestFor(next.db.requests[id], principalId, key, place, w.clock);
    }
  }
}
