/** The tables of the gateway's SQLite database as maps, and each SQL statement the store
    issues as a function on them. `now` is the value of the clock when the statement runs.
    SHA-256 is taken to be injective, so an event id is represented by the text that is hashed. */
module GatewayDb {
  import opened Basics

  datatype Sink = Core | Skill
  datatype SinkStatus = Pending | Done | Dead
  datatype ExtractionStatus = Queued | Submitted | Skipped | Abandoned

  datatype Principal = Principal(id: string, userId: string)
  datatype Identity = Identity(teamId: string, userId: string, agentId: string, agentName: Option<string>)
  datatype Place = Place(host: string, sessionId: string, workspace: string)

  datatype SessionContext = SessionContext(principalId: string, identity: Identity, place: Place,
                                           createdAt: int, expiresAt: int)
  datatype PendingTurn = PendingTurn(prompt: string, updatedAt: int)
  datatype Capture = Capture(contextId: string, turnId: string, user: string, assistant: string,
                             core: SinkStatus, skill: SinkStatus, attempts: nat, nextAttemptAt: int,
                             lastError: Option<string>, createdAt: int, updatedAt: int)
  {
    predicate IsPending() {
      core.Pending? || skill.Pending?
    }

    function Status(sink: Sink): SinkStatus {
      if sink.Core? then core else skill
    }

    function SetStatus(sink: Sink, status: SinkStatus): Capture {
      if sink.Core? then this.(core := status) else this.(skill := status)
    }
  }
  datatype ToolEvent = ToolEvent(contextId: string, turnId: string, toolUseId: string, toolName: string,
                                 inputJson: string, responseJson: string, createdAt: int)
  datatype Extraction = Extraction(contextId: string, reason: string, status: ExtractionStatus,
                                   taskId: Option<string>, attempts: nat, nextAttemptAt: int,
                                   lastError: Option<string>, createdAt: int, updatedAt: int)
  datatype Binding = Binding(workspaceLabel: string, teamId: string, agentId: string, agentName: Option<string>,
                             createdAt: int, updatedAt: int)
  datatype BindingRequest = BindingRequest(principalId: string, workspaceKey: string, workspaceLabel: string, place: Place,
                                           createdAt: int, expiresAt: int)

  type TurnKey = (string, string)
  type BindingKey = (string, string)

  datatype Db = Db(
    contexts: map<string, SessionContext>,
    turns: map<TurnKey, PendingTurn>,
    captures: map<string, Capture>,
    tools: map<string, ToolEvent>,
    extractions: map<string, Extraction>,
    bindings: map<BindingKey, Binding>,
    requests: map<string, BindingRequest>)

  const EMPTY_DB := Db(map[], map[], map[], map[], map[], map[], map[])

  const DAY := 24 * 60 * 60_000
  const WEEK := 7 * DAY
  const CAPTURE_LIMIT: nat := 20
  const EXTRACTION_LIMIT: nat := 10

  // ----- Session contexts -----

  predicate LiveContextFor(c: SessionContext, principalId: string, identity: Identity, place: Place, now: int) {
    c.principalId == principalId && c.place == place && c.identity.teamId == identity.teamId
    && c.identity.agentId == identity.agentId && c.expiresAt > now
  }

  /** A context the SELECT of `openContext` may return: newest first among the live matches. */
  ghost predicate IsNewestContext(db: Db, id: string, principalId: string, identity: Identity, place: Place, now: int) {
    && id in db.contexts && LiveContextFor(db.contexts[id], principalId, identity, place, now)
    && forall other :: other in db.contexts && LiveContextFor(db.contexts[other], principalId, identity, place, now)
                       ==> db.contexts[other].createdAt <= db.contexts[id].createdAt
  }

  function InsertContext(db: Db, id: string, principalId: string, identity: Identity, place: Place, now: int, ttl: int): Db {
    db.(contexts := db.contexts[id := SessionContext(principalId, identity, place, now, now + ttl)])
  }

  /** `getContext`: the context exists, belongs to the principal and has not expired. */
  predicate ContextUsable(db: Db, contextId: string, principalId: string, now: int) {
    contextId in db.contexts && db.contexts[contextId].principalId == principalId && db.contexts[contextId].expiresAt > now
  }

  // ----- Capture queue -----

  function BeginTurn(db: Db, contextId: string, turnId: string, prompt: string, now: int): Db {
    db.(turns := db.turns[(contextId, turnId) := PendingTurn(prompt, now)])
  }

  function CaptureSeed(contextId: string, turnId: string, user: string, assistant: string): string {
    contextId + "\0" + turnId + "\0" + user + "\0" + assistant
  }

  /** The user text of a finished turn: the supplied prompt if it is not blank, otherwise the
      stored one; empty when there is neither. */
  function TurnPrompt(db: Db, contextId: string, turnId: string, supplied: Option<string>): string {
    if supplied.Some? && Trim(supplied.value) != "" then Trim(supplied.value)
    else if (contextId, turnId) in db.turns then db.turns[(contextId, turnId)].prompt
    else ""
  }

  datatype Enqueued = Enqueued(eventId: string, duplicate: bool) | Refused

  function NewCapture(contextId: string, turnId: string, user: string, assistant: string, now: int): Capture {
    Capture(contextId, turnId, user, assistant, Pending, Pending, 0, now, None, now, now)
  }

  function EnqueueCapture(db: Db, contextId: string, turnId: string, assistant: string, supplied: Option<string>, now: int)
    : (Db, Enqueued)
  {
    var user := TurnPrompt(db, contextId, turnId, supplied);
    if user == "" then (db, Refused) else
      var id := CaptureSeed(contextId, turnId, user, assistant);
      var captures := if id in db.captures then db.captures
                      else db.captures[id := NewCapture(contextId, turnId, user, assistant, now)];
      (db.(captures := captures, turns := db.turns - {(contextId, turnId)}), Enqueued(id, id in db.captures))
  }

  predicate CaptureDue(db: Db, id: string, now: int) {
    id in db.captures && db.captures[id].IsPending() && db.captures[id].nextAttemptAt <= now
  }

  /** What `SELECT ... ORDER BY created_at LIMIT ?` may return, given the creation time of every row
      the WHERE clause admits: admitted rows, oldest first, no more than the limit, and when a row is
      left out the limit is used up by rows that are no younger. */
  ghost predicate OldestFirst(admitted: map<string, int>, limit: nat, picked: seq<string>) {
    && Distinct(picked) && |picked| <= limit
    && (forall i :: 0 <= i < |picked| ==> picked[i] in admitted)
    && (forall i, j :: 0 <= i < j < |picked| ==> admitted[picked[i]] <= admitted[picked[j]])
    && (forall id :: id in admitted && id !in picked ==>
          |picked| == limit && forall i :: 0 <= i < |picked| ==> admitted[picked[i]] <= admitted[id])
  }

  function DueCaptures(db: Db, now: int): map<string, int> {
    map id | id in db.captures && CaptureDue(db, id, now) :: db.captures[id].createdAt
  }

  function Pow2(n: nat): nat {
    if n == 0 then 1 else 2 * Pow2(n - 1)
  }

  /** The exponential back-off before attempt number `attempts + 1`, in milliseconds. */
  function RetryDelay(attempts: nat): int {
    Min(5 * 60_000, 1000 * Pow2(Min(attempts, 8)))
  }

  function MarkSink(db: Db, id: string, sink: Sink, now: int): Db {
    if id !in db.captures then db else
      db.(captures := db.captures[id := db.captures[id].SetStatus(sink, Done).(updatedAt := now)])
  }

  function MarkDeadSink(db: Db, id: string, sink: Sink, error: string, now: int): Db {
    if id !in db.captures then db else
      db.(captures := db.captures[id := db.captures[id].SetStatus(sink, Dead).(lastError := Some(Prefix(error, 1000)), updatedAt := now)])
  }

  function MarkRetry(db: Db, id: string, attempts: nat, error: string, now: int): Db {
    if id !in db.captures then db else
      db.(captures := db.captures[id := db.captures[id].(attempts := attempts, nextAttemptAt := now + RetryDelay(attempts),
                                                         lastError := Some(Prefix(error, 1000)), updatedAt := now)])
  }

  // ----- Tool events and skill extraction -----

  function ToolSeed(contextId: string, turnId: string, toolUseId: string): string {
    contextId + "\0" + turnId + "\0" + toolUseId
  }

  /** `input` and `response` are the already sanitised JSON texts. */
  function RecordToolUse(db: Db, contextId: string, turnId: string, toolUseId: string, toolName: string,
                         input: string, response: string, now: int): (Db, Enqueued)
  {
    var id := ToolSeed(contextId, turnId, toolUseId);
    (if id in db.tools then db
     else db.(tools := db.tools[id := ToolEvent(contextId, turnId, toolUseId, Prefix(toolName, 256), input, response, now)]),
     Enqueued(id, id in db.tools))
  }

  function ExtractionSeed(contextId: string, sessionId: string): string {
    contextId + "\0" + sessionId + "\0skill-extract"
  }

  function EnqueueSkillExtraction(db: Db, contextId: string, reason: string, delay: int, now: int): (Db, Enqueued) {
    if contextId !in db.contexts then (db, Refused) else
      var id := ExtractionSeed(contextId, db.contexts[contextId].place.sessionId);
      (if id in db.extractions then db
       else db.(extractions := db.extractions[id := Extraction(contextId, Prefix(reason, 500), Queued, None, 0,
                                                               now + Max(0, delay), None, now, now)]),
       Enqueued(id, id in db.extractions))
  }

  predicate ExtractionDue(db: Db, id: string, now: int) {
    id in db.extractions && db.extractions[id].status.Queued? && db.extractions[id].nextAttemptAt <= now
  }

  function DueExtractions(db: Db, now: int): map<string, int> {
    map id | id in db.extractions && ExtractionDue(db, id, now) :: db.extractions[id].createdAt
  }

  function MarkSubmitted(db: Db, id: string, taskId: Option<string>, now: int): Db {
    if id !in db.extractions then db else
      db.(extractions := db.extractions[id := db.extractions[id].(status := Submitted, taskId := taskId, lastError := None, updatedAt := now)])
  }

  function MarkSkipped(db: Db, id: string, reason: string, now: int): Db {
    if id !in db.extractions then db else
      db.(extractions := db.extractions[id := db.extractions[id].(status := Skipped, lastError := Some(Prefix(reason, 1000)), updatedAt := now)])
  }

  function MarkExtractionRetry(db: Db, id: string, attempts: nat, error: string, now: int): Db {
    if id !in db.extractions then db else
      db.(extractions := db.extractions[id := db.extractions[id].(attempts := attempts, nextAttemptAt := now + RetryDelay(attempts),
                                                                  lastError := Some(Prefix(error, 1000)), updatedAt := now)])
  }

  function MarkExtractionDead(db: Db, id: string, error: string, now: int): Db {
    if id !in db.extractions then db else
      db.(extractions := db.extractions[id := db.extractions[id].(status := Abandoned, lastError := Some(Prefix(error, 1000)), updatedAt := now)])
  }

  function Touched(e: Extraction, contextId: string, due: int, now: int): Extraction {
    if e.contextId == contextId && e.status.Queued? then e.(nextAttemptAt := Max(e.nextAttemptAt, due), updatedAt := now) else e
  }

  function TouchSkillExtraction(db: Db, contextId: string, delay: int, now: int): Db {
    db.(extractions := map id | id in db.extractions :: Touched(db.extractions[id], contextId, now + Max(0, delay), now))
  }

  // ----- Pruning, one function per DELETE -----

  function PruneTurns(db: Db, now: int): Db {
    db.(turns := map k | k in db.turns && !(db.turns[k].updatedAt < now - DAY) :: db.turns[k])
  }

  /** The two NOT EXISTS guards: some pending row still refers to the context. */
  predicate ContextReferenced(db: Db, contextId: string) {
    || (exists id :: id in db.captures && db.captures[id].contextId == contextId && db.captures[id].IsPending())
    || (exists id :: id in db.extractions && db.extractions[id].contextId == contextId && db.extractions[id].status.Queued?)
  }

  function PruneContexts(db: Db, now: int): Db {
    db.(contexts := map id | id in db.contexts && !(db.contexts[id].expiresAt < now && !ContextReferenced(db, id)) :: db.contexts[id])
  }

  function PruneCaptures(db: Db, now: int): Db {
    db.(captures := map id | id in db.captures && !(!db.captures[id].IsPending() && db.captures[id].updatedAt < now - WEEK) :: db.captures[id])
  }

  function PruneTools(db: Db, now: int): Db {
    db.(tools := map id | id in db.tools && !(db.tools[id].createdAt < now - WEEK) :: db.tools[id])
  }

  function PruneExtractions(db: Db, now: int): Db {
    db.(extractions := map id | id in db.extractions && !(!db.extractions[id].status.Queued? && db.extractions[id].updatedAt < now - WEEK)
                       :: db.extractions[id])
  }

  function PruneRequests(db: Db, now: int): Db {
    db.(requests := map id | id in db.requests && !(db.requests[id].expiresAt < now) :: db.requests[id])
  }

  function Prune(db: Db, now: int): Db {
    PruneRequests(PruneExtractions(PruneTools(PruneCaptures(PruneContexts(PruneTurns(db, now), now), now), now), now), now)
  }

  // ----- Workspace bindings -----

  predicate LiveRequestFor(r: BindingRequest, principalId: string, workspaceKey: string, place: Place, now: int) {
    r.principalId == principalId && r.workspaceKey == workspaceKey && r.place == place && r.expiresAt > now
  }

  ghost predicate IsNewestRequest(db: Db, id: string, principalId: string, workspaceKey: string, place: Place, now: int) {
    && id in db.requests && LiveRequestFor(db.requests[id], principalId, workspaceKey, place, now)
    && forall other :: other in db.requests && LiveRequestFor(db.requests[other], principalId, workspaceKey, place, now)
                       ==> db.requests[other].createdAt <= db.requests[id].createdAt
  }

  function InsertRequest(db: Db, id: string, principalId: string, workspaceKey: string, workspaceLabel: string, place: Place, now: int, ttl: int): Db {
    db.(requests := db.requests[id := BindingRequest(principalId, workspaceKey, workspaceLabel, place, now, now + ttl)])
  }

  predicate RequestUsable(db: Db, requestId: string, principalId: string, now: int) {
    requestId in db.requests && db.requests[requestId].principalId == principalId && db.requests[requestId].expiresAt > now
  }

  /** The upsert: a new row, or the old one with its label, team and agent replaced. */
  function CompleteBinding(db: Db, requestId: string, principalId: string, identity: Identity, now: int): Db
    requires RequestUsable(db, requestId, principalId, now)
  {
    var r := db.requests[requestId];
    var key := (principalId, r.workspaceKey);
    var createdAt := if key in db.bindings then db.bindings[key].createdAt else now;
    db.(bindings := db.bindings[key := Binding(r.workspaceLabel, identity.teamId, identity.agentId, identity.agentName, createdAt, now)])
  }

  function RelabelBinding(db: Db, principalId: string, workspaceKey: string, workspaceLabel: string, now: int): Db {
    var key := (principalId, workspaceKey);
    if key in db.bindings && db.bindings[key].workspaceLabel != workspaceLabel
    then db.(bindings := db.bindings[key := db.bindings[key].(workspaceLabel := workspaceLabel, updatedAt := now)])
    else db
  }

  function RemoveBinding(db: Db, principalId: string, workspaceKey: string): Db {
    db.(bindings := db.bindings - {(principalId, workspaceKey)},
        requests := map id | id in db.requests && !(db.requests[id].principalId == principalId && db.requests[id].workspaceKey == workspaceKey)
                    :: db.requests[id])
  }
}
