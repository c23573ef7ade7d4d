/** The store as the program has it: an object whose methods change its tables in place. Every method is
    proved to have exactly the effect of the corresponding statement on `Db`. Ids the program draws at
    random are parameters that must be unused. */
module GatewayStoreClass {
  import opened Basics
  import opened GatewayDb

  /** A non-empty map has a key with the least value. */
  lemma {:induction false} LeastExists(m: map<string, int>) returns (k: string)
    requires m != map[]
    ensures k in m && forall j :: j in m ==> m[k] <= m[j]
    decreases |m|
  {
    k :| k in m;
    var rest := m - {k};
    assert forall j :: j in m ==> j == k || j in rest;
    if rest != map[] {
      var l := LeastExists(rest);
      if m[l] < m[k] {
        k := l;
      }
    }
  }

  method Least(m: map<string, int>) returns (least: string)
    requires m != map[]
    ensures least in m && forall k :: k in m ==> m[least] <= m[k]
  {
    ghost var l := LeastExists(m);
    least :| least in m && forall k :: k in m ==> m[least] <= m[k];
  }

  /** `ORDER BY created_at LIMIT ?` */
  method SelectOldest(admitted: map<string, int>, limit: nat) returns (picked: seq<string>)
    ensures OldestFirst(admitted, limit, picked)
  {
    picked := [];
    var rest := admitted;
    while rest != map[] && |picked| < limit
      invariant Distinct(picked) && |picked| <= limit
      invariant forall k :: k in rest <==> k in admitted && k !in picked
      invariant forall k :: k in rest ==> rest[k] == admitted[k]
      invariant forall i :: 0 <= i < |picked| ==> picked[i] in admitted
      invariant forall i, j :: 0 <= i < j < |picked| ==> admitted[picked[i]] <= admitted[picked[j]]
      invariant forall i, k :: 0 <= i < |picked| && k in rest ==> admitted[picked[i]] <= admitted[k]
      decreases |rest|
    {
      var least := Least(rest);
      picked := picked + [least];
      rest := rest - {least};
    }
  }

  class GatewayStore {
    var contexts: map<string, SessionContext>
    var turns: map<TurnKey, PendingTurn>
    var captures: map<string, Capture>
    var tools: map<string, ToolEvent>
    var extractions: map<string, Extraction>
    var bindings: map<BindingKey, Binding>
    var requests: map<string, BindingRequest>

    function Tables(): Db
      reads this
    {
      Db(contexts, turns, captures, tools, extractions, bindings, requests)
    }

    constructor ()
      ensures Tables() == EMPTY_DB
    {
      contexts, turns, captures, tools, extractions, bindings, requests := map[], map[], map[], map[], map[], map[], map[];
    }

    /** Reuses the newest live context of the place, or inserts a new one. */
    method OpenContext(principalId: string, identity: Identity, place: Place, ttl: int, now: int, freshId: string) returns (id: string)
      requires freshId !in contexts
      modifies this
      ensures if exists live :: live in old(contexts) && LiveContextFor(old(contexts)[live], principalId, identity, place, now)
              then Tables() == old(Tables()) && IsNewestContext(Tables(), id, principalId, identity, place, now)
              else id == freshId && Tables() == InsertContext(old(Tables()), freshId, principalId, identity, place, now, ttl)
      ensures id in contexts
              && contexts[id].principalId == principalId && contexts[id].place == place
              && contexts[id].identity.teamId == identity.teamId && contexts[id].identity.agentId == identity.agentId
      ensures id in old(contexts) ==> contexts == old(contexts) && contexts[id].expiresAt > now
      ensures id !in old(contexts) ==> contexts[id].identity == identity && contexts[id].createdAt == now && contexts[id].expiresAt == now + ttl
    {
      var live := map c | c in contexts && LiveContextFor(contexts[c], principalId, identity, place, now) :: -contexts[c].createdAt;
      if live != map[] {
        ghost var l := LeastExists(live);
        id :| id in live && forall c :: c in live ==> live[id] <= live[c];
        assert id in contexts && LiveContextFor(contexts[id], principalId, identity, place, now);
        forall c | c in contexts && LiveContextFor(contexts[c], principalId, identity, place, now)
          ensures contexts[c].createdAt <= contexts[id].createdAt
        {
          assert live[id] <= live[c];
        }
      } else {
        assert forall c :: c in contexts ==> !LiveContextFor(contexts[c], principalId, identity, place, now) || c in live;
        id := freshId;
        contexts := contexts[id := SessionContext(principalId, identity, place, now, now + ttl)];
      }
    }

    method GetContext(contextId: string, principalId: string, now: int) returns (r: Option<SessionContext>)
      ensures r.Some? <==> ContextUsable(Tables(), contextId, principalId, now)
      ensures r.Some? ==> r.value == contexts[contextId]
    {
      if contextId in contexts && contexts[contextId].principalId == principalId && contexts[contextId].expiresAt > now {
        r := Some(contexts[contextId]);
      } else {
        r := None;
      }
    }

    method BeginTurn(contextId: string, turnId: string, prompt: string, now: int)
      modifies this
      ensures Tables() == GatewayDb.BeginTurn(old(Tables()), contextId, turnId, prompt, now)
    {
      turns := turns[(contextId, turnId) := PendingTurn(prompt, now)];
    }

    method EnqueueCapture(contextId: string, turnId: string, assistant: string, supplied: Option<string>, now: int) returns (r: Enqueued)
      modifies this
      ensures (Tables(), r) == GatewayDb.EnqueueCapture(old(Tables()), contextId, turnId, assistant, supplied, now)
    {
      var user := "";
      if supplied.Some? {
        user := Trim(supplied.value);
      }
      if user == "" && (contextId, turnId) in turns {
        user := turns[(contextId, turnId)].prompt;
      }
      if user == "" {
        return Refused;
      }
      var eventId := CaptureSeed(contextId, turnId, user, assistant);
      var duplicate := eventId in captures;
      if !duplicate {
        captures := captures[eventId := NewCapture(contextId, turnId, user, assistant, now)];
      }
      turns := turns - {(contextId, turnId)};
      r := Enqueued(eventId, duplicate);
    }

    method RecordToolUse(contextId: string, turnId: string, toolUseId: string, toolName: string, input: string, response: string, now: int)
      returns (r: Enqueued)
      modifies this
      ensures (Tables(), r) == GatewayDb.RecordToolUse(old(Tables()), contextId, turnId, toolUseId, toolName, input, response, now)
    {
      var eventId := ToolSeed(contextId, turnId, toolUseId);
      r := Enqueued(eventId, eventId in tools);
      if !r.duplicate {
        tools := tools[eventId := ToolEvent(contextId, turnId, toolUseId, Prefix(toolName, 256), input, response, now)];
      }
    }

    method EnqueueSkillExtraction(contextId: string, reason: string, delay: int, now: int) returns (r: Enqueued)
      modifies this
      ensures (Tables(), r) == GatewayDb.EnqueueSkillExtraction(old(Tables()), contextId, reason, delay, now)
    {
      if contextId !in contexts {
        return Refused;
      }
      var eventId := ExtractionSeed(contextId, contexts[contextId].place.sessionId);
      r := Enqueued(eventId, eventId in extractions);
      if !r.duplicate {
        extractions := extractions[eventId := Extraction(contextId, Prefix(reason, 500), Queued, None, 0, now + Max(0, delay), None, now, now)];
      }
    }

    method TouchSkillExtraction(contextId: string, delay: int, now: int)
      modifies this
      ensures Tables() == GatewayDb.TouchSkillExtraction(old(Tables()), contextId, delay, now)
    {
      var due := now + Max(0, delay);
      extractions := map id | id in extractions :: Touched(extractions[id], contextId, due, now);
    }

    method DueCaptures(limit: nat, now: int) returns (picked: seq<string>)
      ensures OldestFirst(GatewayDb.DueCaptures(Tables(), now), limit, picked)
    {
      picked := SelectOldest(GatewayDb.DueCaptures(Tables(), now), limit);
    }

    method DueSkillExtractions(limit: nat, now: int) returns (picked: seq<string>)
      ensures OldestFirst(GatewayDb.DueExtractions(Tables(), now), limit, picked)
    {
      picked := SelectOldest(GatewayDb.DueExtractions(Tables(), now), limit);
    }

    method MarkSink(eventId: string, sink: Sink, now: int)
      modifies this
      ensures Tables() == GatewayDb.MarkSink(old(Tables()), eventId, sink, now)
    {
      if eventId in captures {
        captures := captures[eventId := captures[eventId].SetStatus(sink, Done).(updatedAt := now)];
      }
    }

    method MarkDeadSink(eventId: string, sink: Sink, error: string, now: int)
      modifies this
      ensures Tables() == GatewayDb.MarkDeadSink(old(Tables()), eventId, sink, error, now)
    {
      if eventId in captures {
        captures := captures[eventId := captures[eventId].SetStatus(sink, Dead).(lastError := Some(Prefix(error, 1000)), updatedAt := now)];
      }
    }

    method MarkRetry(eventId: string, attempts: nat, error: string, now: int)
      modifies this
      ensures Tables() == GatewayDb.MarkRetry(old(Tables()), eventId, attempts, error, now)
    {
      var delay := RetryDelay(attempts);
      if eventId in captures {
        captures := captures[eventId := captures[eventId].(attempts := attempts, nextAttemptAt := now + delay,
                                                           lastError := Some(Prefix(error, 1000)), updatedAt := now)];
      }
    }

    method MarkSkillExtractionSubmitted(eventId: string, taskId: Option<string>, now: int)
      modifies this
      ensures Tables() == MarkSubmitted(old(Tables()), eventId, taskId, now)
    {
      if eventId in extractions {
        extractions := extractions[eventId := extractions[eventId].(status := Submitted, taskId := taskId, lastError := None, updatedAt := now)];
      }
    }

    method MarkSkillExtractionSkipped(eventId: string, reason: string, now: int)
      modifies this
      ensures Tables() == MarkSkipped(old(Tables()), eventId, reason, now)
    {
      if eventId in extractions {
        extractions := extractions[eventId := extractions[eventId].(status := Skipped, lastError := Some(Prefix(reason, 1000)), updatedAt := now)];
      }
    }

    method MarkSkillExtractionRetry(eventId: string, attempts: nat, error: string, now: int)
      modifies this
      ensures Tables() == MarkExtractionRetry(old(Tables()), eventId, attempts, error, now)
    {
      var delay := RetryDelay(attempts);
      if eventId in extractions {
        extractions := extractions[eventId := extractions[eventId].(attempts := attempts, nextAttemptAt := now + delay,
                                                                    lastError := Some(Prefix(error, 1000)), updatedAt := now)];
      }
    }

    method MarkSkillExtractionDead(eventId: string, error: string, now: int)
      modifies this
      ensures Tables() == MarkExtractionDead(old(Tables()), eventId, error, now)
    {
      if eventId in extractions {
        extractions := extractions[eventId := extractions[eventId].(status := Abandoned, lastError := Some(Prefix(error, 1000)), updatedAt := now)];
      }
    }

    /** The six DELETE statements, in the order the program issues them. */
    method Prune(now: int)
      modifies this
      ensures Tables() == GatewayDb.Prune(old(Tables()), now)
    {
      turns := PruneTurns(Tables(), now).turns;
      contexts := PruneContexts(Tables(), now).contexts;
      captures := PruneCaptures(Tables(), now).captures;
      tools := PruneTools(Tables(), now).tools;
      extractions := PruneExtractions(Tables(), now).extractions;
      requests := PruneRequests(Tables(), now).requests;
    }

    method GetWorkspaceBinding(principalId: string, workspaceKey: string) returns (r: Option<Binding>)
      ensures r.Some? <==> (principalId, workspaceKey) in bindings
      ensures r.Some? ==> (principalId, workspaceKey) in bindings && r.value == bindings[(principalId, workspaceKey)]
    {
      r := if (principalId, workspaceKey) in bindings then Some(bindings[(principalId, workspaceKey)]) else None;
    }

    method UpdateWorkspaceBindingLabel(principalId: string, workspaceKey: string, workspaceLabel: string, now: int) returns (changed: bool)
      modifies this
      ensures Tables() == RelabelBinding(old(Tables()), principalId, workspaceKey, workspaceLabel, now)
      ensures changed <==> (principalId, workspaceKey) in old(bindings) && old(bindings)[(principalId, workspaceKey)].workspaceLabel != workspaceLabel
    {
      var key := (principalId, workspaceKey);
      changed := key in bindings && bindings[key].workspaceLabel != workspaceLabel;
      if changed {
        bindings := bindings[key := bindings[key].(workspaceLabel := workspaceLabel, updatedAt := now)];
      }
    }

    method RemoveWorkspaceBinding(principalId: string, workspaceKey: string) returns (removed: bool)
      modifies this
      ensures Tables() == RemoveBinding(old(Tables()), principalId, workspaceKey)
      ensures removed <==> (principalId, workspaceKey) in old(bindings)
    {
      removed := (principalId, workspaceKey) in bindings;
      bindings := bindings - {(principalId, workspaceKey)};
      requests := map id | id in requests && !(requests[id].principalId == principalId && requests[id].workspaceKey == workspaceKey) :: requests[id];
    }

    /** Reuses the newest live request of the place, or inserts a new one. */
    method IssueWorkspaceBindingRequest(principalId: string, workspaceKey: string, workspaceLabel: string, place: Place, ttl: int, now: int, freshId: string)
      returns (id: string)
      requires freshId !in requests
      modifies this
      ensures if exists live :: live in old(requests) && LiveRequestFor(old(requests)[live], principalId, workspaceKey, place, now)
              then Tables() == old(Tables()) && IsNewestRequest(Tables(), id, principalId, workspaceKey, place, now)
              else id == freshId && Tables() == InsertRequest(old(Tables()), freshId, principalId, workspaceKey, workspaceLabel, place, now, ttl)
      ensures id in requests
              && requests[id].principalId == principalId && requests[id].workspaceKey == workspaceKey && requests[id].place == place
      ensures id in old(requests) ==> requests == old(requests) && requests[id].expiresAt > now
      ensures id !in old(requests) ==>
                requests[id].workspaceLabel == workspaceLabel && requests[id].createdAt == now && requests[id].expiresAt == now + ttl
    {
      var live := map r | r in requests && LiveRequestFor(requests[r], principalId, workspaceKey, place, now) :: -requests[r].createdAt;
      if live != map[] {
        ghost var l := LeastExists(live);
        id :| id in live && forall r :: r in live ==> live[id] <= live[r];
        assert id in requests && LiveRequestFor(requests[id], principalId, workspaceKey, place, now);
        forall r | r in requests && LiveRequestFor(requests[r], principalId, workspaceKey, place, now)
          ensures requests[r].createdAt <= requests[id].createdAt
        {
          assert live[id] <= live[r];
        }
      } else {
        assert forall r :: r in requests ==> !LiveRequestFor(requests[r], principalId, workspaceKey, place, now) || r in live;
        id := freshId;
        requests := requests[id := BindingRequest(principalId, workspaceKey, workspaceLabel, place, now, now + ttl)];
      }
    }

    /** False, with nothing changed, when the request is unknown, another principal's or expired. */
    method CompleteWorkspaceBinding(requestId: string, principalId: string, identity: Identity, now: int) returns (ok: bool)
      modifies this
      ensures ok <==> RequestUsable(old(Tables()), requestId, principalId, now)
      ensures Tables() == if ok then CompleteBinding(old(Tables()), requestId, principalId, identity, now) else old(Tables())
    {
      ok := requestId in requests && requests[requestId].principalId == principalId && requests[requestId].expiresAt > now;
      if ok {
        var r := requests[requestId];
        var key := (principalId, r.workspaceKey);
        if key in bindings {
          bindings := bindings[key := bindings[key].(workspaceLabel := r.workspaceLabel, teamId := identity.teamId, agentId := identity.agentId,
                                                     agentName := identity.agentName, updatedAt := now)];
        } else {
          bindings := bindings[key := Binding(r.workspaceLabel, identity.teamId, identity.agentId, identity.agentName, now, now)];
        }
      }
    }
  }
}
