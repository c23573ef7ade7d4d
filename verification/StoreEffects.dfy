/** What the store's statements mean for each other: which rows a later selection returns, what a repeated call
    finds, and what pruning leaves visible. */
module StoreEffects {
  import opened Basics
  import opened GatewayDb

  // ----- Captures -----

  /** A capture that was just enqueued is due at once. */
  lemma EnqueuedIsDue(db: Db, contextId: string, turnId: string, assistant: string, supplied: Option<string>, t: int, now: int)
    requires var r := EnqueueCapture(db, contextId, turnId, assistant, supplied, t).1; r.Enqueued? && !r.duplicate
    requires now >= t
    ensures var (after, r) := EnqueueCapture(db, contextId, turnId, assistant, supplied, t); CaptureDue(after, r.eventId, now)
  {
  }

  /** After a retry no selection returns the row before its back-off is over, and from then on it is due again. */
  lemma RetryWaits(db: Db, id: string, attempts: nat, error: string, t: int, now: int, limit: nat, picked: seq<string>)
    requires id in db.captures && db.captures[id].IsPending()
    requires OldestFirst(DueCaptures(MarkRetry(db, id, attempts, error, t), now), limit, picked)
    ensures id in picked ==> now >= t + RetryDelay(attempts)
    ensures CaptureDue(MarkRetry(db, id, attempts, error, t), id, now) <==> now >= t + RetryDelay(attempts)
  {
    if id in picked {
      var i :| 0 <= i < |picked| && picked[i] == id;
      assert picked[i] in DueCaptures(MarkRetry(db, id, attempts, error, t), now);
    }
  }

  datatype Ending = Succeeded | GaveUp(error: string)

  function EndSink(db: Db, id: string, sink: Sink, e: Ending, now: int): Db {
    if e.Succeeded? then MarkSink(db, id, sink, now) else MarkDeadSink(db, id, sink, e.error, now)
  }

  lemma EndsOneSink(db: Db, id: string, sink: Sink, e: Ending, t: int)
    requires id in db.captures
    ensures var row := db.captures[id];
            && EndSink(db, id, sink, e, t).captures.Keys == db.captures.Keys
            && !EndSink(db, id, sink, e, t).captures[id].Status(sink).Pending?
            && forall other: Sink :: other != sink ==> EndSink(db, id, sink, e, t).captures[id].Status(other) == row.Status(other)
  {
  }

  /** With both sinks ended, one way or the other and in either order, the row is never due again. */
  lemma EndedIsNeverDue(db: Db, id: string, first: Sink, second: Sink, e: Ending, f: Ending, t: int, t': int, now: int)
    requires first != second
    ensures !CaptureDue(EndSink(EndSink(db, id, first, e, t), id, second, f, t'), id, now)
  {
    if id in db.captures {
      var once := EndSink(db, id, first, e, t);
      EndsOneSink(db, id, first, e, t);
      EndsOneSink(once, id, second, f, t');
    }
  }

  // ----- Extractions -----

  /** A second enqueue of the same extraction, or record of the same tool use, is a duplicate that changes nothing. */
  lemma SecondIsDuplicate(db: Db, contextId: string, reason: string, reason': string, delay: int, delay': int, t: int, t': int)
    requires contextId in db.contexts
    ensures var (once, r) := EnqueueSkillExtraction(db, contextId, reason, delay, t);
            EnqueueSkillExtraction(once, contextId, reason', delay', t') == (once, Enqueued(r.eventId, true))
  {
  }

  lemma SecondToolUseIsDuplicate(db: Db, contextId: string, turnId: string, toolUseId: string, name: string, name': string,
                                 input: string, input': string, response: string, response': string, t: int, t': int)
    ensures var (once, r) := RecordToolUse(db, contextId, turnId, toolUseId, name, input, response, t);
            RecordToolUse(once, contextId, turnId, toolUseId, name', input', response', t') == (once, Enqueued(r.eventId, true))
  {
  }

  /** A touch makes nothing due that was not, and no selection returns an extraction of its context before the
      settle delay is over. */
  lemma TouchWaits(db: Db, contextId: string, delay: int, t: int, now: int, limit: nat, picked: seq<string>)
    requires OldestFirst(DueExtractions(TouchSkillExtraction(db, contextId, delay, t), now), limit, picked)
    ensures forall id :: id in picked ==> ExtractionDue(db, id, now)
    ensures forall id :: id in picked && db.extractions[id].contextId == contextId ==> now >= t + Max(0, delay)
  {
    forall id | id in picked
      ensures ExtractionDue(db, id, now) && (db.extractions[id].contextId == contextId ==> now >= t + Max(0, delay))
    {
      var i :| 0 <= i < |picked| && picked[i] == id;
      assert picked[i] in DueExtractions(TouchSkillExtraction(db, contextId, delay, t), now);
    }
  }

  // ----- Contexts and binding requests -----

  /** A context serves the same principal, agent and place until it expires, and pruning does not take it away. */
  lemma OpenedIsLive(db: Db, id: string, principalId: string, identity: Identity, place: Place, t: int, ttl: int, pruned: int, now: int)
    requires pruned <= now < t + ttl
    ensures var after := Prune(InsertContext(db, id, principalId, identity, place, t, ttl), pruned);
            && id in after.contexts && LiveContextFor(after.contexts[id], principalId, identity, place, now)
            && ContextUsable(after, id, principalId, now)
  {
  }

  lemma IssuedIsLive(db: Db, id: string, principalId: string, key: string, title: string, place: Place, t: int, ttl: int, pruned: int, now: int)
    requires pruned <= now < t + ttl
    ensures var after := Prune(InsertRequest(db, id, principalId, key, title, place, t, ttl), pruned);
            && id in after.requests && LiveRequestFor(after.requests[id], principalId, key, place, now)
            && RequestUsable(after, id, principalId, now)
  {
  }

  /** Removing a binding takes its requests along: none can be completed afterwards. Other workspaces keep theirs. */
  lemma RemovedCannotComplete(db: Db, principalId: string, key: string, requestId: string, now: int)
    ensures var after := RemoveBinding(db, principalId, key);
            RequestUsable(after, requestId, principalId, now) <==>
              RequestUsable(db, requestId, principalId, now) && db.requests[requestId].workspaceKey != key
  {
  }

  /** A completed binding is what the principal then finds, until it is removed. */
  lemma CompletedIsFound(db: Db, requestId: string, principalId: string, identity: Identity, now: int)
    requires RequestUsable(db, requestId, principalId, now)
    ensures var key := (principalId, db.requests[requestId].workspaceKey);
            var after := CompleteBinding(db, requestId, principalId, identity, now);
            && key in after.bindings && after.bindings[key].teamId == identity.teamId && after.bindings[key].agentId == identity.agentId
            && RemoveBinding(after, principalId, key.1).bindings == db.bindings - {key}
  {
  }

  predicate SameButLabel(b: Binding, b': Binding) {
    b' == b.(workspaceLabel := b'.workspaceLabel, updatedAt := b'.updatedAt)
  }

  /** A new label leaves the agent alone. */
  lemma RelabelKeepsAgent(db: Db, principalId: string, key: string, title: string, now: int)
    ensures var after := RelabelBinding(db, principalId, key, title, now);
            && after.bindings.Keys == db.bindings.Keys
            && (forall k :: k in db.bindings ==> SameButLabel(db.bindings[k], after.bindings[k]))
            && ((principalId, key) in db.bindings ==> after.bindings[(principalId, key)].workspaceLabel == title)
            && (after != db ==> (principalId, key) in db.bindings && db.bindings[(principalId, key)].workspaceLabel != title)
  {
    var after, row := RelabelBinding(db, principalId, key, title, now), (principalId, key);
    if row in db.bindings && db.bindings[row].workspaceLabel != title {
      var b := db.bindings[row].(workspaceLabel := title, updatedAt := now);
      assert after.bindings == db.bindings[row := b] && SameButLabel(db.bindings[row], b);
    }
  }

  // ----- Pruning -----

  lemma PruneKeepsCaptures(db: Db, t: int)
    ensures var after := Prune(db, t);
            forall id :: (id in after.captures && after.captures[id].IsPending()) == (id in db.captures && db.captures[id].IsPending())
    ensures forall id :: id in Prune(db, t).captures ==> id in db.captures && Prune(db, t).captures[id] == db.captures[id]
  {
  }

  lemma PruneKeepsExtractions(db: Db, t: int)
    ensures var after := Prune(db, t);
            forall id :: (id in after.extractions && after.extractions[id].status.Queued?) == (id in db.extractions && db.extractions[id].status.Queued?)
    ensures forall id :: id in Prune(db, t).extractions ==> id in db.extractions && Prune(db, t).extractions[id] == db.extractions[id]
  {
  }

  /** Pruning is invisible to everything that asks later: the same captures and extractions are due at any time, and
      the same contexts and requests are usable. */
  lemma PruneIsInvisible(db: Db, t: int, now: int)
    requires t <= now
    ensures var after := Prune(db, t);
            && (forall at :: DueCaptures(after, at) == DueCaptures(db, at)) && (forall at :: DueExtractions(after, at) == DueExtractions(db, at))
            && (forall id, principalId :: ContextUsable(after, id, principalId, now) <==> ContextUsable(db, id, principalId, now))
            && (forall id, principalId :: RequestUsable(after, id, principalId, now) <==> RequestUsable(db, id, principalId, now))
            && after.bindings == db.bindings
  {
    var after := Prune(db, t);
    PruneKeepsCaptures(db, t);
    PruneKeepsExtractions(db, t);
    forall at
      ensures DueCaptures(after, at) == DueCaptures(db, at) && DueExtractions(after, at) == DueExtractions(db, at)
    {
      assert forall id :: CaptureDue(after, id, at) <==> CaptureDue(db, id, at);
      assert forall id :: ExtractionDue(after, id, at) <==> ExtractionDue(db, id, at);
    }
  }
}
