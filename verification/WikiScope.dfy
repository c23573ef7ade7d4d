/** Merging the Wikis of all of a user's agents into one scope: each ready Wiki once, with the agents that
    supply it. The map keyed by knowledge id is a sequence in insertion order. */
module WikiScope {
  import opened Basics

  datatype Resource = Resource(id: string, kind: string, status: string, name: string)
  datatype Binding = Binding(teamId: string, agentId: string, agentName: string)
  datatype Scoped = Scoped(resource: Resource, bindings: seq<Binding>)

  /** What the loader returned for one agent. */
  datatype AgentPage = AgentPage(agent: Binding, resources: seq<Resource>)

  /** One agent supplying one ready Wiki. */
  datatype Supply = Supply(resource: Resource, binding: Binding)

  predicate IsReadyWiki(r: Resource) {
    r.kind == "wiki" && r.status == "ready"
  }

  predicate SamePair(a: Binding, b: Binding) {
    a.teamId == b.teamId && a.agentId == b.agentId
  }

  predicate HasPair(bindings: seq<Binding>, b: Binding) {
    exists k :: 0 <= k < |bindings| && SamePair(bindings[k], b)
  }

  // ----- The specification: group the supplies by Wiki -----

  function PageSupplies(page: AgentPage, n: nat): seq<Supply>
    requires n <= |page.resources|
  {
    if n == 0 then [] else
      PageSupplies(page, n - 1) + (if IsReadyWiki(page.resources[n - 1]) then [Supply(page.resources[n - 1], page.agent)] else [])
  }

  function Supplies(pages: seq<AgentPage>, n: nat): seq<Supply>
    requires n <= |pages|
  {
    if n == 0 then [] else Supplies(pages, n - 1) + PageSupplies(pages[n - 1], |pages[n - 1].resources|)
  }

  /** The distinct ids, in order of first supply. */
  function Ids(supplies: seq<Supply>): seq<string> {
    if supplies == [] then [] else
      var ids, id := Ids(supplies[..|supplies| - 1]), supplies[|supplies| - 1].resource.id;
      if id in ids then ids else ids + [id]
  }

  /** The agents that supply one Wiki, one per (team, agent) pair, in order of first supply. */
  function BindingsOf(supplies: seq<Supply>, id: string): seq<Binding> {
    if supplies == [] then [] else
      var before, last := BindingsOf(supplies[..|supplies| - 1], id), supplies[|supplies| - 1];
      if last.resource.id == id && !HasPair(before, last.binding) then before + [last.binding] else before
  }

  /** The first record seen for an id. */
  function FirstOf(supplies: seq<Supply>, id: string): Option<Resource> {
    if supplies == [] then None else
      var before, last := FirstOf(supplies[..|supplies| - 1], id), supplies[|supplies| - 1];
      if before.None? && last.resource.id == id then Some(last.resource) else before
  }

  predicate IsGrouping(scope: seq<Scoped>, supplies: seq<Supply>) {
    && |scope| == |Ids(supplies)|
    && forall k :: 0 <= k < |scope| ==>
         && scope[k].resource.id == Ids(supplies)[k]
         && Some(scope[k].resource) == FirstOf(supplies, Ids(supplies)[k])
         && scope[k].bindings == BindingsOf(supplies, Ids(supplies)[k])
  }

  // ----- The loop -----

  function IndexOf(scope: seq<Scoped>, id: string): (k: nat)
    ensures k <= |scope| && (k < |scope| ==> scope[k].resource.id == id)
    ensures forall j :: 0 <= j < k ==> scope[j].resource.id != id
  {
    FindBy(scope, id, (x: Scoped) => x.resource.id)
  }

  method MergeScopes(pages: seq<AgentPage>) returns (scope: seq<Scoped>)
    ensures |scope| == |Ids(Supplies(pages, |pages|))|
    ensures IsGrouping(scope, Supplies(pages, |pages|))
  {
    scope := [];
    for i := 0 to |pages|
      invariant IsGrouping(scope, Supplies(pages, i))
    {
      scope := AddPage(scope, pages[i], Supplies(pages, i));
    }
  }

  /** The inner loop; `before` is what `scope` already groups. */
  method AddPage(start: seq<Scoped>, page: AgentPage, ghost before: seq<Supply>) returns (scope: seq<Scoped>)
    requires IsGrouping(start, before)
    ensures IsGrouping(scope, before + PageSupplies(page, |page.resources|))
  {
    scope := start;
    ghost var supplies := before;
    for j := 0 to |page.resources|
      invariant supplies == before + PageSupplies(page, j)
      invariant IsGrouping(scope, supplies)
    {
      if IsReadyWiki(page.resources[j]) {
        ghost var s := Supply(page.resources[j], page.agent);
        GroupOneMore(scope, supplies, s);
        scope := AddOne(scope, page.resources[j], page.agent);
        supplies := supplies + [s];
      }
    }
  }

  method AddOne(start: seq<Scoped>, resource: Resource, binding: Binding) returns (scope: seq<Scoped>)
    ensures scope == AddSupply(start, Supply(resource, binding))
  {
    scope := start;
    var k := IndexOf(scope, resource.id);
    if k < |scope| {
      if !HasPair(scope[k].bindings, binding) {
        scope := scope[k := scope[k].(bindings := scope[k].bindings + [binding])];
      }
    } else {
      scope := scope + [Scoped(resource, [binding])];
    }
  }

  /** The loop body, as a function of the scope so far. */
  function AddSupply(scope: seq<Scoped>, s: Supply): seq<Scoped> {
    var k := IndexOf(scope, s.resource.id);
    if k == |scope| then scope + [Scoped(s.resource, [s.binding])]
    else if HasPair(scope[k].bindings, s.binding) then scope
    else scope[k := scope[k].(bindings := scope[k].bindings + [s.binding])]
  }

  lemma {:induction false} IdsAreDistinct(supplies: seq<Supply>)
    ensures Distinct(Ids(supplies))
    ensures forall id :: id in Ids(supplies) <==> exists k :: 0 <= k < |supplies| && supplies[k].resource.id == id
    decreases |supplies|
  {
    if supplies != [] {
      var before := supplies[..|supplies| - 1];
      IdsAreDistinct(before);
      assert forall k :: 0 <= k < |before| ==> before[k] == supplies[k];
      forall id | id in Ids(supplies)
        ensures exists k :: 0 <= k < |supplies| && supplies[k].resource.id == id
      {
        if id in Ids(before) {
          var k :| 0 <= k < |before| && before[k].resource.id == id;
          assert supplies[k].resource.id == id;
        }
      }
    }
  }

  lemma {:induction false} NotSuppliedYet(supplies: seq<Supply>, id: string)
    requires id !in Ids(supplies)
    ensures BindingsOf(supplies, id) == [] && FirstOf(supplies, id) == None
    decreases |supplies|
  {
    if supplies != [] {
      NotSuppliedYet(supplies[..|supplies| - 1], id);
    }
  }

  lemma {:induction false} SuppliedOnce(supplies: seq<Supply>, id: string)
    requires id in Ids(supplies)
    ensures FirstOf(supplies, id).Some?
    decreases |supplies|
  {
    if id in Ids(supplies[..|supplies| - 1]) {
      SuppliedOnce(supplies[..|supplies| - 1], id);
    }
  }

  lemma {:induction false} GroupOneMore(scope: seq<Scoped>, supplies: seq<Supply>, s: Supply)
    requires IsGrouping(scope, supplies)
    ensures IsGrouping(AddSupply(scope, s), supplies + [s])
  {
    var id, all := s.resource.id, supplies + [s];
    assert all[..|all| - 1] == supplies;
    IdsAreDistinct(supplies);
    var k := IndexOf(scope, id);
    if k == |scope| {
      assert id !in Ids(supplies);
      NotSuppliedYet(supplies, id);
    } else {
      assert Ids(supplies)[k] == id;
      SuppliedOnce(supplies, id);
    }
  }

  // ----- What the merge promises -----

  predicate Supplied(pages: seq<AgentPage>, id: string, b: Binding) {
    exists i, j :: 0 <= i < |pages| && 0 <= j < |pages[i].resources| &&
      IsReadyWiki(pages[i].resources[j]) && pages[i].resources[j].id == id && SamePair(pages[i].agent, b)
  }

  /** One binding per pair, in the order of `BindingsOf`. */
  ghost predicate DistinctPairs(bindings: seq<Binding>) {
    forall j, k :: 0 <= j < k < |bindings| ==> !SamePair(bindings[j], bindings[k])
  }

  lemma {:induction false} PairsAreDistinct(supplies: seq<Supply>, id: string)
    ensures DistinctPairs(BindingsOf(supplies, id))
    decreases |supplies|
  {
    if supplies != [] {
      PairsAreDistinct(supplies[..|supplies| - 1], id);
    }
  }

  lemma {:induction false} BindingsAreSupplied(supplies: seq<Supply>, id: string, b: Binding)
    requires b in BindingsOf(supplies, id)
    ensures exists s :: s in supplies && s.resource.id == id && s.binding == b
    decreases |supplies|
  {
    var before, last := supplies[..|supplies| - 1], supplies[|supplies| - 1];
    if b in BindingsOf(before, id) {
      BindingsAreSupplied(before, id, b);
      var s :| s in before && s.resource.id == id && s.binding == b;
      assert s in supplies;
    } else {
      assert last in supplies;
    }
  }

  lemma {:induction false} SuppliersAreBound(supplies: seq<Supply>, s: Supply)
    requires s in supplies
    ensures HasPair(BindingsOf(supplies, s.resource.id), s.binding)
    decreases |supplies|
  {
    var before, last := supplies[..|supplies| - 1], supplies[|supplies| - 1];
    var was, bs := BindingsOf(before, s.resource.id), BindingsOf(supplies, s.resource.id);
    if HasPair(was, s.binding) {
      var k :| 0 <= k < |was| && SamePair(was[k], s.binding);
      assert SamePair(bs[k], s.binding);
    } else if s in before {
      SuppliersAreBound(before, s);
    } else {
      assert bs[|was|] == s.binding;
    }
  }

  lemma {:induction false} PageSuppliesAre(page: AgentPage, n: nat, s: Supply)
    requires n <= |page.resources|
    ensures s in PageSupplies(page, n) <==>
              exists j :: 0 <= j < n && IsReadyWiki(page.resources[j]) && s == Supply(page.resources[j], page.agent)
  {
    if n > 0 {
      PageSuppliesAre(page, n - 1, s);
    }
  }

  lemma {:induction false} SuppliesAre(pages: seq<AgentPage>, n: nat, s: Supply)
    requires n <= |pages|
    ensures s in Supplies(pages, n) <==>
              exists i, j :: 0 <= i < n && 0 <= j < |pages[i].resources| && IsReadyWiki(pages[i].resources[j])
                             && s == Supply(pages[i].resources[j], pages[i].agent)
  {
    if n > 0 {
      SuppliesAre(pages, n - 1, s);
      PageSuppliesAre(pages[n - 1], |pages[n - 1].resources|, s);
    }
  }

  /** The merged scope holds each ready Wiki any agent supplies exactly once, and its bindings are exactly the
      (team, agent) pairs that supply it, each once. */
  lemma {:induction false} ScopeIsExact(pages: seq<AgentPage>, scope: seq<Scoped>)
    requires IsGrouping(scope, Supplies(pages, |pages|))
    ensures forall j, k :: 0 <= j < k < |scope| ==> scope[j].resource.id != scope[k].resource.id
    ensures forall i, j :: 0 <= i < |pages| && 0 <= j < |pages[i].resources| && IsReadyWiki(pages[i].resources[j]) ==>
              exists k :: 0 <= k < |scope| && scope[k].resource.id == pages[i].resources[j].id
                          && HasPair(scope[k].bindings, pages[i].agent)
    ensures forall k :: 0 <= k < |scope| ==>
              && scope[k].bindings != []
              && (forall b :: b in scope[k].bindings ==> Supplied(pages, scope[k].resource.id, b))
              && DistinctPairs(scope[k].bindings)
  {
    var supplies := Supplies(pages, |pages|);
    IdsAreDistinct(supplies);
    forall i, j | 0 <= i < |pages| && 0 <= j < |pages[i].resources| && IsReadyWiki(pages[i].resources[j])
      ensures exists k :: 0 <= k < |scope| && scope[k].resource.id == pages[i].resources[j].id
                          && HasPair(scope[k].bindings, pages[i].agent)
    {
      var s := Supply(pages[i].resources[j], pages[i].agent);
      SuppliesAre(pages, |pages|, s);
      SuppliersAreBound(supplies, s);
      var n :| 0 <= n < |supplies| && supplies[n] == s;
      assert s.resource.id in Ids(supplies);
      var k :| 0 <= k < |scope| && Ids(supplies)[k] == s.resource.id;
    }
    forall k | 0 <= k < |scope|
      ensures scope[k].bindings != []
      ensures forall b :: b in scope[k].bindings ==> Supplied(pages, scope[k].resource.id, b)
      ensures DistinctPairs(scope[k].bindings)
    {
      BindingsAreOfSuppliers(pages, Ids(supplies)[k]);
    }
  }

  lemma {:induction false} BindingsAreOfSuppliers(pages: seq<AgentPage>, id: string)
    requires id in Ids(Supplies(pages, |pages|))
    ensures var bs := BindingsOf(Supplies(pages, |pages|), id);
            && bs != []
            && (forall b :: b in bs ==> Supplied(pages, id, b))
            && DistinctPairs(bs)
  {
    var supplies := Supplies(pages, |pages|);
    IdsAreDistinct(supplies);
    PairsAreDistinct(supplies, id);
    var n :| 0 <= n < |supplies| && supplies[n].resource.id == id;
    SuppliersAreBound(supplies, supplies[n]);
    forall b | b in BindingsOf(supplies, id)
      ensures Supplied(pages, id, b)
    {
      BindingsAreSupplied(supplies, id, b);
      var s :| s in supplies && s.resource.id == id && s.binding == b;
      SuppliesAre(pages, |pages|, s);
    }
  }


  // ----- The same, on the fields -----

  /** Agent i supplies a ready Wiki with this id. */
  predicate Offers(pages: seq<AgentPage>, i: nat, id: string) {
    i < |pages| && exists j :: 0 <= j < |pages[i].resources| && pages[i].resources[j].kind == "wiki"
                               && pages[i].resources[j].status == "ready" && pages[i].resources[j].id == id
  }

  lemma {:induction false} FirstIsSupplied(supplies: seq<Supply>, id: string)
    ensures FirstOf(supplies, id).Some? ==> exists s :: s in supplies && s.resource.id == id && s.resource == FirstOf(supplies, id).value
    decreases |supplies|
  {
    if supplies != [] {
      FirstIsSupplied(supplies[..|supplies| - 1], id);
      assert supplies[|supplies| - 1] in supplies;
    }
  }

  /** A ready Wiki, each binding the agent of a page that offers it, and no team and agent twice. */
  ghost predicate IsOffered(pages: seq<AgentPage>, s: Scoped) {
    && s.resource.kind == "wiki" && s.resource.status == "ready"
    && (forall b :: b in s.bindings ==> exists i: nat :: Offers(pages, i, s.resource.id) && pages[i].agent == b)
    && forall i, j :: 0 <= i < j < |s.bindings| ==>
         s.bindings[i].teamId != s.bindings[j].teamId || s.bindings[i].agentId != s.bindings[j].agentId
  }

  /** The Wiki is in the scope, under this agent. */
  ghost predicate IsScoped(scope: seq<Scoped>, id: string, agent: Binding) {
    exists k, n :: 0 <= k < |scope| && scope[k].resource.id == id && 0 <= n < |scope[k].bindings|
                   && scope[k].bindings[n].teamId == agent.teamId && scope[k].bindings[n].agentId == agent.agentId
  }

  lemma {:induction false} BindingIsOffered(pages: seq<AgentPage>, id: string, b: Binding)
    requires b in BindingsOf(Supplies(pages, |pages|), id)
    ensures exists i: nat :: Offers(pages, i, id) && pages[i].agent == b
  {
    var supplies := Supplies(pages, |pages|);
    BindingsAreSupplied(supplies, id, b);
    var t :| t in supplies && t.resource.id == id && t.binding == b;
    SuppliesAre(pages, |pages|, t);
    var i, j :| 0 <= i < |pages| && 0 <= j < |pages[i].resources| && IsReadyWiki(pages[i].resources[j])
                && t == Supply(pages[i].resources[j], pages[i].agent);
    assert Offers(pages, i, id);
  }

  lemma {:induction false} FirstIsReady(pages: seq<AgentPage>, id: string)
    requires FirstOf(Supplies(pages, |pages|), id).Some?
    ensures var r := FirstOf(Supplies(pages, |pages|), id).value; r.kind == "wiki" && r.status == "ready"
  {
    var supplies := Supplies(pages, |pages|);
    FirstIsSupplied(supplies, id);
    var s :| s in supplies && s.resource.id == id && s.resource == FirstOf(supplies, id).value;
    SuppliesAre(pages, |pages|, s);
  }

  lemma {:induction false} ScopedIsOffered(pages: seq<AgentPage>, supplies: seq<Supply>, scope: seq<Scoped>, k: nat)
    requires supplies == Supplies(pages, |pages|) && IsGrouping(scope, supplies) && k < |scope|
    ensures IsOffered(pages, scope[k])
  {
    var id := Ids(supplies)[k];
    assert scope[k].resource.id == id && Some(scope[k].resource) == FirstOf(supplies, id) && scope[k].bindings == BindingsOf(supplies, id);
    FirstIsReady(pages, id);
    PairsAreDistinct(supplies, id);
    forall b | b in scope[k].bindings
      ensures exists i: nat :: Offers(pages, i, scope[k].resource.id) && pages[i].agent == b
    {
      BindingIsOffered(pages, id, b);
    }
  }

  lemma {:induction false} OfferIsScoped(pages: seq<AgentPage>, supplies: seq<Supply>, scope: seq<Scoped>, i: nat, id: string)
    requires supplies == Supplies(pages, |pages|) && IsGrouping(scope, supplies) && Offers(pages, i, id)
    ensures IsScoped(scope, id, pages[i].agent)
  {
    var j :| 0 <= j < |pages[i].resources| && pages[i].resources[j].kind == "wiki" && pages[i].resources[j].status == "ready"
             && pages[i].resources[j].id == id;
    var s := Supply(pages[i].resources[j], pages[i].agent);
    SuppliesAre(pages, |pages|, s);
    SuppliersAreBound(supplies, s);
    IdsAreDistinct(supplies);
    var n :| 0 <= n < |supplies| && supplies[n] == s;
    assert supplies[n].resource.id == id && id in Ids(supplies);
    var k :| 0 <= k < |Ids(supplies)| && Ids(supplies)[k] == id;
    assert scope[k].bindings == BindingsOf(supplies, id) && scope[k].resource.id == id;
    var m :| 0 <= m < |scope[k].bindings| && SamePair(scope[k].bindings[m], s.binding);
  }

  /** What a user's scope holds: only ready Wikis, each under agents that supply it, none of them twice, and every ready
      Wiki that an agent supplies, under that agent. */
  lemma {:induction false} ScopeReads(pages: seq<AgentPage>, scope: seq<Scoped>)
    requires IsGrouping(scope, Supplies(pages, |pages|))
    ensures forall k :: 0 <= k < |scope| ==> IsOffered(pages, scope[k])
    ensures forall i: nat, id :: Offers(pages, i, id) ==> IsScoped(scope, id, pages[i].agent)
  {
    forall k | 0 <= k < |scope| ensures IsOffered(pages, scope[k]) {
      ScopedIsOffered(pages, Supplies(pages, |pages|), scope, k);
    }
    forall i: nat, id | Offers(pages, i, id) ensures IsScoped(scope, id, pages[i].agent) {
      OfferIsScoped(pages, Supplies(pages, |pages|), scope, i, id);
    }
  }
}
