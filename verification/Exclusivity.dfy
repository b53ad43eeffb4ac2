/**
 Two samenode requests that leave the node to the allocator never share one, in every run in which each of
 their allocations finds the tracked resources it cannot list on the node it goes on with.
 */
module Exclusivity {
  import opened Api
  import opened Matching
  import opened Placement
  import opened Allocation
  import opened Cluster
  import opened Effects
  import opened NoOrphans
  import opened Mirror
  import opened Unguarded

  /** A samenode request without target node. */
  predicate Floating(r: Request) {
    r.spec.policy == SameNode && r.spec.targetNode == ""
  }

  ghost predicate Floats(w: World, m: string) {
    m in w.requests && Floating(w.requests[m])
  }

  /** Entries of one floating request share a node; entries of two never do. */
  ghost predicate Exclusive(w: World) {
    forall m, m', k, l :: Floats(w, m) && Floats(w, m') && TracksBy(w, m, k) && TracksBy(w, m', l) ==>
      (m == m' <==> w.requests[m].resources[k].nodeName == w.requests[m'].resources[l].nodeName)
  }

  /** All of one node. */
  ghost predicate AllOn(tracked: map<string, Tracked>, node: string) {
    forall k :: k in tracked ==> tracked[k].nodeName == node
  }

  lemma AddedOn(tracked: map<string, Tracked>, names: seq<string>, nodes: seq<string>, node: string)
    requires UnusedNames(names, |nodes|, tracked.Keys) && AllOn(tracked, node)
    requires forall i :: 0 <= i < |nodes| ==> nodes[i] == node
    ensures AllOn(AddEntries(tracked, names, nodes), node)
  {
    var out := AddEntries(tracked, names, nodes);
    AddedEntries(tracked, names, nodes);
    forall k | k in out ensures out[k].nodeName == node {
      if k !in tracked { var i := AddedNode(tracked, names, nodes, k); }
    }
  }

  // What a run must keep to.

  /** The node of the first listed resource that fits, "" if none does. */
  ghost function FirstFit(d: Details, caps: Capacities, items: seq<Item>): string
    decreases |items|
  {
    if items == [] then ""
    else if Fits(d, caps, items[0].res.spec) then items[0].res.spec.targetNode
    else FirstFit(d, caps, items[1..])
  }

  /** That is the node a samenode pass goes on with. */
  lemma {:induction false} PassGoesOnWith(d: Details, caps: Capacities, p: Progress, items: seq<Item>)
    requires d.policy == SameNode && p.toAllocate > 0 && p.sameNode == "" && NodesNamed(items)
    requires MatchFrom(d, caps, p, items).Matched?
    ensures MatchFrom(d, caps, p, items).progress.sameNode == FirstFit(d, caps, items)
    decreases |items|
  {
    if items != [] {
      var head, rest := items[0], items[1..];
      if Fits(d, caps, head.res.spec) {
        PolicyIsStable(d, caps, Kept(d, p, head.res.spec), rest);
      } else {
        PassGoesOnWith(d, caps, p.(tracked := p.tracked - {head.name}), rest);
      }
    }
  }

  /**
   What a pass of a floating request must find: if something is missing, every tracked resource that is not
   listed is on the node of the first listed resource that fits.
   */
  ghost predicate Steady(d: Details, caps: Capacities, items: seq<Item>, tracked: map<string, Tracked>) {
    var r := MatchFrom(d, caps, Start(d, tracked), items);
    r.Matched? && r.progress.toAllocate > 0 ==>
      forall k :: k in tracked && k !in Names(items) ==> tracked[k].nodeName == FirstFit(d, caps, items)
  }

  ghost predicate SteadyPass(w: World, name: string, look: Lookups)
    requires name in w.requests && forall n :: n in look.listing ==> n in w.resources
  {
    var r := w.requests[name];
    Steady(r.spec, look.caps, Live(ItemsOf(w.resources, look.listing)), r.resources)
  }

  /** No edit makes a request float, and every allocation of a floating request that is stored is steady. */
  ghost predicate Prudent(w: World, e: Event) {
    match e
    case EditRequest(name, spec) =>
      name in w.requests && spec.policy == SameNode && spec.targetNode == "" ==> Floating(w.requests[name])
    case PassAllocate(name, look, save) =>
      Floats(w, name) && !w.requests[name].deleting && !save.Lost? ==>
        (forall n :: n in look.listing ==> n in w.resources) ==> SteadyPass(w, name, look)
    case _ => true
  }

  // What such a run keeps.

  /** Entries of floating requests name a node, the one their resource asks for; so do the resources they manage. */
  ghost predicate Anchored(w: World) {
    && (forall m, k :: Floats(w, m) && TracksBy(w, m, k) ==> HasNode(w, m, k))
    && (forall n :: n in w.resources && Floats(w, w.resources[n].managedBy) ==> w.resources[n].spec.targetNode != "")
  }

  ghost predicate HasNode(w: World, m: string, k: string)
    requires TracksBy(w, m, k)
  {
    var node := w.requests[m].resources[k].nodeName;
    node != "" && (k in w.resources ==> w.resources[k].spec.targetNode == node)
  }

  ghost predicate Safe(w: World) {
    Guarded(w) && Loose(w) && Anchored(w) && Exclusive(w)
  }

  /** Without surplus, a steady match pass leaves a request on one node on the node it goes on with. */
  lemma KeptOnSameNode(d: Details, items: seq<Item>, tracked: map<string, Tracked>, caps: Capacities)
    requires d.policy == SameNode && MatchFrom(d, caps, Start(d, tracked), items).Matched?
    requires DistinctNames(items) && NodesNamed(items) && SameNodesAs(tracked, items) && Steady(d, caps, items, tracked)
    requires MatchFrom(d, caps, Start(d, tracked), items).progress.toAllocate > 0
    ensures var q := MatchFrom(d, caps, Start(d, tracked), items).progress; AllOn(q.tracked, q.sameNode)
  {
    var p := Start(d, tracked);
    var q := MatchFrom(d, caps, p, items).progress;
    MatchForgetsOnlyListed(d, caps, p, items);
    MatchSurplus(d, caps, p, items);
    MatchedFit(d, caps, p, items);
    PassGoesOnWith(d, caps, p, items);
    forall k | k in q.tracked ensures q.tracked[k].nodeName == q.sameNode {
      if k in Names(items) {
        var i :| 0 <= i < |items| && items[i].name == k;
      }
    }
  }

  /** After a successful steady pass a floating request is on one node: the one it had, or an unoccupied one. */
  lemma FloatingDecision(d: Details, items: seq<Item>, tracked: map<string, Tracked>, sv: Survey,
                         victims: set<string>, spare: seq<string>)
    returns (node: string)
    requires d.policy == SameNode && d.targetNode == "" && Steady(d, sv.caps, items, tracked)
    requires DistinctNames(items) && NodesNamed(items) && SameNodesAs(tracked, items)
    requires forall k, l :: k in tracked && l in tracked ==> tracked[k].nodeName == tracked[l].nodeName
    requires UnusedNames(spare, d.size, tracked.Keys) && forall n :: n in sv.nodes ==> n != ""
    requires Allocate(d, items, tracked, sv, victims, spare).Allocated?
    ensures var out := Allocate(d, items, tracked, sv, victims, spare).tracked;
      && AllOn(out, node)
      && (|| out.Keys <= tracked.Keys
          || (node != "" && !Occupied(sv.peers, sv.self, node))
          || exists l :: l in tracked && tracked[l].nodeName == node)
  {
    var p := Start(d, tracked);
    var q := MatchFrom(d, sv.caps, p, items).progress;
    MatchForgetsOnlyListed(d, sv.caps, p, items);
    MatchSurplus(d, sv.caps, p, items);
    var left := AfterRemoval(q, victims);
    PlaceLength(d, sv, left);
    var nodes := Place(d, sv, left).nodes;
    if nodes == [] {
      AddedEntries(left.tracked, spare, nodes);
      if k :| k in left.tracked { node := left.tracked[k].nodeName; } else { node := ""; }
    } else if left.tracked == map[] {
      TogetherOutcome(d, sv, left.toAllocate, sv.nodes);
      node := nodes[0];
      AddedOn(left.tracked, spare, nodes, node);
    } else {
      KeptOnSameNode(d, items, tracked, sv.caps);
      node := q.sameNode;
      var l :| l in left.tracked;
      assert l in tracked && tracked[l].nodeName == node;
      AddedOn(left.tracked, spare, nodes, node);
    }
  }

  /** Another floating request with entries makes its node occupied for everybody else. */
  lemma PeerOccupies(w: World, name: string, look: Lookups, m: string, l: string)
    requires ListsPeers(w, look) && Exclusive(w) && Floats(w, m) && TracksBy(w, m, l) && m != name
    ensures Occupied(SurveyOf(w, name, look).peers, name, w.requests[m].resources[l].nodeName)
  {
    var i :| 0 <= i < |look.peers| && look.peers[i] == m;
    var peer := SurveyOf(w, name, look).peers[i];
    assert w.requests[m].resources != map[];
    assert TracksBy(w, m, look.firsts[m]);
    assert PeerNode(peer) == w.requests[m].resources[l].nodeName;
  }

  /** The entries of `name` may change; if they do, they stay on one node that no other floating request has. */
  lemma EntriesStayExclusive(w: World, w': World, name: string)
    requires Exclusive(w) && name in w.requests && name in w'.requests
    requires w'.requests == w.requests[name := w'.requests[name]]
    requires Floats(w', name) ==> Floats(w, name)
    requires Floats(w', name) ==> forall k, l :: TracksBy(w', name, k) && TracksBy(w', name, l) ==>
      w'.requests[name].resources[k].nodeName == w'.requests[name].resources[l].nodeName
    requires Floats(w', name) ==>
      forall k, m, l :: TracksBy(w', name, k) && m != name && Floats(w, m) && TracksBy(w, m, l) ==>
      w'.requests[name].resources[k].nodeName != w.requests[m].resources[l].nodeName
    ensures Exclusive(w')
  {
    forall m, m', k, l | Floats(w', m) && Floats(w', m') && TracksBy(w', m, k) && TracksBy(w', m', l)
      ensures m == m' <==> w'.requests[m].resources[k].nodeName == w'.requests[m'].resources[l].nodeName
    {
      if m != name { assert Floats(w, m) && TracksBy(w, m, k); }
      if m' != name { assert Floats(w, m') && TracksBy(w, m', l); }
    }
  }

  /** Fewer entries, or the same nodes. */
  lemma SameNodesStayExclusive(w: World, w': World)
    requires Exclusive(w)
    requires forall m :: Floats(w', m) && w'.requests[m].resources != map[] ==> Floats(w, m)
    requires forall m, k :: Floats(w', m) && TracksBy(w', m, k) ==>
      TracksBy(w, m, k) && w'.requests[m].resources[k].nodeName == w.requests[m].resources[k].nodeName
    ensures Exclusive(w')
  {
    forall m, m', k, l | Floats(w', m) && Floats(w', m') && TracksBy(w', m, k) && TracksBy(w', m', l)
      ensures m == m' <==> w'.requests[m].resources[k].nodeName == w'.requests[m'].resources[l].nodeName
    {
      assert Floats(w, m) && TracksBy(w, m, k) && Floats(w, m') && TracksBy(w, m', l);
    }
  }

  lemma UnusedFor(w: World, name: string, look: Lookups, save: Save)
    requires Enabled(w, PassAllocate(name, look, save))
    ensures UnusedNames(look.spare, w.requests[name].spec.size, w.requests[name].resources.Keys)
  {
    forall i | 0 <= i < |look.spare| ensures look.spare[i] !in w.requests[name].resources {
      assert !InUse(w, look.spare[i]);
    }
  }

  /** A node the request already has, or that is not occupied, is not the node of another floating request. */
  lemma NodeIsElsewhere(w: World, name: string, look: Lookups, node: string, m: string, l: string)
    requires Exclusive(w) && ListsPeers(w, look) && Floats(w, name) && m != name && Floats(w, m) && TracksBy(w, m, l)
    requires !Occupied(SurveyOf(w, name, look).peers, name, node) ||
             exists o :: o in w.requests[name].resources && w.requests[name].resources[o].nodeName == node
    ensures node != w.requests[m].resources[l].nodeName
  {
    PeerOccupies(w, name, look, m, l);
    if o :| o in w.requests[name].resources && w.requests[name].resources[o].nodeName == node {
      assert TracksBy(w, name, o);
    }
  }

  ghost predicate FreeOrHad(w: World, name: string, look: Lookups, node: string)
    requires name in w.requests && forall n :: n in look.peers ==> n in w.requests
  {
    || !Occupied(SurveyOf(w, name, look).peers, name, node)
    || exists o :: o in w.requests[name].resources && w.requests[name].resources[o].nodeName == node
  }

  /** What a steady pass of a floating request starts from. */
  ghost predicate FloatingReady(w: World, name: string, look: Lookups)
    requires name in w.requests && forall n :: n in look.listing ==> n in w.resources
  {
    var items, r := Live(ItemsOf(w.resources, look.listing)), w.requests[name];
    && DistinctNames(items) && NodesNamed(items) && SameNodesAs(r.resources, items)
    && (forall k, l :: k in r.resources && l in r.resources ==> r.resources[k].nodeName == r.resources[l].nodeName)
    && (forall k :: k in r.resources ==> r.resources[k].nodeName != "")
    && UnusedNames(look.spare, r.spec.size, r.resources.Keys)
    && (forall n :: n in look.nodes ==> n != "")
  }

  lemma ReadyToAllocate(w: World, name: string, look: Lookups, save: Save)
    requires Anchored(w) && Exclusive(w) && Enabled(w, PassAllocate(name, look, save)) && Floats(w, name)
    ensures FloatingReady(w, name, look)
  {
    UnusedFor(w, name, look, save);
    ListedLive(w, name, look.listing);
    var tracked, items := w.requests[name].resources, Live(ItemsOf(w.resources, look.listing));
    forall k, l | k in tracked && l in tracked
      ensures tracked[k].nodeName == tracked[l].nodeName && tracked[k].nodeName != ""
    {
      assert TracksBy(w, name, k) && TracksBy(w, name, l) && HasNode(w, name, k);
    }
    forall i | 0 <= i < |items| && items[i].name in tracked
      ensures tracked[items[i].name].nodeName == items[i].res.spec.targetNode
    {
      assert TracksBy(w, name, items[i].name) && HasNode(w, name, items[i].name);
    }
  }

  /** A successful steady pass of a floating request, seen from the cluster. */
  lemma FloatingPass(w: World, name: string, look: Lookups) returns (node: string)
    requires Floats(w, name) && (forall n :: n in look.peers ==> n in w.requests)
    requires (forall n :: n in look.listing ==> n in w.resources)
    requires FloatingReady(w, name, look) && Decision(w, name, look).Allocated?
    requires SteadyPass(w, name, look)
    ensures var out := Decision(w, name, look).tracked;
      && AllOn(out, node)
      && (out.Keys <= w.requests[name].resources.Keys || (node != "" && FreeOrHad(w, name, look, node)))
  {
    hide Steady, Allocate;
    var r := w.requests[name];
    node := FloatingDecision(r.spec, Live(ItemsOf(w.resources, look.listing)), r.resources, SurveyOf(w, name, look),
                             look.victims, look.spare);
  }

  lemma FloatingElsewhere(w: World, name: string, look: Lookups, out: map<string, Tracked>, node: string)
    requires Exclusive(w) && ListsPeers(w, look) && Floats(w, name) && AllOn(out, node)
    requires out.Keys <= w.requests[name].resources.Keys || FreeOrHad(w, name, look, node)
    requires forall k :: k in out && k in w.requests[name].resources ==> out[k] == w.requests[name].resources[k]
    ensures forall k, m, l :: k in out && m != name && Floats(w, m) && TracksBy(w, m, l) ==>
      node != w.requests[m].resources[l].nodeName
  {
    forall k, m, l | k in out && m != name && Floats(w, m) && TracksBy(w, m, l)
      ensures node != w.requests[m].resources[l].nodeName
    {
      if k in w.requests[name].resources {
        assert w.requests[name].resources[k].nodeName == node;
      }
      NodeIsElsewhere(w, name, look, node, m, l);
    }
  }

  lemma NewEntriesStayExclusive(w: World, w': World, name: string, node: string)
    requires Exclusive(w) && Floats(w, name) && name in w'.requests
    requires w'.requests == w.requests[name := w'.requests[name]]
    requires AllOn(w'.requests[name].resources, node)
    requires forall k, m, l :: k in w'.requests[name].resources && m != name && Floats(w, m) && TracksBy(w, m, l) ==>
      node != w.requests[m].resources[l].nodeName
    ensures Exclusive(w')
  {
    EntriesStayExclusive(w, w', name);
  }

  /** New entries of a floating request name a node and have no resource yet. */
  lemma NewEntriesStayAnchored(w: World, w': World, name: string, spare: seq<string>)
    requires Anchored(w) && Floats(w, name) && name in w'.requests
    requires w'.requests == w.requests[name := w'.requests[name]] && w'.resources == w.resources
    requires forall i :: 0 <= i < |spare| ==> !InUse(w, spare[i])
    requires var old', new' := w.requests[name].resources, w'.requests[name].resources;
      && (forall k :: k in new' && k in old' ==> new'[k] == old'[k])
      && (forall k :: k in new' && k !in old' ==> k in spare && new'[k].nodeName != "")
    ensures Anchored(w')
  {
    forall m, k | Floats(w', m) && TracksBy(w', m, k) ensures HasNode(w', m, k) {
      if TracksBy(w, m, k) {
        assert Floats(w, m) && HasNode(w, m, k);
      } else {
        assert !InUse(w, k);
      }
    }
    forall n | n in w'.resources && Floats(w', w'.resources[n].managedBy)
      ensures w'.resources[n].spec.targetNode != ""
    {
      assert Floats(w, w.resources[n].managedBy);
    }
  }

  /** Floating requests floated before, with the same nodes; resources keep spec and owner. */
  lemma SameNodesStaySafe(w: World, w': World)
    requires Anchored(w) && Exclusive(w)
    requires forall m :: Floats(w', m) ==> Floats(w, m) || (m !in w.requests && w'.requests[m].resources == map[])
    requires forall m, k :: Floats(w', m) && TracksBy(w', m, k) ==>
      TracksBy(w, m, k) && w'.requests[m].resources[k].nodeName == w.requests[m].resources[k].nodeName
    requires forall n :: n in w'.resources ==>
      || (n in w.resources && w'.resources[n].spec == w.resources[n].spec
          && w'.resources[n].managedBy == w.resources[n].managedBy
          && (Floats(w', w.resources[n].managedBy) ==> w.resources[n].managedBy in w.requests))
      || (!Floats(w', w'.resources[n].managedBy) && forall m :: Floats(w', m) ==> !TracksBy(w', m, n))
    ensures Anchored(w') && Exclusive(w')
  {
    SameNodesStayExclusive(w, w');
    forall m, k | Floats(w', m) && TracksBy(w', m, k) ensures HasNode(w', m, k) {
      assert Floats(w, m) && TracksBy(w, m, k) && HasNode(w, m, k);
    }
    forall n | n in w'.resources && Floats(w', w'.resources[n].managedBy)
      ensures w'.resources[n].spec.targetNode != ""
    {
      assert Floats(w, w.resources[n].managedBy);
    }
  }

  lemma AllocateStaysSafe(w: World, name: string, look: Lookups, save: Save)
    requires Safe(w) && Enabled(w, PassAllocate(name, look, save)) && Prudent(w, PassAllocate(name, look, save))
    ensures var w' := AllocatePass(w, name, look, save); Anchored(w') && Exclusive(w')
  {
    hide Guarded, Loose, Anchored, Exclusive, Steady, Allocate, RightVictims;
    var w' := AllocatePass(w, name, look, save);
    AllocateEffect(w, name, look, save);
    UnusedFor(w, name, look, save);
    var r, r' := w.requests[name], w'.requests[name];
    DecisionEntries(r.spec, Live(ItemsOf(w.resources, look.listing)), r.resources, SurveyOf(w, name, look),
                    look.victims, look.spare);
    if Floating(r) && r'.state == Updating {
      ReadyToAllocate(w, name, look, save);
      var node := FloatingPass(w, name, look);
      FloatingElsewhere(w, name, look, r'.resources, node);
      NewEntriesStayExclusive(w, w', name, node);
      NewEntriesStayAnchored(w, w', name, look.spare);
    } else {
      FewerStaySafe(w, w', name);
    }
  }

  /** A request loses entries, only moves on, or does not float. */
  lemma FewerStaySafe(w: World, w': World, name: string)
    requires Anchored(w) && Exclusive(w) && name in w.requests && name in w'.requests
    requires w'.requests == w.requests[name := w'.requests[name]] && w'.resources == w.resources
    requires Floats(w', name) ==> Floats(w, name)
    requires Floats(w', name) ==>
      var old', new' := w.requests[name].resources, w'.requests[name].resources;
      new'.Keys <= old'.Keys && forall k :: k in new' ==> new'[k] == old'[k]
    ensures Anchored(w') && Exclusive(w')
  {
    forall m, k | Floats(w', m) && TracksBy(w', m, k)
      ensures TracksBy(w, m, k) && w'.requests[m].resources[k].nodeName == w.requests[m].resources[k].nodeName
    {
      assert m == name || w'.requests[m] == w.requests[m];
    }
    hide Anchored, Exclusive;
    SameNodesStaySafe(w, w');
  }

  /** An Updating pass makes resources from entries, on the nodes the entries name. */
  lemma SyncStaysAnchored(w: World, w': World, name: string, wr: Writing)
    requires Loose(w) && Anchored(w) && OnlyStatus(w, w', name)
    requires w'.requests[name].resources == w.requests[name].resources
    requires Synced(w.resources, w'.resources, name, w.requests[name], wr.listing, wr.now)
    ensures Anchored(w')
  {
    hide FreshCopy, Plausible;
    forall m, k | Floats(w', m) && TracksBy(w', m, k) ensures HasNode(w', m, k) {
      assert Floats(w, m) && TracksBy(w, m, k) && HasNode(w, m, k);
      if k in w'.resources && k !in w.resources { assert TracksBy(w, name, k); }
    }
    forall n | n in w'.resources && Floats(w', w'.resources[n].managedBy)
      ensures w'.resources[n].spec.targetNode != ""
    {
      assert Floats(w, w'.resources[n].managedBy);
      if n !in w.resources { assert TracksBy(w, name, n) && HasNode(w, name, n); }
    }
  }

  lemma UpdateStaysSafe(w: World, name: string, wr: Writing, save: Save)
    requires Safe(w) && Ready(w, name, Updating) && Lists(w, name, wr.listing)
    requires forall n :: n in wr.order ==> n in w.requests[name].resources
    ensures var w' := UpdatePass(w, name, wr, save); Anchored(w') && Exclusive(w')
  {
    hide UpdatePass, Guarded, Loose, Anchored, Exclusive, Synced;
    assert forall n :: n in wr.listing ==> ManagedBy(w, name, n);
    UpdateEffect(w, name, wr, save);
    var w' := UpdatePass(w, name, wr, save);
    SameNodesStayExclusive(w, w');
    SyncStaysAnchored(w, w', name, wr);
  }

  lemma CleanStaysSafe(w: World, name: string, wr: Writing, save: Save)
    requires Safe(w) && Ready(w, name, Cleaning) && Lists(w, name, wr.listing)
    ensures var w' := CleanPass(w, name, wr, save); Anchored(w') && Exclusive(w')
  {
    hide CleanPass, Guarded, Loose, Anchored, Exclusive;
    CleanEffect(w, name, wr, save);
    SameNodesStaySafe(w, CleanPass(w, name, wr, save));
  }

  lemma RemovedStaysSafe(w: World, name: string)
    requires Anchored(w) && Exclusive(w) && Guarded(w) && name in w.requests
    ensures var w' := w.(requests := w.requests - {name}); Anchored(w') && Exclusive(w')
  {
    hide Anchored, Exclusive;
    SameNodesStaySafe(w, w.(requests := w.requests - {name}));
  }

  lemma UserStaysSafe(w: World, e: Event)
    requires Safe(w) && Enabled(w, e) && Prudent(w, e)
    requires e.EditRequest? || e.DeleteRequest? || e.PassError? || e.PassNone? || e.PassRun? || e.PassFinish?
    ensures Anchored(Next(w, e)) && Exclusive(Next(w, e))
  {
    hide Guarded, Loose, Anchored, Exclusive, NonePass, RunPass, Fail;
    var w' := Next(w, e);
    match e
    case EditRequest(name, _) => FewerStaySafe(w, w', name);
    case DeleteRequest(name) =>
      if w.requests[name].finalizer { FewerStaySafe(w, w', name); } else { RemovedStaysSafe(w, name); }
    case PassError(name, msg) => FailEffect(w, name, w.requests[name], msg, Saved); FewerStaySafe(w, w', name);
    case PassNone(name, added, msg, save) => NoneEffect(w, name, added, msg, save); FewerStaySafe(w, w', name);
    case PassRun(name, save) => RunEffect(w, name, save); FewerStaySafe(w, w', name);
    case PassFinish(name, dropped, msg, save) =>
      if !dropped {
        FailEffect(w, name, w.requests[name], msg, save); FewerStaySafe(w, w', name);
      } else if w.requests[name].deleting {
        RemovedStaysSafe(w, name);
      } else {
        FewerStaySafe(w, w', name);
      }
  }

  lemma CreatedStaysSafe(w: World, name: string, spec: Details)
    requires Safe(w) && Enabled(w, CreateRequest(name, spec))
    ensures var w' := Next(w, CreateRequest(name, spec)); Anchored(w') && Exclusive(w')
  {
    var w' := Next(w, CreateRequest(name, spec));
    forall n | n in w.resources ensures w.resources[n].managedBy != name { assert Owned(w, n); }
    hide Guarded, Loose, Anchored, Exclusive, Enabled;
    SameNodesStaySafe(w, w');
  }

  lemma FinishStaysSafe(w: World, ok: bool)
    requires Anchored(w) && Exclusive(w) && Guarded(w) && w.inflight.Some?
    ensures var w' := FinishMirror(w, ok); Anchored(w') && Exclusive(w')
  {
    hide Anchored, Exclusive, Guarded;
    SameNodesStaySafe(w, FinishMirror(w, ok));
  }

  /** A new object is nobody's: no request manages it and no entry names it. */
  lemma MadeStaysSafe(w: World, name: string, res: Resource)
    requires Safe(w) && Enabled(w, CreateResource(name, res))
    ensures var w' := Next(w, CreateResource(name, res)); Anchored(w') && Exclusive(w')
  {
    assert "" !in w.requests;
    assert forall m :: !TracksBy(w, m, name);
    hide Guarded, Loose, Anchored, Exclusive, InUse;
    SameNodesStaySafe(w, Next(w, CreateResource(name, res)));
  }

  lemma ResourceStaysSafe(w: World, e: Event)
    requires Anchored(w) && Exclusive(w) && Enabled(w, e)
    requires e.Begin? || e.WriteStatus? || e.AddFinalizer? || e.DropFinalizer? || e.DeleteResource?
    ensures Anchored(Next(w, e)) && Exclusive(Next(w, e))
  {
    hide Anchored, Exclusive;
    SameNodesStaySafe(w, Next(w, e));
  }

  lemma StepStaysExclusive(w: World, e: Event)
    requires Safe(w) && Enabled(w, e) && Prudent(w, e)
    ensures Anchored(Next(w, e)) && Exclusive(Next(w, e))
  {
    hide Guarded, Loose, Anchored, Exclusive, Prudent, AllocatePass, UpdatePass, CleanPass, FinishMirror;
    match e
    case CreateRequest(name, spec) => CreatedStaysSafe(w, name, spec);
    case PassAllocate(name, look, save) => AllocateStaysSafe(w, name, look, save);
    case PassUpdate(name, wr, save) => UpdateStaysSafe(w, name, wr, save);
    case PassClean(name, wr, save) => CleanStaysSafe(w, name, wr, save);
    case Finish(ok) => FinishStaysSafe(w, ok);
    case CreateResource(name, res) => MadeStaysSafe(w, name, res);
    case EditRequest(_, _) => UserStaysSafe(w, e);
    case DeleteRequest(_) => UserStaysSafe(w, e);
    case PassError(_, _) => UserStaysSafe(w, e);
    case PassNone(_, _, _, _) => UserStaysSafe(w, e);
    case PassRun(_, _) => UserStaysSafe(w, e);
    case PassFinish(_, _, _, _) => UserStaysSafe(w, e);
    case _ => ResourceStaysSafe(w, e);
  }

  lemma StepStaysSafe(w: World, e: Event)
    requires Safe(w) && Enabled(w, e) && Prudent(w, e)
    ensures Safe(Next(w, e))
  {
    hide Guarded, Loose, Anchored, Exclusive, Enabled, Next, Prudent;
    StepKeepsGuard(w, e);
    StepStaysLoose(w, e);
    StepStaysExclusive(w, e);
  }

  lemma {:induction false} RunStaysSafe(w: World, events: seq<Event>)
    requires Safe(w) && Legal(w, events, Prudent)
    ensures Safe(Run(w, events, Prudent))
    decreases |events|
  {
    hide Safe, Enabled, Next, Prudent;
    if events != [] {
      StepStaysSafe(w, events[0]);
      RunStaysSafe(Next(w, events[0]), events[1..]);
    }
  }

  lemma EmptyIsSafe()
    ensures Safe(EMPTY)
  {
  }

  /**
   Over every prudent run, whatever becomes of resources and nodes, two samenode requests without target node
   never track the same node.
   */
  lemma NeverShareNode(events: seq<Event>, m: string, m': string, k: string, l: string)
    requires Legal(EMPTY, events, Prudent) && m != m'
    requires var w := Run(EMPTY, events, Prudent);
      Floats(w, m) && Floats(w, m') && TracksBy(w, m, k) && TracksBy(w, m', l)
    ensures var w := Run(EMPTY, events, Prudent);
      w.requests[m].resources[k].nodeName != w.requests[m'].resources[l].nodeName
  {
    EmptyIsSafe();
    RunStaysSafe(EMPTY, events);
  }
}
