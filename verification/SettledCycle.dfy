/** A settled request whose size is edited settles again at the new size, however often that happens. */
module SettledCycle {
  import opened Api
  import opened Matching
  import opened Placement
  import opened Allocation
  import opened Cluster
  import opened Effects
  import opened Mirror

  /** The resource stands for its entry and for the request's current wishes. */
  ghost predicate InPlace(d: Details, caps: Capacities, e: Tracked, res: Resource) {
    && Fits(d, caps, res.spec) && IsLive(res) && !res.deleting
    && res.spec.targetNode == e.nodeName && e.nodeName != ""
  }

  /**
   Listed and tracked resources coincide, all fit, the policy is obeyed and the size is met. The admission
   guard keeps target nodes away from differentnode requests.
   */
  ghost predicate Settled(w: World, m: string, caps: Capacities) {
    && m in w.requests && w.inflight.None?
    && var r := w.requests[m];
       && !r.deleting && (r.state == Updating || r.state == Running) && r.scalar == r.spec
       && (r.spec.policy == DifferentNode ==> r.spec.targetNode == "")
       && |r.resources| == r.spec.size
       && (forall n :: ManagedBy(w, m, n) <==> n in r.resources)
       && (forall k :: k in r.resources ==> InPlace(r.spec, caps, r.resources[k], w.resources[k]))
       && ObeysPolicy(r.spec, r.resources)
  }

  /** One edit and what its passes looked up and wrote. */
  datatype Turn = Turn(size: nat, look: Lookups, wr: Writing)

  function Edited(w: World, m: string, size: nat): World
    requires m in w.requests
  {
    w.(requests := w.requests[m := w.requests[m].(spec := w.requests[m].spec.(size := size))])
  }

  /** The next pass, in Updating or Running, sees the new spec. */
  function Noticed(w: World, m: string): World
    requires m in w.requests
  {
    if w.requests[m].state == Running then RunPass(w, m, Saved) else UpdatePass(w, m, Writing([], [], 0, 0, ""), Saved)
  }

  /** The resource controller finishes the deletions that were marked. */
  function Reaped(w: World, m: string): World {
    w.(resources := map n | n in w.resources
       && !(w.resources[n].managedBy == m && w.resources[n].deleting) :: w.resources[n])
  }

  /** The turn goes through: a real edit, a successful allocation, and writes that do not fail. */
  ghost predicate GoesThrough(w: World, m: string, caps: Capacities, t: Turn)
    requires m in w.requests
  {
    && t.size != w.requests[m].spec.size && t.look.caps == caps
    && var w2 := Noticed(Edited(w, m, t.size), m);
       && Enabled(w2, PassAllocate(m, t.look, Saved))
       && Decision(w2, m, t.look).Allocated?
       && var w3 := AllocatePass(w2, m, t.look, Saved);
          && Enabled(w3, PassUpdate(m, t.wr, Saved))
          && t.wr.budget >= |t.wr.listing| + |t.wr.order|
  }

  ghost function Cycle(w: World, m: string, caps: Capacities, t: Turn): World
    requires m in w.requests && GoesThrough(w, m, caps, t)
  {
    var w2 := Noticed(Edited(w, m, t.size), m);
    Reaped(UpdatePass(AllocatePass(w2, m, t.look, Saved), m, t.wr, Saved), m)
  }

  /** All listed resources fit and obey the policy, next to what the pass has already seen. */
  ghost predicate AllGood(d: Details, caps: Capacities, p: Progress, items: seq<Item>) {
    && (forall i :: 0 <= i < |items| ==> Fits(d, caps, items[i].res.spec))
    && (d.policy == DifferentNode ==>
          && (forall i, j :: 0 <= i < j < |items| ==> items[i].res.spec.targetNode != items[j].res.spec.targetNode)
          && (forall i :: 0 <= i < |items| ==> items[i].res.spec.targetNode !in p.used))
    && (d.policy == SameNode ==>
          && (forall i, j :: 0 <= i < j < |items| ==> items[i].res.spec.targetNode == items[j].res.spec.targetNode)
          && (forall i :: 0 <= i < |items| ==> p.sameNode == "" || items[i].res.spec.targetNode == p.sameNode))
  }

  /** On such a list the match pass forgets nothing. */
  lemma {:induction false} MatchKeepsAll(d: Details, caps: Capacities, p: Progress, items: seq<Item>)
    requires AllGood(d, caps, p, items)
    ensures MatchFrom(d, caps, p, items).Matched?
    ensures MatchFrom(d, caps, p, items).progress.tracked == p.tracked
    decreases |items|
  {
    if items != [] {
      var head, rest := items[0], items[1..];
      if p.toAllocate == 0 {
        MatchStaysFull(d, caps, p, items);
      } else {
        assert Judge(d, caps, p, head.res.spec).Keep?;
        assert AllGood(d, caps, Kept(d, p, head.res.spec), rest);
        MatchKeepsAll(d, caps, Kept(d, p, head.res.spec), rest);
      }
    }
  }

  /** The listed items are the tracked resources, each in place. */
  ghost predicate Represents(items: seq<Item>, d: Details, caps: Capacities, tracked: map<string, Tracked>) {
    forall i :: 0 <= i < |items| ==> items[i].name in tracked && InPlace(d, caps, tracked[items[i].name], items[i].res)
  }

  lemma SettledItems(w: World, m: string, caps: Capacities, listing: seq<string>)
    requires Settled(w, m, caps) && Lists(w, m, listing)
    ensures var items := Live(ItemsOf(w.resources, listing));
      && DistinctNames(items) && Names(items) == w.requests[m].resources.Keys
      && Represents(items, w.requests[m].spec, caps, w.requests[m].resources)
  {
    var items := Live(ItemsOf(w.resources, listing));
    var tracked := w.requests[m].resources;
    ListedLive(w, m, listing);
    forall i | 0 <= i < |items|
      ensures items[i].name in tracked && InPlace(w.requests[m].spec, caps, tracked[items[i].name], items[i].res)
    {
      assert ManagedBy(w, m, items[i].name);
    }
    forall k | k in tracked ensures k in Names(items) {
      assert ManagedBy(w, m, k);
      assert InPlace(w.requests[m].spec, caps, tracked[k], w.resources[k]);
    }
  }

  lemma RepresentsIsGood(items: seq<Item>, d: Details, caps: Capacities, tracked: map<string, Tracked>, size: nat)
    requires DistinctNames(items) && Represents(items, d, caps, tracked) && ObeysPolicy(d, tracked)
    ensures var d' := d.(size := size);
      NodesNamed(items) && SameNodesAs(tracked, items) && AllGood(d', caps, Start(d', tracked), items)
        && ObeysPolicy(d', tracked)
  {
    assert forall i, j :: 0 <= i < j < |items| ==> items[i].name in tracked && items[j].name in tracked;
  }

  lemma FewerObey(d: Details, tracked: map<string, Tracked>, fewer: map<string, Tracked>)
    requires ObeysPolicy(d, tracked) && fewer.Keys <= tracked.Keys && forall k :: k in fewer ==> fewer[k] == tracked[k]
    ensures ObeysPolicy(d, fewer)
  {
  }

  /** The nodes given to new entries can carry them. */
  lemma NewNodesCarry(d: Details, sv: Survey, p: Progress)
    requires Place(d, sv, p).Placed? && forall n :: n in sv.nodes ==> n != ""
    requires d.policy == SameNode && d.targetNode == "" && p.tracked != map[] ==>
      p.sameNode != "" && Sufficient(d, sv.caps, p.sameNode)
    ensures forall n :: n in Place(d, sv, p).nodes ==> n != "" && Sufficient(d, sv.caps, n)
  {
    if d.policy == DifferentNode {
      ApartGivesFreeNodes(d, sv.caps, p.used, p.toAllocate, sv.nodes, []);
    } else if d.targetNode == "" {
      TogetherOutcome(d, sv, p.toAllocate, sv.nodes);
    }
  }

  /** The node the match pass remembers carries what it kept. */
  lemma SameNodeCarries(d: Details, items: seq<Item>, tracked: map<string, Tracked>, caps: Capacities)
    requires d.policy == SameNode && DistinctNames(items) && NodesNamed(items) && Names(items) == tracked.Keys
    requires MatchFrom(d, caps, Start(d, tracked), items).Matched?
    requires var q := MatchFrom(d, caps, Start(d, tracked), items).progress; q.toDelete == 0 && q.tracked != map[]
    ensures var q := MatchFrom(d, caps, Start(d, tracked), items).progress;
      q.sameNode != "" && Sufficient(d, caps, q.sameNode)
  {
    var q := MatchFrom(d, caps, Start(d, tracked), items).progress;
    MatchForgetsOnlyListed(d, caps, Start(d, tracked), items);
    MatchedFit(d, caps, Start(d, tracked), items);
    var k :| k in q.tracked;
    var i :| 0 <= i < |items| && items[i].name == k;
  }

  /** A successful pass over a settled request's resources with another size. */
  lemma ResizedEntries(d: Details, items: seq<Item>, tracked: map<string, Tracked>, sv: Survey, victims: set<string>,
                       spare: seq<string>)
    requires DistinctNames(items) && NodesNamed(items) && Names(items) == tracked.Keys && SameNodesAs(tracked, items)
    requires AllGood(d, sv.caps, Start(d, tracked), items) && ObeysPolicy(d, tracked)
    requires UnusedNames(spare, d.size, tracked.Keys) && RightVictims(d, items, tracked, sv, victims)
    requires forall n :: n in sv.nodes ==> n != ""
    requires Allocate(d, items, tracked, sv, victims, spare).Allocated?
    ensures var out := Allocate(d, items, tracked, sv, victims, spare).tracked;
      && |out| == d.size && ObeysPolicy(d, out)
      && (forall k :: k in out && k in tracked ==> out[k] == tracked[k])
      && (forall k :: k in out && k !in tracked ==>
            k in spare && out[k].nodeName != "" && Sufficient(d, sv.caps, out[k].nodeName))
  {
    var p := Start(d, tracked);
    MatchKeepsAll(d, sv.caps, p, items);
    var q := MatchFrom(d, sv.caps, p, items).progress;
    Conservation(d, items, tracked, sv, victims, spare);
    assert tracked.Keys - q.tracked.Keys == {};
    assert victims * {} == {};
    DecisionEntries(d, items, tracked, sv, victims, spare);
    var out := Allocate(d, items, tracked, sv, victims, spare).tracked;
    if q.toDelete > 0 {
      FewerObey(d, tracked, out);
    } else {
      PolicyWithoutSurplus(d, items, tracked, sv, victims, spare);
      if d.policy == SameNode && q.tracked != map[] {
        SameNodeCarries(d, items, tracked, sv.caps);
      }
      MatchSurplus(d, sv.caps, p, items);
      PlaceLength(d, sv, q);
      NewNodesCarry(d, sv, q);
      var nodes := Place(d, sv, q).nodes;
      forall k | k in out && k !in tracked ensures out[k].nodeName != "" && Sufficient(d, sv.caps, out[k].nodeName) {
        var i := AddedNode(q.tracked, spare, nodes, k);
        assert nodes[i] in nodes;
      }
    }
  }

  /** The edit reaches NodeAllocating and changes nothing else. */
  lemma NoticedEdit(w: World, m: string, caps: Capacities, size: nat)
    requires Settled(w, m, caps) && size != w.requests[m].spec.size
    ensures var w2 := Noticed(Edited(w, m, size), m);
      && m in w2.requests && w2.resources == w.resources && w2.inflight == w.inflight
      && w2.requests[m].spec == w.requests[m].spec.(size := size)
      && w2.requests[m].resources == w.requests[m].resources
      && w2.requests[m].state == NodeAllocating && !w2.requests[m].deleting
  {
    var w1 := Edited(w, m, size);
    assert w1.requests[m].scalar != w1.requests[m].spec;
  }

  /** What the allocation pass leaves behind. */
  lemma ResizedRequest(w: World, m: string, caps: Capacities, t: Turn)
    requires Settled(w, m, caps) && GoesThrough(w, m, caps, t)
    ensures var w3 := AllocatePass(Noticed(Edited(w, m, t.size), m), m, t.look, Saved);
      var old', new' := w.requests[m].resources, w3.requests[m].resources;
      var d := w.requests[m].spec.(size := t.size);
      && w3.resources == w.resources && w3.inflight == w.inflight
      && w3.requests[m].state == Updating && w3.requests[m].spec == d && w3.requests[m].scalar == d
      && !w3.requests[m].deleting
      && |new'| == t.size && ObeysPolicy(d, new')
      && (forall k :: k in new' && k in old' ==> new'[k] == old'[k])
      && (forall k :: k in new' && k !in old' ==>
            k !in w.resources && new'[k].nodeName != "" && Sufficient(d, caps, new'[k].nodeName))
  {
    NoticedEdit(w, m, caps, t.size);
    var w2 := Noticed(Edited(w, m, t.size), m);
    var d := w2.requests[m].spec;
    var tracked := w2.requests[m].resources;
    assert Lists(w, m, t.look.listing) by {
      forall n
        ensures n in t.look.listing <==> ManagedBy(w, m, n)
      {
        assert ManagedBy(w2, m, n) <==> ManagedBy(w, m, n);
      }
    }
    SettledItems(w, m, caps, t.look.listing);
    RepresentsIsGood(Live(ItemsOf(w.resources, t.look.listing)), w.requests[m].spec, caps, tracked, t.size);
    assert UnusedNames(t.look.spare, d.size, tracked.Keys) by {
      forall i | 0 <= i < |t.look.spare| ensures t.look.spare[i] !in tracked { assert !InUse(w2, t.look.spare[i]); }
    }
    var items, sv := Live(ItemsOf(w2.resources, t.look.listing)), SurveyOf(w2, m, t.look);
    ResizedEntries(d, items, tracked, sv, t.look.victims, t.look.spare);
    var out := Decision(w2, m, t.look).tracked;
    forall k | k in out && k !in tracked ensures k !in w.resources { assert !InUse(w2, k); }
  }

  lemma {:induction false} CreateEachSucceeds(resources: map<string, Resource>, owner: string, d: Details,
                                              tracked: map<string, Tracked>,
                                              names: seq<string>, existing: set<string>, budget: nat, now: int)
    requires forall n :: n in names ==> n in tracked
    requires forall i, j :: 0 <= i < j < |names| ==> names[i] != names[j]
    requires forall n :: n in names && n !in existing ==> n !in resources
    requires budget >= |names|
    ensures CreateEach(resources, owner, d, tracked, names, existing, budget, now).ok
    decreases |names|
  {
    if names != [] {
      var head, rest := names[0], names[1..];
      assert forall i :: 0 <= i < |rest| ==> rest[i] == names[i + 1];
      assert forall n :: n in rest ==> n in names && n != head;
      if head in existing {
        CreateEachSucceeds(resources, owner, d, tracked, rest, existing, budget, now);
      } else {
        CreateEachSucceeds(resources[head := NewResource(owner, d, tracked[head].nodeName, now)], owner, d, tracked,
                           rest, existing, budget - 1, now);
      }
    }
  }

  /** Tracked resources in the store are the request's own and wanted. */
  ghost predicate OwnEntries(w: World, m: string)
    requires m in w.requests
  {
    forall k :: k in w.requests[m].resources && k in w.resources ==> ManagedBy(w, m, k) && !w.resources[k].deleting
  }

  /** The deletions of the pass: tracked resources stay as they are, no other managed one is left unmarked. */
  lemma DeletionsReconcile(w: World, m: string, wr: Writing)
    requires m in w.requests && Lists(w, m, wr.listing) && OwnEntries(w, m) && wr.budget >= |wr.listing|
    ensures var r := w.requests[m]; var deleted := DeleteEach(w.resources, wr.listing, r.resources.Keys, wr.budget);
      && deleted.ok && deleted.budget >= wr.budget - |wr.listing|
      && (forall k :: k in r.resources ==> (k in deleted.resources <==> k in w.resources))
      && (forall k :: k in r.resources && k in w.resources ==> deleted.resources[k] == w.resources[k])
      && (forall n :: n in deleted.resources ==>
            deleted.resources[n].managedBy == m && !deleted.resources[n].deleting ==> n in r.resources)
  {
    var r := w.requests[m];
    DeleteEachSucceeds(w.resources, wr.listing, r.resources.Keys, wr.budget);
    DeleteEachEffect(w.resources, wr.listing, r.resources.Keys, wr.budget);
    DeleteEachComplete(w.resources, wr.listing, r.resources.Keys, wr.budget);
    hide DeleteEach;
    var deleted := DeleteEach(w.resources, wr.listing, r.resources.Keys, wr.budget);
    forall n | n in deleted.resources && deleted.resources[n].managedBy == m && !deleted.resources[n].deleting
      ensures n in r.resources
    {
      assert ManagedBy(w, m, n);
    }
  }

  /** The creations of the pass: every tracked name has its resource, and nothing else is new. */
  lemma CreationsReconcile(before: map<string, Resource>, m: string, r: Request, order: seq<string>,
                           existing: set<string>, budget: nat, now: int)
    requires forall n :: n in order <==> n in r.resources
    requires forall i, j :: 0 <= i < j < |order| ==> order[i] != order[j]
    requires forall k :: k in r.resources ==> (k in existing <==> k in before)
    requires budget >= |order|
    ensures var created := CreateEach(before, m, r.spec, r.resources, order, existing, budget, now);
      && created.ok
      && (forall k :: k in r.resources ==>
            k in created.resources && created.resources[k] == if k in before then before[k]
              else NewResource(m, r.spec, r.resources[k].nodeName, now))
      && (forall n :: n in created.resources && n !in r.resources ==> n in before && created.resources[n] == before[n])
  {
    CreateEachSucceeds(before, m, r.spec, r.resources, order, existing, budget, now);
    CreateEachComplete(before, m, r.spec, r.resources, order, existing, budget, now);
    CreateEachEffect(before, m, r.spec, r.resources, order, existing, budget, now);
    hide CreateEach;
  }

  /** The request after an Updating pass that got through: Running once every entry is Online. */
  function AfterUpdating(r: Request): Request {
    if forall k :: k in r.resources ==> r.resources[k].state == Online then
      r.(state := Running, error := "", scalar := r.spec)
    else r
  }

  /** A pass whose deletions and creations go through leaves what the creations leave. */
  lemma UpdateWritesAll(w: World, m: string, wr: Writing, existing: set<string>)
    requires m in w.requests && forall n :: n in wr.order ==> n in w.requests[m].resources
    requires !w.requests[m].deleting && w.requests[m].scalar == w.requests[m].spec
    requires existing == set n | n in wr.listing && n in w.requests[m].resources
    requires var r := w.requests[m]; var deleted := DeleteEach(w.resources, wr.listing, r.resources.Keys, wr.budget);
      deleted.ok && CreateEach(deleted.resources, m, r.spec, r.resources, wr.order, existing, deleted.budget, wr.now).ok
    ensures var r := w.requests[m]; var deleted := DeleteEach(w.resources, wr.listing, r.resources.Keys, wr.budget);
      UpdatePass(w, m, wr, Saved).resources == CreateEach(deleted.resources, m, r.spec, r.resources, wr.order, existing,
                                                          deleted.budget, wr.now).resources
    ensures UpdatePass(w, m, wr, Saved).requests == w.requests[m := AfterUpdating(w.requests[m])]
  {
    hide DeleteEach, CreateEach;
  }

  /** The store after a pass whose writes succeed. */
  lemma UpdatedResources(w: World, m: string, wr: Writing)
    requires Ready(w, m, Updating) && Lists(w, m, wr.listing) && OwnEntries(w, m)
    requires forall n :: n in wr.order <==> n in w.requests[m].resources
    requires forall i, j :: 0 <= i < j < |wr.order| ==> wr.order[i] != wr.order[j]
    requires !w.requests[m].deleting && w.requests[m].scalar == w.requests[m].spec
    requires wr.budget >= |wr.listing| + |wr.order|
    ensures var r, after := w.requests[m], UpdatePass(w, m, wr, Saved).resources;
      && (forall k :: k in r.resources ==>
            k in after && after[k] == if k in w.resources then w.resources[k]
              else NewResource(m, r.spec, r.resources[k].nodeName, wr.now))
      && (forall n :: n in after && after[n].managedBy == m && !after[n].deleting ==> n in r.resources)
    ensures UpdatePass(w, m, wr, Saved).requests == w.requests[m := AfterUpdating(w.requests[m])]
  {
    hide DeleteEach, CreateEach, UpdatePass;
    var r := w.requests[m];
    DeletionsReconcile(w, m, wr);
    var deleted := DeleteEach(w.resources, wr.listing, r.resources.Keys, wr.budget);
    var existing := set n | n in wr.listing && n in r.resources;
    assert forall k :: k in r.resources ==> (k in existing <==> k in deleted.resources) by {
      forall k | k in r.resources
        ensures k in wr.listing <==> k in w.resources
      {
        assert k in wr.listing <==> ManagedBy(w, m, k);
      }
    }
    CreationsReconcile(deleted.resources, m, r, wr.order, existing, deleted.budget, wr.now);
    UpdateWritesAll(w, m, wr, existing);
  }

  /** An Updating pass whose writes succeed makes the managed resources that are not being deleted the tracked ones. */
  lemma UpdateReconciles(w: World, m: string, wr: Writing)
    requires Ready(w, m, Updating) && Lists(w, m, wr.listing) && OwnEntries(w, m)
    requires forall n :: n in wr.order <==> n in w.requests[m].resources
    requires forall i, j :: 0 <= i < j < |wr.order| ==> wr.order[i] != wr.order[j]
    requires !w.requests[m].deleting && w.requests[m].scalar == w.requests[m].spec
    requires wr.budget >= |wr.listing| + |wr.order|
    ensures var w' := UpdatePass(w, m, wr, Saved); var r := w.requests[m];
      && (forall n :: n in w'.resources && w'.resources[n].managedBy == m && !w'.resources[n].deleting <==>
            n in r.resources)
      && (forall k :: k in r.resources ==> k in w'.resources)
      && (forall k :: k in r.resources && k in w.resources ==> w'.resources[k] == w.resources[k])
      && (forall k :: k in r.resources && k !in w.resources ==>
            && w'.resources[k] == NewResource(m, r.spec, r.resources[k].nodeName, wr.now)
            && w'.resources[k].spec == ResourceSpec(r.spec.kind, r.spec.model, r.resources[k].nodeName,
                                                    r.spec.forceDetach)
            && w'.resources[k].status.state == Blank && w'.resources[k].detachID == "")
      && w'.requests == w.requests[m := AfterUpdating(r)]
      && StatusIs(w'.requests[m], w'.requests[m].state, r.resources, r.spec)
      && (w'.requests[m].state == Updating || w'.requests[m].state == Running)
      && OnlyStatus(w, w', m)
  {
    assert forall n :: n in wr.listing ==> ManagedBy(w, m, n);
    UpdatedResources(w, m, wr);
    UpdateEffect(w, m, wr, Saved);
    hide UpdatePass;
  }

  /** What a turn's allocation left, relative to the settled state it started from. */
  ghost predicate Resized(w: World, m: string, caps: Capacities, r: Request)
    requires m in w.requests
  {
    var old', new' := w.requests[m].resources, r.resources;
    && r.spec == w.requests[m].spec.(size := r.spec.size) && r.scalar == r.spec && !r.deleting
    && |new'| == r.spec.size && ObeysPolicy(r.spec, new')
    && (forall k :: k in new' && k in old' ==> new'[k] == old'[k])
    && (forall k :: k in new' && k !in old' ==>
          k !in w.resources && new'[k].nodeName != "" && Sufficient(r.spec, caps, new'[k].nodeName))
  }

  lemma KeptInPlace(w: World, m: string, caps: Capacities, r: Request, k: string)
    requires Settled(w, m, caps) && Resized(w, m, caps, r) && k in r.resources && k in w.resources
    ensures ManagedBy(w, m, k) && InPlace(r.spec, caps, r.resources[k], w.resources[k])
  {
    assert k in w.requests[m].resources;
    assert InPlace(w.requests[m].spec, caps, w.requests[m].resources[k], w.resources[k]);
    assert ManagedBy(w, m, k);
  }

  lemma NewInPlace(w: World, m: string, caps: Capacities, r: Request, k: string, now: int)
    requires Settled(w, m, caps) && Resized(w, m, caps, r) && k in r.resources && k !in w.resources
    ensures InPlace(r.spec, caps, r.resources[k], NewResource(m, r.spec, r.resources[k].nodeName, now))
  {
    assert k !in w.requests[m].resources by { assert !ManagedBy(w, m, k); }
  }

  /** Resources kept from a settled state, and new ones made from entries that nodes can carry, are in place. */
  lemma ReapedSettles(w: World, w3: World, m: string, caps: Capacities, wr: Writing)
    requires Settled(w, m, caps) && w3.resources == w.resources && m in w3.requests
    requires Resized(w, m, caps, w3.requests[m])
    requires Enabled(w3, PassUpdate(m, wr, Saved)) && wr.budget >= |wr.listing| + |wr.order|
    ensures var w' := Reaped(UpdatePass(w3, m, wr, Saved), m);
      Settled(w', m, caps) && w'.requests[m].spec == w3.requests[m].spec
  {
    var r := w3.requests[m];
    forall k | k in r.resources && k in w3.resources ensures ManagedBy(w3, m, k) && !w3.resources[k].deleting {
      KeptInPlace(w, m, caps, r, k);
    }
    UpdateReconciles(w3, m, wr);
    var w4 := UpdatePass(w3, m, wr, Saved);
    var w5 := Reaped(w4, m);
    forall k | k in r.resources ensures InPlace(r.spec, caps, r.resources[k], w4.resources[k]) {
      if k in w3.resources { KeptInPlace(w, m, caps, r, k); } else { NewInPlace(w, m, caps, r, k, wr.now); }
    }
    forall n ensures ManagedBy(w5, m, n) <==> n in r.resources {}
  }

  /** One turn: the request is settled again, at the new size. */
  lemma TurnSettles(w: World, m: string, caps: Capacities, t: Turn)
    requires Settled(w, m, caps) && GoesThrough(w, m, caps, t)
    ensures var w' := Cycle(w, m, caps, t);
      Settled(w', m, caps) && w'.requests[m].spec == w.requests[m].spec.(size := t.size)
  {
    ResizedRequest(w, m, caps, t);
    ReapedSettles(w, AllocatePass(Noticed(Edited(w, m, t.size), m), m, t.look, Saved), m, caps, t.wr);
  }

  /** A sequence of turns, each of which goes through. */
  ghost predicate AllGoThrough(w: World, m: string, caps: Capacities, turns: seq<Turn>)
    decreases |turns|
  {
    turns == [] || (m in w.requests && GoesThrough(w, m, caps, turns[0])
                    && AllGoThrough(Cycle(w, m, caps, turns[0]), m, caps, turns[1..]))
  }

  ghost function Cycles(w: World, m: string, caps: Capacities, turns: seq<Turn>): World
    requires AllGoThrough(w, m, caps, turns)
    decreases |turns|
  {
    if turns == [] then w else Cycles(Cycle(w, m, caps, turns[0]), m, caps, turns[1..])
  }

  /** However many edits: always settled, always with exactly the size last asked for. */
  lemma {:induction false} EditsSettle(w: World, m: string, caps: Capacities, turns: seq<Turn>)
    requires Settled(w, m, caps) && AllGoThrough(w, m, caps, turns)
    ensures var w' := Cycles(w, m, caps, turns);
      && Settled(w', m, caps)
      && |w'.requests[m].resources| == (if turns == [] then |w.requests[m].resources| else turns[|turns| - 1].size)
    decreases |turns|
  {
    hide GoesThrough, Cycle, Enabled, ObeysPolicy, InPlace;
    if turns != [] {
      TurnSettles(w, m, caps, turns[0]);
      EditsSettle(Cycle(w, m, caps, turns[0]), m, caps, turns[1..]);
    }
  }
}
