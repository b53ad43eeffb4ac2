/** When an edit of a settled request's size gets through the allocator, and when it cannot. */
module Resizing {
  import opened Api
  import opened Matching
  import opened Placement
  import opened Allocation
  import opened Cluster
  import opened Effects
  import opened SettledCycle

  /** The nodes of the first n listed resources. */
  function NodesOf(items: seq<Item>, n: nat): set<string>
    requires n <= |items|
  {
    set i | 0 <= i < n :: items[i].res.spec.targetNode
  }

  function Min(a: nat, b: nat): nat {
    if a <= b then a else b
  }

  lemma NodesOfHead(items: seq<Item>, n: nat)
    requires 0 < n <= |items|
    ensures NodesOf(items, n) == {items[0].res.spec.targetNode} + NodesOf(items[1..], n - 1)
  {
    forall i | 1 <= i < n ensures items[i].res.spec.targetNode in NodesOf(items[1..], n - 1) {
      assert items[1..][i - 1] == items[i];
    }
  }

  /** Where all listed resources are good the pass keeps the first ones and remembers their nodes, no others. */
  lemma {:induction false} MatchKeepsFirst(d: Details, caps: Capacities, p: Progress, items: seq<Item>)
    requires AllGood(d, caps, p, items)
    ensures var n := Min(p.toAllocate, |items|);
      MatchFrom(d, caps, p, items).Matched? &&
      var q := MatchFrom(d, caps, p, items).progress;
      && q.toAllocate == p.toAllocate - n && q.toDelete == p.toDelete + |items| - n && q.tracked == p.tracked
      && (d.policy == DifferentNode ==> q.used == p.used + NodesOf(items, n))
    decreases |items|
  {
    if items != [] && p.toAllocate == 0 {
      MatchStaysFull(d, caps, p, items);
    } else if items != [] {
      var head, rest := items[0], items[1..];
      assert Judge(d, caps, p, head.res.spec).Keep?;
      assert AllGood(d, caps, Kept(d, p, head.res.spec), rest);
      MatchKeepsFirst(d, caps, Kept(d, p, head.res.spec), rest);
      NodesOfHead(items, Min(p.toAllocate, |items|));
    }
  }

  /**
   What a resize of a request with these resources needs. A shrinking differentnode request needs luck:
   the first sufficient node of the cluster must carry one of the resources the pass keeps, or none may
   be sufficient at all.
   */
  ghost predicate Resizable(d: Details, items: seq<Item>, sv: Survey) {
    match d.policy
    case SameNode =>
      if d.targetNode != "" then sv.targetExists && Sufficient(d, sv.caps, d.targetNode)
      else
        || items != [] || d.size == 0
        || exists n :: n in sv.nodes && Sufficient(d, sv.caps, n) && !Occupied(sv.peers, sv.self, n)
    case DifferentNode =>
      if d.size > |items| then |Available(d, sv.caps, NodesOf(items, |items|), sv.nodes)| >= d.size - |items|
      else
        var first := FirstSufficient(d, sv.caps, sv.nodes);
        first.None? || first.value in NodesOf(items, d.size)
  }

  lemma FewerWithout(a: set<string>, b: set<string>, k: string)
    requires a <= b && k in b && k !in a
    ensures |a| < |b|
  {
    assert b == a + (b - a);
    assert k in b - a;
  }

  /** Removing k of the listed names empties the map exactly when all were removed. */
  lemma EmptiedIff(items: seq<Item>, tracked: map<string, Tracked>, victims: set<string>)
    requires DistinctNames(items) && Names(items) == tracked.Keys && victims <= Names(items)
    ensures tracked - victims == map[] <==> |victims| == |items|
  {
    NamesCount(items);
    if tracked - victims == map[] {
      assert tracked.Keys - victims == (tracked - victims).Keys == {};
      assert victims == tracked.Keys by {
        forall k | k in tracked.Keys ensures k in victims { assert k !in tracked.Keys - victims; }
      }
    } else {
      var k :| k in tracked - victims;
      FewerWithout(victims, tracked.Keys, k);
    }
  }

  /** Placement after the match pass and the removal, given what they leave. */
  lemma PlaceSucceedsIff(d: Details, items: seq<Item>, sv: Survey, p: Progress)
    requires NoLookupErrors(d, sv.caps, sv.nodes)
    requires (d.otherSpec.Some? && d.targetNode != "" ==> sv.caps.Look(d.targetNode).Capacity?)
    requires p.toAllocate == d.size - Min(d.size, |items|)
    requires d.policy == DifferentNode ==> p.used == NodesOf(items, Min(d.size, |items|))
    requires p.tracked == map[] <==> items == [] || d.size == 0
    ensures Place(d, sv, p).Placed? <==> Resizable(d, items, sv)
  {
    if d.policy == DifferentNode {
      if d.size > |items| {
        ApartSucceedsIff(d, sv.caps, p.used, p.toAllocate, sv.nodes);
      } else {
        ApartIdleIff(d, sv.caps, p.used, sv.nodes);
      }
    } else if d.targetNode == "" {
      TogetherOutcome(d, sv, p.toAllocate, sv.nodes);
    }
  }

  /** Resizing a request whose listed resources all fit: the pass succeeds exactly when the cluster allows it. */
  lemma ResizeSucceedsIff(d: Details, items: seq<Item>, tracked: map<string, Tracked>, sv: Survey,
                          victims: set<string>, spare: seq<string>)
    requires DistinctNames(items) && Names(items) == tracked.Keys && RightVictims(d, items, tracked, sv, victims)
    requires AllGood(d, sv.caps, Start(d, tracked), items)
    requires NoLookupErrors(d, sv.caps, sv.nodes)
    requires (d.otherSpec.Some? && d.targetNode != "" ==> sv.caps.Look(d.targetNode).Capacity?)
    ensures Allocate(d, items, tracked, sv, victims, spare).Allocated? <==> Resizable(d, items, sv)
  {
    hide AllGood, NoLookupErrors, Place, Resizable, MatchFrom, AddEntries, Names, DistinctNames;
    MatchKeepsFirst(d, sv.caps, Start(d, tracked), items);
    var q := MatchFrom(d, sv.caps, Start(d, tracked), items).progress;
    EmptiedIff(items, tracked, if q.toDelete > 0 then victims else {});
    assert tracked - {} == tracked;
    PlaceSucceedsIff(d, items, sv, AfterRemoval(q, victims));
  }

  /** An edit of a settled request, at the moment the allocator looks at it. */
  ghost predicate EditSeen(w: World, m: string, caps: Capacities, size: nat, look: Lookups) {
    && Settled(w, m, caps) && size != w.requests[m].spec.size && look.caps == caps
    && Enabled(Noticed(Edited(w, m, size), m), PassAllocate(m, look, Saved))
    && var d := w.requests[m].spec;
       NoLookupErrors(d, caps, look.nodes) && (d.otherSpec.Some? && d.targetNode != "" ==>
         caps.Look(d.targetNode).Capacity?)
  }

  /** Which size edits of a settled request the allocator accepts. */
  lemma EditAllocatesIff(w: World, m: string, caps: Capacities, size: nat, look: Lookups)
    requires EditSeen(w, m, caps, size, look)
    ensures var w2 := Noticed(Edited(w, m, size), m);
      Decision(w2, m, look).Allocated? <==>
        Resizable(w.requests[m].spec.(size := size), Live(ItemsOf(w.resources, look.listing)), SurveyOf(w2, m, look))
  {
    NoticedEdit(w, m, caps, size);
    var w2 := Noticed(Edited(w, m, size), m);
    var tracked := w2.requests[m].resources;
    assert Lists(w, m, look.listing) by {
      forall n ensures n in look.listing <==> ManagedBy(w, m, n) { assert ManagedBy(w2, m, n) <==> ManagedBy(w, m, n); }
    }
    SettledItems(w, m, caps, look.listing);
    var items := Live(ItemsOf(w.resources, look.listing));
    RepresentsIsGood(items, w.requests[m].spec, caps, tracked, size);
    ResizeSucceedsIff(w2.requests[m].spec, items, tracked, SurveyOf(w2, m, look), look.victims, look.spare);
  }
}
