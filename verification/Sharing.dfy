/**
 Why allocations must be steady: after one that is not, a few more events, all of them prudent, lead to two
 samenode requests without target node on one node.
 */
module Sharing {
  import opened Api
  import opened Matching
  import opened Placement
  import opened Allocation
  import opened Cluster
  import opened Effects
  import opened NoOrphans
  import opened Mirror
  import opened Unguarded
  import opened Exclusivity

  // Names that nobody uses.

  ghost function Taken(w: World): set<string> {
    w.requests.Keys + w.resources.Keys + w.pending
    + (if w.inflight.Some? then {w.inflight.value.name} else {})
    + (set m, k | m in w.requests && k in w.requests[m].resources :: k)
  }

  lemma TakenIsInUse(w: World, n: string)
    ensures InUse(w, n) <==> n in Taken(w)
  {
  }

  lemma {:induction false} Longest(names: set<string>) returns (bound: nat)
    ensures forall n :: n in names ==> |n| <= bound
  {
    bound := 0;
    if names != {} {
      var n :| n in names;
      var rest := Longest(names - {n});
      bound := if |n| > rest then |n| else rest;
    }
  }

  /** As many different names as wanted, none of them taken. */
  lemma FreshNames(taken: set<string>, count: nat) returns (names: seq<string>)
    ensures |names| == count && forall i :: 0 <= i < count ==> names[i] !in taken && names[i] != ""
    ensures forall i, j :: 0 <= i < j < count ==> names[i] != names[j]
  {
    var bound := Longest(taken);
    names := seq(count, i requires 0 <= i < count => seq(bound + 1 + i, _ => 'x'));
    assert forall i :: 0 <= i < count ==> |names[i]| == bound + 1 + i;
  }

  // A request on two nodes.

  /** A floating request has an entry on a node that no other one has, and an entry elsewhere. */
  ghost predicate Split(w: World, r: string, k: string, y: string) {
    && Floats(w, r) && TracksBy(w, r, k) && TracksBy(w, r, y)
    && var node := w.requests[r].resources[k].nodeName;
       && node != "" && w.requests[r].resources[y].nodeName != node
       && forall m, l :: m != r && Floats(w, m) && TracksBy(w, m, l) ==> w.requests[m].resources[l].nodeName != node
  }

  /** An allocation that is not steady keeps an entry it cannot list and puts new ones elsewhere. */
  lemma UnsteadyDecision(d: Details, items: seq<Item>, tracked: map<string, Tracked>, sv: Survey,
                         victims: set<string>, spare: seq<string>)
    returns (k: string, y: string)
    requires d.policy == SameNode && d.targetNode == "" && NodesNamed(items) && UnusedNames(spare, d.size, tracked.Keys)
    requires !Steady(d, sv.caps, items, tracked)
    ensures Allocate(d, items, tracked, sv, victims, spare).Allocated?
    ensures var out := Allocate(d, items, tracked, sv, victims, spare).tracked;
      k in tracked && k in out && out[k] == tracked[k] && y in out && out[y].nodeName != tracked[k].nodeName
  {
    var p := Start(d, tracked);
    var q := MatchFrom(d, sv.caps, p, items).progress;
    k :| k in tracked && k !in Names(items) && tracked[k].nodeName != FirstFit(d, sv.caps, items);
    MatchForgetsOnlyListed(d, sv.caps, p, items);
    MatchSurplus(d, sv.caps, p, items);
    PassGoesOnWith(d, sv.caps, p, items);
    hide MatchFrom, FirstFit;
    assert k in q.tracked && q.tracked != map[];
    var nodes := Repeat(q.toAllocate, q.sameNode);
    assert Place(d, sv, q) == Placed(nodes);
    AddedEntries(q.tracked, spare, nodes);
    y := spare[0];
  }

  /** An allocation that leaves entries on the empty node name is one of these. */
  lemma BlankIsUnsteady(d: Details, items: seq<Item>, tracked: map<string, Tracked>, sv: Survey,
                        victims: set<string>, spare: seq<string>)
    requires d.policy == SameNode && d.targetNode == "" && DistinctNames(items) && NodesNamed(items)
    requires !HasBlankNode(tracked) && UnusedNames(spare, d.size, tracked.Keys) && forall n :: n in sv.nodes ==> n != ""
    requires Allocate(d, items, tracked, sv, victims, spare).Allocated?
    requires HasBlankNode(Allocate(d, items, tracked, sv, victims, spare).tracked)
    ensures !Steady(d, sv.caps, items, tracked)
  {
    BlankNodeIff(d, items, tracked, sv, victims, spare);
    SameNodeKnown(d, sv.caps, Start(d, tracked), items);
    PassGoesOnWith(d, sv.caps, Start(d, tracked), items);
    var k :| k in tracked.Keys - Names(items);
  }

  /** The entries an allocation decides on are stored, unless its status write is lost. */
  lemma DecisionIsStored(w: World, r: string, look: Lookups, save: Save)
    requires Enabled(w, PassAllocate(r, look, save)) && !w.requests[r].deleting && !save.Lost?
    requires Decision(w, r, look).Allocated?
    ensures var w' := AllocatePass(w, r, look, save);
      && w'.requests == w.requests[r := w'.requests[r]] && w'.inflight == w.inflight
      && w'.requests[r].resources == Decision(w, r, look).tracked && w'.requests[r].spec == w.requests[r].spec
  {
    hide Allocate, RightVictims, LooksUp;
  }

  lemma UnsteadySplits(w: World, r: string, look: Lookups, save: Save) returns (k: string, y: string)
    requires Safe(w) && Enabled(w, PassAllocate(r, look, save)) && !Prudent(w, PassAllocate(r, look, save))
    ensures var w' := AllocatePass(w, r, look, save); Split(w', r, k, y) && w'.inflight.None?
  {
    hide Allocate, Steady, RightVictims, Guarded, Loose, AllocatePass;
    var q := w.requests[r];
    ReadyToAllocate(w, r, look, save);
    k, y := UnsteadyDecision(q.spec, Live(ItemsOf(w.resources, look.listing)), q.resources, SurveyOf(w, r, look),
                             look.victims, look.spare);
    DecisionIsStored(w, r, look, save);
    var w' := AllocatePass(w, r, look, save);
    assert TracksBy(w, r, k) && HasNode(w, r, k);
    forall m, l | m != r && Floats(w', m) && TracksBy(w', m, l)
      ensures w'.requests[m].resources[l].nodeName != q.resources[k].nodeName
    {
      assert Floats(w, m) && TracksBy(w, m, l);
    }
  }

  // A newcomer on the node that looks free.

  const NEWCOMER := Details("", "", 1, false, SameNode, "", None)

  const UNSET := Details("", "", 0, false, SameNode, "", None)

  /** A samenode request that asks for that very node. */
  ghost predicate Pinned(w: World, p: string, node: string) {
    p in w.requests && w.requests[p].spec.policy == SameNode && w.requests[p].spec.targetNode == node
  }

  ghost predicate NobodyPinned(w: World, node: string) {
    forall p :: !Pinned(w, p, node)
  }

  /** The world with one more request in it. */
  function Joining(w: World, s: string, state: RequestState, entries: map<string, Tracked>): World {
    var scalar := if state == NoState then UNSET else NEWCOMER;
    w.(requests := w.requests[s := Request(NEWCOMER, state, "", entries, scalar, false, state != NoState)])
  }

  lemma NewcomerArrives(w: World, s: string)
    requires s != "" && !InUse(w, s)
    ensures var e := CreateRequest(s, NEWCOMER); Enabled(w, e) && Next(w, e) == Joining(w, s, NoState, map[])
  {
  }

  lemma NewcomerIsAccepted(w: World, s: string)
    requires w.inflight.None?
    ensures var w1, e := Joining(w, s, NoState, map[]), PassNone(s, true, "", Saved);
      Enabled(w1, e) && Next(w1, e) == Joining(w, s, NodeAllocating, map[])
  {
  }

  /** The first entries a scan may see: of the split request, the one elsewhere. */
  ghost function Firsts(w: World, r: string, y: string): map<string, string> {
    map m | m in w.requests && w.requests[m].resources != map[] ::
      if m == r then y else var k :| k in w.requests[m].resources; k
  }

  function NewcomerLook(peers: seq<string>, firsts: map<string, string>, node: string, z: string): Lookups {
    Lookups([], peers, firsts, [node], Capacities(map[]), false, {}, [z])
  }

  /** Nobody seems to stand on the node. */
  lemma LooksFree(w: World, s: string, r: string, k: string, y: string, peers: seq<string>)
    requires Split(w, r, k, y) && s !in w.requests && NobodyPinned(w, w.requests[r].resources[k].nodeName)
    requires forall n :: n in peers <==> n == s || n in w.requests
    ensures var w2, node := Joining(w, s, NodeAllocating, map[]), w.requests[r].resources[k].nodeName;
      !Occupied(PeersOf(w2.requests, peers, Firsts(w, r, y)), s, node)
  {
    var w2, node := Joining(w, s, NodeAllocating, map[]), w.requests[r].resources[k].nodeName;
    var all := PeersOf(w2.requests, peers, Firsts(w, r, y));
    forall i | 0 <= i < |all| && all[i].name != s ensures PeerNode(all[i]) != node {
      var m := peers[i];
      assert m in peers && w2.requests[m] == w.requests[m] && !Pinned(w, m, node);
      if Floats(w, m) && w.requests[m].resources != map[] && m != r {
        assert TracksBy(w, m, Firsts(w, r, y)[m]);
      }
    }
  }

  /** So the newcomer gets it. */
  lemma NewcomerIsPlaced(sv: Survey, node: string, z: string)
    requires sv.nodes == [node] && !Occupied(sv.peers, sv.self, node)
    ensures Allocate(NEWCOMER, [], map[], sv, {}, [z]) == Allocated(map[z := NewEntry(node)])
  {
    var nodes := Repeat(1, node);
    assert Place(NEWCOMER, sv, Start(NEWCOMER, map[])) == Placed(nodes);
    assert AddFirst(map[], [z], nodes, 0) == map[];
    assert AddFirst(map[], [z], nodes, 1) == map[z := NewEntry(node)];
  }

  lemma NewcomerLooksUp(w: World, s: string, r: string, k: string, y: string, peers: seq<string>, z: string)
    requires Guarded(w) && Split(w, r, k, y) && s != "" && !InUse(w, s) && !InUse(w, z) && z != s
    requires forall n :: n in peers <==> n == s || n in w.requests
    ensures LooksUp(Joining(w, s, NodeAllocating, map[]), s,
                    NewcomerLook(peers, Firsts(w, r, y), w.requests[r].resources[k].nodeName, z))
  {
    var w2 := Joining(w, s, NodeAllocating, map[]);
    forall n ensures !ManagedBy(w2, s, n) {
      if n in w.resources { assert Owned(w, n); }
    }
    assert forall m :: m in w2.requests && m != s ==> w2.requests[m] == w.requests[m];
    assert !InUse(w2, z) by {
      assert forall m :: m in w2.requests && z in w2.requests[m].resources ==> m in w.requests;
    }
  }

  lemma NewcomerAllocates(w: World, s: string, look: Lookups, node: string, z: string)
    requires w.inflight.None? && look.listing == [] && look.victims == {} && look.spare == [z] && look.nodes == [node]
    requires var w2 := Joining(w, s, NodeAllocating, map[]);
      LooksUp(w2, s, look) && !Occupied(PeersOf(w2.requests, look.peers, look.firsts), s, node)
    ensures var w2, e := Joining(w, s, NodeAllocating, map[]), PassAllocate(s, look, Saved);
      Enabled(w2, e) && Prudent(w2, e) && Next(w2, e) == Joining(w, s, Updating, map[z := NewEntry(node)])
  {
    var w2 := Joining(w, s, NodeAllocating, map[]);
    assert Live(ItemsOf(w2.resources, [])) == [];
    NewcomerIsPlaced(SurveyOf(w2, s, look), node, z);
    assert RightVictims(NEWCOMER, [], map[], SurveyOf(w2, s, look), {});
    hide Allocate, RightVictims, LooksUp, MatchFrom;
  }

  /** Two different requests that float track one real node. */
  ghost predicate Share(w: World, m: string, m': string, k: string, l: string) {
    && m != m' && Floats(w, m) && Floats(w, m') && TracksBy(w, m, k) && TracksBy(w, m', l)
    && w.requests[m].resources[k].nodeName == w.requests[m'].resources[l].nodeName != ""
  }

  /** The three events that make two requests share a node, once one of them stands on two. */
  lemma NewcomerShares(w: World, r: string, k: string, y: string)
    returns (s: string, z: string, e1: Event, e2: Event, e3: Event)
    requires Guarded(w) && w.inflight.None? && Split(w, r, k, y) && NobodyPinned(w, w.requests[r].resources[k].nodeName)
    ensures e1.CreateRequest? && e2.PassNone? && e3.PassAllocate?
    ensures Enabled(w, e1) && Prudent(w, e1)
    ensures var w1 := Next(w, e1); Enabled(w1, e2) && Prudent(w1, e2)
    ensures var w2 := Next(Next(w, e1), e2); Enabled(w2, e3) && Prudent(w2, e3) && Share(Next(w2, e3), r, s, k, z)
  {
    var node := w.requests[r].resources[k].nodeName;
    var names := FreshNames(Taken(w), 2);
    s, z := names[0], names[1];
    TakenIsInUse(w, s);
    TakenIsInUse(w, z);
    var peers := Enumerate(w.requests.Keys + {s});
    var look := NewcomerLook(peers, Firsts(w, r, y), node, z);
    assert s !in w.requests;
    hide Guarded, Split, InUse, Taken, Enabled, Next, LooksUp, Occupied, NobodyPinned;
    NewcomerArrives(w, s);
    NewcomerIsAccepted(w, s);
    NewcomerLooksUp(w, s, r, k, y, peers, z);
    LooksFree(w, s, r, k, y, peers);
    NewcomerAllocates(w, s, look, node, z);
    e1, e2, e3 := CreateRequest(s, NEWCOMER), PassNone(s, true, "", Saved), PassAllocate(s, look, Saved);
    SharesAtTheEnd(w, r, k, y, s, z);
  }

  lemma SharesAtTheEnd(w: World, r: string, k: string, y: string, s: string, z: string)
    requires Split(w, r, k, y) && s !in w.requests
    ensures Share(Joining(w, s, Updating, map[z := NewEntry(w.requests[r].resources[k].nodeName)]), r, s, k, z)
  {
  }
}
