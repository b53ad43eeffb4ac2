/** A request can always be taken out of the cluster, whatever state it is in and whatever it manages. */
module Leaving {
  import opened Api
  import opened Allocation
  import opened Cluster
  import opened NoOrphans
  import opened Mirror
  import opened Exclusivity
  import opened Sharing

  /** A run of prudent events of the cluster, and where it leads. */
  ghost predicate Leads(w: World, es: seq<Event>, w': World) {
    Legal(w, es, Prudent) && Run(w, es, Prudent) == w'
  }

  lemma Stay(w: World)
    ensures Leads(w, [], w)
  {
  }

  lemma Go(w: World, e: Event)
    requires Enabled(w, e) && Prudent(w, e)
    ensures Leads(w, [e], Next(w, e))
  {
    One(w, e, Prudent);
  }

  lemma GoOn(w: World, a: seq<Event>, w1: World, b: seq<Event>, w2: World)
    requires Leads(w, a, w1) && Leads(w1, b, w2)
    ensures Leads(w, a + b, w2)
  {
    RunAppends(w, a, b, Prudent);
  }

  // Its resources.

  /** Deleted, Deleting recorded, and the finalizer dropped: anybody's resource can be made to go. */
  lemma ResourceLeaves(w: World, n: string) returns (es: seq<Event>, w': World)
    requires n in w.resources
    ensures Leads(w, es, w') && w'.requests == w.requests && w'.inflight == w.inflight
    ensures w'.resources == w.resources - {n}
  {
    hide Leads;
    var e1 := DeleteResource(n);
    Go(w, e1);
    es, w' := [e1], Next(w, e1);
    if w.resources[n].finalizer {
      var e2, e3 := WriteStatus(n, w'.resources[n].status.(state := Deleting)), DropFinalizer(n);
      var w2 := Next(w', e2);
      Go(w', e2);
      Go(w2, e3);
      GoOn(w, [e1], w', [e2], w2);
      GoOn(w, [e1] + [e2], w2, [e3], Next(w2, e3));
      es := [e1] + [e2] + [e3];
      w' := Next(w2, e3);
      assert w'.resources == w.resources - {n};
    }
  }

  lemma {:induction false} ResourcesLeave(w: World, names: set<string>) returns (es: seq<Event>, w': World)
    requires names <= w.resources.Keys
    ensures Leads(w, es, w') && w'.requests == w.requests && w'.inflight == w.inflight
    ensures w'.resources == w.resources - names
    decreases names
  {
    hide Leads;
    if names == {} {
      Stay(w);
      es, w' := [], w;
      assert w.resources - names == w.resources;
    } else {
      var n :| n in names;
      var a, w1 := ResourceLeaves(w, n);
      var b, w2 := ResourcesLeave(w1, names - {n});
      GoOn(w, a, w1, b, w2);
      es, w' := a + b, w2;
      assert w.resources - {n} - (names - {n}) == w.resources - names;
    }
  }

  // Its states.

  /** Only the request changes: it is being deleted and in this state. */
  ghost predicate Moved(w: World, w': World, p: string, state: RequestState) {
    && p in w.requests && p in w'.requests && w'.requests == w.requests[p := w'.requests[p]]
    && w'.requests[p].deleting && w'.requests[p].state == state
    && w'.resources == w.resources && w'.inflight == w.inflight
  }

  lemma AcceptedAnyway(w: World, p: string)
    requires Ready(w, p, NoState) && w.requests[p].deleting
    ensures var e := PassNone(p, true, "", Saved);
      Enabled(w, e) && Prudent(w, e) && Moved(w, Next(w, e), p, NodeAllocating)
  {
  }

  /** What an allocation pass of a request about to go may look up. */
  lemma SomeLookups(w: World, p: string) returns (look: Lookups)
    requires p in w.requests
    ensures LooksUp(w, p, look)
  {
    var listing := Enumerate(set n | n in w.resources && w.resources[n].managedBy == p);
    var peers := Enumerate(w.requests.Keys);
    var firsts :=
      map m | m in w.requests && w.requests[m].resources != map[] :: var k :| k in w.requests[m].resources; k;
    var spare := FreshNames(Taken(w), w.requests[p].spec.size);
    look := Lookups(listing, peers, firsts, [], Capacities(map[]), false, {}, spare);
    forall i | 0 <= i < |spare| ensures !InUse(w, spare[i]) { TakenIsInUse(w, spare[i]); }
  }

  lemma AllocationGivesUp(w: World, p: string) returns (e: Event)
    requires Ready(w, p, NodeAllocating) && w.requests[p].deleting
    ensures Enabled(w, e) && Prudent(w, e) && Moved(w, Next(w, e), p, Cleaning)
  {
    var look := SomeLookups(w, p);
    hide Allocate, RightVictims, LooksUp, InUse;
    e := PassAllocate(p, look, Saved);
  }

  lemma UpdateGivesUp(w: World, p: string) returns (e: Event)
    requires Ready(w, p, Updating) && w.requests[p].deleting
    ensures Enabled(w, e) && Prudent(w, e) && Moved(w, Next(w, e), p, Cleaning)
  {
    var listing := Enumerate(set n | n in w.resources && w.resources[n].managedBy == p);
    var order := Enumerate(w.requests[p].resources.Keys);
    hide DeleteEach, CreateEach;
    e := PassUpdate(p, Writing(listing, order, 0, 0, ""), Saved);
  }

  lemma RunningGivesUp(w: World, p: string)
    requires Ready(w, p, Running) && w.requests[p].deleting
    ensures var e := PassRun(p, Saved); Enabled(w, e) && Prudent(w, e) && Moved(w, Next(w, e), p, Cleaning)
  {
  }

  /** A request being deleted comes to Cleaning, unless it is past it. */
  lemma ComesToCleaning(w: World, p: string) returns (es: seq<Event>, w': World)
    requires p in w.requests && w.requests[p].deleting && w.inflight.None? && w.requests[p].state != DeletingRequest
    ensures Leads(w, es, w') && Moved(w, w', p, Cleaning)
  {
    hide Leads, Enabled, Prudent, Next;
    match w.requests[p].state
    case NoState =>
      var e1 := PassNone(p, true, "", Saved);
      AcceptedAnyway(w, p);
      var w1 := Next(w, e1);
      var e2 := AllocationGivesUp(w1, p);
      Go(w, e1);
      Go(w1, e2);
      GoOn(w, [e1], w1, [e2], Next(w1, e2));
      es, w' := [e1] + [e2], Next(w1, e2);
    case NodeAllocating =>
      var e := AllocationGivesUp(w, p);
      Go(w, e);
      es, w' := [e], Next(w, e);
    case Updating =>
      var e := UpdateGivesUp(w, p);
      Go(w, e);
      es, w' := [e], Next(w, e);
    case Running =>
      RunningGivesUp(w, p);
      Go(w, PassRun(p, Saved));
      es, w' := [PassRun(p, Saved)], Next(w, PassRun(p, Saved));
    case Cleaning =>
      Stay(w);
      es, w' := [], w;
  }

  /** The request is marked, or already gone. */
  lemma DeletionIsAsked(w: World, p: string)
    requires p in w.requests
    ensures var e := DeleteRequest(p);
      && Enabled(w, e) && Prudent(w, e)
      && (if w.requests[p].finalizer then Moved(w, Next(w, e), p, w.requests[p].state)
          else Next(w, e) == w.(requests := w.requests - {p}))
  {
  }

  lemma CleaningEnds(w: World, p: string)
    requires Ready(w, p, Cleaning) && w.requests[p].deleting && forall n :: !ManagedBy(w, p, n)
    ensures var e := PassClean(p, Writing([], [], 0, 0, ""), Saved);
      Enabled(w, e) && Prudent(w, e) && Moved(w, Next(w, e), p, DeletingRequest)
  {
  }

  lemma FinalizerGoes(w: World, p: string)
    requires Ready(w, p, DeletingRequest) && w.requests[p].deleting
    ensures var e := PassFinish(p, true, "", Saved);
      Enabled(w, e) && Prudent(w, e) && Next(w, e) == w.(requests := w.requests - {p})
  {
  }

  /** From Cleaning: its resources go, then it goes. */
  lemma CleanedLeaves(w: World, p: string) returns (es: seq<Event>, w': World)
    requires Ready(w, p, Cleaning) && w.requests[p].deleting
    ensures Leads(w, es, w') && w'.requests == w.requests - {p} && w'.inflight.None?
  {
    hide Leads, Enabled, Prudent, Next;
    var managed := set n | n in w.resources && w.resources[n].managedBy == p;
    var a, w1 := ResourcesLeave(w, managed);
    var e2, e3 := PassClean(p, Writing([], [], 0, 0, ""), Saved), PassFinish(p, true, "", Saved);
    CleaningEnds(w1, p);
    var w2 := Next(w1, e2);
    FinalizerGoes(w2, p);
    var w3 := Next(w2, e3);
    Go(w1, e2);
    Go(w2, e3);
    GoOn(w, a, w1, [e2], w2);
    GoOn(w, a + [e2], w2, [e3], w3);
    es, w' := a + [e2] + [e3], w3;
    assert w2.requests - {p} == w.requests - {p};
  }

  /** Whatever state it is in, a request can be taken out, and nothing else about the requests changes. */
  lemma RequestLeaves(w: World, p: string) returns (es: seq<Event>, w': World)
    requires p in w.requests && w.inflight.None?
    ensures Leads(w, es, w') && w'.requests == w.requests - {p} && w'.inflight.None?
  {
    hide Leads, Enabled, Prudent, Next;
    var e1 := DeleteRequest(p);
    DeletionIsAsked(w, p);
    Go(w, e1);
    var w1 := Next(w, e1);
    es, w' := [e1], w1;
    if w.requests[p].finalizer {
      if w.requests[p].state == DeletingRequest {
        FinalizerGoes(w1, p);
        var e2 := PassFinish(p, true, "", Saved);
        Go(w1, e2);
        GoOn(w, [e1], w1, [e2], Next(w1, e2));
        es, w' := [e1] + [e2], Next(w1, e2);
      } else {
        var b, w2 := ComesToCleaning(w1, p);
        var c, w3 := CleanedLeaves(w2, p);
        GoOn(w, [e1], w1, b, w2);
        GoOn(w, [e1] + b, w2, c, w3);
        es, w' := [e1] + b + c, w3;
      }
      assert w1.requests - {p} == w.requests - {p};
    }
  }

  // The converse of prudence.

  ghost function AllPinned(w: World, node: string): set<string> {
    set p | p in w.requests && Pinned(w, p, node)
  }

  /** Every request pinned to the node goes; the split one, which is not pinned, stays split. */
  lemma {:induction false} PinnedLeave(w: World, r: string, k: string, y: string) returns (es: seq<Event>, w': World)
    requires Guarded(w) && w.inflight.None? && Split(w, r, k, y)
    ensures Leads(w, es, w') && Guarded(w') && w'.inflight.None? && Split(w', r, k, y)
    ensures NobodyPinned(w', w'.requests[r].resources[k].nodeName)
    decreases AllPinned(w, w.requests[r].resources[k].nodeName)
  {
    hide Leads, Guarded;
    var node := w.requests[r].resources[k].nodeName;
    if p :| p in AllPinned(w, node) {
      var a, w1 := RequestLeaves(w, p);
      LedKeepsGuard(w, a, w1);
      SplitWithout(w, w1, r, k, y, p);
      assert AllPinned(w1, node) == AllPinned(w, node) - {p};
      var b, w2 := PinnedLeave(w1, r, k, y);
      GoOn(w, a, w1, b, w2);
      es, w' := a + b, w2;
    } else {
      Stay(w);
      es, w' := [], w;
      assert NobodyPinned(w, node) by {
        forall p ensures !Pinned(w, p, node) { assert p !in AllPinned(w, node); }
      }
    }
  }

  lemma SplitWithout(w: World, w': World, r: string, k: string, y: string, p: string)
    requires Split(w, r, k, y) && w'.requests == w.requests - {p} && Pinned(w, p, w.requests[r].resources[k].nodeName)
    ensures Split(w', r, k, y) && w'.requests[r] == w.requests[r]
  {
    forall m, l | m != r && Floats(w', m) && TracksBy(w', m, l)
      ensures w'.requests[m].resources[l].nodeName != w.requests[r].resources[k].nodeName
    {
      assert Floats(w, m) && TracksBy(w, m, l);
    }
  }

  lemma LedKeepsGuard(w: World, es: seq<Event>, w': World)
    requires Guarded(w) && Leads(w, es, w')
    ensures Guarded(w')
  {
    RunKeepsGuard(w, es, Prudent);
  }

  /** After an allocation that is not steady, prudent events lead to two requests on one node. */
  lemma UnsteadyShares(w: World, r: string, look: Lookups, save: Save)
    returns (es: seq<Event>, s: string, k: string, z: string)
    requires Safe(w) && Enabled(w, PassAllocate(r, look, save)) && !Prudent(w, PassAllocate(r, look, save))
    ensures var w' := Next(w, PassAllocate(r, look, save));
      Legal(w', es, Prudent) && Share(Run(w', es, Prudent), r, s, k, z)
  {
    var e := PassAllocate(r, look, save);
    StepKeepsGuard(w, e);
    var w1 := Next(w, e);
    assert w1 == AllocatePass(w, r, look, save);
    hide Safe, Enabled, Next, Prudent, AllocatePass, Guarded, Split, Share;
    var y;
    k, y := UnsteadySplits(w, r, look, save);
    var a, w2 := PinnedLeave(w1, r, k, y);
    var e1, e2, e3;
    s, z, e1, e2, e3 := NewcomerShares(w2, r, k, y);
    var w3, w4 := Next(w2, e1), Next(Next(w2, e1), e2);
    Go(w2, e1);
    Go(w3, e2);
    Go(w4, e3);
    GoOn(w1, a, w2, [e1], w3);
    GoOn(w1, a + [e1], w3, [e2], w4);
    GoOn(w1, a + [e1] + [e2], w4, [e3], Next(w4, e3));
    es := a + [e1] + [e2] + [e3];
  }

  /** Nobody shares a node. */
  ghost predicate Apart(w: World) {
    forall m, m', k, l :: !Share(w, m, m', k, l)
  }

  /**
   The condition is exact. After any prudent run, an allocation pass leaves a cluster in which no prudent
   continuation ever makes two samenode requests without target node share a node if and only if the pass
   is prudent itself.
   */
  lemma PrudentIff(events: seq<Event>, r: string, look: Lookups, save: Save)
    requires Legal(EMPTY, events, Prudent) && Enabled(Run(EMPTY, events, Prudent), PassAllocate(r, look, save))
    ensures var w, e := Run(EMPTY, events, Prudent), PassAllocate(r, look, save);
      Prudent(w, e) <==> forall more :: Legal(Next(w, e), more, Prudent) ==> Apart(Run(Next(w, e), more, Prudent))
  {
    EmptyIsSafe();
    hide Safe, Enabled, Next, Prudent, Apart, Share;
    RunStaysSafe(EMPTY, events);
    var w, e := Run(EMPTY, events, Prudent), PassAllocate(r, look, save);
    if Prudent(w, e) {
      StepStaysSafe(w, e);
      forall more | Legal(Next(w, e), more, Prudent) ensures Apart(Run(Next(w, e), more, Prudent)) {
        RunStaysSafe(Next(w, e), more);
        SafeIsApart(Run(Next(w, e), more, Prudent));
      }
    } else {
      var more, s, k, z := UnsteadyShares(w, r, look, save);
      ShareIsNotApart(Run(Next(w, e), more, Prudent), r, s, k, z);
    }
  }

  lemma SafeIsApart(w: World)
    requires Safe(w)
    ensures Apart(w)
  {
  }

  lemma ShareIsNotApart(w: World, m: string, m': string, k: string, l: string)
    requires Share(w, m, m', k, l)
    ensures !Apart(w)
  {
  }
}
