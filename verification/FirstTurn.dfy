/** How a request first settles: from its creation through its first allocation and Updating pass. */
module FirstTurn {
  import opened Api
  import opened Allocation
  import opened Cluster
  import opened Effects
  import opened NoOrphans
  import opened SettledCycle

  /** Accepted and not yet allocated: nothing is tracked and nothing is managed. */
  ghost predicate Untouched(w: World, m: string) {
    && m in w.requests && w.inflight.None?
    && var r := w.requests[m];
       && r.state == NodeAllocating && r.resources == map[] && r.scalar == r.spec && !r.deleting
       && (r.spec.policy == DifferentNode ==> r.spec.targetNode == "")
       && (forall n :: !ManagedBy(w, m, n))
  }

  /** The same request, had it asked for nothing and settled: its size is about to be edited. */
  function AskingNothing(w: World, m: string): World
    requires m in w.requests
  {
    var none := w.requests[m].spec.(size := 0);
    w.(requests := w.requests[m := w.requests[m].(state := Updating, spec := none, scalar := none)])
  }

  lemma AskingNothingIsSettled(w: World, m: string, caps: Capacities)
    requires Untouched(w, m)
    ensures Settled(AskingNothing(w, m), m, caps)
  {
    var w0 := AskingNothing(w, m);
    forall n ensures !ManagedBy(w0, m, n) { assert !ManagedBy(w, m, n); }
  }

  lemma ListsNothing(w: World, m: string, listing: seq<string>)
    requires Lists(w, m, listing) && forall n :: !ManagedBy(w, m, n)
    ensures listing == []
  {
    NoMembers(listing);
  }

  lemma NoMembers(s: seq<string>)
    ensures s == [] <==> forall n :: n !in s
  {
    assert s == [] || s[0] in s;
  }

  /** The first allocation is a resizing from nothing. */
  lemma FirstAllocationResizes(w: World, m: string, caps: Capacities, look: Lookups)
    requires Untouched(w, m) && look.caps == caps && Enabled(w, PassAllocate(m, look, Saved))
    requires Decision(w, m, look).Allocated?
    ensures var w3 := AllocatePass(w, m, look, Saved);
      && m in w3.requests && w3.resources == w.resources && w3.requests[m].state == Updating && w3.inflight.None?
      && w3.requests[m].spec == w.requests[m].spec && Resized(AskingNothing(w, m), m, caps, w3.requests[m])
  {
    var r := w.requests[m];
    ListsNothing(w, m, look.listing);
    var items, sv := Live(ItemsOf(w.resources, look.listing)), SurveyOf(w, m, look);
    assert items == [] && Names(items) == {};
    assert UnusedNames(look.spare, r.spec.size, r.resources.Keys);
    AllocateEffect(w, m, look, Saved);
    ResizedEntries(r.spec, items, r.resources, sv, look.victims, look.spare);
    var out := Decision(w, m, look).tracked;
    forall k | k in out ensures k !in w.resources { assert k in look.spare; assert !InUse(w, k); }
  }

  /** Nothing is marked in the first Updating pass, so nothing is left to reap. */
  lemma NothingToReap(w: World, m: string, wr: Writing)
    requires Enabled(w, PassUpdate(m, wr, Saved)) && forall n :: !ManagedBy(w, m, n)
    ensures var w' := UpdatePass(w, m, wr, Saved); Reaped(w', m) == w'
  {
    ListsNothing(w, m, wr.listing);
    UpdateEffect(w, m, wr, Saved);
    hide UpdatePass;
    var w' := UpdatePass(w, m, wr, Saved);
    forall n | n in w'.resources ensures !(w'.resources[n].managedBy == m && w'.resources[n].deleting) {
      assert !ManagedBy(w, m, n);
    }
    assert Reaped(w', m).resources == w'.resources;
  }

  /** The base case of the settled cycle: a first allocation and an Updating pass that go through settle the request. */
  lemma FirstPassesSettle(w: World, m: string, caps: Capacities, look: Lookups, wr: Writing)
    requires Untouched(w, m) && look.caps == caps && Enabled(w, PassAllocate(m, look, Saved))
    requires Decision(w, m, look).Allocated?
    requires Enabled(AllocatePass(w, m, look, Saved), PassUpdate(m, wr, Saved))
    requires wr.budget >= |wr.listing| + |wr.order|
    ensures var w' := UpdatePass(AllocatePass(w, m, look, Saved), m, wr, Saved);
      Settled(w', m, caps) && w'.requests[m].spec == w.requests[m].spec && Reaped(w', m) == w'
  {
    var w0, w3 := AskingNothing(w, m), AllocatePass(w, m, look, Saved);
    AskingNothingIsSettled(w, m, caps);
    FirstAllocationResizes(w, m, caps, look);
    assert forall n :: !ManagedBy(w3, m, n) by {
      forall n ensures !ManagedBy(w3, m, n) { assert !ManagedBy(w, m, n); }
    }
    hide AllocatePass, UpdatePass, Settled, Resized, Reaped, Untouched;
    NothingToReap(w3, m, wr);
    ReapedSettles(w0, w3, m, caps, wr);
  }

  /** A new request, once accepted, is untouched: nobody can be managed by a name that did not exist. */
  lemma CreatedIsUntouched(w: World, m: string, spec: Details)
    requires Guarded(w) && w.inflight.None? && Enabled(w, CreateRequest(m, spec))
    requires spec.policy == DifferentNode ==> spec.targetNode == ""
    ensures var w1 := Next(w, CreateRequest(m, spec)); var e := PassNone(m, true, "", Saved);
      Enabled(w1, e) && Untouched(Next(w1, e), m) && Next(w1, e).requests[m].spec == spec
  {
    var w1 := Next(w, CreateRequest(m, spec));
    var w2 := Next(w1, PassNone(m, true, "", Saved));
    assert w2.resources == w.resources;
    forall n ensures !ManagedBy(w2, m, n) {
      if n in w.resources { assert Owned(w, n); }
    }
  }
}
