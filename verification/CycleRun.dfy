/**
 A turn of the settled cycle as the two controllers carry it out: the request controller's four passes, and
 the resource controller's passes that detach and remove what the turn has marked.
 */
module CycleRun {
  import opened Api
  import opened Allocation
  import opened Cluster
  import opened Effects
  import opened Composition
  import opened Guarantee
  import opened Joint
  import opened Finishing
  import opened SettledCycle
  import opened NoOrphans
  import opened FirstTurn
  import Life = ResourceLifecycle

  /** No resource has seen its node missing. */
  ghost predicate NodesThere(s: Joint.State) {
    forall n :: n in s.devices ==> !s.devices[n].nodeLost
  }

  ghost predicate Sane(kind: Life.DeviceType, s: Joint.State) {
    Joined(kind, s) && NodesThere(s)
  }

  /** The same objects, and the same mirror pass under way; the queues may differ. */
  ghost predicate SameStore(w: World, w': World) {
    w.requests == w'.requests && w.resources == w'.resources && w.inflight == w'.inflight
  }

  lemma SettledInStore(w: World, w': World, m: string, caps: Capacities)
    requires SameStore(w, w') && Settled(w', m, caps)
    ensures Settled(w, m, caps)
  {
    assert forall n :: ManagedBy(w, m, n) <==> ManagedBy(w', m, n);
  }

  /** An event of the request controller as a joint move. */
  lemma OtherMove(kind: Life.DeviceType, s: Joint.State, e: Event)
    requires Sane(kind, s) && Enabled(s.world, e) && !OwnWrite(e) && Lawful(s.world, e)
    ensures Able(s, Other(e)) && Peaceful(kind, s, Other(e), Lawful)
    ensures var s' := After(kind, s, Other(e)); Sane(kind, s') && s'.world == Next(s.world, e)
  {
    hide Joined, Enabled, Next, Lawful;
    MoveJoins(kind, s, Other(e));
  }

  function Marked(w: World, m: string): set<string> {
    set n | n in w.resources && w.resources[n].managedBy == m && w.resources[n].deleting
  }

  /** What Reaped does at once, the resource controller can do by its own passes, detaching every device. */
  lemma ReapingIsARun(kind: Life.DeviceType, s: Joint.State, m: string) returns (moves: seq<Joint.Move>)
    requires Sane(kind, s)
    ensures AllPasses(moves) && AllAble(kind, s, moves) && AllPeaceful(kind, s, moves, Lawful)
    ensures Sane(kind, End(kind, s, moves))
    ensures SameStore(End(kind, s, moves).world, Reaped(s.world, m))
    ensures End(kind, s, moves).world.pending <= s.world.pending + Marked(s.world, m)
  {
    var w := s.world;
    var left := Marked(w, m);
    assert AllLeaving(s, left) by { hide Reached; }
    assert w.resources - left == Reaped(w, m).resources;
    hide Joined, AllAble, AllPeaceful, End, AllLeaving;
    moves := ReapAll(kind, s, left, Lawful);
  }

  /** While store and lifecycle agree, an event that leaves the resources alone leaves the devices alone. */
  lemma FollowSame(kind: Life.DeviceType, s: Joint.State)
    requires Joined(kind, s)
    ensures Follow(s.world.resources, s.devices) == s.devices
  {
    hide Reached;
  }

  /** The queue without the updates of resources that are gone. */
  function Drained(s: Joint.State, gone: set<string>): Joint.State {
    s.(world := s.world.(pending := s.world.pending - gone))
  }

  /** One mirror pass for a resource that is gone. */
  lemma DrainOne(kind: Life.DeviceType, s: Joint.State, n: string)
    requires Sane(kind, s) && s.world.inflight.None? && n !in s.world.resources && n in s.world.pending
    ensures var begin, finish := Other(Begin(n)), Other(Finish(true));
      && Able(s, begin) && Peaceful(kind, s, begin, Lawful)
      && Able(After(kind, s, begin), finish) && Peaceful(kind, After(kind, s, begin), finish, Lawful)
      && After(kind, After(kind, s, begin), finish) == Drained(s, {n}) && Sane(kind, Drained(s, {n}))
  {
    NothingToMirror(s.world, n);
    FollowSame(kind, s);
    var s1 := After(kind, s, Other(Begin(n)));
    assert s1.world.resources == s.world.resources && s1.devices == s.devices;
    OtherMove(kind, s, Begin(n));
    OtherMove(kind, s1, Finish(true));
    hide Joined, Enabled, Next;
  }

  /** The mirror passes that find nothing: the queue forgets what is gone. */
  lemma {:induction false} DrainAll(kind: Life.DeviceType, s: Joint.State, gone: set<string>)
    returns (moves: seq<Joint.Move>)
    requires Sane(kind, s) && s.world.inflight.None? && gone !! s.world.resources.Keys
    ensures AllAble(kind, s, moves) && AllPeaceful(kind, s, moves, Lawful) && Sane(kind, End(kind, s, moves))
    ensures End(kind, s, moves) == Drained(s, gone)
    decreases gone
  {
    moves := [];
    if gone == {} {
      assert Drained(s, gone) == s && End(kind, s, []) == s;
    } else {
      var n :| n in gone;
      assert Drained(Drained(s, {n}), gone - {n}) == Drained(s, gone) by {
        assert s.world.pending - {n} - (gone - {n}) == s.world.pending - gone;
      }
      if n in s.world.pending {
        DrainOne(kind, s, n);
        hide Sane, Able, Peaceful, After, AllAble, AllPeaceful, End;
        var begin, finish := Other(Begin(n)), Other(Finish(true));
        var rest := DrainAll(kind, Drained(s, {n}), gone - {n});
        StartsWith(kind, After(kind, s, begin), finish, rest, Lawful);
        StartsWith(kind, s, begin, [finish] + rest, Lawful);
        moves := [begin] + ([finish] + rest);
      } else {
        assert Drained(s, {n}) == s;
        moves := DrainAll(kind, s, gone - {n});
      }
    }
  }

  /** Deletions finished and their updates looked at: the queue is no longer than before. */
  lemma CleanUpIsARun(kind: Life.DeviceType, s: Joint.State, m: string) returns (moves: seq<Joint.Move>)
    requires Sane(kind, s) && s.world.inflight.None?
    ensures AllAble(kind, s, moves) && AllPeaceful(kind, s, moves, Lawful) && Sane(kind, End(kind, s, moves))
    ensures SameStore(End(kind, s, moves).world, Reaped(s.world, m))
    ensures End(kind, s, moves).world.pending <= s.world.pending
  {
    var reaping := ReapingIsARun(kind, s, m);
    var s1 := End(kind, s, reaping);
    assert Marked(s.world, m) !! s1.world.resources.Keys;
    hide Sane, AllAble, AllPeaceful, End, Marked, Reaped;
    var draining := DrainAll(kind, s1, Marked(s.world, m));
    EndAppends(kind, s, reaping, draining, Lawful);
    moves := reaping + draining;
  }

  /**
   The pass that notices the edit is possible in the settled state; the tracked names are its listing and its order.
   */
  lemma NoticeIsAnEvent(w: World, m: string, caps: Capacities, size: nat, listing: seq<string>) returns (e: Event)
    requires Settled(w, m, caps) && size != w.requests[m].spec.size && Lists(w, m, listing)
    ensures var w1 := Edited(w, m, size);
      Enabled(w1, e) && Lawful(w1, e) && !OwnWrite(e) && Next(w1, e) == Noticed(w1, m)
  {
    var w1 := Edited(w, m, size);
    assert forall n :: ManagedBy(w1, m, n) <==> ManagedBy(w, m, n);
    assert forall n :: n in listing <==> n in w.requests[m].resources by {
      forall n ensures n in listing <==> n in w.requests[m].resources { assert n in listing <==> ManagedBy(w, m, n); }
    }
    if w.requests[m].state == Running {
      e := PassRun(m, Saved);
    } else {
      e := PassUpdate(m, Writing(listing, listing, 0, 0, ""), Saved);
    }
  }

  lemma EditIsAnEvent(w: World, m: string, caps: Capacities, size: nat)
    requires Settled(w, m, caps)
    ensures var e := EditRequest(m, w.requests[m].spec.(size := size));
      Enabled(w, e) && Lawful(w, e) && Next(w, e) == Edited(w, m, size)
  {
  }

  /** A request's own passes ask nothing of the environment. */
  lemma PassIsLawful(w: World, m: string, look: Lookups, wr: Writing)
    ensures Lawful(w, PassAllocate(m, look, Saved)) && Lawful(w, PassUpdate(m, wr, Saved))
  {
  }

  /** The two passes leave the queue alone, and run between mirror passes. */
  lemma WorkKeepsQueue(w: World, m: string, look: Lookups, wr: Writing)
    requires Enabled(w, PassAllocate(m, look, Saved))
    requires Enabled(AllocatePass(w, m, look, Saved), PassUpdate(m, wr, Saved))
    ensures var w' := UpdatePass(AllocatePass(w, m, look, Saved), m, wr, Saved);
      w'.pending == w.pending && w'.inflight.None?
  {
    var w1 := AllocatePass(w, m, look, Saved);
    AllocateEffect(w, m, look, Saved);
    assert forall n :: n in wr.listing ==> ManagedBy(w1, m, n);
    hide AllocatePass;
    UpdateEffect(w1, m, wr, Saved);
    hide UpdatePass;
  }

  lemma WorkIsTwoEvents(w: World, m: string, look: Lookups, wr: Writing)
    requires Enabled(w, PassAllocate(m, look, Saved))
    requires Enabled(AllocatePass(w, m, look, Saved), PassUpdate(m, wr, Saved))
    ensures var e1, e2, w1 := PassAllocate(m, look, Saved), PassUpdate(m, wr, Saved), AllocatePass(w, m, look, Saved);
      Next(w, e1) == w1 && Next(w1, e2) == UpdatePass(w1, m, wr, Saved)
  {
    hide AllocatePass, UpdatePass;
  }

  /** From the allocation on: two passes, then the deletions. */
  lemma WorkIsARun(kind: Life.DeviceType, s: Joint.State, m: string, look: Lookups, wr: Writing)
    returns (moves: seq<Joint.Move>)
    requires Sane(kind, s)
    requires Enabled(s.world, PassAllocate(m, look, Saved))
    requires Enabled(AllocatePass(s.world, m, look, Saved), PassUpdate(m, wr, Saved))
    ensures AllAble(kind, s, moves) && AllPeaceful(kind, s, moves, Lawful) && Sane(kind, End(kind, s, moves))
    ensures SameStore(End(kind, s, moves).world,
                      Reaped(UpdatePass(AllocatePass(s.world, m, look, Saved), m, wr, Saved), m))
    ensures End(kind, s, moves).world.pending <= s.world.pending
  {
    hide Sane, Enabled, Lawful, Next, AllocatePass, UpdatePass;
    hide Reaped, Able, Peaceful, After, AllAble, AllPeaceful, End;
    WorkKeepsQueue(s.world, m, look, wr);
    WorkIsTwoEvents(s.world, m, look, wr);
    var e1, e2 := PassAllocate(m, look, Saved), PassUpdate(m, wr, Saved);
    PassIsLawful(s.world, m, look, wr);
    OtherMove(kind, s, e1);
    var s1 := After(kind, s, Other(e1));
    PassIsLawful(s1.world, m, look, wr);
    OtherMove(kind, s1, e2);
    var s2 := After(kind, s1, Other(e2));
    var rest := CleanUpIsARun(kind, s2, m);
    StartsWith(kind, s1, Other(e2), rest, Lawful);
    StartsWith(kind, s, Other(e1), [Other(e2)] + rest, Lawful);
    moves := [Other(e1)] + ([Other(e2)] + rest);
  }

  lemma NoticeKeepsQueue(w: World, m: string, caps: Capacities, size: nat)
    requires Settled(w, m, caps)
    ensures Noticed(Edited(w, m, size), m).pending == w.pending
  {
    var w1 := Edited(w, m, size);
    if w1.requests[m].state == Running {
      RunEffect(w1, m, Saved);
    } else {
      UpdateEffect(w1, m, Writing([], [], 0, 0, ""), Saved);
    }
    hide UpdatePass, RunPass;
  }

  /** The turn lists, at its allocation, what was listed before it. */
  lemma ListedBefore(w: World, m: string, caps: Capacities, t: Turn)
    requires Settled(w, m, caps) && GoesThrough(w, m, caps, t)
    ensures Lists(w, m, t.look.listing)
  {
    NoticedEdit(w, m, caps, t.size);
    var w2 := Noticed(Edited(w, m, t.size), m);
    forall n ensures n in t.look.listing <==> ManagedBy(w, m, n) { assert ManagedBy(w2, m, n) <==> ManagedBy(w, m, n); }
  }

  /**
   Every turn that goes through is a joint run that keeps to the law: edit, notice, allocation, update, and
   for each marked resource the passes that detach its device, clear its status and let it go. It ends settled
   at the new size, so that the next turn can follow.
   */
  lemma TurnIsLawful(kind: Life.DeviceType, s: Joint.State, m: string, caps: Capacities, t: Turn)
    returns (moves: seq<Joint.Move>)
    requires Sane(kind, s) && Settled(s.world, m, caps) && GoesThrough(s.world, m, caps, t)
    ensures AllAble(kind, s, moves) && AllPeaceful(kind, s, moves, Lawful)
    ensures var s' := End(kind, s, moves);
      && Sane(kind, s') && SameStore(s'.world, Cycle(s.world, m, caps, t)) && s'.world.pending <= s.world.pending
      && Settled(s'.world, m, caps) && s'.world.requests[m].spec.size == t.size
  {
    NoticeKeepsQueue(s.world, m, caps, t.size);
    hide Sane, Enabled, Lawful, Next, AllocatePass, UpdatePass, Noticed;
    hide Reaped, Able, Peaceful, After, AllAble, AllPeaceful, End;
    var w := s.world;
    var e1 := EditRequest(m, w.requests[m].spec.(size := t.size));
    EditIsAnEvent(w, m, caps, t.size);
    OtherMove(kind, s, e1);
    var s1 := After(kind, s, Other(e1));
    ListedBefore(w, m, caps, t);
    var e2 := NoticeIsAnEvent(w, m, caps, t.size, t.look.listing);
    OtherMove(kind, s1, e2);
    var s2 := After(kind, s1, Other(e2));
    var work := WorkIsARun(kind, s2, m, t.look, t.wr);
    StartsWith(kind, s1, Other(e2), work, Lawful);
    StartsWith(kind, s, Other(e1), [Other(e2)] + work, Lawful);
    moves := [Other(e1)] + ([Other(e2)] + work);
    TurnSettles(w, m, caps, t);
    SettledInStore(End(kind, s, moves).world, Cycle(w, m, caps, t), m, caps);
  }

  // The first turn.

  lemma CreationIsLawful(w: World, m: string, spec: Details)
    ensures Lawful(w, CreateRequest(m, spec)) && Lawful(w, PassNone(m, true, "", Saved))
  {
  }

  /** The first two passes after acceptance settle the request, with nothing to reap. */
  lemma FirstWorkSettles(w: World, m: string, caps: Capacities, look: Lookups, wr: Writing, end: World)
    requires Untouched(w, m) && look.caps == caps && Enabled(w, PassAllocate(m, look, Saved))
    requires Decision(w, m, look).Allocated?
    requires Enabled(AllocatePass(w, m, look, Saved), PassUpdate(m, wr, Saved))
    requires wr.budget >= |wr.listing| + |wr.order|
    requires SameStore(end, Reaped(UpdatePass(AllocatePass(w, m, look, Saved), m, wr, Saved), m))
    ensures Settled(end, m, caps) && end.requests[m].spec == w.requests[m].spec
  {
    hide AllocatePass, UpdatePass, Settled, Reaped, Decision, Untouched, InUse, RightVictims;
    FirstPassesSettle(w, m, caps, look, wr);
    SettledInStore(end, UpdatePass(AllocatePass(w, m, look, Saved), m, wr, Saved), m, caps);
  }

  /**
   The base case for both controllers: from any state a run may reach, creation, acceptance, a first
   allocation and an Updating pass that go through are a lawful joint run that ends settled.
   */
  lemma FirstTurnIsLawful(kind: Life.DeviceType, s: Joint.State, m: string, spec: Details, caps: Capacities,
                          look: Lookups, wr: Writing)
    returns (moves: seq<Joint.Move>)
    requires Sane(kind, s) && Guarded(s.world) && s.world.inflight.None? && Enabled(s.world, CreateRequest(m, spec))
    requires spec.policy == DifferentNode ==> spec.targetNode == ""
    requires Enabled(Next(s.world, CreateRequest(m, spec)), PassNone(m, true, "", Saved))
    requires var w := Next(Next(s.world, CreateRequest(m, spec)), PassNone(m, true, "", Saved));
      && look.caps == caps && Enabled(w, PassAllocate(m, look, Saved)) && Decision(w, m, look).Allocated?
      && Enabled(AllocatePass(w, m, look, Saved), PassUpdate(m, wr, Saved)) && wr.budget >= |wr.listing| + |wr.order|
    ensures AllAble(kind, s, moves) && AllPeaceful(kind, s, moves, Lawful)
    ensures var s' := End(kind, s, moves);
      Sane(kind, s') && Settled(s'.world, m, caps) && s'.world.requests[m].spec == spec
  {
    hide Sane, Settled, Lawful, AllocatePass, UpdatePass, Reaped;
    hide Decision, Able, Peaceful, After, AllAble, AllPeaceful, End;
    hide Enabled, Next, Untouched, Guarded;
    CreatedIsUntouched(s.world, m, spec);
    var e1, e2 := CreateRequest(m, spec), PassNone(m, true, "", Saved);
    CreationIsLawful(s.world, m, spec);
    OtherMove(kind, s, e1);
    var s1 := After(kind, s, Other(e1));
    CreationIsLawful(s1.world, m, spec);
    OtherMove(kind, s1, e2);
    var s2 := After(kind, s1, Other(e2));
    var work := WorkIsARun(kind, s2, m, look, wr);
    StartsWith(kind, s1, Other(e2), work, Lawful);
    StartsWith(kind, s, Other(e1), [Other(e2)] + work, Lawful);
    moves := [Other(e1)] + ([Other(e2)] + work);
    FirstWorkSettles(s2.world, m, caps, look, wr, End(kind, s, moves).world);
  }

  // Any number of turns.

  /** The same world with a shorter queue. */
  ghost predicate Thinner(w: World, w': World) {
    w' == w.(pending := w'.pending) && w'.pending <= w.pending
  }

  lemma NoticeThinner(w: World, w': World, m: string, caps: Capacities, size: nat)
    requires Thinner(w, w') && Settled(w, m, caps)
    ensures Thinner(Noticed(Edited(w, m, size), m), Noticed(Edited(w', m, size), m))
  {
    hide DeleteEach, CreateEach, InPlace, ObeysPolicy, AllOnline;
  }

  lemma AllocateThinner(w: World, w': World, m: string, look: Lookups)
    requires Thinner(w, w') && Enabled(w, PassAllocate(m, look, Saved))
    ensures Enabled(w', PassAllocate(m, look, Saved)) && Decision(w', m, look) == Decision(w, m, look)
    ensures Thinner(AllocatePass(w, m, look, Saved), AllocatePass(w', m, look, Saved))
  {
    hide Allocate, RightVictims;
    assert forall n :: InUse(w', n) ==> InUse(w, n);
    assert forall n :: ManagedBy(w', m, n) <==> ManagedBy(w, m, n);
    assert SurveyOf(w', m, look) == SurveyOf(w, m, look);
  }

  lemma UpdateThinner(w: World, w': World, m: string, wr: Writing)
    requires Thinner(w, w') && Enabled(w, PassUpdate(m, wr, Saved))
    ensures Enabled(w', PassUpdate(m, wr, Saved)) && Thinner(UpdatePass(w, m, wr, Saved), UpdatePass(w', m, wr, Saved))
  {
    hide DeleteEach, CreateEach, AllOnline;
    assert forall n :: ManagedBy(w', m, n) <==> ManagedBy(w, m, n);
  }

  /** A turn that goes through does so with a shorter queue, to the same end. */
  lemma TurnThinner(w: World, w': World, m: string, caps: Capacities, t: Turn)
    requires Thinner(w, w') && Settled(w, m, caps) && GoesThrough(w, m, caps, t)
    ensures m in w'.requests && GoesThrough(w', m, caps, t) && Thinner(Cycle(w, m, caps, t), Cycle(w', m, caps, t))
  {
    hide AllocatePass, UpdatePass, Noticed, Decision, RightVictims, InUse;
    NoticeThinner(w, w', m, caps, t.size);
    var w2, w2' := Noticed(Edited(w, m, t.size), m), Noticed(Edited(w', m, t.size), m);
    AllocateThinner(w2, w2', m, t.look);
    UpdateThinner(AllocatePass(w2, m, t.look, Saved), AllocatePass(w2', m, t.look, Saved), m, t.wr);
  }

  lemma CycleKeepsQueue(w: World, m: string, caps: Capacities, t: Turn)
    requires Settled(w, m, caps) && GoesThrough(w, m, caps, t)
    ensures Cycle(w, m, caps, t).pending == w.pending
  {
    hide Enabled, AllocatePass, UpdatePass, Noticed, Decision;
    NoticeKeepsQueue(w, m, caps, t.size);
    WorkKeepsQueue(Noticed(Edited(w, m, t.size), m), m, t.look, t.wr);
  }

  /**
   Any number of edits, carried out by both controllers: a joint run that keeps to the law and ends settled,
   with exactly the size last asked for.
   */
  lemma {:induction false} EditsAreLawful(kind: Life.DeviceType, s: Joint.State, w: World, m: string,
                                          caps: Capacities, turns: seq<Turn>)
    returns (moves: seq<Joint.Move>)
    requires Sane(kind, s) && Thinner(w, s.world) && Settled(w, m, caps) && AllGoThrough(w, m, caps, turns)
    ensures AllAble(kind, s, moves) && AllPeaceful(kind, s, moves, Lawful)
    ensures var s' := End(kind, s, moves);
      && Sane(kind, s') && SameStore(s'.world, Cycles(w, m, caps, turns)) && Settled(s'.world, m, caps)
      && (turns != [] ==> |s'.world.requests[m].resources| == turns[|turns| - 1].size)
    decreases |turns|
  {
    hide Sane, Settled, GoesThrough, Cycle, AllPeaceful, Able, Peaceful, After;
    SettledInStore(s.world, w, m, caps);
    moves := [];
    if turns == [] {
      NoMoves(kind, s);
    } else {
      var t := turns[0];
      TurnThinner(w, s.world, m, caps, t);
      var first := TurnIsLawful(kind, s, m, caps, t);
      var s1, w1 := End(kind, s, first), Cycle(w, m, caps, t);
      CycleKeepsQueue(w, m, caps, t);
      TurnSettles(w, m, caps, t);
      assert Thinner(w1, s1.world);
      var rest := EditsAreLawful(kind, s1, w1, m, caps, turns[1..]);
      hide AllAble, End;
      EndAppends(kind, s, first, rest, Lawful);
      moves := first + rest;
      if turns[1..] == [] { SettledSize(s1.world, m, caps); }
    }
  }

  lemma SettledSize(w: World, m: string, caps: Capacities)
    requires Settled(w, m, caps)
    ensures |w.requests[m].resources| == w.requests[m].spec.size
  {
  }

  lemma NoMoves(kind: Life.DeviceType, s: Joint.State)
    ensures AllAble(kind, s, []) && AllPeaceful(kind, s, [], Lawful) && End(kind, s, []) == s
  {
  }
}
