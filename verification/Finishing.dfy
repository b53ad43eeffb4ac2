/**
 How a deletion ends. While its node is there, the resource controller can take any marked resource all the
 way out, by its own passes; and when the node vanishes it takes the resource out without anyone noticing.
 */
module Finishing {
  import opened Api
  import opened Cluster
  import opened Mirror
  import opened Guarantee
  import opened Joint
  import opened Unguarded
  import opened Effects
  import opened SettledCycle
  import Life = ResourceLifecycle

  /** Everything succeeds; the device shows up while attaching and is invisible afterwards. */
  function Favourable(node: Life.NodeReply, s: Api.State): Life.Answers {
    Life.Untroubled(node, Life.AddWaiting, s == Attaching, Life.Removed)
  }

  ghost predicate Leaving(d: Life.Device) {
    d.deleting && !d.gone && !d.nodeLost
  }

  lemma DetachGoesOn(kind: Life.DeviceType, d: Life.Device)
    requires d.status.state == Detaching && d.status.deviceID != ""
    ensures Life.Release(kind, d, Favourable(Life.NodeFound, Detaching)).device.status.state == Deleting
  {
    var a := Favourable(Life.NodeFound, Detaching);
    assert Life.FindRule(a.slices, d.status.deviceID) == None;
    assert Life.Taint(d, a).Tainted?;
    hide Life.Taint;
  }

  /** One pass under favourable answers takes a leaving resource on, and finally out. */
  lemma PassGoesOn(kind: Life.DeviceType, d: Life.Device)
    requires Life.Sound(kind, d) && Orderly(d) && Leaving(d)
    ensures var e := Life.Step(kind, d, Life.Reconciled(Favourable(Life.NodeFound, d.status.state))).device;
      e.deleting && !e.nodeLost && (e.gone || Life.Rank(d.status.state) < Life.Rank(e.status.state))
  {
    var a := Favourable(Life.NodeFound, d.status.state);
    assert Life.Collect(d, a) == Life.Go(d);
    match d.status.state
    case Detaching =>
      if d.status.deviceID != "" {
        DetachGoesOn(kind, d);
        ReleaseMarks(kind, d, a);
        hide Life.Release;
      }
    case _ =>
  }

  /** Every marked resource the resource controller can be at, its node there, can be taken out by passes alone. */
  lemma {:induction false} MarkedCanFinish(kind: Life.DeviceType, d: Life.Device) returns (moves: seq<Life.Move>)
    requires Reached(kind, d) && Leaving(d)
    ensures forall i :: 0 <= i < |moves| ==> moves[i].Reconciled?
    ensures var e := Life.Run(kind, d, moves); e.gone && !e.nodeLost
    decreases 5 - Life.Rank(d.status.state)
  {
    ReachedFacts(kind, d);
    PassGoesOn(kind, d);
    var m := Life.Reconciled(Favourable(Life.NodeFound, d.status.state));
    StepReached(kind, d, m);
    hide Life.Step, Reached;
    var e := Life.Step(kind, d, m).device;
    moves := [m];
    if e.gone {
      assert Life.Run(kind, d, moves) == Life.Run(kind, e, []);
    } else {
      var rest := MarkedCanFinish(kind, e);
      moves := [m] + rest;
      assert moves[1..] == rest;
    }
  }

  // The same in the store.

  lemma StartsWith(kind: Life.DeviceType, s: Joint.State, m: Joint.Move, moves: seq<Joint.Move>,
                   fair: (World, Event) -> bool)
    requires Able(s, m) && Peaceful(kind, s, m, fair)
    requires AllAble(kind, After(kind, s, m), moves) && AllPeaceful(kind, After(kind, s, m), moves, fair)
    ensures AllAble(kind, s, [m] + moves) && AllPeaceful(kind, s, [m] + moves, fair)
    ensures End(kind, s, [m] + moves) == End(kind, After(kind, s, m), moves)
  {
    hide Able, Peaceful, After;
    assert ([m] + moves)[1..] == moves;
  }

  predicate AllPasses(moves: seq<Joint.Move>) {
    forall i :: 0 <= i < |moves| ==> moves[i].Pass?
  }

  /** Everything but these resources is as it was, and they are gone; at most their updates are newly queued. */
  ghost predicate Without(s: Joint.State, s': Joint.State, left: set<string>) {
    && s'.world.requests == s.world.requests && s'.world.inflight == s.world.inflight
    && s'.world.resources == s.world.resources - left && s'.devices == s.devices - left
    && s'.world.pending <= s.world.pending + left
  }

  /** A pass touches nothing but its own resource. */
  lemma PassTouchesOne(kind: Life.DeviceType, s: Joint.State, n: string, a: Life.Answers)
    requires Joined(kind, s) && n in s.devices
    ensures var s', e := After(kind, s, Pass(n, a)), Reconciled(kind, s, n, a);
      && s'.world.requests == s.world.requests && s'.world.inflight == s.world.inflight
      && s'.world.pending <= s.world.pending + {n}
      && s'.world.resources - {n} == s.world.resources - {n} && s'.devices - {n} == s.devices - {n}
      && (if e.gone then n !in s'.devices && n !in s'.world.resources else n in s'.devices && s'.devices[n] == e)
  {
    hide Life.Step, Shows, Reached;
  }

  lemma {:induction false} ReapOne(kind: Life.DeviceType, s: Joint.State, n: string, fair: (World, Event) -> bool)
    returns (moves: seq<Joint.Move>)
    requires Joined(kind, s) && n in s.devices && Leaving(s.devices[n])
    ensures AllPasses(moves) && AllAble(kind, s, moves) && AllPeaceful(kind, s, moves, fair)
    ensures Without(s, End(kind, s, moves), {n}) && Joined(kind, End(kind, s, moves))
    decreases 5 - Life.Rank(s.devices[n].status.state)
  {
    hide Life.Step, Life.Sound, Reached, Shows, Orderly, After, Favourable;
    var d, a := s.devices[n], Favourable(Life.NodeFound, s.devices[n].status.state);
    var m := Pass(n, a);
    ReachedFacts(kind, d);
    PassGoesOn(kind, d);
    MoveJoins(kind, s, m);
    PassTouchesOne(kind, s, n, a);
    var s1 := After(kind, s, m);
    var rest := [];
    if n in s1.devices {
      rest := ReapOne(kind, s1, n, fair);
    } else {
      assert s1.world.resources - {n} == s1.world.resources && s1.devices - {n} == s1.devices;
    }
    moves := [m] + rest;
    hide Joined;
    StartsWith(kind, s, m, rest, fair);
  }

  lemma {:induction false} EndAppends(kind: Life.DeviceType, s: Joint.State, a: seq<Joint.Move>, b: seq<Joint.Move>,
                                      fair: (World, Event) -> bool)
    requires AllAble(kind, s, a) && AllPeaceful(kind, s, a, fair)
    requires AllAble(kind, End(kind, s, a), b) && AllPeaceful(kind, End(kind, s, a), b, fair)
    ensures AllAble(kind, s, a + b) && AllPeaceful(kind, s, a + b, fair)
    ensures End(kind, s, a + b) == End(kind, End(kind, s, a), b)
    decreases |a|
  {
    hide Able, Peaceful, After;
    if a == [] {
      assert a + b == b;
    } else {
      assert (a + b)[1..] == a[1..] + b;
      EndAppends(kind, After(kind, s, a[0]), a[1..], b, fair);
    }
  }

  lemma WithoutAll(s: Joint.State, s1: Joint.State, s2: Joint.State, n: string, left: set<string>)
    requires n in left && Without(s, s1, {n}) && Without(s1, s2, left - {n})
    ensures Without(s, s2, left)
  {
    assert s.world.resources - {n} - (left - {n}) == s.world.resources - left;
    assert s.devices - {n} - (left - {n}) == s.devices - left;
  }

  lemma WithoutNone(s: Joint.State)
    ensures Without(s, s, {})
  {
    assert s.world.resources - {} == s.world.resources && s.devices - {} == s.devices;
  }

  ghost predicate AllLeaving(s: Joint.State, left: set<string>) {
    forall n :: n in left ==> n in s.devices && Leaving(s.devices[n])
  }

  /** All of a set of marked resources, one after the other. */
  lemma {:induction false} ReapAll(kind: Life.DeviceType, s: Joint.State, left: set<string>,
                                   fair: (World, Event) -> bool)
    returns (moves: seq<Joint.Move>)
    requires Joined(kind, s) && AllLeaving(s, left)
    ensures AllPasses(moves) && AllAble(kind, s, moves) && AllPeaceful(kind, s, moves, fair)
    ensures Without(s, End(kind, s, moves), left) && Joined(kind, End(kind, s, moves))
    decreases left
  {
    moves := [];
    if left == {} {
      WithoutNone(s);
      assert AllAble(kind, s, []) && End(kind, s, []) == s;
    } else {
      var n :| n in left;
      hide AllAble, AllPeaceful, End, Joined, Leaving;
      var first := ReapOne(kind, s, n, fair);
      var s1 := End(kind, s, first);
      assert AllLeaving(s1, left - {n});
      var rest := ReapAll(kind, s1, left - {n}, fair);
      EndAppends(kind, s, first, rest, fair);
      WithoutAll(s, s1, End(kind, s1, rest), n, left);
      moves := first + rest;
    }
  }

  // When the node vanishes.

  /** Two passes that find the node missing take a resource out, marked before or not. */
  lemma LostInTwoPasses(kind: Life.DeviceType, d: Life.Device)
    requires Life.Sound(kind, d) && !d.gone && d.finalizer && !d.deleting && d.status.state == Online
    requires d.of.spec.targetNode != ""
    ensures var e := Life.Step(kind, d, Life.Reconciled(Favourable(Life.NodeMissing, Online))).device;
      && !e.gone && e.status.state == Deleting && e.of == d.of
      && var e' := Life.Step(kind, e, Life.Reconciled(Favourable(Life.NodeMissing, Online))).device;
        e'.gone && e'.status == e.status
  {
  }

  lemma LostFromStore(kind: Life.DeviceType, s: Joint.State, n: string, a: Life.Answers)
    requires Joined(kind, s) && n in s.devices && a == Favourable(Life.NodeMissing, Online)
    requires var r := s.world.resources[n]; r.status.state == Online && !r.deleting && r.spec.targetNode != ""
    ensures var s1 := After(kind, s, Pass(n, a));
      && n in s1.devices && n in s1.world.resources
      && After(kind, s1, Pass(n, a)).world
          == s.world.(resources := s.world.resources - {n}, pending := s.world.pending + {n})
  {
    var d := s.devices[n];
    ReachedFacts(kind, d);
    LostInTwoPasses(kind, d);
    hide Life.Step, Reached, Life.Sound, Orderly, Favourable;
    var s1 := After(kind, s, Pass(n, a));
    assert s1.world.resources - {n} == s.world.resources - {n};
  }

  /** A queued update that finds no resource is dropped. */
  lemma NothingToMirror(w: World, n: string)
    requires n !in w.resources && n in w.pending && w.inflight.None?
    ensures Enabled(w, Begin(n)) && Enabled(Next(w, Begin(n)), Finish(true))
    ensures Next(Next(w, Begin(n)), Finish(true)) == w.(pending := w.pending - {n})
  {
  }

  lemma AbleFirst(kind: Life.DeviceType, s: Joint.State, m: Joint.Move, moves: seq<Joint.Move>)
    requires Able(s, m) && AllAble(kind, After(kind, s, m), moves)
    ensures AllAble(kind, s, [m] + moves) && End(kind, s, [m] + moves) == End(kind, After(kind, s, m), moves)
  {
    hide Able, After;
    assert ([m] + moves)[1..] == moves;
  }

  /** A tracked resource is Online on a node, nobody has marked it, and no update is on its way. */
  ghost predicate Vanishing(s: Joint.State, m: string, n: string) {
    && TracksBy(s.world, m, n) && n in s.devices && n in s.world.resources && s.world.pending == {}
    && s.world.inflight.None?
    && var r := s.world.resources[n]; r.status.state == Online && !r.deleting && r.spec.targetNode != ""
  }

  /**
   A request does not learn that a resource went with its node: after two passes and the mirror pass for the
   one update they queued, the resource is gone, nothing is queued, and the request is as it was, Running
   if it was Running, its entry Online.
   */
  lemma VanishesUnnoticed(kind: Life.DeviceType, s: Joint.State, m: string, n: string) returns (moves: seq<Joint.Move>)
    requires Joined(kind, s) && Loose(s.world) && Vanishing(s, m, n)
    ensures AllAble(kind, s, moves)
    ensures End(kind, s, moves).world == s.world.(resources := s.world.resources - {n})
    ensures s.world.requests[m].resources[n].state == Online
  {
    assert Plausible(s.world, m, n);
    var a := Favourable(Life.NodeMissing, Online);
    LostFromStore(kind, s, n, a);
    var lost, begin, finish := Pass(n, a), Other(Begin(n)), Other(Finish(true));
    var s1 := After(kind, s, lost);
    var s2 := After(kind, s1, lost);
    NothingToMirror(s2.world, n);
    hide Life.Step, Joined, Enabled, Next, Stored, Follow, Reconciled;
    var s3 := After(kind, s2, begin);
    var s4 := After(kind, s3, finish);
    assert AllAble(kind, s4, []) && End(kind, s4, []) == s4;
    AbleFirst(kind, s3, finish, []);
    AbleFirst(kind, s2, begin, [finish] + []);
    AbleFirst(kind, s1, lost, [begin] + ([finish] + []));
    AbleFirst(kind, s, lost, [lost] + ([begin] + ([finish] + [])));
    moves := [lost] + ([lost] + ([begin] + ([finish] + [])));
  }

  /** Lists an Updating pass may read, and writes enough for all of them. */
  lemma SomeWriting(w: World, m: string) returns (wr: Writing)
    requires m in w.requests
    ensures Lists(w, m, wr.listing) && Ranges(w, m, wr.order) && wr.budget == |wr.listing| + |wr.order|
  {
    var listing := Enumerate(set k | k in w.resources && w.resources[k].managedBy == m);
    var order := Enumerate(w.requests[m].resources.Keys);
    wr := Writing(listing, order, |listing| + |order|, 0, "");
  }

  /** The request reports Running, its entries as they were, while one of its resources has no status. */
  ghost predicate RunsBlind(w: World, w': World, m: string, n: string)
    requires m in w.requests
  {
    && m in w'.requests && w'.requests[m].state == Running && w'.requests[m].resources == w.requests[m].resources
    && n in w'.resources && w'.resources[n].status == NO_STATUS && w'.pending == w.pending && w'.inflight == w.inflight
  }

  lemma MadeAnew(w: World, m: string, n: string, wr: Writing)
    requires Ready(w, m, Updating) && !w.requests[m].deleting && w.requests[m].scalar == w.requests[m].spec
    requires OwnEntries(w, m) && AllOnline(w.requests[m].resources) && TracksBy(w, m, n) && n !in w.resources
    requires Lists(w, m, wr.listing) && Ranges(w, m, wr.order) && wr.budget == |wr.listing| + |wr.order|
    ensures RunsBlind(w, UpdatePass(w, m, wr, Saved), m, n)
  {
    assert forall k :: k in wr.listing ==> ManagedBy(w, m, k);
    UpdatedResources(w, m, wr);
    UpdateEffect(w, m, wr, Saved);
    hide UpdatePass, Lists, OwnEntries, AllOnline, Synced;
  }

  /**
   An Updating pass that finds every entry Online and one tracked resource missing makes it anew and reports Running.
   */
  lemma RunsOnNothing(w: World, m: string, n: string) returns (wr: Writing)
    requires Ready(w, m, Updating) && !w.requests[m].deleting && w.requests[m].scalar == w.requests[m].spec
    requires OwnEntries(w, m) && AllOnline(w.requests[m].resources) && TracksBy(w, m, n) && n !in w.resources
    ensures Enabled(w, PassUpdate(m, wr, Saved)) && RunsBlind(w, Next(w, PassUpdate(m, wr, Saved)), m, n)
  {
    wr := SomeWriting(w, m);
    hide UpdatePass, Lists, OwnEntries, AllOnline, RunsBlind;
    MadeAnew(w, m, n, wr);
  }

  /**
   Running is entered untruthfully once a node has vanished: from any state of an Updating request with all
   entries Online, the resource of one of them goes with its node unnoticed, and the next Updating pass
   makes it anew, without a status, and reports Running with nothing queued.
   */
  lemma RunsAfterVanishing(kind: Life.DeviceType, s: Joint.State, m: string, n: string) returns (moves: seq<Joint.Move>)
    requires Joined(kind, s) && Loose(s.world) && Vanishing(s, m, n) && Ready(s.world, m, Updating)
    requires var r := s.world.requests[m]; !r.deleting && r.scalar == r.spec && AllOnline(r.resources)
    requires OwnEntries(s.world, m)
    ensures AllAble(kind, s, moves) && RunsBlind(s.world, End(kind, s, moves).world, m, n)
  {
    var first := VanishesUnnoticed(kind, s, m, n);
    hide Joined, Loose, Enabled, Next, AllAble, End;
    var s1 := End(kind, s, first);
    var wr := RunsOnNothing(s1.world, m, n);
    var pass := Other(PassUpdate(m, wr, Saved));
    AbleLast(kind, s, first, pass);
    moves := first + [pass];
  }

  lemma {:induction false} AbleLast(kind: Life.DeviceType, s: Joint.State, moves: seq<Joint.Move>, m: Joint.Move)
    requires AllAble(kind, s, moves) && Able(End(kind, s, moves), m)
    ensures AllAble(kind, s, moves + [m]) && End(kind, s, moves + [m]) == After(kind, End(kind, s, moves), m)
    decreases |moves|
  {
    hide Able, After;
    if moves == [] {
      assert moves + [m] == [m] && [m][1..] == [];
      assert AllAble(kind, After(kind, s, m), []);
    } else {
      assert (moves + [m])[1..] == moves[1..] + [m];
      AbleLast(kind, After(kind, s, moves[0]), moves[1..], m);
    }
  }
}
