/** Two runs from the empty cluster to two samenode requests without target node on one node. */
module SharingRun {
  import opened Api
  import opened Matching
  import opened Allocation
  import opened Cluster
  import opened NoOrphans
  import Effects
  import opened Unguarded
  import opened Exclusivity
  import opened Sharing
  import opened Leaving
  import opened EarlyEdit
  import opened Joint
  import opened Finishing
  import opened BlindRun
  import Life = ResourceLifecycle

  const MORE := ASKED.(size := 2)

  /** The request about to be allocated anew, its one tracked resource gone. */
  function Bereft(entry: Tracked): World {
    Only(MORE, NodeAllocating, MORE, map["x" := entry], true)
  }

  function Again(): Event {
    PassAllocate("r", Look(map["r" := "x"], ["y", "z"]), Saved)
  }

  lemma BereftIsSafe(entry: Tracked)
    requires entry.nodeName != ""
    ensures Safe(Bereft(entry))
  {
  }

  /** The allocation lists nothing, so it is not steady. */
  lemma AgainIsImprudent(entry: Tracked)
    requires entry.nodeName != ""
    ensures Enabled(Bereft(entry), Again()) && !Prudent(Bereft(entry), Again())
  {
    var w, look := Bereft(entry), Look(map["r" := "x"], ["y", "z"]);
    SecondLook(entry);
    assert Live(ItemsOf(w.resources, [])) == [];
    assert MatchFrom(MORE, look.caps, Start(MORE, map["x" := entry]), []) == Matched(Start(MORE, map["x" := entry]));
    assert "x" in map["x" := entry] && "x" !in Names([]) && FirstFit(MORE, look.caps, []) == "";
    assert !Steady(MORE, look.caps, [], map["x" := entry]);
    assert forall n :: n in look.peers ==> n in w.requests;
    assert RightVictims(MORE, [], map["x" := entry], SurveyOf(w, "r", look), {});
    hide Allocate, Steady, LooksUp, RightVictims;
  }

  lemma {:induction false} PrudentIsFree(w: World, es: seq<Event>)
    requires Legal(w, es, Prudent)
    ensures Legal(w, es, Free) && Run(w, es, Free) == Run(w, es, Prudent)
    decreases |es|
  {
    hide Enabled, Next, Prudent;
    if es != [] { PrudentIsFree(Next(w, es[0]), es[1..]); }
  }

  /** A size edited before the first Updating pass: two requests come to share node "n". */
  lemma EarlyEditShares() returns (es: seq<Event>, s: string, k: string, z: string)
    ensures Legal(EMPTY, es, Free) && Share(Run(EMPTY, es, Free), "r", s, k, z)
  {
    var early := EditedEarly();
    var w := Bereft(NewEntry("n"));
    BereftIsSafe(NewEntry("n"));
    AgainIsImprudent(NewEntry("n"));
    hide Safe, Enabled, Next, Prudent, Share, Look, Only;
    var more;
    more, s, k, z := UnsteadyShares(w, "r", Look(map["r" := "x"], ["y", "z"]), Saved);
    PrudentIsFree(Next(w, Again()), more);
    One(w, Again(), Free);
    RunAppends(EMPTY, early, [Again()], Free);
    RunAppends(EMPTY, early + [Again()], more, Free);
    es := early + [Again()] + more;
  }

  // The same with both controllers at work, a settled edit, and a node that vanishes.

  const SEEN := MirrorOf(NewEntry("n"), UP)

  /** The request with its one resource online, in this state. */
  function Served(spec: Details, state: RequestState, scalar: Details): World {
    World(map["r" := Request(spec, state, "", map["x" := SEEN], scalar, false, true)], map["x" := Held(UP)], {}, None)
  }

  lemma EditedWhenSettled()
    ensures var w, e := Served(ASKED, Updating, ASKED), EditRequest("r", MORE);
      && w == Both(Held(UP), SEEN, {}, None)
      && (forall n :: ManagedBy(w, "r", n) <==> n in w.requests["r"].resources)
      && Enabled(w, e) && Next(w, e) == Served(MORE, Updating, ASKED)
  {
  }

  lemma EditNoticed()
    ensures var w, e := Served(MORE, Updating, ASKED), PassUpdate("r", Writing(["x"], ["x"], 0, 0, ""), Saved);
      Enabled(w, e) && Next(w, e) == Served(MORE, NodeAllocating, MORE)
  {
    hide DeleteEach, CreateEach;
    assert forall n :: n in ["x"] <==> n == "x";
  }

  /** To an allocation about to begin, all tracked resources online and listed. */
  lemma EditedInPeace(kind: Life.DeviceType) returns (moves: seq<Joint.Move>)
    ensures AllAble(kind, START, moves)
    ensures End(kind, START, moves) == Small(Served(MORE, NodeAllocating, MORE), Coming().(status := UP))
  {
    var d := Coming().(status := UP);
    var w1, w2 := Served(ASKED, Updating, ASKED), Served(MORE, Updating, ASKED);
    var w3 := Served(MORE, NodeAllocating, MORE);
    var e1, e2 := EditRequest("r", MORE), PassUpdate("r", Writing(["x"], ["x"], 0, 0, ""), Saved);
    EditedWhenSettled();
    EditNoticed();
    assert w2.resources == map["x" := Held(UP)] && w3.resources == map["x" := Held(UP)];
    hide Enabled, Next, Served, Both, Able, After, AllAble, End;
    moves := GetsOnline(kind);
    EventOver(kind, w1, d, e1);
    EventOver(kind, w2, d, e2);
    AbleLast(kind, START, moves, Other(e1));
    moves := moves + [Other(e1)];
    AbleLast(kind, START, moves, Other(e2));
    moves := moves + [Other(e2)];
  }

  lemma AboutToVanish()
    ensures var s := Small(Served(MORE, NodeAllocating, MORE), Coming().(status := UP));
      && Vanishing(s, "r", "x") && SEEN.nodeName != ""
      && s.world.(resources := s.world.resources - {"x"}) == Bereft(SEEN)
  {
    assert map["x" := Held(UP)] - {"x"} == map[];
  }

  /** The resource goes with its node before the allocation lists it. */
  lemma GetsBereft(kind: Life.DeviceType) returns (moves: seq<Joint.Move>)
    ensures AllAble(kind, START, moves) && End(kind, START, moves).world == Bereft(SEEN)
  {
    var peace := EditedInPeace(kind);
    AboutToVanish();
    JointLoose(kind, peace);
    JointJoined(kind, peace);
    hide Loose, Joined, Vanishing, AllAble, End, Served, Only;
    var lost := VanishesUnnoticed(kind, End(kind, START, peace), "r", "x");
    AbleAppends(kind, START, peace, lost);
    moves := peace + lost;
  }

  lemma NobodyElsePinned(look: Lookups, node: string)
    requires forall n :: n in look.peers ==> n in Bereft(SEEN).requests
    requires look.listing == [] && node != ""
    ensures NobodyPinned(AllocatePass(Bereft(SEEN), "r", look, Saved), node)
  {
    Effects.AllocateEffect(Bereft(SEEN), "r", look, Saved);
    hide AllocatePass;
  }

  /** Other people's events, one after the other, as moves. */
  lemma ThreeOthers(kind: Life.DeviceType, moves: seq<Joint.Move>, e1: Event, e2: Event, e3: Event)
    requires AllAble(kind, START, moves) && !OwnWrite(e1) && !OwnWrite(e2) && !OwnWrite(e3)
    requires var w := End(kind, START, moves).world;
      && Enabled(w, e1) && Enabled(Next(w, e1), e2) && Enabled(Next(Next(w, e1), e2), e3)
    ensures var all, w := moves + [Other(e1)] + [Other(e2)] + [Other(e3)], End(kind, START, moves).world;
      AllAble(kind, START, all) && End(kind, START, all).world == Next(Next(Next(w, e1), e2), e3)
  {
    hide Enabled, Next, AllAble, End;
    AbleLast(kind, START, moves, Other(e1));
    AbleLast(kind, START, moves + [Other(e1)], Other(e2));
    AbleLast(kind, START, moves + [Other(e1)] + [Other(e2)], Other(e3));
  }

  /** After the allocation the request stands on two nodes, and the newcomer may come. */
  lemma AgainSplits() returns (k: string, y: string)
    ensures Enabled(Bereft(SEEN), Again())
    ensures var w := Next(Bereft(SEEN), Again());
      && Guarded(w) && w.inflight.None? && Split(w, "r", k, y) && NobodyPinned(w, w.requests["r"].resources[k].nodeName)
  {
    var w, look := Bereft(SEEN), Look(map["r" := "x"], ["y", "z"]);
    assert look.listing == [] && forall n :: n in look.peers ==> n in w.requests;
    AgainAllocates();
    hide Safe, Enabled, Next, Prudent, Guarded, AllocatePass, Look, Only, Split, NobodyPinned;
    k, y := UnsteadySplits(w, "r", look, Saved);
    SplitNode(Next(w, Again()), "r", k, y);
    NobodyElsePinned(look, Next(w, Again()).requests["r"].resources[k].nodeName);
  }

  lemma AgainAllocates()
    ensures var w, look := Bereft(SEEN), Look(map["r" := "x"], ["y", "z"]);
      && Safe(w) && Enabled(w, Again()) && !Prudent(w, Again()) && Guarded(Next(w, Again()))
      && (forall n :: n in look.peers ==> n in w.requests) && look.listing == []
      && Next(w, Again()) == AllocatePass(w, "r", look, Saved)
  {
    AboutToVanish();
    BereftIsSafe(SEEN);
    AgainIsImprudent(SEEN);
    hide Loose, Anchored, Exclusive, Prudent, AllocatePass;
    StepKeepsGuard(Bereft(SEEN), Again());
  }

  /** A settled edit, and a node that vanishes before the allocation: two requests come to share node "n". */
  lemma VanishedNodeShares(kind: Life.DeviceType) returns (moves: seq<Joint.Move>, s: string, k: string, z: string)
    ensures AllAble(kind, START, moves) && Share(End(kind, START, moves).world, "r", s, k, z)
  {
    hide Enabled, Next, Prudent, Share, Guarded, AllAble, End, Bereft, Again, Split, NobodyPinned;
    var bereft := GetsBereft(kind);
    var y;
    k, y := AgainSplits();
    AgainIsNoOwnWrite();
    AbleLast(kind, START, bereft, Other(Again()));
    var again := bereft + [Other(Again())];
    var e1, e2, e3;
    s, z, e1, e2, e3 := NewcomerShares(End(kind, START, again).world, "r", k, y);
    ThreeOthers(kind, again, e1, e2, e3);
    moves := again + [Other(e1)] + [Other(e2)] + [Other(e3)];
  }

  lemma AgainIsNoOwnWrite()
    ensures !OwnWrite(Again())
  {
  }

  lemma SplitNode(w: World, r: string, k: string, y: string)
    requires Split(w, r, k, y)
    ensures r in w.requests && k in w.requests[r].resources && w.requests[r].resources[k].nodeName != ""
  {
  }
}
