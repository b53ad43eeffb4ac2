/** A run in which a size is edited before the first Updating pass: the request ends with entries on no node. */
module EarlyEdit {
  import opened Api
  import opened Matching
  import opened Placement
  import opened Allocation
  import opened Cluster
  import opened Unguarded

  const ASKED := Details("gpu", "m", 1, false, SameNode, "", None)
  const NOTHING := Details("", "", 0, false, SameNode, "", None)

  /** The only request of the run, and nothing else. */
  function Only(spec: Details, state: RequestState, scalar: Details, entries: map<string, Tracked>,
                finalizer: bool): World {
    World(map["r" := Request(spec, state, "", entries, scalar, false, finalizer)], map[], {}, None)
  }

  function Look(firsts: map<string, string>, spare: seq<string>): Lookups {
    Lookups([], ["r"], firsts, ["n"], Capacities(map[]), false, {}, spare)
  }

  lemma Starts(w: World, e: Event, w': World, es: seq<Event>)
    requires Enabled(w, e) && Next(w, e) == w' && Legal(w', es, Free)
    ensures Legal(w, [e] + es, Free) && Run(w, [e] + es, Free) == Run(w', es, Free)
  {
    hide Enabled, Next;
    assert ([e] + es)[1..] == es;
  }

  lemma Created()
    ensures Enabled(EMPTY, CreateRequest("r", ASKED))
    ensures Next(EMPTY, CreateRequest("r", ASKED)) == Only(ASKED, NoState, NOTHING, map[], false)
  {
  }

  lemma Accepted()
    ensures var w, e := Only(ASKED, NoState, NOTHING, map[], false), PassNone("r", true, "", Saved);
      Enabled(w, e) && Next(w, e) == Only(ASKED, NodeAllocating, ASKED, map[], true)
  {
  }

  /** With nothing listed, a request that tracks nothing is placed on the free node. */
  lemma FirstPlacement()
    ensures var sv := Survey("r", ["n"], Capacities(map[]), false, [Peer("r", SameNode, "", map[], "")]);
      Allocate(ASKED, [], map[], sv, {}, ["x"]) == Allocated(map["x" := NewEntry("n")])
  {
    var sv := Survey("r", ["n"], Capacities(map[]), false, [Peer("r", SameNode, "", map[], "")]);
    assert !Occupied(sv.peers, "r", "n");
    var nodes := Repeat(1, "n");
    assert Place(ASKED, sv, Start(ASKED, map[])) == Placed(nodes);
    assert AddFirst(map[], ["x"], nodes, 0) == map[];
    assert AddFirst(map[], ["x"], nodes, 1) == map["x" := NewEntry("n")];
  }

  /** With nothing listed, a request that tracks something is placed on the node it remembers: none. */
  lemma SecondPlacement(peers: seq<Peer>)
    ensures var d, tracked, sv := ASKED.(size := 2), map["x" := NewEntry("n")],
        Survey("r", ["n"], Capacities(map[]), false, peers);
      Allocate(d, [], tracked, sv, {},
               ["y", "z"]) == Allocated(map["x" := NewEntry("n"), "y" := NewEntry(""), "z" := NewEntry("")])
  {
    var d, tracked, sv := ASKED.(size := 2), map["x" := NewEntry("n")],
        Survey("r", ["n"], Capacities(map[]), false, peers);
    var nodes, names := Repeat(2, ""), ["y", "z"];
    assert tracked != map[] by { assert "x" in tracked; }
    assert Place(d, sv, Start(d, tracked)) == Placed(nodes);
    assert AddFirst(tracked, names, nodes, 0) == tracked;
    assert AddFirst(tracked, names, nodes, 1) == tracked["y" := NewEntry("")];
    assert AddFirst(tracked, names, nodes, 2) == tracked["y" := NewEntry("")]["z" := NewEntry("")];
  }

  /** An allocation pass that lists nothing. */
  lemma NothingListed(d: Details, entries: map<string, Tracked>, look: Lookups, out: map<string, Tracked>)
    requires look.listing == [] && look.victims == {} && LooksUp(Only(d, NodeAllocating, d, entries, true), "r", look)
    requires Allocate(d, [], entries, SurveyOf(Only(d, NodeAllocating, d, entries, true), "r", look), {}, look.spare)
        == Allocated(out)
    ensures var w, e := Only(d, NodeAllocating, d, entries, true), PassAllocate("r", look, Saved);
      Enabled(w, e) && Next(w, e) == Only(d, Updating, d, out, true)
  {
    var w := Only(d, NodeAllocating, d, entries, true);
    assert Live(ItemsOf(w.resources, [])) == [];
    assert RightVictims(d, [], entries, SurveyOf(w, "r", look), {});
    hide Allocate, RightVictims, LooksUp;
  }

  lemma FirstAllocation()
    ensures var w, e := Only(ASKED, NodeAllocating, ASKED, map[], true), PassAllocate("r", Look(map[], ["x"]), Saved);
      Enabled(w, e) && Next(w, e) == Only(ASKED, Updating, ASKED, map["x" := NewEntry("n")], true)
  {
    var w, look := Only(ASKED, NodeAllocating, ASKED, map[], true), Look(map[], ["x"]);
    assert "x" != "r" by { assert "x"[0] != "r"[0]; }
    assert !InUse(w, "x");
    FirstPlacement();
    assert SurveyOf(w, "r", look) == Survey("r", ["n"], Capacities(map[]), false, [Peer("r", SameNode, "", map[], "")]);
    hide Allocate;
    NothingListed(ASKED, map[], look, map["x" := NewEntry("n")]);
  }

  lemma Edited()
    ensures var w, e := Only(ASKED, Updating, ASKED, map["x" := NewEntry("n")], true),
        EditRequest("r", ASKED.(size := 2));
      Enabled(w, e) && Next(w, e) == Only(ASKED.(size := 2), Updating, ASKED, map["x" := NewEntry("n")], true)
  {
  }

  /** The first Updating pass sees the edit and makes no resource. */
  lemma Noticed()
    ensures var w, e := Only(ASKED.(size := 2), Updating, ASKED, map["x" := NewEntry("n")], true),
        PassUpdate("r", Writing([], ["x"], 0, 0, ""), Saved);
      Enabled(w, e)
        && Next(w, e) == Only(ASKED.(size := 2), NodeAllocating, ASKED.(size := 2), map["x" := NewEntry("n")], true)
  {
    hide DeleteEach, CreateEach;
  }

  lemma SecondLook(entry: Tracked)
    ensures var d := ASKED.(size := 2);
      LooksUp(Only(d, NodeAllocating, d, map["x" := entry], true), "r", Look(map["r" := "x"], ["y", "z"]))
  {
    var d := ASKED.(size := 2);
    var w := Only(d, NodeAllocating, d, map["x" := entry], true);
    assert "y"[0] != "r"[0] && "z"[0] != "r"[0] && "y"[0] != "x"[0] && "z"[0] != "x"[0] && "y"[0] != "z"[0];
    assert !InUse(w, "y") && !InUse(w, "z");
  }

  lemma SecondAllocation()
    ensures var d := ASKED.(size := 2);
      var w, e := Only(d, NodeAllocating, d, map["x" := NewEntry("n")], true),
          PassAllocate("r", Look(map["r" := "x"], ["y", "z"]), Saved);
      Enabled(w, e)
        && Next(w, e) == Only(d, Updating, d, map["x" := NewEntry("n"), "y" := NewEntry(""), "z" := NewEntry("")], true)
  {
    var d := ASKED.(size := 2);
    var w, look := Only(d, NodeAllocating, d, map["x" := NewEntry("n")], true), Look(map["r" := "x"], ["y", "z"]);
    SecondLook(NewEntry("n"));
    assert forall n :: n in look.peers ==> n in w.requests;
    SecondPlacement(SurveyOf(w, "r", look).peers);
    hide Allocate, LooksUp, Enabled, Next;
    NothingListed(d, map["x" := NewEntry("n")], look,
                  map["x" := NewEntry("n"), "y" := NewEntry(""), "z" := NewEntry("")]);
  }

  lemma EndsBlank()
    ensures var d := ASKED.(size := 2);
      var w := Only(d, Updating, d, map["x" := NewEntry("n"), "y" := NewEntry(""), "z" := NewEntry("")], true);
      "r" in w.requests && w.requests["r"].state == Updating && HasBlankNode(w.requests["r"].resources)
  {
    var entries := map["x" := NewEntry("n"), "y" := NewEntry(""), "z" := NewEntry("")];
    assert "y" in entries && entries["y"].nodeName == "" by { assert "y"[0] != "z"[0]; }
  }

  /** From the empty cluster to an allocation that tracks a name it cannot list. */
  lemma EditedEarly() returns (es: seq<Event>)
    ensures Legal(EMPTY, es, Free)
    ensures var d := ASKED.(size := 2);
      Run(EMPTY, es, Free) == Only(d, NodeAllocating, d, map["x" := NewEntry("n")], true)
  {
    hide Enabled, Next, Only, Look;
    Created();
    Accepted();
    FirstAllocation();
    Edited();
    Noticed();
    var d, x := ASKED.(size := 2), map["x" := NewEntry("n")];
    var w1, w2 := Only(ASKED, NoState, NOTHING, map[], false), Only(ASKED, NodeAllocating, ASKED, map[], true);
    var w3, w4 := Only(ASKED, Updating, ASKED, x, true), Only(d, Updating, ASKED, x, true);
    var w5 := Only(d, NodeAllocating, d, x, true);
    var e3 := PassAllocate("r", Look(map[], ["x"]), Saved);
    var e4, e5 := EditRequest("r", d), PassUpdate("r", Writing([], ["x"], 0, 0, ""), Saved);
    Two(w3, e4, e5, Free);
    es := ThreeSteps(EMPTY, CreateRequest("r", ASKED), w1, PassNone("r", true, "", Saved), w2, e3, w3);
    RunAppends(EMPTY, es, [e4, e5], Free);
    es := es + [e4, e5];
  }

  /** From the empty cluster, six steps to a request with entries on the empty node name. */
  lemma BlankNodeRun() returns (es: seq<Event>)
    ensures Legal(EMPTY, es, Free)
    ensures var w := Run(EMPTY, es, Free);
      "r" in w.requests && w.requests["r"].state == Updating && HasBlankNode(w.requests["r"].resources)
  {
    hide Enabled, Next, Only, Look;
    var early := EditedEarly();
    SecondAllocation();
    EndsBlank();
    var d := ASKED.(size := 2);
    var w, e := Only(d, NodeAllocating, d, map["x" := NewEntry("n")], true),
        PassAllocate("r", Look(map["r" := "x"], ["y", "z"]), Saved);
    One(w, e, Free);
    RunAppends(EMPTY, early, [e], Free);
    es := early + [e];
  }

  lemma ThreeSteps(w: World, e1: Event, w1: World, e2: Event, w2: World, e3: Event, w3: World) returns (es: seq<Event>)
    requires Enabled(w, e1) && Next(w, e1) == w1 && Enabled(w1, e2) && Next(w1, e2) == w2 && Enabled(w2, e3)
    requires Next(w2, e3) == w3
    ensures Legal(w, es, Free) && Run(w, es, Free) == w3
  {
    hide Enabled, Next;
    es := [];
    assert Legal(w3, es, Free) && Run(w3, es, Free) == w3;
    Starts(w2, e3, w3, es);
    es := [e3] + es;
    Starts(w1, e2, w2, es);
    es := [e2] + es;
    Starts(w, e1, w1, es);
    es := [e1] + es;
  }
}
