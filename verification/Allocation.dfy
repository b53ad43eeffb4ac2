/** One NodeAllocating pass: match, remove surplus by priority, place what is missing. */
module Allocation {
  import opened Api
  import opened Matching
  import opened Priority
  import opened Placement

  /** How a pass leaves the tracked entries; a failed pass keeps whatever it had already forgotten. */
  datatype Outcome = Failed(msg: string, tracked: map<string, Tracked>) | Allocated(tracked: map<string, Tracked>)

  predicate IsLive(r: Resource) {
    r.status.state != Detaching && r.status.state != Deleting
  }

  function Live(listing: seq<Item>): seq<Item> {
    if listing == [] then []
    else if IsLive(listing[0].res) then [listing[0]] + Live(listing[1..])
    else Live(listing[1..])
  }

  lemma {:induction false} LiveMembers(listing: seq<Item>)
    ensures forall x :: x in Live(listing) <==> x in listing && IsLive(x.res)
    ensures DistinctNames(listing) ==> DistinctNames(Live(listing))
  {
    if listing != [] {
      var rest := listing[1..];
      LiveMembers(rest);
      assert forall x :: x in listing <==> x == listing[0] || x in rest by { assert listing == [listing[0]] + rest; }
      if DistinctNames(listing) && IsLive(listing[0].res) {
        forall j | 0 <= j < |Live(rest)| ensures Live(rest)[j].name != listing[0].name {
          assert Live(rest)[j] in rest;
        }
      }
    }
  }

  /** The first n new entries, one per chosen node, under generated names. */
  function AddFirst(tracked: map<string, Tracked>, names: seq<string>, nodes: seq<string>, n: nat): map<string, Tracked>
    requires n <= |names| && n <= |nodes|
  {
    if n == 0 then tracked
    else AddFirst(tracked, names, nodes, n - 1)[names[n - 1] := NewEntry(nodes[n - 1])]
  }

  function AddEntries(tracked: map<string, Tracked>, names: seq<string>, nodes: seq<string>): map<string, Tracked> {
    AddFirst(tracked, names, nodes, if |nodes| <= |names| then |nodes| else |names|)
  }

  function AfterRemoval(p: Progress, victims: set<string>): Progress {
    if p.toDelete > 0 then p.(tracked := p.tracked - victims) else p
  }

  function Allocate(d: Details, items: seq<Item>, tracked: map<string, Tracked>, sv: Survey, victims: set<string>,
                    spare: seq<string>): Outcome {
    match MatchFrom(d, sv.caps, Start(d, tracked), items)
    case Aborted(msg, left) => Failed(msg, left)
    case Matched(q) =>
      var p := AfterRemoval(q, victims);
      match Place(d, sv, p)
      case NoPlace(msg) => Failed(msg, p.tracked)
      case Placed(nodes) => Allocated(AddEntries(p.tracked, spare, nodes))
  }

  /** The victims are what a removal by priority may choose. */
  ghost predicate RightVictims(d: Details, items: seq<Item>, tracked: map<string, Tracked>, sv: Survey,
                               victims: set<string>) {
    match MatchFrom(d, sv.caps, Start(d, tracked), items)
    case Aborted(_, _) => true
    case Matched(q) => q.toDelete > 0 ==> KSmallest(items, q.toDelete, victims)
  }

  method FilterLive(listing: seq<Item>) returns (items: seq<Item>)
    ensures items == Live(listing)
    ensures forall x :: x in items <==>
      x in listing && x.res.status.state != Detaching && x.res.status.state != Deleting
  {
    LiveMembers(listing);
    items := [];
    for i := 0 to |listing|
      invariant Live(listing) == items + Live(listing[i..])
    {
      assert listing[i..][1..] == listing[i + 1..];
      if listing[i].res.status.state != Detaching && listing[i].res.status.state != Deleting {
        items := items + [listing[i]];
      }
    }
    assert listing[|listing|..] == [];
  }

  method NameEntries(tracked: map<string, Tracked>, spare: seq<string>, nodes: seq<string>)
    returns (resources: map<string, Tracked>)
    ensures resources == AddEntries(tracked, spare, nodes)
  {
    resources := tracked;
    var i := 0;
    while i < |nodes| && i < |spare|
      invariant 0 <= i <= |nodes| && i <= |spare|
      invariant resources == AddFirst(tracked, spare, nodes, i)
    {
      resources := resources[spare[i] := NewEntry(nodes[i])];
      i := i + 1;
    }
  }

  method AllocateNodes(d: Details, listing: seq<Item>, tracked: map<string, Tracked>, sv: Survey, spare: seq<string>)
    returns (out: Outcome, victims: set<string>)
    requires DistinctNames(listing)
    ensures RightVictims(d, Live(listing), tracked, sv, victims)
    ensures out == Allocate(d, Live(listing), tracked, sv, victims, spare)
  {
    victims := {};
    var items := FilterLive(listing);
    LiveMembers(listing);
    var matched := MatchPass(d, sv.caps, tracked, items);
    if matched.Aborted? {
      return Failed(matched.msg, matched.tracked), victims;
    }
    var p := matched.progress;
    MatchSurplus(d, sv.caps, Start(d, tracked), items);
    if p.toDelete > 0 {
      var left;
      left, victims := RemoveByPriority(items, p.toDelete, p.tracked);
      p := p.(tracked := left);
    }
    var placed := PlaceNodes(d, sv, p);
    if placed.NoPlace? {
      return Failed(placed.msg, p.tracked), victims;
    }
    var resources := NameEntries(p.tracked, spare, placed.nodes);
    out := Allocated(resources);
  }

  /** Generated names: enough of them, distinct, and none in use. */
  ghost predicate UnusedNames(spare: seq<string>, n: nat, inUse: set<string>) {
    && n <= |spare|
    && (forall i, j :: 0 <= i < j < |spare| ==> spare[i] != spare[j])
    && (forall i :: 0 <= i < |spare| ==> spare[i] !in inUse)
  }

  lemma {:induction false} AddedNames(tracked: map<string, Tracked>, names: seq<string>, nodes: seq<string>, n: nat)
    requires n <= |names| && n <= |nodes|
    ensures forall k :: k in AddFirst(tracked, names, nodes, n) <==> k in tracked || k in names[..n]
  {
    if n > 0 {
      AddedNames(tracked, names, nodes, n - 1);
      assert names[..n] == names[..n - 1] + [names[n - 1]];
    }
  }

  lemma NextNameIsNew(tracked: map<string, Tracked>, names: seq<string>, nodes: seq<string>, n: nat)
    requires UnusedNames(names, |nodes|, tracked.Keys) && n < |nodes|
    ensures names[n] !in AddFirst(tracked, names, nodes, n)
  {
    hide AddFirst;
    AddedNames(tracked, names, nodes, n);
    assert names[n] !in names[..n];
  }

  lemma AddedOneMore(tracked: map<string, Tracked>, names: seq<string>, nodes: seq<string>, n: nat)
    requires n < |names| && n < |nodes| && names[n] !in AddFirst(tracked, names, nodes, n)
    ensures |AddFirst(tracked, names, nodes, n + 1)| == |AddFirst(tracked, names, nodes, n)| + 1
  {
  }

  lemma {:induction false} AddedCount(tracked: map<string, Tracked>, names: seq<string>, nodes: seq<string>, n: nat)
    requires UnusedNames(names, |nodes|, tracked.Keys) && n <= |nodes|
    ensures |AddFirst(tracked, names, nodes, n)| == |tracked| + n
  {
    if n > 0 {
      hide AddFirst;
      NextNameIsNew(tracked, names, nodes, n - 1);
      AddedOneMore(tracked, names, nodes, n - 1);
      AddedCount(tracked, names, nodes, n - 1);
    }
  }

  lemma {:induction false} AddedFirst(tracked: map<string, Tracked>, names: seq<string>, nodes: seq<string>, n: nat)
    requires UnusedNames(names, |nodes|, tracked.Keys) && n <= |nodes|
    ensures var out := AddFirst(tracked, names, nodes, n);
      && (forall k :: k in tracked ==> k in out && out[k] == tracked[k])
      && (forall i :: 0 <= i < n ==> names[i] in out && out[names[i]] == NewEntry(nodes[i]))
  {
    if n > 0 {
      AddedFirst(tracked, names, nodes, n - 1);
    }
  }

  /** The added entries are exactly one blank entry per chosen node; the old ones are untouched. */
  lemma AddedEntries(tracked: map<string, Tracked>, names: seq<string>, nodes: seq<string>)
    requires UnusedNames(names, |nodes|, tracked.Keys)
    ensures var out := AddEntries(tracked, names, nodes);
      && |out| == |tracked| + |nodes|
      && (forall k :: k in out <==> k in tracked || k in names[..|nodes|])
      && (forall k :: k in tracked ==> out[k] == tracked[k])
      && (forall i :: 0 <= i < |nodes| ==> names[i] in out && out[names[i]] == NewEntry(nodes[i]))
  {
    AddedFirst(tracked, names, nodes, |nodes|);
    AddedCount(tracked, names, nodes, |nodes|);
    AddedNames(tracked, names, nodes, |nodes|);
  }

  /** A placement hands out as many nodes as are missing, whatever the policy. */
  lemma PlaceLength(d: Details, sv: Survey, p: Progress)
    requires Place(d, sv, p).Placed?
    ensures |Place(d, sv, p).nodes| == p.toAllocate
  {
    if d.policy == DifferentNode {
      ApartGivesFreeNodes(d, sv.caps, p.used, p.toAllocate, sv.nodes, []);
    } else if d.targetNode == "" {
      TogetherOutcome(d, sv, p.toAllocate, sv.nodes);
    }
  }

  lemma RemovedCount(m: map<string, Tracked>, dropped: set<string>, victims: set<string>)
    requires victims <= m.Keys + dropped && m.Keys !! dropped
    ensures |m - victims| == |m| - |victims| + |victims * dropped|
  {
    assert (m - victims).Keys == m.Keys - victims;
    assert |m.Keys| == |m.Keys - victims| + |m.Keys * victims| by {
      assert m.Keys == (m.Keys - victims) + (m.Keys * victims);
    }
    assert victims == (victims * dropped) + (m.Keys * victims);
  }

  /**
   Conservation: from a state where listed and tracked names coincide, a successful pass leaves exactly
   the requested number of entries, plus one for every priority victim the match pass had already
   forgotten; and a pass that removes by priority adds nothing.
   */
  lemma Conservation(d: Details, items: seq<Item>, tracked: map<string, Tracked>, sv: Survey, victims: set<string>,
                     spare: seq<string>)
    requires DistinctNames(items) && Names(items) == tracked.Keys
    requires UnusedNames(spare, d.size, tracked.Keys)
    requires RightVictims(d, items, tracked, sv, victims)
    requires Allocate(d, items, tracked, sv, victims, spare).Allocated?
    ensures var q := MatchFrom(d, sv.caps, Start(d, tracked), items).progress;
      var out := Allocate(d, items, tracked, sv, victims, spare).tracked;
      var forgotten := tracked.Keys - q.tracked.Keys;
      && |out| == d.size + (if q.toDelete > 0 then |victims * forgotten| else 0)
      && (q.toDelete > 0 ==> q.toAllocate == 0 && out == q.tracked - victims)
      && (q.toDelete == 0 ==> q.tracked.Keys <= out.Keys && |out| == |q.tracked| + q.toAllocate)
  {
    var q := MatchFrom(d, sv.caps, Start(d, tracked), items).progress;
    MatchBalance(d, sv.caps, Start(d, tracked), items);
    MatchForgetsOnlyListed(d, sv.caps, Start(d, tracked), items);
    NamesCount(items);
    var p := AfterRemoval(q, victims);
    PlaceLength(d, sv, p);
    var nodes := Place(d, sv, p).nodes;
    AddedEntries(p.tracked, spare, nodes);
    if q.toDelete > 0 {
      RemovedCount(q.tracked, tracked.Keys - q.tracked.Keys, victims);
    }
  }

  /** Every tracked entry names the node its listed resource asks for. */
  ghost predicate SameNodesAs(tracked: map<string, Tracked>, items: seq<Item>) {
    forall i :: 0 <= i < |items| && items[i].name in tracked ==>
      tracked[items[i].name].nodeName == items[i].res.spec.targetNode
  }

  ghost predicate ObeysPolicy(d: Details, tracked: map<string, Tracked>) {
    match d.policy
    case SameNode => forall k, l :: k in tracked && l in tracked ==>
      tracked[k].nodeName == tracked[l].nodeName && (d.targetNode != "" ==> tracked[k].nodeName == d.targetNode)
    case DifferentNode =>
      forall k, l :: k in tracked && l in tracked && k != l ==> tracked[k].nodeName != tracked[l].nodeName
  }

  /** Nodes of the entries a surplus-free match pass leaves. */
  lemma MatchedNodes(d: Details, items: seq<Item>, tracked: map<string, Tracked>, caps: Capacities)
    requires DistinctNames(items) && NodesNamed(items) && Names(items) == tracked.Keys && SameNodesAs(tracked, items)
    requires MatchFrom(d, caps, Start(d, tracked), items).Matched?
    requires MatchFrom(d, caps, Start(d, tracked), items).progress.toDelete == 0
    ensures var q := MatchFrom(d, caps, Start(d, tracked), items).progress;
      && q.tracked.Keys <= tracked.Keys
      && (forall k :: k in q.tracked ==>
            OnPolicy(d, q, q.tracked[k].nodeName) && (d.targetNode != "" ==> q.tracked[k].nodeName == d.targetNode))
      && (d.policy == DifferentNode ==> ObeysPolicy(d, q.tracked))
  {
    var p := Start(d, tracked);
    var q := MatchFrom(d, caps, p, items).progress;
    MatchForgetsOnlyListed(d, caps, p, items);
    MatchedFit(d, caps, p, items);
    if d.policy == DifferentNode {
      MatchedSpread(d, caps, p, items);
    }
    assert Judged(d, caps, p, items) == |items|;
    assert d.targetNode != "" ==>
      forall i :: 0 <= i < |items| && items[i].name in q.tracked ==> items[i].res.spec.targetNode == d.targetNode;
    hide MatchFrom, Judged, Fits;
    forall k | k in q.tracked
      ensures OnPolicy(d, q, q.tracked[k].nodeName)
      ensures d.targetNode != "" ==> q.tracked[k].nodeName == d.targetNode
    {
      var i :| 0 <= i < |items| && items[i].name == k;
    }
    if d.policy == DifferentNode {
      forall k, l | k in q.tracked && l in q.tracked && k != l
        ensures q.tracked[k].nodeName != q.tracked[l].nodeName
      {
        var i :| 0 <= i < |items| && items[i].name == k;
        var j :| 0 <= j < |items| && items[j].name == l;
      }
    }
  }

  /** Which nodes a placement may hand out next to the entries that were kept. */
  lemma PlacedNodes(d: Details, sv: Survey, p: Progress)
    requires Place(d, sv, p).Placed?
    ensures var nodes := Place(d, sv, p).nodes;
      match d.policy
      case DifferentNode => DistinctNodes(nodes) && forall n :: n in nodes ==> n !in p.used
      case SameNode =>
        && (forall i, j :: 0 <= i < |nodes| && 0 <= j < |nodes| ==> nodes[i] == nodes[j])
        && (d.targetNode != "" ==> forall n :: n in nodes ==> n == d.targetNode)
        && (d.targetNode == "" && p.tracked != map[] ==> forall n :: n in nodes ==> n == p.sameNode)
  {
    if d.policy == DifferentNode {
      ApartGivesFreeNodes(d, sv.caps, p.used, p.toAllocate, sv.nodes, []);
    } else if d.targetNode == "" {
      TogetherOutcome(d, sv, p.toAllocate, sv.nodes);
    }
  }

  /**
   A successful pass without surplus, from a state where listed and tracked names coincide, leaves
   samenode entries on one node and differentnode entries on pairwise distinct nodes.
   */
  lemma PolicyWithoutSurplus(d: Details, items: seq<Item>, tracked: map<string, Tracked>, sv: Survey,
                             victims: set<string>, spare: seq<string>)
    requires DistinctNames(items) && NodesNamed(items) && Names(items) == tracked.Keys && SameNodesAs(tracked, items)
    requires UnusedNames(spare, d.size, tracked.Keys)
    requires MatchFrom(d, sv.caps, Start(d, tracked), items).Matched?
    requires MatchFrom(d, sv.caps, Start(d, tracked), items).progress.toDelete == 0
    requires Allocate(d, items, tracked, sv, victims, spare).Allocated?
    ensures ObeysPolicy(d, Allocate(d, items, tracked, sv, victims, spare).tracked)
  {
    var q := MatchFrom(d, sv.caps, Start(d, tracked), items).progress;
    MatchSurplus(d, sv.caps, Start(d, tracked), items);
    MatchedNodes(d, items, tracked, sv.caps);
    PlaceLength(d, sv, q);
    PlacedNodes(d, sv, q);
    var nodes := Place(d, sv, q).nodes;
    if d.policy == DifferentNode {
      MergedApart(d, q.tracked, q.used, spare, nodes);
    } else if q.tracked == map[] {
      MergedTogether(d, q.tracked, if nodes == [] then "" else nodes[0], spare, nodes);
    } else {
      MergedTogether(d, q.tracked, q.sameNode, spare, nodes);
    }
  }

  lemma AddedNode(tracked: map<string, Tracked>, names: seq<string>, nodes: seq<string>, k: string) returns (i: nat)
    requires UnusedNames(names, |nodes|, tracked.Keys)
    requires k in AddEntries(tracked, names, nodes) && k !in tracked
    ensures i < |nodes| && names[i] == k && AddEntries(tracked, names, nodes)[k] == NewEntry(nodes[i])
  {
    AddedEntries(tracked, names, nodes);
    i :| 0 <= i < |nodes| && names[..|nodes|][i] == k;
  }

  lemma MergedTogether(d: Details, tracked: map<string, Tracked>, node: string, names: seq<string>, nodes: seq<string>)
    requires d.policy == SameNode && UnusedNames(names, |nodes|, tracked.Keys)
    requires forall k :: k in tracked ==> tracked[k].nodeName == node
    requires forall i :: 0 <= i < |nodes| ==> nodes[i] == node
    requires d.targetNode != "" && (tracked != map[] || nodes != []) ==> node == d.targetNode
    ensures ObeysPolicy(d, AddEntries(tracked, names, nodes))
  {
    var out := AddEntries(tracked, names, nodes);
    AddedEntries(tracked, names, nodes);
    forall k | k in out ensures out[k].nodeName == node {
      if k !in tracked { var i := AddedNode(tracked, names, nodes, k); }
    }
    assert forall k :: k in out ==> k in tracked || |nodes| > 0;
  }

  lemma MergedApart(d: Details, tracked: map<string, Tracked>, used: set<string>, names: seq<string>,
                    nodes: seq<string>)
    requires d.policy == DifferentNode && UnusedNames(names, |nodes|, tracked.Keys)
    requires ObeysPolicy(d, tracked) && forall k :: k in tracked ==> tracked[k].nodeName in used
    requires DistinctNodes(nodes) && forall n :: n in nodes ==> n !in used
    ensures ObeysPolicy(d, AddEntries(tracked, names, nodes))
  {
    var out := AddEntries(tracked, names, nodes);
    AddedEntries(tracked, names, nodes);
    forall k, l | k in out && l in out && k != l ensures out[k].nodeName != out[l].nodeName {
      if k !in tracked {
        var i := AddedNode(tracked, names, nodes, k);
        assert nodes[i] in nodes;
        if l !in tracked { var j := AddedNode(tracked, names, nodes, l); }
      } else if l !in tracked {
        var j := AddedNode(tracked, names, nodes, l);
        assert nodes[j] in nodes;
      }
    }
  }

  // The edges of the pass.

  function ExampleItem(name: string, model: string, node: string, created: int): Item {
    Item(name, Resource(ResourceSpec("gpu", model, node, false), NO_STATUS.(state := Online), "r", "", "", false, true,
                        None, created, false))
  }

  /** Nothing is missing, nothing is surplus, and still a differentnode pass fails: the loop overshoots. */
  lemma OvershootExample()
    ensures
      var d := Details("gpu", "m", 1, false, DifferentNode, "", None);
      var items := [ExampleItem("x", "m", "b", 0)];
      var sv := Survey("r", ["a", "b"], Capacities(map[]), false, []);
      Allocate(d, items, map["x" := NewEntry("b")], sv, {}, ["y"]).Failed?
  {
    var d := Details("gpu", "m", 1, false, DifferentNode, "", None);
    var items := [ExampleItem("x", "m", "b", 0)];
    var sv := Survey("r", ["a", "b"], Capacities(map[]), false, []);
    var tracked := map["x" := NewEntry("b")];
    var q := Kept(d, Start(d, tracked), items[0].res.spec);
    assert items[1..] == [];
    assert MatchFrom(d, sv.caps, Start(d, tracked), items) == Matched(q);
    assert FirstSufficient(d, sv.caps, sv.nodes) == Some("a");
    ApartIdleIff(d, sv.caps, q.used, sv.nodes);
  }

  /** Of three the first is judged and forgotten, the second kept; the first is also the oldest. */
  lemma ForgottenIsOldest(d: Details, caps: Capacities, o: Item, x: Item, y: Item, tracked: map<string, Tracked>)
    requires d.size == 1 && Judge(d, caps, Start(d, tracked), o.res.spec).Drop?
    requires Judge(d, caps, Start(d, tracked), x.res.spec).Keep?
    requires o.name != x.name && o.name != y.name && Before(o.res, x.res) && Before(o.res, y.res)
    ensures var items := [o, x, y];
      && KSmallest(items, 1, {o.name})
      && MatchFrom(d, caps, Start(d, tracked), items)
          == Matched(Kept(d, Start(d, tracked), x.res.spec).(tracked := tracked - {o.name}, toDelete := 1))
  {
    var items := [o, x, y];
    assert items[0].name in Names(items);
    assert items[1..] == [x, y] && [x, y][1..] == [y];
    var p := Start(d, tracked).(tracked := tracked - {o.name});
    assert Judge(d, caps, p, x.res.spec) == Judge(d, caps, Start(d, tracked), x.res.spec);
    MatchStaysFull(d, caps, Kept(d, p, x.res.spec), [y]);
  }

  /** Removal by priority may pick a resource the match pass already forgot: one entry too many survives. */
  lemma ForgottenVictimExample()
    ensures
      var d := Details("gpu", "m", 1, false, SameNode, "", None);
      var items := [ExampleItem("old", "other", "n", 0), ExampleItem("x", "m", "n", 1), ExampleItem("y", "m", "n", 2)];
      var tracked := map["old" := NewEntry("n"), "x" := NewEntry("n"), "y" := NewEntry("n")];
      var sv := Survey("r", ["n"], Capacities(map[]), false, []);
      && KSmallest(items, 1, {"old"})
      && RightVictims(d, items, tracked, sv, {"old"})
      && Allocate(d, items, tracked, sv, {"old"}, ["z"]) == Allocated(map["x" := NewEntry("n"), "y" := NewEntry("n")])
  {
    var d := Details("gpu", "m", 1, false, SameNode, "", None);
    var o, x, y := ExampleItem("old", "other", "n", 0), ExampleItem("x", "m", "n", 1), ExampleItem("y", "m", "n", 2);
    var tracked := map["old" := NewEntry("n"), "x" := NewEntry("n"), "y" := NewEntry("n")];
    var sv := Survey("r", ["n"], Capacities(map[]), false, []);
    assert "other" != "m" by { assert |"other"| != |"m"|; }
    assert |"old"| == 3 && |"x"| == 1 && |"y"| == 1;
    ForgottenIsOldest(d, sv.caps, o, x, y, tracked);
    hide MatchFrom, KSmallest, Judge, Before, ExampleItem;
    var left := map["x" := NewEntry("n"), "y" := NewEntry("n")];
    assert tracked - {"old"} == left && left - {"old"} == left && "x" in left;
  }

  ghost predicate SomeFits(d: Details, caps: Capacities, items: seq<Item>) {
    exists i :: 0 <= i < |items| && Fits(d, caps, items[i].res.spec)
  }

  /** The samenode node is remembered exactly when some listed resource fits. */
  lemma {:induction false} SameNodeKnown(d: Details, caps: Capacities, p: Progress, items: seq<Item>)
    requires d.policy == SameNode && p.toAllocate > 0 && p.sameNode == "" && NodesNamed(items)
    requires MatchFrom(d, caps, p, items).Matched?
    ensures var q := MatchFrom(d, caps, p, items).progress;
      && (q.sameNode != "" <==> SomeFits(d, caps, items))
      && (!SomeFits(d, caps, items) ==> q == p.(tracked := p.tracked - Names(items)))
    decreases |items|
  {
    if items == [] {
      assert p.tracked - Names(items) == p.tracked;
    } else {
      var head, rest := items[0], items[1..];
      assert Names(items) == {head.name} + Names(rest);
      if Fits(d, caps, head.res.spec) {
        PolicyIsStable(d, caps, Kept(d, p, head.res.spec), rest);
      } else {
        var p' := p.(tracked := p.tracked - {head.name});
        SameNodeKnown(d, caps, p', rest);
        assert p'.tracked - Names(rest) == p.tracked - Names(items);
        assert SomeFits(d, caps, items) <==> SomeFits(d, caps, rest) by {
          if SomeFits(d, caps, items) {
            var i :| 0 <= i < |items| && Fits(d, caps, items[i].res.spec);
            assert rest[i - 1] == items[i];
          }
          if SomeFits(d, caps, rest) {
            var i :| 0 <= i < |rest| && Fits(d, caps, rest[i].res.spec);
            assert items[i + 1] == rest[i];
          }
        }
      }
    }
  }

  ghost predicate HasBlankNode(tracked: map<string, Tracked>) {
    exists k :: k in tracked && tracked[k].nodeName == ""
  }

  /** New entries bring a blank node exactly when a node handed out is blank. */
  lemma BlankAdded(tracked: map<string, Tracked>, names: seq<string>, nodes: seq<string>)
    requires UnusedNames(names, |nodes|, tracked.Keys) && !HasBlankNode(tracked)
    ensures HasBlankNode(AddEntries(tracked, names, nodes)) <==> "" in nodes
  {
    AddedEntries(tracked, names, nodes);
    hide AddEntries;
    var out := AddEntries(tracked, names, nodes);
    if "" in nodes {
      var i :| 0 <= i < |nodes| && nodes[i] == "";
      assert out[names[i]].nodeName == "";
    }
  }

  /** The samenode placement hands out the blank node exactly when something is tracked and no node is remembered. */
  lemma BlankPlaced(d: Details, sv: Survey, p: Progress)
    requires d.policy == SameNode && d.targetNode == "" && Place(d, sv, p).Placed?
    requires forall n :: n in sv.nodes ==> n != ""
    ensures "" in Place(d, sv, p).nodes <==> p.toAllocate > 0 && p.tracked != map[] && p.sameNode == ""
  {
    TogetherOutcome(d, sv, p.toAllocate, sv.nodes);
    if p.tracked != map[] && p.toAllocate > 0 {
      assert Place(d, sv, p).nodes[0] == p.sameNode;
    }
  }

  /**
   A samenode request without target node gets entries on the empty node name exactly when it asks for
   something, no listed resource fits it, and it tracks a name that is not listed.
   */
  lemma BlankNodeIff(d: Details, items: seq<Item>, tracked: map<string, Tracked>, sv: Survey, victims: set<string>,
                     spare: seq<string>)
    requires d.policy == SameNode && d.targetNode == ""
    requires DistinctNames(items) && NodesNamed(items) && !HasBlankNode(tracked)
    requires forall n :: n in sv.nodes ==> n != ""
    requires UnusedNames(spare, d.size, tracked.Keys)
    requires Allocate(d, items, tracked, sv, victims, spare).Allocated?
    ensures HasBlankNode(Allocate(d, items, tracked, sv, victims, spare).tracked) <==>
              d.size > 0 && !SomeFits(d, sv.caps, items) && tracked.Keys - Names(items) != {}
  {
    var p := Start(d, tracked);
    var q := MatchFrom(d, sv.caps, p, items).progress;
    MatchForgetsOnlyListed(d, sv.caps, p, items);
    MatchSurplus(d, sv.caps, p, items);
    if d.size > 0 {
      SameNodeKnown(d, sv.caps, p, items);
    }
    var left := AfterRemoval(q, victims);
    hide MatchFrom, Place, AddEntries, SomeFits;
    PlaceLength(d, sv, left);
    BlankPlaced(d, sv, left);
    BlankAdded(left.tracked, spare, Place(d, sv, left).nodes);
  }
}
