/** Choice of nodes for the resources a request still lacks. */
module Placement {
  import opened Api
  import opened Matching

  /** Another request as the occupancy test sees it; `first` is the entry a range over its map yields first. */
  datatype Peer = Peer(name: string, policy: Policy, targetNode: string, resources: map<string, Tracked>, first: string)

  /** What the pass has looked up: the node list, capacities, whether the target node exists, all requests. */
  datatype Survey = Survey(self: string, nodes: seq<string>, caps: Capacities, targetExists: bool, peers: seq<Peer>)

  datatype PlaceResult = NoPlace(msg: string) | Placed(nodes: seq<string>)

  const TARGET_MISSING := "the target node does not existed"
  const TARGET_TOO_SMALL := "TargetNode does not meet spec's requirements"
  const TOO_FEW_NODES := "insufficient number of available nodes"

  /** The node a request stands on, as far as others respect it. */
  function PeerNode(p: Peer): string {
    if p.policy == DifferentNode then ""
    else if p.targetNode != "" then p.targetNode
    else if p.first in p.resources then p.resources[p.first].nodeName
    else ""
  }

  predicate Occupied(peers: seq<Peer>, self: string, node: string) {
    exists i :: 0 <= i < |peers| && peers[i].name != self && PeerNode(peers[i]) == node
  }

  function Repeat(n: nat, node: string): (r: seq<string>)
    ensures |r| == n
  {
    seq(n, _ => node)
  }

  function OnTarget(d: Details, sv: Survey, want: nat): PlaceResult {
    if !sv.targetExists then NoPlace(TARGET_MISSING)
    else if d.otherSpec.None? then Placed(Repeat(want, d.targetNode))
    else match sv.caps.Look(d.targetNode)
      case LookupError(msg) => NoPlace(msg)
      case Capacity(enough) => if enough then Placed(Repeat(want, d.targetNode)) else NoPlace(TARGET_TOO_SMALL)
  }

  /** The first sufficient node no other samenode request stands on takes everything. */
  function Together(d: Details, sv: Survey, want: nat, nodes: seq<string>): PlaceResult
    decreases |nodes|
  {
    if nodes == [] then (if want == 0 then Placed([]) else NoPlace(TOO_FEW_NODES))
    else if d.otherSpec.Some? && sv.caps.Look(nodes[0]).LookupError? then NoPlace(sv.caps.Look(nodes[0]).msg)
    else if d.otherSpec.Some? && !sv.caps.Look(nodes[0]).enough then Together(d, sv, want, nodes[1..])
    else if Occupied(sv.peers, sv.self, nodes[0]) then Together(d, sv, want, nodes[1..])
    else Placed(Repeat(want, nodes[0]))
  }

  /** One node after the other; the bound is only tested after a sufficient node was looked at. */
  function Apart(d: Details, caps: Capacities, used: set<string>, want: nat, nodes: seq<string>,
                 acc: seq<string>): PlaceResult
    decreases |nodes|
  {
    if nodes == [] then (if |acc| == want then Placed(acc) else NoPlace(TOO_FEW_NODES))
    else if d.otherSpec.Some? && caps.Look(nodes[0]).LookupError? then NoPlace(caps.Look(nodes[0]).msg)
    else if d.otherSpec.Some? && !caps.Look(nodes[0]).enough then Apart(d, caps, used, want, nodes[1..], acc)
    else
      var acc' := if nodes[0] !in acc && nodes[0] !in used then acc + [nodes[0]] else acc;
      if |acc'| == want then Placed(acc') else Apart(d, caps, used, want, nodes[1..], acc')
  }

  function Place(d: Details, sv: Survey, p: Progress): PlaceResult {
    match d.policy
    case SameNode =>
      if d.targetNode != "" then OnTarget(d, sv, p.toAllocate)
      else if p.tracked != map[] then Placed(Repeat(p.toAllocate, p.sameNode))
      else Together(d, sv, p.toAllocate, sv.nodes)
    case DifferentNode => Apart(d, sv.caps, p.used, p.toAllocate, sv.nodes, [])
  }

  /** Another samenode request is pinned to the node, or floats and the first entry it yields is there. */
  ghost predicate Held(peers: seq<Peer>, self: string, node: string) {
    exists i :: 0 <= i < |peers| && peers[i].name != self && peers[i].policy == SameNode && StandsOn(peers[i], node)
  }

  predicate StandsOn(p: Peer, node: string) {
    p.targetNode == node || (p.targetNode == "" && p.first in p.resources && p.resources[p.first].nodeName == node)
  }

  lemma OccupiedMeans(peers: seq<Peer>, self: string, node: string)
    requires node != ""
    ensures Occupied(peers, self, node) <==> Held(peers, self, node)
  {
    if Held(peers, self, node) {
      var i :| 0 <= i < |peers| && peers[i].name != self && peers[i].policy == SameNode && StandsOn(peers[i], node);
      assert PeerNode(peers[i]) == node;
    }
    if Occupied(peers, self, node) {
      var i :| 0 <= i < |peers| && peers[i].name != self && PeerNode(peers[i]) == node;
      assert StandsOn(peers[i], node);
    }
  }

  method CheckOccupied(peers: seq<Peer>, self: string, node: string) returns (b: bool)
    ensures b == Occupied(peers, self, node)
    ensures node != "" ==> (b <==> Held(peers, self, node))
  {
    if node != "" { OccupiedMeans(peers, self, node); }
    for i := 0 to |peers|
      invariant forall j :: 0 <= j < i ==> !(peers[j].name != self && PeerNode(peers[j]) == node)
    {
      if peers[i].name == self {
        continue;
      }
      var targetNode := "";
      if peers[i].policy == SameNode {
        if peers[i].targetNode == "" {
          if peers[i].first in peers[i].resources {
            targetNode := peers[i].resources[peers[i].first].nodeName;
          }
        } else {
          targetNode := peers[i].targetNode;
        }
      }
      if targetNode == node {
        return true;
      }
    }
    return false;
  }

  method PlaceTogether(d: Details, sv: Survey, want: nat) returns (r: PlaceResult)
    ensures r == Together(d, sv, want, sv.nodes)
  {
    var allocating: seq<string> := [];
    for i := 0 to |sv.nodes|
      invariant allocating == []
      invariant Together(d, sv, want, sv.nodes) == Together(d, sv, want, sv.nodes[i..])
    {
      assert sv.nodes[i..][1..] == sv.nodes[i + 1..];
      if d.otherSpec.Some? {
        var reply := sv.caps.Look(sv.nodes[i]);
        if reply.LookupError? {
          return NoPlace(reply.msg);
        }
        if !reply.enough {
          continue;
        }
      }
      var occupied := CheckOccupied(sv.peers, sv.self, sv.nodes[i]);
      if occupied {
        continue;
      }
      allocating := Repeat(want, sv.nodes[i]);
      return Placed(allocating);
    }
    assert sv.nodes[|sv.nodes|..] == [];
    if |allocating| != want {
      return NoPlace(TOO_FEW_NODES);
    }
    return Placed(allocating);
  }

  method PlaceApart(d: Details, caps: Capacities, used: set<string>, want: nat, nodes: seq<string>)
    returns (r: PlaceResult)
    ensures r == Apart(d, caps, used, want, nodes, [])
  {
    var allocating: seq<string> := [];
    for i := 0 to |nodes|
      invariant Apart(d, caps, used, want, nodes, []) == Apart(d, caps, used, want, nodes[i..], allocating)
    {
      assert nodes[i..][1..] == nodes[i + 1..];
      if d.otherSpec.Some? {
        var reply := caps.Look(nodes[i]);
        if reply.LookupError? {
          return NoPlace(reply.msg);
        }
        if !reply.enough {
          continue;
        }
      }
      if nodes[i] !in allocating && nodes[i] !in used {
        allocating := allocating + [nodes[i]];
      }
      if |allocating| == want {
        return Placed(allocating);
      }
    }
    assert nodes[|nodes|..] == [];
    if |allocating| != want {
      return NoPlace(TOO_FEW_NODES);
    }
    return Placed(allocating);
  }

  method PlaceNodes(d: Details, sv: Survey, p: Progress) returns (r: PlaceResult)
    ensures r == Place(d, sv, p)
  {
    if d.policy == SameNode && d.targetNode != "" {
      if !sv.targetExists {
        return NoPlace(TARGET_MISSING);
      }
      if d.otherSpec.Some? {
        var reply := sv.caps.Look(d.targetNode);
        if reply.LookupError? {
          return NoPlace(reply.msg);
        }
        if !reply.enough {
          return NoPlace(TARGET_TOO_SMALL);
        }
      }
      return Placed(Repeat(p.toAllocate, d.targetNode));
    } else if d.policy == SameNode {
      if p.tracked != map[] {
        return Placed(Repeat(p.toAllocate, p.sameNode));
      }
      r := PlaceTogether(d, sv, p.toAllocate);
    } else {
      r := PlaceApart(d, sv.caps, p.used, p.toAllocate, sv.nodes);
    }
  }

  /** The node can carry the request. */
  predicate Sufficient(d: Details, caps: Capacities, node: string) {
    d.otherSpec.Some? ==> caps.Look(node) == Capacity(true)
  }

  /** Nodes a differentnode placement may still take. */
  function Available(d: Details, caps: Capacities, used: set<string>, nodes: seq<string>): set<string> {
    set i | 0 <= i < |nodes| && Sufficient(d, caps, nodes[i]) && nodes[i] !in used :: nodes[i]
  }

  predicate NoLookupErrors(d: Details, caps: Capacities, nodes: seq<string>) {
    d.otherSpec.Some? ==> forall i :: 0 <= i < |nodes| ==> caps.Look(nodes[i]).Capacity?
  }

  predicate DistinctNodes(nodes: seq<string>) {
    forall i, j :: 0 <= i < j < |nodes| ==> nodes[i] != nodes[j]
  }

  lemma AvailableHead(d: Details, caps: Capacities, used: set<string>, nodes: seq<string>)
    requires nodes != []
    ensures Available(d, caps, used, nodes) == Available(d, caps, used, nodes[1..])
              + if Sufficient(d, caps, nodes[0]) && nodes[0] !in used then {nodes[0]} else {}
  {
    assert nodes == [nodes[0]] + nodes[1..];
  }

  /** A differentnode placement hands out exactly `want` distinct nodes that were free and sufficient. */
  lemma {:induction false} ApartGivesFreeNodes(d: Details, caps: Capacities, used: set<string>, want: nat,
                                               nodes: seq<string>, acc: seq<string>)
    requires DistinctNodes(acc)
    requires forall n :: n in acc ==> n !in used && Sufficient(d, caps, n)
    requires Apart(d, caps, used, want, nodes, acc).Placed?
    ensures var r := Apart(d, caps, used, want, nodes, acc).nodes;
      && |r| == want && DistinctNodes(r)
      && forall n :: n in r ==> n !in used && Sufficient(d, caps, n) && (n in nodes || n in acc)
    decreases |nodes|
  {
    if nodes != [] {
      if d.otherSpec.Some? && !caps.Look(nodes[0]).enough {
        ApartGivesFreeNodes(d, caps, used, want, nodes[1..], acc);
      } else {
        var acc' := if nodes[0] !in acc && nodes[0] !in used then acc + [nodes[0]] else acc;
        if |acc'| != want {
          ApartGivesFreeNodes(d, caps, used, want, nodes[1..], acc');
        }
      }
    }
  }

  lemma TakeOne(all: set<string>, rest: set<string>, acc: set<string>, head: string)
    requires all == rest + {head} && head !in acc
    ensures |all - acc| == |rest - (acc + {head})| + 1
  {
    assert all - acc == (rest - (acc + {head})) + {head};
  }

  /** The nodes handed out so far, as a set. */
  ghost function Taken(acc: seq<string>): set<string> {
    set n | n in acc
  }

  lemma TakenMore(acc: seq<string>, n: string)
    requires n !in acc
    ensures Taken(acc + [n]) == Taken(acc) + {n}
  {
  }

  lemma ApartHead(d: Details, caps: Capacities, used: set<string>, want: nat, nodes: seq<string>, acc: seq<string>)
    requires NoLookupErrors(d, caps, nodes) && nodes != [] && |acc| < want
    ensures var free := Sufficient(d, caps, nodes[0]) && nodes[0] !in used && nodes[0] !in acc;
      && (!free ==> Apart(d, caps, used, want, nodes, acc) == Apart(d, caps, used, want, nodes[1..], acc))
      && (free && |acc| + 1 < want ==>
            Apart(d, caps, used, want, nodes, acc) == Apart(d, caps, used, want, nodes[1..], acc + [nodes[0]]))
      && (free && |acc| + 1 == want ==> Apart(d, caps, used, want, nodes, acc).Placed?)
  {
  }

  lemma {:induction false} ApartCounts(d: Details, caps: Capacities, used: set<string>, want: nat, nodes: seq<string>,
                                       acc: seq<string>)
    requires NoLookupErrors(d, caps, nodes) && |acc| < want
    ensures Apart(d, caps, used, want, nodes, acc).Placed? <==>
              |acc| + |Available(d, caps, used, nodes) - Taken(acc)| >= want
    decreases |nodes|
  {
    var free := Available(d, caps, used, nodes);
    if nodes == [] {
      assert free - Taken(acc) == {};
    } else {
      AvailableHead(d, caps, used, nodes);
      ApartHead(d, caps, used, want, nodes, acc);
      var head, rest := nodes[0], nodes[1..];
      var later := Available(d, caps, used, rest);
      if Sufficient(d, caps, head) && head !in used && head !in acc {
        TakeOne(free, later, Taken(acc), head);
        TakenMore(acc, head);
        if |acc| + 1 < want {
          ApartCounts(d, caps, used, want, rest, acc + [head]);
        }
      } else {
        assert free - Taken(acc) == later - Taken(acc);
        ApartCounts(d, caps, used, want, rest, acc);
      }
    }
  }

  /** With something to place, a differentnode placement succeeds exactly when enough nodes are available. */
  lemma ApartSucceedsIff(d: Details, caps: Capacities, used: set<string>, want: nat, nodes: seq<string>)
    requires NoLookupErrors(d, caps, nodes) && want > 0
    ensures Apart(d, caps, used, want, nodes, []).Placed? <==> |Available(d, caps, used, nodes)| >= want
  {
    ApartCounts(d, caps, used, want, nodes, []);
    assert Available(d, caps, used, nodes) - Taken([]) == Available(d, caps, used, nodes);
  }

  /** The node the differentnode loop first gets to test its bound on. */
  function FirstSufficient(d: Details, caps: Capacities, nodes: seq<string>): Option<string> {
    if nodes == [] then None
    else if Sufficient(d, caps, nodes[0]) then Some(nodes[0])
    else FirstSufficient(d, caps, nodes[1..])
  }

  /** Past its bound the differentnode loop can only fail. */
  lemma {:induction false} ApartOvershoots(d: Details, caps: Capacities, used: set<string>, nodes: seq<string>,
                                           acc: seq<string>)
    requires acc != []
    ensures Apart(d, caps, used, 0, nodes, acc).NoPlace?
    decreases |nodes|
  {
    if nodes != [] && !(d.otherSpec.Some? && (caps.Look(nodes[0]).LookupError? || !caps.Look(nodes[0]).enough)) {
      var acc' := if nodes[0] !in acc && nodes[0] !in used then acc + [nodes[0]] else acc;
      ApartOvershoots(d, caps, used, nodes[1..], acc');
    } else if nodes != [] && caps.Look(nodes[0]).Capacity? {
      ApartOvershoots(d, caps, used, nodes[1..], acc);
    }
  }

  /**
   With nothing to place, a differentnode placement does not simply succeed: it succeeds exactly when no
   node is sufficient or the first sufficient node in list order is one the request already uses.
   */
  lemma {:induction false} ApartIdleIff(d: Details, caps: Capacities, used: set<string>, nodes: seq<string>)
    requires NoLookupErrors(d, caps, nodes)
    ensures Apart(d, caps, used, 0, nodes, []).Placed? <==>
              (FirstSufficient(d, caps, nodes).None? || FirstSufficient(d, caps, nodes).value in used)
    decreases |nodes|
  {
    if nodes != [] {
      if !Sufficient(d, caps, nodes[0]) {
        ApartIdleIff(d, caps, used, nodes[1..]);
      } else if nodes[0] !in used {
        assert [] + [nodes[0]] == [nodes[0]];
        ApartOvershoots(d, caps, used, nodes[1..], [nodes[0]]);
      }
    }
  }

  /** A samenode placement without entries takes one sufficient, unoccupied node, or fails for want of one. */
  lemma {:induction false} TogetherOutcome(d: Details, sv: Survey, want: nat, nodes: seq<string>)
    ensures match Together(d, sv, want, nodes)
      case Placed(r) =>
        |r| == want && (want > 0 ==>
          && r[0] in nodes && Sufficient(d, sv.caps, r[0]) && !Occupied(sv.peers, sv.self, r[0])
          && forall i :: 0 <= i < want ==> r[i] == r[0])
      case NoPlace(_) =>
        NoLookupErrors(d, sv.caps, nodes) ==>
          want > 0 && forall n :: n in nodes ==> !Sufficient(d, sv.caps, n) || Occupied(sv.peers, sv.self, n)
    decreases |nodes|
  {
    if nodes != [] {
      TogetherOutcome(d, sv, want, nodes[1..]);
      if NoLookupErrors(d, sv.caps, nodes) && d.otherSpec.Some? {
        assert forall i :: 0 <= i < |nodes[1..]| ==> nodes[1..][i] == nodes[i + 1];
      }
    }
  }
}
