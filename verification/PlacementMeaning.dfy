/** What a placement decides, told from the node list, the lookups and the other requests' fields. */
module PlacementMeaning {
  import opened Api
  import opened Matching
  import opened Placement

  // Lookups.

  /** Its capacity is needed and cannot be told: the placement gives up here. */
  predicate Unclear(d: Details, caps: Capacities, node: string) {
    d.otherSpec != None && caps.Look(node).LookupError?
  }

  predicate Carrying(d: Details, caps: Capacities, node: string) {
    d.otherSpec == None || caps.Look(node) == Capacity(true)
  }

  // A samenode placement without target node and without entries.

  /** The scan ends at the i-th node: it is unclear, or it carries the request and nobody stands on it. */
  ghost predicate EndsAt(d: Details, sv: Survey, nodes: seq<string>, i: int) {
    && 0 <= i < |nodes|
    && (Unclear(d, sv.caps, nodes[i]) || (Carrying(d, sv.caps, nodes[i]) && !Held(sv.peers, sv.self, nodes[i])))
  }

  ghost predicate FirstEnd(d: Details, sv: Survey, nodes: seq<string>, i: int) {
    EndsAt(d, sv, nodes, i) && forall j :: 0 <= j < i ==> !EndsAt(d, sv, nodes, j)
  }

  /**
   The first node that carries the request and that nobody stands on takes everything, unless a node before
   it is unclear, and then that lookup's error is the answer; without such a node nothing is placed.
   */
  lemma {:induction false} TogetherMeans(d: Details, sv: Survey, want: nat, nodes: seq<string>)
    requires forall n :: n in nodes ==> n != ""
    ensures forall i :: FirstEnd(d, sv, nodes, i) ==>
      Together(d, sv, want, nodes) == if Unclear(d, sv.caps, nodes[i]) then NoPlace(sv.caps.Look(nodes[i]).msg)
                                      else Placed(Repeat(want, nodes[i]))
    ensures (forall i :: !EndsAt(d, sv, nodes, i)) ==>
      Together(d, sv, want, nodes) == if want == 0 then Placed([]) else NoPlace(TOO_FEW_NODES)
    decreases |nodes|
  {
    if nodes != [] {
      var rest := nodes[1..];
      assert nodes[0] in nodes && forall n :: n in rest ==> n in nodes;
      OccupiedMeans(sv.peers, sv.self, nodes[0]);
      TogetherMeans(d, sv, want, rest);
      hide Held, Occupied;
      assert forall i :: 0 <= i < |rest| ==> rest[i] == nodes[i + 1];
      assert forall i :: EndsAt(d, sv, rest, i) <==> i >= 0 && EndsAt(d, sv, nodes, i + 1);
      forall i | FirstEnd(d, sv, nodes, i)
        ensures Together(d, sv, want, nodes)
             == if Unclear(d, sv.caps, nodes[i]) then NoPlace(sv.caps.Look(nodes[i]).msg)
                else Placed(Repeat(want, nodes[i]))
      {
        if i > 0 {
          assert !EndsAt(d, sv, nodes, 0);
          assert FirstEnd(d, sv, rest, i - 1) by {
            forall j | 0 <= j < i - 1 ensures !EndsAt(d, sv, rest, j) { assert !EndsAt(d, sv, nodes, j + 1); }
          }
        }
      }
      if forall i :: !EndsAt(d, sv, nodes, i) {
        assert !EndsAt(d, sv, nodes, 0);
        forall i ensures !EndsAt(d, sv, rest, i) { assert !EndsAt(d, sv, nodes, i + 1); }
      }
    }
  }

  // A samenode placement on its target node.

  lemma OnTargetMeans(d: Details, sv: Survey, want: nat)
    ensures match OnTarget(d, sv, want)
      case Placed(nodes) =>
        && sv.targetExists && Carrying(d, sv.caps, d.targetNode)
        && |nodes| == want && forall i :: 0 <= i < want ==> nodes[i] == d.targetNode
      case NoPlace(msg) =>
        || (!sv.targetExists && msg == TARGET_MISSING)
        || (sv.targetExists && Unclear(d, sv.caps, d.targetNode) && sv.caps.Look(d.targetNode) == LookupError(msg))
        || (sv.targetExists && d.otherSpec != None && sv.caps.Look(d.targetNode) == Capacity(false)
            && msg == TARGET_TOO_SMALL)
  {
  }

  // A differentnode placement.

  /** Of the first n nodes, those that carry the request and are not in use, each once, in order. */
  ghost function Chosen(d: Details, caps: Capacities, used: set<string>, nodes: seq<string>, n: nat): seq<string>
    requires n <= |nodes|
  {
    if n == 0 then []
    else
      var before, node := Chosen(d, caps, used, nodes, n - 1), nodes[n - 1];
      if Carrying(d, caps, node) && node !in used && node !in before then before + [node] else before
  }

  /** The scan ends behind the n-th node: it is unclear, or it carries the request and enough are chosen. */
  ghost predicate HaltsAfter(d: Details, caps: Capacities, used: set<string>, want: nat, nodes: seq<string>, n: nat) {
    && 0 < n <= |nodes|
    && (Unclear(d, caps, nodes[n - 1])
        || (Carrying(d, caps, nodes[n - 1]) && |Chosen(d, caps, used, nodes, n)| == want))
  }

  /** The first end of the scan behind the n-th node. */
  ghost predicate HaltsFirst(d: Details, caps: Capacities, used: set<string>, want: nat, nodes: seq<string>, n: nat,
                             m: nat)
  {
    && n < m && HaltsAfter(d, caps, used, want, nodes, m)
    && forall l: nat :: n < l < m ==> !HaltsAfter(d, caps, used, want, nodes, l)
  }

  /** The answer of a scan that has come past the n-th node. */
  ghost predicate Answers(d: Details, caps: Capacities, used: set<string>, want: nat, nodes: seq<string>, n: nat,
                          r: PlaceResult)
  {
    && (forall m: nat :: HaltsFirst(d, caps, used, want, nodes, n, m) ==>
          r == if Unclear(d, caps, nodes[m - 1]) then NoPlace(caps.Look(nodes[m - 1]).msg)
               else Placed(Chosen(d, caps, used, nodes, m)))
    && ((forall m: nat :: n < m ==> !HaltsAfter(d, caps, used, want, nodes, m)) ==>
          var all := Chosen(d, caps, used, nodes, |nodes|);
          r == if |all| == want then Placed(all) else NoPlace(TOO_FEW_NODES))
  }

  lemma AnswersEarlier(d: Details, caps: Capacities, used: set<string>, want: nat, nodes: seq<string>, n: nat,
                       r: PlaceResult)
    requires Answers(d, caps, used, want, nodes, n + 1, r) && !HaltsAfter(d, caps, used, want, nodes, n + 1)
    ensures Answers(d, caps, used, want, nodes, n, r)
  {
    hide HaltsAfter, Chosen;
    forall m: nat | HaltsFirst(d, caps, used, want, nodes, n, m)
      ensures HaltsFirst(d, caps, used, want, nodes, n + 1, m)
    {}
  }

  lemma {:induction false} ApartFrom(d: Details, caps: Capacities, used: set<string>, want: nat, nodes: seq<string>,
                                     n: nat)
    requires n <= |nodes|
    ensures Answers(d, caps, used, want, nodes, n,
                    Apart(d, caps, used, want, nodes[n..], Chosen(d, caps, used, nodes, n)))
    decreases |nodes| - n
  {
    if n < |nodes| {
      assert nodes[n..][0] == nodes[n] && nodes[n..][1..] == nodes[n + 1..];
      ChosenStep(d, caps, used, nodes, n);
      hide Chosen, Answers;
      var r := Apart(d, caps, used, want, nodes[n..], Chosen(d, caps, used, nodes, n));
      if HaltsAfter(d, caps, used, want, nodes, n + 1) {
        AnswersHere(d, caps, used, want, nodes, n, r);
      } else {
        ApartFrom(d, caps, used, want, nodes, n + 1);
        AnswersEarlier(d, caps, used, want, nodes, n, r);
      }
    } else {
      assert nodes[n..] == [];
    }
  }

  lemma AnswersHere(d: Details, caps: Capacities, used: set<string>, want: nat, nodes: seq<string>, n: nat,
                    r: PlaceResult)
    requires n < |nodes| && HaltsAfter(d, caps, used, want, nodes, n + 1)
    requires r == if Unclear(d, caps, nodes[n]) then NoPlace(caps.Look(nodes[n]).msg)
                  else Placed(Chosen(d, caps, used, nodes, n + 1))
    ensures Answers(d, caps, used, want, nodes, n, r)
  {
    hide HaltsAfter, Chosen;
  }

  lemma ChosenStep(d: Details, caps: Capacities, used: set<string>, nodes: seq<string>, n: nat)
    requires n < |nodes|
    ensures Chosen(d, caps, used, nodes, n + 1) == var before := Chosen(d, caps, used, nodes, n);
      if Carrying(d, caps, nodes[n]) && nodes[n] !in used && nodes[n] !in before then before + [nodes[n]] else before
  {
  }

  /**
   A differentnode placement hands out the first nodes that carry the request and are not in use, as soon as
   they are enough behind a node that carries it; it gives up at an unclear node before that; and at the end
   of the list it succeeds only with exactly enough.
   */
  lemma ApartMeans(d: Details, caps: Capacities, used: set<string>, want: nat, nodes: seq<string>)
    ensures Answers(d, caps, used, want, nodes, 0, Apart(d, caps, used, want, nodes, []))
  {
    ApartFrom(d, caps, used, want, nodes, 0);
    assert nodes[0..] == nodes;
  }

  /** Which of the three a pass makes. */
  lemma PlaceMeans(d: Details, sv: Survey, p: Progress)
    ensures d.policy == DifferentNode ==> Place(d, sv, p) == Apart(d, sv.caps, p.used, p.toAllocate, sv.nodes, [])
    ensures d.policy == SameNode && d.targetNode != "" ==> Place(d, sv, p) == OnTarget(d, sv, p.toAllocate)
    ensures d.policy == SameNode && d.targetNode == "" && p.tracked == map[] ==>
      Place(d, sv, p) == Together(d, sv, p.toAllocate, sv.nodes)
    ensures d.policy == SameNode && d.targetNode == "" && p.tracked != map[] ==>
      Place(d, sv, p).Placed? && |Place(d, sv, p).nodes| == p.toAllocate
      && forall n :: n in Place(d, sv, p).nodes ==> n == p.sameNode
  {
  }
}
