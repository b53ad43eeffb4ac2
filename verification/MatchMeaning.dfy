/**
 What the match pass decides, told from the list and the specs alone: which listed resources it picks, which
 names it forgets, and when it gives up.
 */
module MatchMeaning {
  import opened Api
  import opened Matching

  /** Of the right type, model, detach mode and, where the request names one, node. */
  predicate Asked(d: Details, s: ResourceSpec) {
    s.kind == d.kind && s.model == d.model && s.forceDetach == d.forceDetach
    && (d.targetNode == "" || s.targetNode == d.targetNode)
  }

  /** Asked for, and on a node that is known to carry what the request wants besides. */
  predicate Suits(d: Details, caps: Capacities, s: ResourceSpec) {
    Asked(d, s) && (d.otherSpec == None || caps.Look(s.targetNode) == Capacity(true))
  }

  /** The first suitable resource with a node name: a samenode request stays with it. */
  ghost predicate Leads(d: Details, caps: Capacities, items: seq<Item>, i: int) {
    && 0 <= i < |items| && Suits(d, caps, items[i].res.spec) && items[i].res.spec.targetNode != ""
    && forall j :: 0 <= j < i ==> !Suits(d, caps, items[j].res.spec) || items[j].res.spec.targetNode == ""
  }

  /** An earlier suitable resource speaks against this one. */
  ghost predicate Against(d: Details, caps: Capacities, items: seq<Item>, j: int, i: int)
    requires 0 <= j < i < |items|
  {
    match d.policy
    case SameNode => Leads(d, caps, items, j) && items[j].res.spec.targetNode != items[i].res.spec.targetNode
    case DifferentNode =>
      Suits(d, caps, items[j].res.spec) && items[j].res.spec.targetNode == items[i].res.spec.targetNode
  }

  ghost predicate Picked(d: Details, caps: Capacities, items: seq<Item>, i: int) {
    && 0 <= i < |items| && Suits(d, caps, items[i].res.spec)
    && forall j :: 0 <= j < i ==> !Against(d, caps, items, j, i)
  }

  /** How many of the first n are picked. */
  ghost function Picks(d: Details, caps: Capacities, items: seq<Item>, n: nat): (c: nat)
    requires n <= |items|
    ensures c <= n
  {
    if n == 0 then 0 else Picks(d, caps, items, n - 1) + if Picked(d, caps, items, n - 1) then 1 else 0
  }

  /** Too few are picked before it, so the pass looks at it. */
  ghost predicate LookedAt(d: Details, caps: Capacities, items: seq<Item>, i: int) {
    0 <= i < |items| && Picks(d, caps, items, i) < d.size
  }

  /** The capacity of its node is needed and cannot be told. */
  ghost predicate Unknown(d: Details, caps: Capacities, items: seq<Item>, i: int) {
    && LookedAt(d, caps, items, i) && Asked(d, items[i].res.spec)
    && d.otherSpec.Some? && caps.Look(items[i].res.spec.targetNode).LookupError?
  }

  /** The names among the first n that are looked at and not picked. */
  ghost function Rejected(d: Details, caps: Capacities, items: seq<Item>, n: nat): set<string>
    requires n <= |items|
  {
    set i | 0 <= i < n && LookedAt(d, caps, items, i) && !Picked(d, caps, items, i) :: items[i].name
  }

  /** How many of the first n come when enough are picked already. */
  ghost function Surplus(d: Details, caps: Capacities, items: seq<Item>, n: nat): nat
    requires n <= |items|
  {
    if n == 0 then 0 else Surplus(d, caps, items, n - 1) + if LookedAt(d, caps, items, n - 1) then 0 else 1
  }

  // The pass carries exactly this.

  ghost function NodesPicked(d: Details, caps: Capacities, items: seq<Item>, n: nat): set<string>
    requires n <= |items|
  {
    set i | 0 <= i < n && LookedAt(d, caps, items, i) && Picked(d, caps, items, i) :: items[i].res.spec.targetNode
  }

  /** The counters and maps of the pass after the first n. */
  ghost predicate Carries(d: Details, caps: Capacities, items: seq<Item>, tracked: map<string, Tracked>, n: nat,
                          p: Progress)
    requires n <= |items|
  {
    && p.toAllocate == (if Picks(d, caps, items, n) < d.size then d.size - Picks(d, caps, items, n) else 0)
    && p.toDelete == Surplus(d, caps, items, n)
    && p.tracked == tracked - Rejected(d, caps, items, n)
    && p.used == (if d.policy == DifferentNode then NodesPicked(d, caps, items, n) else {})
    && (d.policy == SameNode && p.toAllocate > 0 ==>
          if exists j :: j < n && Leads(d, caps, items, j)
          then exists j :: j < n && Leads(d, caps, items, j) && p.sameNode == items[j].res.spec.targetNode
          else p.sameNode == "")
  }

  lemma {:induction false} PicksRise(d: Details, caps: Capacities, items: seq<Item>, m: nat, n: nat)
    requires m <= n <= |items|
    ensures Picks(d, caps, items, m) <= Picks(d, caps, items, n)
    decreases n
  {
    if m < n { PicksRise(d, caps, items, m, n - 1); }
  }

  lemma LeaderIsAlone(d: Details, caps: Capacities, items: seq<Item>, i: int, j: int)
    requires Leads(d, caps, items, i) && Leads(d, caps, items, j)
    ensures i == j
  {
  }

  /** What was looked at lies before what is looked at. */
  lemma LookedAtBefore(d: Details, caps: Capacities, items: seq<Item>, j: int, i: int)
    requires 0 <= j <= i && LookedAt(d, caps, items, i)
    ensures LookedAt(d, caps, items, j)
  {
    PicksRise(d, caps, items, j, i);
  }

  /** Under differentnode the nodes picked are the nodes of all that suit. */
  lemma {:induction false} NodeIsPicked(d: Details, caps: Capacities, items: seq<Item>, n: nat, j: int)
    requires d.policy == DifferentNode && 0 <= j < n <= |items| && Suits(d, caps, items[j].res.spec)
    requires LookedAt(d, caps, items, j)
    ensures items[j].res.spec.targetNode in NodesPicked(d, caps, items, n)
    decreases j
  {
    if !Picked(d, caps, items, j) {
      var i :| 0 <= i < j && Against(d, caps, items, i, j);
      LookedAtBefore(d, caps, items, i, j);
      NodeIsPicked(d, caps, items, n, i);
    }
  }

  /** The tests the pass makes come to the same as being picked. */
  lemma JudgeMeans(d: Details, caps: Capacities, items: seq<Item>, tracked: map<string, Tracked>, n: nat, p: Progress)
    requires n < |items| && Carries(d, caps, items, tracked, n, p) && p.toAllocate > 0
    ensures LookedAt(d, caps, items, n)
    ensures match Judge(d, caps, p, items[n].res.spec)
      case Abort(msg) => Unknown(d, caps, items, n) && caps.Look(items[n].res.spec.targetNode) == LookupError(msg)
      case Keep => !Unknown(d, caps, items, n) && Picked(d, caps, items, n)
      case Drop => !Unknown(d, caps, items, n) && !Picked(d, caps, items, n)
  {
    var s := items[n].res.spec;
    if Suits(d, caps, s) {
      if d.policy == DifferentNode {
        DifferentNodeMeans(d, caps, items, tracked, n, p);
      } else {
        SameNodeMeans(d, caps, items, tracked, n, p);
      }
    }
  }

  lemma PickedSuits(d: Details, caps: Capacities, items: seq<Item>, i: int)
    requires Picked(d, caps, items, i)
    ensures Suits(d, caps, items[i].res.spec)
  {
  }

  lemma DifferentNodeMeans(d: Details, caps: Capacities, items: seq<Item>, tracked: map<string, Tracked>, n: nat,
                           p: Progress)
    requires n < |items| && Carries(d, caps, items, tracked, n, p) && p.toAllocate > 0 && d.policy == DifferentNode
    requires Suits(d, caps, items[n].res.spec)
    ensures Picked(d, caps, items, n) <==> items[n].res.spec.targetNode !in p.used
  {
    hide Suits;
    var node := items[n].res.spec.targetNode;
    if node in p.used {
      var i :| 0 <= i < n && Picked(d, caps, items, i) && items[i].res.spec.targetNode == node;
      PickedSuits(d, caps, items, i);
      assert Against(d, caps, items, i, n);
    }
    if j :| 0 <= j < n && Against(d, caps, items, j, n) {
      LookedAtBefore(d, caps, items, j, n);
      NodeIsPicked(d, caps, items, n, j);
    }
  }

  lemma SameNodeMeans(d: Details, caps: Capacities, items: seq<Item>, tracked: map<string, Tracked>, n: nat,
                      p: Progress)
    requires n < |items| && Carries(d, caps, items, tracked, n, p) && p.toAllocate > 0 && d.policy == SameNode
    requires Suits(d, caps, items[n].res.spec)
    ensures Picked(d, caps, items, n) <==> p.sameNode == "" || p.sameNode == items[n].res.spec.targetNode
  {
    hide Suits;
    if j :| j < n && Leads(d, caps, items, j) {
      var l :| l < n && Leads(d, caps, items, l) && p.sameNode == items[l].res.spec.targetNode;
      LeaderIsAlone(d, caps, items, j, l);
      forall i | 0 <= i < n && Leads(d, caps, items, i) ensures i == l { LeaderIsAlone(d, caps, items, i, l); }
      assert Against(d, caps, items, l, n) <==> p.sameNode != items[n].res.spec.targetNode;
    }
  }

  lemma RejectedStep(d: Details, caps: Capacities, items: seq<Item>, n: nat)
    requires n < |items|
    ensures Rejected(d, caps, items, n + 1) == Rejected(d, caps, items, n)
      + if LookedAt(d, caps, items, n) && !Picked(d, caps, items, n) then {items[n].name} else {}
    ensures NodesPicked(d, caps, items, n + 1) == NodesPicked(d, caps, items, n)
      + if LookedAt(d, caps, items, n) && Picked(d, caps, items, n) then {items[n].res.spec.targetNode} else {}
  {
    hide LookedAt, Picked;
  }

  /** One listed resource further, unless the pass gives up there. */
  lemma CarriesOn(d: Details, caps: Capacities, items: seq<Item>, tracked: map<string, Tracked>, n: nat, p: Progress)
    requires n < |items| && Carries(d, caps, items, tracked, n, p)
    ensures p.toAllocate == 0 ==> !LookedAt(d, caps, items, n)
    ensures p.toAllocate == 0 ==> Carries(d, caps, items, tracked, n + 1, p.(toDelete := p.toDelete + 1))
    ensures p.toAllocate > 0 ==>
      match Judge(d, caps, p, items[n].res.spec)
      case Abort(_) => true
      case Keep => Carries(d, caps, items, tracked, n + 1, Kept(d, p, items[n].res.spec))
      case Drop => Carries(d, caps, items, tracked, n + 1, p.(tracked := p.tracked - {items[n].name}))
  {
    RejectedStep(d, caps, items, n);
    if p.toAllocate > 0 {
      JudgeMeans(d, caps, items, tracked, n, p);
      if d.policy == SameNode { LeaderSoFar(d, caps, items, tracked, n, p); }
    }
    hide Rejected, NodesPicked, Leads, Judge;
  }

  /** Where nobody leads, nothing suitable has a node name. */
  lemma {:induction false} NobodyLeads(d: Details, caps: Capacities, items: seq<Item>, n: nat)
    requires n <= |items| && forall j :: j < n ==> !Leads(d, caps, items, j)
    ensures forall j :: 0 <= j < n ==> !Suits(d, caps, items[j].res.spec) || items[j].res.spec.targetNode == ""
  {
    if n > 0 {
      NobodyLeads(d, caps, items, n - 1);
      assert !Leads(d, caps, items, n - 1);
    }
  }

  /** The remembered node after one more. */
  lemma LeaderSoFar(d: Details, caps: Capacities, items: seq<Item>, tracked: map<string, Tracked>, n: nat, p: Progress)
    requires n < |items| && Carries(d, caps, items, tracked, n, p) && p.toAllocate > 0 && d.policy == SameNode
    ensures var s := items[n].res.spec;
      var node := if Picked(d, caps, items, n) && p.sameNode == "" then s.targetNode else p.sameNode;
      if exists j :: j < n + 1 && Leads(d, caps, items, j)
      then exists j :: j < n + 1 && Leads(d, caps, items, j) && node == items[j].res.spec.targetNode
      else node == ""
  {
    if Suits(d, caps, items[n].res.spec) { SameNodeMeans(d, caps, items, tracked, n, p); }
    if Leads(d, caps, items, n) {
      assert forall j :: j < n ==> !Leads(d, caps, items, j);
    } else if j :| j < n && Leads(d, caps, items, j) {
      var l :| l < n && Leads(d, caps, items, l) && p.sameNode == items[l].res.spec.targetNode;
    } else {
      NobodyLeads(d, caps, items, n);
    }
  }

  /** How a pass that has come to the n-th listed resource ends. */
  ghost predicate Ends(d: Details, caps: Capacities, items: seq<Item>, tracked: map<string, Tracked>, n: nat,
                       r: MatchResult) {
    match r
    case Matched(q) =>
      (forall i :: n <= i < |items| ==> !Unknown(d, caps, items, i)) && Carries(d, caps, items, tracked, |items|, q)
    case Aborted(msg, left) =>
      exists a :: n <= a && GivesUpAt(d, caps, items, tracked, a, msg, left)
        && forall i :: n <= i < a ==> !Unknown(d, caps, items, i)
  }

  ghost predicate GivesUpAt(d: Details, caps: Capacities, items: seq<Item>, tracked: map<string, Tracked>, a: int,
                            msg: string, left: map<string, Tracked>)
  {
    && Unknown(d, caps, items, a) && caps.Look(items[a].res.spec.targetNode) == LookupError(msg)
    && left == tracked - Rejected(d, caps, items, a)
  }

  lemma EndsEarlier(d: Details, caps: Capacities, items: seq<Item>, tracked: map<string, Tracked>, n: nat,
                    r: MatchResult)
    requires Ends(d, caps, items, tracked, n + 1, r) && !Unknown(d, caps, items, n)
    ensures Ends(d, caps, items, tracked, n, r)
  {
    hide Unknown, GivesUpAt, Carries;
    if r.Aborted? {
      var a :| n + 1 <= a && GivesUpAt(d, caps, items, tracked, a, r.msg, r.tracked)
        && forall i :: n + 1 <= i < a ==> !Unknown(d, caps, items, i);
    }
  }

  lemma EndsHere(d: Details, caps: Capacities, items: seq<Item>, tracked: map<string, Tracked>, n: nat, p: Progress,
                 msg: string)
    requires n < |items| && Carries(d, caps, items, tracked, n, p) && Unknown(d, caps, items, n)
    requires caps.Look(items[n].res.spec.targetNode) == LookupError(msg)
    ensures Ends(d, caps, items, tracked, n, Aborted(msg, p.tracked))
  {
    CarriedEntries(d, caps, items, tracked, n, p);
    hide Unknown, Carries;
    assert GivesUpAt(d, caps, items, tracked, n, msg, p.tracked);
  }

  lemma SurplusIsKnown(d: Details, caps: Capacities, items: seq<Item>, n: int)
    requires !LookedAt(d, caps, items, n)
    ensures !Unknown(d, caps, items, n)
  {
  }

  lemma {:induction false} PassFrom(d: Details, caps: Capacities, items: seq<Item>, tracked: map<string, Tracked>,
                                    n: nat, p: Progress)
    requires n <= |items| && Carries(d, caps, items, tracked, n, p)
    ensures Ends(d, caps, items, tracked, n, MatchFrom(d, caps, p, items[n..]))
    decreases |items| - n
  {
    if n < |items| {
      hide Ends, Carries, LookedAt, Unknown, Kept, Judge, Picked;
      assert items[n..][0] == items[n] && items[n..][1..] == items[n + 1..];
      var r := MatchFrom(d, caps, p, items[n..]);
      CarriesOn(d, caps, items, tracked, n, p);
      if p.toAllocate == 0 {
        SurplusIsKnown(d, caps, items, n);
        PassFrom(d, caps, items, tracked, n + 1, p.(toDelete := p.toDelete + 1));
        EndsEarlier(d, caps, items, tracked, n, r);
      } else {
        JudgeMeans(d, caps, items, tracked, n, p);
        match Judge(d, caps, p, items[n].res.spec)
        case Abort(msg) => EndsHere(d, caps, items, tracked, n, p, msg);
        case Keep =>
          PassFrom(d, caps, items, tracked, n + 1, Kept(d, p, items[n].res.spec));
          EndsEarlier(d, caps, items, tracked, n, r);
        case Drop =>
          PassFrom(d, caps, items, tracked, n + 1, p.(tracked := p.tracked - {items[n].name}));
          EndsEarlier(d, caps, items, tracked, n, r);
      }
    } else {
      assert items[n..] == [];
    }
  }

  lemma CarriedEntries(d: Details, caps: Capacities, items: seq<Item>, tracked: map<string, Tracked>, n: nat,
                       p: Progress)
    requires n <= |items| && Carries(d, caps, items, tracked, n, p)
    ensures p.tracked == tracked - Rejected(d, caps, items, n)
  {
  }

  lemma CarriesFromStart(d: Details, caps: Capacities, items: seq<Item>, tracked: map<string, Tracked>)
    ensures Carries(d, caps, items, tracked, 0, Start(d, tracked))
  {
    assert Rejected(d, caps, items, 0) == {} && tracked - {} == tracked;
    assert NodesPicked(d, caps, items, 0) == {};
  }

  /**
   When the match pass gives up: exactly when, too few being picked before it, it comes to a listed resource of
   the right type, model, detach mode and node while the capacity of its node is needed and cannot be told. The
   error is that lookup's, and the entries left are all but those rejected before it.
   */
  lemma MatchAbortsIff(d: Details, caps: Capacities, items: seq<Item>, tracked: map<string, Tracked>)
    ensures var r := MatchFrom(d, caps, Start(d, tracked), items);
      && (r.Aborted? <==> exists i :: Unknown(d, caps, items, i))
      && (r.Aborted? ==> exists a: nat ::
            && a < |items| && Unknown(d, caps, items, a) && (forall i :: 0 <= i < a ==> !Unknown(d, caps, items, i))
            && caps.Look(items[a].res.spec.targetNode) == LookupError(r.msg)
            && r.tracked == tracked - Rejected(d, caps, items, a))
  {
    hide Carries, Rejected, MatchFrom, Picks, Asked;
    CarriesFromStart(d, caps, items, tracked);
    PassFrom(d, caps, items, tracked, 0, Start(d, tracked));
    assert items[0..] == items;
    var r := MatchFrom(d, caps, Start(d, tracked), items);
    if r.Aborted? {
      var a: nat :| GivesUpAt(d, caps, items, tracked, a, r.msg, r.tracked)
        && forall i :: 0 <= i < a ==> !Unknown(d, caps, items, i);
    }
  }

  /** The resource it gives up at, and whatever comes after it, keeps its entry. */
  lemma AbortKeepsTheRest(d: Details, caps: Capacities, items: seq<Item>, tracked: map<string, Tracked>, a: nat, i: int)
    requires DistinctNames(items) && a <= i < |items| && items[i].name in tracked
    ensures items[i].name in tracked - Rejected(d, caps, items, a)
  {
  }

  /**
   What the match pass leaves when it does not give up: the entries of all names but those looked at and not
   picked, as many still to allocate as the picked ones fall short of the size, and as surplus what comes later.
   */
  lemma MatchLeaves(d: Details, caps: Capacities, items: seq<Item>, tracked: map<string, Tracked>)
    requires MatchFrom(d, caps, Start(d, tracked), items).Matched?
    ensures var q, picks := MatchFrom(d, caps, Start(d, tracked), items).progress, Picks(d, caps, items, |items|);
      && q.tracked == tracked - Rejected(d, caps, items, |items|)
      && q.toAllocate == (if picks < d.size then d.size - picks else 0)
      && q.toDelete == Surplus(d, caps, items, |items|)
  {
    CarriesFromStart(d, caps, items, tracked);
    PassFrom(d, caps, items, tracked, 0, Start(d, tracked));
    assert items[0..] == items;
  }

  /** A reason to reject a listed resource: its spec, its node's capacity, or a picked one it stands against. */
  ghost predicate Reason(d: Details, caps: Capacities, items: seq<Item>, i: int) {
    && 0 <= i < |items|
    && var s := items[i].res.spec;
       || s.kind != d.kind || s.model != d.model || s.forceDetach != d.forceDetach
       || (d.targetNode != "" && s.targetNode != d.targetNode)
       || (d.otherSpec.Some? && caps.Look(s.targetNode) == Capacity(false))
       || exists j :: 0 <= j < i && Picked(d, caps, items, j) && !Side(d, items[j].res.spec, s)
  }

  lemma RejectedFor(d: Details, caps: Capacities, items: seq<Item>, i: int)
    requires LookedAt(d, caps, items, i) && !Picked(d, caps, items, i) && !Unknown(d, caps, items, i)
    ensures Reason(d, caps, items, i)
  {
    if Suits(d, caps, items[i].res.spec) {
      var j :| 0 <= j < i && Against(d, caps, items, j, i);
      var k := FirstAgainst(d, caps, items, j, i);
    }
  }

  /** Whether it gives up or not, the pass forgets a name only for a reason. */
  lemma ForgottenForAReason(d: Details, caps: Capacities, items: seq<Item>, tracked: map<string, Tracked>, k: string)
    requires k in tracked
    requires var r := MatchFrom(d, caps, Start(d, tracked), items);
      k !in (if r.Aborted? then r.tracked else r.progress.tracked)
    ensures exists i :: 0 <= i < |items| && items[i].name == k && Reason(d, caps, items, i)
  {
    hide MatchFrom, LookedAt, Picked, Unknown, Reason;
    MatchAbortsIff(d, caps, items, tracked);
    var r := MatchFrom(d, caps, Start(d, tracked), items);
    var n: nat := |items|;
    if r.Aborted? {
      var a: nat :|
        && a < |items| && Unknown(d, caps, items, a) && (forall i :: 0 <= i < a ==> !Unknown(d, caps, items, i))
        && r.tracked == tracked - Rejected(d, caps, items, a);
      n := a;
    } else {
      MatchLeaves(d, caps, items, tracked);
    }
    assert k in Rejected(d, caps, items, n);
    var i :| 0 <= i < n && LookedAt(d, caps, items, i) && !Picked(d, caps, items, i) && items[i].name == k;
    RejectedFor(d, caps, items, i);
  }

  /** The policy lets the two stand side by side. */
  predicate Side(d: Details, a: ResourceSpec, b: ResourceSpec) {
    match d.policy
    case SameNode => a.targetNode == b.targetNode
    case DifferentNode => a.targetNode != b.targetNode
  }

  /** Of those that speak against a resource, the first is picked. */
  lemma {:induction false} FirstAgainst(d: Details, caps: Capacities, items: seq<Item>, j: int, i: int) returns (k: int)
    requires 0 <= j < i < |items| && Against(d, caps, items, j, i)
    ensures 0 <= k < i && Picked(d, caps, items, k) && !Side(d, items[k].res.spec, items[i].res.spec)
    decreases j
  {
    k := j;
    if l :| 0 <= l < j && Against(d, caps, items, l, j) {
      if d.policy == SameNode {
        LeaderIsAlone(d, caps, items, l, j);
      } else {
        k := FirstAgainst(d, caps, items, l, i);
      }
    }
  }
}
