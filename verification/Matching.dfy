/**
 The match pass of the NodeAllocating handler: it walks the listed resources, keeps the ones that still
 fit the request until the size is met, forgets the ones that do not, and counts the rest as surplus.
 */
module Matching {
  import opened Api

  /** Counters and maps the pass carries from one listed resource to the next. */
  datatype Progress = Progress(
    toAllocate: nat,
    toDelete: nat,
    used: set<string>,
    sameNode: string,
    tracked: map<string, Tracked>)

  datatype Verdict = Keep | Drop | Abort(msg: string)

  datatype MatchResult = Aborted(msg: string, tracked: map<string, Tracked>) | Matched(progress: Progress)

  function Start(d: Details, tracked: map<string, Tracked>): Progress {
    Progress(d.size, 0, {}, "", tracked)
  }

  /** The tests one resource goes through while the size is not met yet. */
  function Judge(d: Details, caps: Capacities, p: Progress, s: ResourceSpec): Verdict {
    if s.kind != d.kind || s.model != d.model || s.forceDetach != d.forceDetach then Drop
    else if d.targetNode != "" && s.targetNode != d.targetNode then Drop
    else if d.otherSpec.Some? && caps.Look(s.targetNode).LookupError? then Abort(caps.Look(s.targetNode).msg)
    else if d.otherSpec.Some? && !caps.Look(s.targetNode).enough then Drop
    else if d.policy == DifferentNode then
      if s.targetNode in p.used then Drop else Keep
    else
      if p.sameNode != "" && p.sameNode != s.targetNode then Drop else Keep
  }

  function Kept(d: Details, p: Progress, s: ResourceSpec): Progress
    requires p.toAllocate > 0
  {
    p.(toAllocate := p.toAllocate - 1,
       used := if d.policy == DifferentNode then p.used + {s.targetNode} else p.used,
       sameNode := if d.policy == SameNode && p.sameNode == "" then s.targetNode else p.sameNode)
  }

  function MatchFrom(d: Details, caps: Capacities, p: Progress, items: seq<Item>): MatchResult
    decreases |items|
  {
    if items == [] then Matched(p)
    else if p.toAllocate == 0 then MatchFrom(d, caps, p.(toDelete := p.toDelete + 1), items[1..])
    else match Judge(d, caps, p, items[0].res.spec)
      case Abort(msg) => Aborted(msg, p.tracked)
      case Drop => MatchFrom(d, caps, p.(tracked := p.tracked - {items[0].name}), items[1..])
      case Keep => MatchFrom(d, caps, Kept(d, p, items[0].res.spec), items[1..])
  }

  method MatchPass(d: Details, caps: Capacities, tracked: map<string, Tracked>, items: seq<Item>)
    returns (r: MatchResult)
    ensures r == MatchFrom(d, caps, Start(d, tracked), items)
  {
    var toAllocate, toDelete := d.size, 0;
    var used: set<string>, sameNode, resources := {}, "", tracked;
    for i := 0 to |items|
      invariant MatchFrom(d, caps, Start(d, tracked), items)
             == MatchFrom(d, caps, Progress(toAllocate, toDelete, used, sameNode, resources), items[i..])
    {
      var s := items[i].res.spec;
      assert items[i..][1..] == items[i + 1..];
      if toAllocate == 0 {
        toDelete := toDelete + 1;
        continue;
      }
      if s.kind != d.kind || s.model != d.model || s.forceDetach != d.forceDetach {
        resources := resources - {items[i].name};
        continue;
      }
      if d.targetNode != "" && s.targetNode != d.targetNode {
        resources := resources - {items[i].name};
        continue;
      }
      if d.otherSpec.Some? {
        var reply := caps.Look(s.targetNode);
        if reply.LookupError? {
          return Aborted(reply.msg, resources);
        }
        if !reply.enough {
          resources := resources - {items[i].name};
          continue;
        }
      }
      match d.policy {
        case DifferentNode =>
          if s.targetNode in used {
            resources := resources - {items[i].name};
            continue;
          }
          used := used + {s.targetNode};
        case SameNode =>
          if sameNode == "" {
            sameNode := s.targetNode;
          } else if sameNode != s.targetNode {
            resources := resources - {items[i].name};
            continue;
          }
      }
      toAllocate := toAllocate - 1;
    }
    assert items[|items|..] == [];
    return Matched(Progress(toAllocate, toDelete, used, sameNode, resources));
  }

  /** The resource answers to the request, policy aside. */
  ghost predicate Fits(d: Details, caps: Capacities, s: ResourceSpec) {
    && s.kind == d.kind && s.model == d.model && s.forceDetach == d.forceDetach
    && (d.targetNode != "" ==> s.targetNode == d.targetNode)
    && (d.otherSpec.Some? ==> caps.Look(s.targetNode) == Capacity(true))
  }

  /** The pass only ever forgets listed names. */
  lemma {:induction false} MatchForgetsOnlyListed(d: Details, caps: Capacities, p: Progress, items: seq<Item>)
    ensures var r := MatchFrom(d, caps, p, items);
      var out := if r.Aborted? then r.tracked else r.progress.tracked;
      && out.Keys <= p.tracked.Keys
      && p.tracked.Keys - Names(items) <= out.Keys
      && forall k :: k in out ==> out[k] == p.tracked[k]
    decreases |items|
  {
    if items != [] {
      assert Names(items) == {items[0].name} + Names(items[1..]);
      if p.toAllocate == 0 {
        MatchForgetsOnlyListed(d, caps, p.(toDelete := p.toDelete + 1), items[1..]);
      } else {
        match Judge(d, caps, p, items[0].res.spec)
        case Abort(_) =>
        case Drop => MatchForgetsOnlyListed(d, caps, p.(tracked := p.tracked - {items[0].name}), items[1..]);
        case Keep => MatchForgetsOnlyListed(d, caps, Kept(d, p, items[0].res.spec), items[1..]);
      }
    }
  }

  lemma ForgetOne(m: map<string, Tracked>, k: string)
    requires k in m
    ensures |m - {k}| == |m| - 1
  {
    assert (m - {k}).Keys == m.Keys - {k};
  }

  /**
   Bookkeeping of the pass: every listed resource is kept, surplus, or forgotten, and surplus is only
   counted once the size is met.
   */
  lemma {:induction false} MatchBalance(d: Details, caps: Capacities, p: Progress, items: seq<Item>)
    requires DistinctNames(items) && Names(items) <= p.tracked.Keys
    requires MatchFrom(d, caps, p, items).Matched?
    ensures var q := MatchFrom(d, caps, p, items).progress;
      && |items| == (p.toAllocate - q.toAllocate) + (q.toDelete - p.toDelete) + (|p.tracked| - |q.tracked|)
      && q.toAllocate <= p.toAllocate && p.toDelete <= q.toDelete && |q.tracked| <= |p.tracked|
      && (q.toDelete > p.toDelete ==> q.toAllocate == 0)
    decreases |items|
  {
    if items != [] {
      var head, rest := items[0], items[1..];
      assert Names(items) == {head.name} + Names(rest);
      assert head.name !in Names(rest);
      if p.toAllocate == 0 {
        MatchStaysFull(d, caps, p, items);
      } else if Judge(d, caps, p, head.res.spec).Drop? {
        var forgot := p.tracked - {head.name};
        ForgetOne(p.tracked, head.name);
        assert Names(rest) <= forgot.Keys;
        MatchBalance(d, caps, p.(tracked := forgot), rest);
      } else {
        MatchBalance(d, caps, Kept(d, p, head.res.spec), rest);
      }
    }
  }

  /** Once the size is met the rest of the list is surplus and nothing else changes. */
  lemma {:induction false} MatchStaysFull(d: Details, caps: Capacities, p: Progress, items: seq<Item>)
    requires p.toAllocate == 0
    ensures MatchFrom(d, caps, p, items) == Matched(p.(toDelete := p.toDelete + |items|))
    decreases |items|
  {
    if items != [] {
      MatchStaysFull(d, caps, p.(toDelete := p.toDelete + 1), items[1..]);
    }
  }

  /** Surplus never exceeds what is listed, tracked or not, and only appears once the size is met. */
  lemma {:induction false} MatchSurplus(d: Details, caps: Capacities, p: Progress, items: seq<Item>)
    requires MatchFrom(d, caps, p, items).Matched?
    ensures var q := MatchFrom(d, caps, p, items).progress;
      && p.toDelete <= q.toDelete <= p.toDelete + |items|
      && (q.toDelete > p.toDelete ==> q.toAllocate == 0)
      && (p.toAllocate - q.toAllocate) + (q.toDelete - p.toDelete) <= |items|
      && q.toAllocate <= p.toAllocate
    decreases |items|
  {
    if items != [] {
      if p.toAllocate == 0 {
        MatchStaysFull(d, caps, p, items);
      } else if Judge(d, caps, p, items[0].res.spec).Drop? {
        MatchSurplus(d, caps, p.(tracked := p.tracked - {items[0].name}), items[1..]);
      } else {
        MatchSurplus(d, caps, Kept(d, p, items[0].res.spec), items[1..]);
      }
    }
  }

  /** What the running counters promise about the nodes of the resources kept so far. */
  ghost predicate OnPolicy(d: Details, p: Progress, node: string) {
    match d.policy
    case SameNode => node == p.sameNode
    case DifferentNode => node in p.used
  }

  lemma {:induction false} PolicyIsStable(d: Details, caps: Capacities, p: Progress, items: seq<Item>)
    requires MatchFrom(d, caps, p, items).Matched?
    ensures var q := MatchFrom(d, caps, p, items).progress;
      && p.used <= q.used
      && (p.sameNode != "" ==> q.sameNode == p.sameNode)
    decreases |items|
  {
    if items != [] {
      if p.toAllocate == 0 {
        PolicyIsStable(d, caps, p.(toDelete := p.toDelete + 1), items[1..]);
      } else if Judge(d, caps, p, items[0].res.spec).Drop? {
        PolicyIsStable(d, caps, p.(tracked := p.tracked - {items[0].name}), items[1..]);
      } else {
        PolicyIsStable(d, caps, Kept(d, p, items[0].res.spec), items[1..]);
      }
    }
  }

  ghost predicate NodesNamed(items: seq<Item>) {
    forall i :: 0 <= i < |items| ==> items[i].res.spec.targetNode != ""
  }

  /** How many listed resources the pass looks at; the rest is surplus it never judges. */
  function Judged(d: Details, caps: Capacities, p: Progress, items: seq<Item>): (n: nat)
    requires MatchFrom(d, caps, p, items).Matched?
    ensures n <= |items|
  {
    MatchSurplus(d, caps, p, items);
    |items| - (MatchFrom(d, caps, p, items).progress.toDelete - p.toDelete)
  }

  /** One step of the pass leaves the number of resources judged after it. */
  lemma JudgedStep(d: Details, caps: Capacities, p: Progress, items: seq<Item>)
    requires items != [] && MatchFrom(d, caps, p, items).Matched?
    ensures p.toAllocate == 0 ==> Judged(d, caps, p, items) == 0
    ensures p.toAllocate > 0 ==>
      var v := Judge(d, caps, p, items[0].res.spec);
      var p' := if v.Drop? then p.(tracked := p.tracked - {items[0].name}) else Kept(d, p, items[0].res.spec);
      !v.Abort? && MatchFrom(d, caps, p', items[1..]) == MatchFrom(d, caps, p, items)
      && Judged(d, caps, p, items) == Judged(d, caps, p', items[1..]) + 1
  {
    if p.toAllocate == 0 {
      MatchStaysFull(d, caps, p, items);
    }
  }

  /**
   Whatever was judged and is still tracked fits the request and obeys its policy; what was never judged
   stays tracked, fitting or not.
   */
  lemma {:induction false} MatchedFit(d: Details, caps: Capacities, p: Progress, items: seq<Item>)
    requires DistinctNames(items) && NodesNamed(items)
    requires MatchFrom(d, caps, p, items).Matched?
    ensures var q, n := MatchFrom(d, caps, p, items).progress, Judged(d, caps, p, items);
      && (forall i :: 0 <= i < n && items[i].name in q.tracked ==>
            Fits(d, caps, items[i].res.spec) && OnPolicy(d, q, items[i].res.spec.targetNode))
      && (forall i :: n <= i < |items| && items[i].name in p.tracked ==> items[i].name in q.tracked)
    decreases |items|
  {
    if items != [] {
      var head, rest := items[0], items[1..];
      var q := MatchFrom(d, caps, p, items).progress;
      JudgedStep(d, caps, p, items);
      assert forall i :: 1 <= i < |items| ==> items[i] == rest[i - 1];
      if p.toAllocate == 0 {
        MatchStaysFull(d, caps, p, items);
      } else if Judge(d, caps, p, head.res.spec).Drop? {
        var p' := p.(tracked := p.tracked - {head.name});
        MatchedFit(d, caps, p', rest);
        MatchForgetsOnlyListed(d, caps, p', rest);
        assert head.name !in q.tracked;
      } else {
        var p' := Kept(d, p, head.res.spec);
        MatchedFit(d, caps, p', rest);
        PolicyIsStable(d, caps, p', rest);
      }
    }
  }

  /** Under differentnode no two judged resources that survive sit on the same node, nor on a node already taken. */
  lemma {:induction false} MatchedSpread(d: Details, caps: Capacities, p: Progress, items: seq<Item>)
    requires d.policy == DifferentNode
    requires DistinctNames(items) && NodesNamed(items)
    requires MatchFrom(d, caps, p, items).Matched?
    ensures var q, n := MatchFrom(d, caps, p, items).progress, Judged(d, caps, p, items);
      && (forall i :: 0 <= i < n && items[i].name in q.tracked ==> items[i].res.spec.targetNode !in p.used)
      && (forall i, j :: 0 <= i < j < n && items[i].name in q.tracked && items[j].name in q.tracked ==>
            items[i].res.spec.targetNode != items[j].res.spec.targetNode)
    decreases |items|
  {
    if items != [] {
      var head, rest := items[0], items[1..];
      var q := MatchFrom(d, caps, p, items).progress;
      JudgedStep(d, caps, p, items);
      assert forall i :: 1 <= i < |items| ==> items[i] == rest[i - 1];
      if p.toAllocate > 0 {
        if Judge(d, caps, p, head.res.spec).Drop? {
          var p' := p.(tracked := p.tracked - {head.name});
          MatchedSpread(d, caps, p', rest);
          MatchForgetsOnlyListed(d, caps, p', rest);
          assert head.name !in q.tracked;
        } else {
          MatchedSpread(d, caps, Kept(d, p, head.res.spec), rest);
        }
      }
    }
  }
}
