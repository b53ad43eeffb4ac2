/**
 Placement policy with surplus. The match pass never judges the surplus, and removal by priority looks at
 state and age only, so a pass may end with entries the request did not ask for. Here is exactly when.
 */
module SurplusPolicy {
  import opened Api
  import opened Matching
  import opened Priority
  import opened Placement
  import opened Allocation

  // Who can survive a removal by priority.

  /** Nobody else among `names` has to go strictly before this one. */
  lemma {:induction false} Earliest(items: seq<Item>, names: set<string>) returns (i: nat)
    requires names != {} && names <= Names(items)
    ensures i < |items| && items[i].name in names
    ensures forall j :: 0 <= j < |items| && items[j].name in names ==> !Before(items[j].res, items[i].res)
    decreases |items|
  {
    var last := |items| - 1;
    var front := items[..last];
    var others := names * Names(front);
    forall j | 0 <= j < last && items[j].name in names ensures items[j].name in others {
      assert front[j].name in Names(front);
    }
    if others == {} {
      i := last;
    } else {
      i := Earliest(front, others);
      assert forall j :: 0 <= j < last ==> front[j] == items[j];
      if items[last].name in names && Before(items[last].res, items[i].res) {
        i := last;
      }
    }
  }

  /** `chosen` come first among `names`. */
  ghost predicate ComeFirst(items: seq<Item>, names: set<string>, chosen: set<string>) {
    && chosen <= names
    && forall i, j :: 0 <= i < |items| && 0 <= j < |items| ==>
         items[i].name in chosen && items[j].name in names - chosen ==> !Before(items[j].res, items[i].res)
  }

  lemma {:induction false} FirstK(items: seq<Item>, names: set<string>, k: nat) returns (chosen: set<string>)
    requires DistinctNames(items) && names <= Names(items) && k <= |names|
    ensures |chosen| == k && ComeFirst(items, names, chosen)
    decreases k
  {
    chosen := {};
    if k > 0 {
      var i := Earliest(items, names);
      var rest := FirstK(items, names - {items[i].name}, k - 1);
      chosen := rest + {items[i].name};
      assert names - chosen == names - {items[i].name} - rest;
    }
  }

  /** The listed names that may go while all of `stay` stay. */
  ghost function Expendable(items: seq<Item>, stay: set<string>): (names: set<string>)
    ensures names <= Names(items) - stay
  {
    set i | 0 <= i < |items| && items[i].name !in stay
            && (forall j :: 0 <= j < |items| && items[j].name in stay ==>
                  !Before(items[j].res, items[i].res)) :: items[i].name
  }

  /** There are enough of them to make up the surplus. */
  ghost predicate MayStay(items: seq<Item>, surplus: nat, stay: set<string>) {
    surplus <= |Expendable(items, stay)|
  }

  lemma VictimsAreExpendable(items: seq<Item>, surplus: nat, victims: set<string>, stay: set<string>)
    requires KSmallest(items, surplus, victims) && victims !! stay
    ensures MayStay(items, surplus, stay)
  {
    forall n | n in victims ensures n in Expendable(items, stay) {
      var i :| 0 <= i < |items| && items[i].name == n;
    }
    SubsetCount(victims, Expendable(items, stay));
  }

  lemma {:induction false} SubsetCount(a: set<string>, b: set<string>)
    requires a <= b
    ensures |a| <= |b|
  {
    assert |b| == |a| + |b - a| by { assert b == a + (b - a); }
  }

  lemma RemainderCount(a: set<string>, b: set<string>)
    requires b <= a
    ensures |a - b| == |a| - |b|
  {
    assert a == (a - b) + b;
  }

  lemma ExpendableAreVictims(items: seq<Item>, surplus: nat, stay: set<string>) returns (victims: set<string>)
    requires DistinctNames(items) && MayStay(items, surplus, stay)
    ensures KSmallest(items, surplus, victims) && victims !! stay
  {
    var all := Expendable(items, stay);
    victims := FirstK(items, all, surplus);
    forall i, j | 0 <= i < |items| && 0 <= j < |items| && items[i].name in victims && items[j].name !in victims
      ensures !Before(items[j].res, items[i].res)
    {
      assert items[i].name in all;
      var i' :| 0 <= i' < |items| && items[i'].name == items[i].name
        && (forall j :: 0 <= j < |items| && items[j].name in stay ==> !Before(items[j].res, items[i'].res));
      assert i' == i;
      if items[j].name !in stay && items[j].name !in all {
        var s :| 0 <= s < |items| && items[s].name in stay && Before(items[s].res, items[j].res);
        assert !Before(items[s].res, items[i].res);
      }
    }
  }

  /** A group of listed resources can survive together exactly when enough others may go before all of them. */
  lemma SurviveIff(items: seq<Item>, surplus: nat, stay: set<string>)
    requires DistinctNames(items)
    ensures (exists victims :: KSmallest(items, surplus, victims) && victims !! stay) <==> MayStay(items, surplus, stay)
  {
    if MayStay(items, surplus, stay) {
      var victims := ExpendableAreVictims(items, surplus, stay);
    }
    if victims :| KSmallest(items, surplus, victims) && victims !! stay {
      VictimsAreExpendable(items, surplus, victims, stay);
    }
  }

  // The policy.

  /** Two resources the policy allows side by side. */
  predicate Agree(d: Details, a: ResourceSpec, b: ResourceSpec) {
    match d.policy
    case SameNode => a.targetNode == b.targetNode
    case DifferentNode => a.targetNode != b.targetNode
  }

  ghost predicate AllFit(d: Details, caps: Capacities, items: seq<Item>, kept: set<string>) {
    forall i :: 0 <= i < |items| && items[i].name in kept ==> Fits(d, caps, items[i].res.spec)
  }

  ghost predicate AllAgree(d: Details, items: seq<Item>, kept: set<string>) {
    forall i, j :: 0 <= i < j < |items| && items[i].name in kept && items[j].name in kept ==>
      Agree(d, items[i].res.spec, items[j].res.spec)
  }

  /** What the request asked for: the listed resources it keeps fit, and all its entries obey the policy. */
  ghost predicate AsAsked(d: Details, caps: Capacities, items: seq<Item>, out: map<string, Tracked>) {
    AllFit(d, caps, items, out.Keys) && ObeysPolicy(d, out)
  }

  /**
   The condition, on the list and on what the match pass left: whoever can survive fits, and any two that
   can survive together agree with the policy.
   */
  ghost predicate Harmless(d: Details, caps: Capacities, items: seq<Item>, q: Progress) {
    && (forall i :: 0 <= i < |items| && items[i].name in q.tracked ==>
          MayStay(items, q.toDelete, {items[i].name}) ==> Fits(d, caps, items[i].res.spec))
    && (forall i, j :: 0 <= i < j < |items| && items[i].name in q.tracked && items[j].name in q.tracked ==>
          MayStay(items, q.toDelete, {items[i].name, items[j].name}) ==> Agree(d, items[i].res.spec, items[j].res.spec))
  }

  /** Entries of agreeing resources obey the policy. */
  lemma AgreeingObey(d: Details, caps: Capacities, items: seq<Item>, out: map<string, Tracked>)
    requires DistinctNames(items) && out.Keys <= Names(items) && SameNodesAs(out, items)
    requires AllFit(d, caps, items, out.Keys) && AllAgree(d, items, out.Keys)
    ensures AsAsked(d, caps, items, out)
  {
    forall k, l | k in out && l in out
      ensures k != l ==>
        if d.policy == SameNode then out[k].nodeName == out[l].nodeName else out[k].nodeName != out[l].nodeName
      ensures d.targetNode != "" ==> out[k].nodeName == d.targetNode
    {
      var i :| 0 <= i < |items| && items[i].name == k;
      var j :| 0 <= j < |items| && items[j].name == l;
      hide DistinctNames, SameNodesAs, AllFit, AllAgree;
      AgreeingPair(d, caps, items, out, i, j);
    }
  }

  lemma AgreeingPair(d: Details, caps: Capacities, items: seq<Item>, out: map<string, Tracked>, i: nat, j: nat)
    requires SameNodesAs(out, items) && AllFit(d, caps, items, out.Keys) && AllAgree(d, items, out.Keys)
    requires i < |items| && j < |items| && items[i].name in out && items[j].name in out
    ensures var a, b := out[items[i].name].nodeName, out[items[j].name].nodeName;
      (i != j ==> if d.policy == SameNode then a == b else a != b) && (d.targetNode != "" ==> a == d.targetNode)
  {
    if i != j {
      assert if i < j then Agree(d, items[i].res.spec, items[j].res.spec)
        else Agree(d, items[j].res.spec, items[i].res.spec);
    }
    assert Fits(d, caps, items[i].res.spec);
  }

  /** Entries of two resources that do not agree break it. */
  lemma DisagreeingBreak(d: Details, items: seq<Item>, out: map<string, Tracked>, i: nat, j: nat)
    requires DistinctNames(items) && SameNodesAs(out, items) && i < j < |items| && items[i].name in out
    requires items[j].name in out
    requires !Agree(d, items[i].res.spec, items[j].res.spec)
    ensures !ObeysPolicy(d, out)
  {
    assert items[i].name != items[j].name;
  }

  /** With surplus a successful pass only removes. */
  lemma SurplusRemoves(d: Details, items: seq<Item>, tracked: map<string, Tracked>, sv: Survey, victims: set<string>,
                       spare: seq<string>)
    requires MatchFrom(d, sv.caps, Start(d, tracked), items).Matched?
    requires MatchFrom(d, sv.caps, Start(d, tracked), items).progress.toDelete > 0
    ensures var q := MatchFrom(d, sv.caps, Start(d, tracked), items).progress;
      && (Allocate(d, items, tracked, sv, victims, spare).Allocated? ==>
            Allocate(d, items, tracked, sv, victims, spare).tracked == q.tracked - victims)
      && (Place(d, sv, q).Placed? && q.tracked.Keys - victims != {} ==>
            Allocate(d, items, tracked, sv, victims, spare).Allocated?)
  {
    var q := MatchFrom(d, sv.caps, Start(d, tracked), items).progress;
    MatchSurplus(d, sv.caps, Start(d, tracked), items);
    hide MatchFrom;
    var p := AfterRemoval(q, victims);
    if Place(d, sv, p).Placed? {
      PlaceLength(d, sv, p);
    }
    if q.tracked.Keys - victims != {} {
      assert p.tracked.Keys == q.tracked.Keys - victims;
      assert p.tracked != map[] && q.tracked != map[];
    }
  }

  /** Without surplus everything the match pass leaves was judged. */
  lemma JudgedAgree(d: Details, items: seq<Item>, tracked: map<string, Tracked>, caps: Capacities)
    requires DistinctNames(items) && NodesNamed(items)
    requires MatchFrom(d, caps, Start(d, tracked), items).Matched?
    requires MatchFrom(d, caps, Start(d, tracked), items).progress.toDelete == 0
    ensures var q := MatchFrom(d, caps, Start(d, tracked), items).progress;
      AllFit(d, caps, items, q.tracked.Keys) && AllAgree(d, items, q.tracked.Keys)
  {
    MatchedFit(d, caps, Start(d, tracked), items);
    if d.policy == DifferentNode {
      MatchedSpread(d, caps, Start(d, tracked), items);
    }
  }

  /** One removal by priority from a harmless list leaves what was asked for. */
  lemma HarmlessRemoval(d: Details, caps: Capacities, items: seq<Item>, q: Progress, victims: set<string>)
    requires DistinctNames(items) && q.tracked.Keys <= Names(items) && SameNodesAs(q.tracked, items)
    requires KSmallest(items, q.toDelete, victims) && Harmless(d, caps, items, q)
    ensures AsAsked(d, caps, items, q.tracked - victims)
  {
    hide MayStay, KSmallest, Fits, Agree;
    var out := q.tracked - victims;
    forall i | 0 <= i < |items| && items[i].name in out ensures Fits(d, caps, items[i].res.spec) {
      VictimsAreExpendable(items, q.toDelete, victims, {items[i].name});
    }
    forall i, j | 0 <= i < j < |items| && items[i].name in out && items[j].name in out
      ensures Agree(d, items[i].res.spec, items[j].res.spec)
    {
      VictimsAreExpendable(items, q.toDelete, victims, {items[i].name, items[j].name});
    }
    AgreeingObey(d, caps, items, out);
  }

  /** If the list is not harmless, one of the removals by priority leaves what was not asked for. */
  lemma HarmfulRemoval(d: Details, caps: Capacities, items: seq<Item>, q: Progress) returns (victims: set<string>)
    requires DistinctNames(items) && q.tracked.Keys <= Names(items) && SameNodesAs(q.tracked, items)
    requires !Harmless(d, caps, items, q)
    ensures KSmallest(items, q.toDelete, victims) && q.tracked.Keys - victims != {}
    ensures !AsAsked(d, caps, items, q.tracked - victims)
  {
    hide MayStay, KSmallest, Fits, Agree, ObeysPolicy;
    if i :|
      && 0 <= i < |items| && items[i].name in q.tracked && MayStay(items, q.toDelete, {items[i].name})
      && !Fits(d, caps, items[i].res.spec)
    {
      victims := ExpendableAreVictims(items, q.toDelete, {items[i].name});
      assert items[i].name in q.tracked - victims;
    } else {
      var i, j :| 0 <= i < j < |items| && items[i].name in q.tracked && items[j].name in q.tracked
        && MayStay(items, q.toDelete, {items[i].name, items[j].name})
        && !Agree(d, items[i].res.spec, items[j].res.spec);
      victims := ExpendableAreVictims(items, q.toDelete, {items[i].name, items[j].name});
      assert items[i].name in q.tracked - victims && items[j].name in q.tracked - victims;
      DisagreeingBreak(d, items, q.tracked - victims, i, j);
    }
  }

  /** Entries the pass may start from: listed and tracked coincide, and each entry names its resource's node. */
  ghost predicate Tracks(items: seq<Item>, tracked: map<string, Tracked>) {
    DistinctNames(items) && NodesNamed(items) && Names(items) == tracked.Keys && SameNodesAs(tracked, items)
  }

  lemma MatchedTracks(d: Details, caps: Capacities, items: seq<Item>, tracked: map<string, Tracked>)
    requires Tracks(items, tracked) && MatchFrom(d, caps, Start(d, tracked), items).Matched?
    ensures var q := MatchFrom(d, caps, Start(d, tracked), items).progress;
      q.tracked.Keys <= Names(items) && SameNodesAs(q.tracked, items)
  {
    MatchForgetsOnlyListed(d, caps, Start(d, tracked), items);
  }

  /** Without surplus the victims do not matter, and what is left is as asked for. */
  lemma AskedWithoutSurplus(d: Details, items: seq<Item>, tracked: map<string, Tracked>, sv: Survey,
                            victims: set<string>, spare: seq<string>)
    requires Tracks(items, tracked) && UnusedNames(spare, d.size, tracked.Keys)
    requires MatchFrom(d, sv.caps, Start(d, tracked), items).Matched?
    requires MatchFrom(d, sv.caps, Start(d, tracked), items).progress.toDelete == 0
    requires Allocate(d, items, tracked, sv, victims, spare).Allocated?
    ensures AsAsked(d, sv.caps, items, Allocate(d, items, tracked, sv, victims, spare).tracked)
  {
    PolicyWithoutSurplus(d, items, tracked, sv, victims, spare);
    JudgedAgree(d, items, tracked, sv.caps);
    MatchSurplus(d, sv.caps, Start(d, tracked), items);
    MatchedTracks(d, sv.caps, items, tracked);
    var q := MatchFrom(d, sv.caps, Start(d, tracked), items).progress;
    PlaceLength(d, sv, q);
    hide MatchFrom, Place, AddEntries, Fits, ObeysPolicy;
    AddedEntries(q.tracked, spare, Place(d, sv, q).nodes);
    var out := AddEntries(q.tracked, spare, Place(d, sv, q).nodes);
    forall i | 0 <= i < |items| && items[i].name in out ensures items[i].name in q.tracked {
      assert items[i].name in tracked;
    }
  }

  /**
   Placement policy. A pass whose placement succeeds, from a state where listed and tracked coincide, ends
   as asked for whichever of the equally old the removal takes, exactly when the list is harmless.
   */
  lemma PolicyHolds(d: Details, items: seq<Item>, tracked: map<string, Tracked>, sv: Survey, spare: seq<string>)
    requires Tracks(items, tracked) && UnusedNames(spare, d.size, tracked.Keys)
    requires MatchFrom(d, sv.caps, Start(d, tracked), items).Matched?
    requires Place(d, sv, MatchFrom(d, sv.caps, Start(d, tracked), items).progress).Placed?
    ensures
      (forall victims ::
         RightVictims(d, items, tracked, sv, victims) && Allocate(d, items, tracked, sv, victims, spare).Allocated? ==>
         AsAsked(d, sv.caps, items, Allocate(d, items, tracked, sv, victims, spare).tracked))
      <==> Harmless(d, sv.caps, items, MatchFrom(d, sv.caps, Start(d, tracked), items).progress)
  {
    var q := MatchFrom(d, sv.caps, Start(d, tracked), items).progress;
    MatchedTracks(d, sv.caps, items, tracked);
    if q.toDelete == 0 {
      JudgedAgree(d, items, tracked, sv.caps);
      hide Fits, Agree, AsAsked, Allocate, Place, KSmallest;
      forall victims | Allocate(d, items, tracked, sv, victims, spare).Allocated?
        ensures AsAsked(d, sv.caps, items, Allocate(d, items, tracked, sv, victims, spare).tracked)
      {
        AskedWithoutSurplus(d, items, tracked, sv, victims, spare);
      }
    } else {
      hide Harmless, AsAsked, Allocate, KSmallest, Place, MatchFrom;
      forall victims | KSmallest(items, q.toDelete, victims) && Harmless(d, sv.caps, items, q)
        && Allocate(d, items, tracked, sv, victims, spare).Allocated?
        ensures AsAsked(d, sv.caps, items, Allocate(d, items, tracked, sv, victims, spare).tracked)
      {
        SurplusRemoves(d, items, tracked, sv, victims, spare);
        HarmlessRemoval(d, sv.caps, items, q, victims);
      }
      if !Harmless(d, sv.caps, items, q) {
        var victims := HarmfulRemoval(d, sv.caps, items, q);
        SurplusRemoves(d, items, tracked, sv, victims, spare);
        assert RightVictims(d, items, tracked, sv, victims);
      }
    }
  }

  // Whatever the states and the ages.

  /** The same resources at another time of their lives. */
  ghost predicate SameButAge(items: seq<Item>, items': seq<Item>) {
    && |items'| == |items|
    && forall i :: 0 <= i < |items| ==>
      items'[i].name == items[i].name && items'[i].res.spec == items[i].res.spec && IsLive(items'[i].res)
  }

  /** The match pass reads names and specs only. */
  lemma {:induction false} MatchIsAgeless(d: Details, caps: Capacities, p: Progress, items: seq<Item>,
                                          items': seq<Item>)
    requires SameButAge(items, items')
    ensures MatchFrom(d, caps, p, items') == MatchFrom(d, caps, p, items)
    decreases |items|
  {
    if items != [] {
      if p.toAllocate == 0 {
        MatchIsAgeless(d, caps, p.(toDelete := p.toDelete + 1), items[1..], items'[1..]);
      } else {
        match Judge(d, caps, p, items[0].res.spec)
        case Abort(_) =>
        case Drop => MatchIsAgeless(d, caps, p.(tracked := p.tracked - {items[0].name}), items[1..], items'[1..]);
        case Keep => MatchIsAgeless(d, caps, Kept(d, p, items[0].res.spec), items[1..], items'[1..]);
      }
    }
  }

  lemma AgelessTracks(items: seq<Item>, items': seq<Item>, tracked: map<string, Tracked>)
    requires SameButAge(items, items') && Tracks(items, tracked)
    ensures Tracks(items', tracked)
  {
    assert Names(items') == Names(items);
  }

  /** All of them online, with `stay` used last. */
  function Favouring(items: seq<Item>, stay: set<string>): (items': seq<Item>)
    ensures SameButAge(items, items')
  {
    seq(|items|, i requires 0 <= i < |items| =>
      items[i].(res := items[i].res.(status := NO_STATUS.(state := Online), deleteMark := false,
                                     lastUsed := Some(if items[i].name in stay then 1 else 0))))
  }

  /** Then everybody else may go first. */
  lemma FavouredMayStay(items: seq<Item>, surplus: nat, stay: set<string>)
    requires DistinctNames(items) && stay <= Names(items) && surplus + |stay| <= |items|
    ensures MayStay(Favouring(items, stay), surplus, stay)
  {
    var items' := Favouring(items, stay);
    forall n | n in Names(items) - stay ensures n in Expendable(items', stay) {
      var i :| 0 <= i < |items| && items[i].name == n;
      assert items'[i].name == n;
    }
    SubsetCount(Names(items) - stay, Expendable(items', stay));
    NamesCount(items);
    RemainderCount(Names(items), stay);
  }

  lemma StayingNeedsRoom(items: seq<Item>, surplus: nat, stay: set<string>)
    requires DistinctNames(items) && stay <= Names(items) && MayStay(items, surplus, stay)
    ensures surplus + |stay| <= |items|
  {
    SubsetCount(Expendable(items, stay), Names(items) - stay);
    NamesCount(items);
    RemainderCount(Names(items), stay);
  }

  /**
   The condition without ages: if anything survives at all, whatever the match pass did not forget fits,
   and if two survive, any two of these agree.
   */
  ghost predicate Uniform(d: Details, caps: Capacities, items: seq<Item>, q: Progress) {
    && (q.toDelete + 1 <= |items| ==> AllFit(d, caps, items, q.tracked.Keys))
    && (q.toDelete + 2 <= |items| ==> AllAgree(d, items, q.tracked.Keys))
  }

  lemma UniformIsHarmless(d: Details, caps: Capacities, items: seq<Item>, items': seq<Item>, q: Progress)
    requires DistinctNames(items) && SameButAge(items, items') && Uniform(d, caps, items, q)
    ensures Harmless(d, caps, items', q)
  {
    hide MayStay, Fits, Agree;
    assert DistinctNames(items');
    forall i | 0 <= i < |items'| && items'[i].name in q.tracked && MayStay(items', q.toDelete, {items'[i].name})
      ensures Fits(d, caps, items'[i].res.spec)
    {
      StayingNeedsRoom(items', q.toDelete, {items'[i].name});
      assert items[i].name in q.tracked;
    }
    forall i, j | 0 <= i < j < |items'| && items'[i].name in q.tracked && items'[j].name in q.tracked
      && MayStay(items', q.toDelete, {items'[i].name, items'[j].name})
      ensures Agree(d, items'[i].res.spec, items'[j].res.spec)
    {
      StayingNeedsRoom(items', q.toDelete, {items'[i].name, items'[j].name});
      assert items[i].name in q.tracked && items[j].name in q.tracked;
    }
  }

  lemma NotUniformIsHarmful(d: Details, caps: Capacities, items: seq<Item>, q: Progress) returns (items': seq<Item>)
    requires DistinctNames(items) && !Uniform(d, caps, items, q)
    ensures SameButAge(items, items') && !Harmless(d, caps, items', q)
  {
    hide MayStay, Fits, Agree, Favouring;
    if q.toDelete + 1 <= |items| && !AllFit(d, caps, items, q.tracked.Keys) {
      var i :| 0 <= i < |items| && items[i].name in q.tracked && !Fits(d, caps, items[i].res.spec);
      items' := Favouring(items, {items[i].name});
      FavouredMayStay(items, q.toDelete, {items[i].name});
      assert items'[i].name == items[i].name;
    } else {
      var i, j :| 0 <= i < j < |items| && items[i].name in q.tracked && items[j].name in q.tracked
        && !Agree(d, items[i].res.spec, items[j].res.spec);
      var stay := {items[i].name, items[j].name};
      items' := Favouring(items, stay);
      FavouredMayStay(items, q.toDelete, stay);
      assert items'[i].name == items[i].name && items'[j].name == items[j].name;
    }
  }

  /**
   Placement policy for a caller who does not know states and ages: every pass over these resources ends as
   asked for exactly when the resources the match pass did not forget are uniform.
   */
  lemma PolicyHoldsAtAnyAge(d: Details, items: seq<Item>, tracked: map<string, Tracked>, sv: Survey, spare: seq<string>)
    requires Tracks(items, tracked) && UnusedNames(spare, d.size, tracked.Keys)
    requires MatchFrom(d, sv.caps, Start(d, tracked), items).Matched?
    requires Place(d, sv, MatchFrom(d, sv.caps, Start(d, tracked), items).progress).Placed?
    ensures
      (forall items', victims ::
         SameButAge(items, items') && RightVictims(d, items', tracked, sv, victims)
           && Allocate(d, items', tracked, sv, victims, spare).Allocated? ==>
         AsAsked(d, sv.caps, items', Allocate(d, items', tracked, sv, victims, spare).tracked))
      <==> Uniform(d, sv.caps, items, MatchFrom(d, sv.caps, Start(d, tracked), items).progress)
  {
    var q := MatchFrom(d, sv.caps, Start(d, tracked), items).progress;
    hide MatchFrom, Place, Allocate, RightVictims, AsAsked, Uniform, Harmless, SameButAge, Tracks, UnusedNames;
    assert DistinctNames(items) by { TracksDistinct(items, tracked); }
    forall items', victims | SameButAge(items, items') && Uniform(d, sv.caps, items, q)
      && RightVictims(d, items', tracked, sv, victims) && Allocate(d, items', tracked, sv, victims, spare).Allocated?
      ensures AsAsked(d, sv.caps, items', Allocate(d, items', tracked, sv, victims, spare).tracked)
    {
      MatchIsAgeless(d, sv.caps, Start(d, tracked), items, items');
      AgelessTracks(items, items', tracked);
      UniformIsHarmless(d, sv.caps, items, items', q);
      PolicyHolds(d, items', tracked, sv, spare);
    }
    if !Uniform(d, sv.caps, items, q) {
      var items' := NotUniformIsHarmful(d, sv.caps, items, q);
      MatchIsAgeless(d, sv.caps, Start(d, tracked), items, items');
      AgelessTracks(items, items', tracked);
      PolicyHolds(d, items', tracked, sv, spare);
    }
  }

  lemma TracksDistinct(items: seq<Item>, tracked: map<string, Tracked>)
    requires Tracks(items, tracked)
    ensures DistinctNames(items)
  {
  }

  // Three instances.

  /** The first resource listed is the oldest, it alone is judged, and it is the one removed. */
  lemma OldestFitsAndGoes(d: Details, caps: Capacities, x: Item, y: Item)
    requires d.size == 1 && Judge(d, caps, Start(d, map[]), x.res.spec).Keep? && x.name != y.name
    requires Before(x.res, y.res)
    ensures var items, tracked := [x, y],
        map[x.name := NewEntry(x.res.spec.targetNode), y.name := NewEntry(y.res.spec.targetNode)];
      var left := map[y.name := NewEntry(y.res.spec.targetNode)];
      && KSmallest(items, 1, {x.name})
      && MatchFrom(d, caps, Start(d, tracked), items).Matched?
      && MatchFrom(d, caps, Start(d, tracked), items).progress.toDelete == 1
      && MatchFrom(d, caps, Start(d, tracked), items).progress.tracked - {x.name} == left
  {
    var items, tracked := [x, y],
        map[x.name := NewEntry(x.res.spec.targetNode), y.name := NewEntry(y.res.spec.targetNode)];
    assert items[0].name in Names(items);
    assert items[1..] == [y];
    var p := Start(d, tracked);
    assert Judge(d, caps, p, x.res.spec) == Judge(d, caps, Start(d, map[]), x.res.spec);
    MatchStaysFull(d, caps, Kept(d, p, x.res.spec), [y]);
  }

  /** Edited to one resource on node "a", the request is left with the one it has on node "b". */
  lemma OffTargetExample()
    ensures
      var d := Details("gpu", "m", 1, false, SameNode, "a", None);
      var items := [ExampleItem("x", "m", "a", 0), ExampleItem("y", "m", "b", 1)];
      var tracked := map["x" := NewEntry("a"), "y" := NewEntry("b")];
      var sv := Survey("r", ["a", "b"], Capacities(map[]), true, []);
      && RightVictims(d, items, tracked, sv, {"x"})
      && Allocate(d, items, tracked, sv, {"x"}, ["z"]) == Allocated(map["y" := NewEntry("b")])
  {
    var d := Details("gpu", "m", 1, false, SameNode, "a", None);
    var x, y := ExampleItem("x", "m", "a", 0), ExampleItem("y", "m", "b", 1);
    var tracked := map["x" := NewEntry("a"), "y" := NewEntry("b")];
    var sv := Survey("r", ["a", "b"], Capacities(map[]), true, []);
    assert "x" != "y" by { assert "x"[0] != "y"[0]; }
    OldestFitsAndGoes(d, sv.caps, x, y);
    hide MatchFrom, KSmallest;
    var q := MatchFrom(d, sv.caps, Start(d, tracked), [x, y]).progress;
    assert "y" in (q.tracked - {"x"});
    SurplusRemoves(d, [x, y], tracked, sv, {"x"}, ["z"]);
    MatchSurplus(d, sv.caps, Start(d, tracked), [x, y]);
  }

  /** A request for model "m" is left with a resource of another model. */
  lemma MisfitExample()
    ensures
      var d := Details("gpu", "m", 1, false, SameNode, "", None);
      var items := [ExampleItem("x", "m", "n", 0), ExampleItem("y", "other", "n", 1)];
      var tracked := map["x" := NewEntry("n"), "y" := NewEntry("n")];
      var sv := Survey("r", ["n"], Capacities(map[]), true, []);
      && RightVictims(d, items, tracked, sv, {"x"})
      && Allocate(d, items, tracked, sv, {"x"}, ["z"]) == Allocated(map["y" := NewEntry("n")])
  {
    var d := Details("gpu", "m", 1, false, SameNode, "", None);
    var x, y := ExampleItem("x", "m", "n", 0), ExampleItem("y", "other", "n", 1);
    var tracked := map["x" := NewEntry("n"), "y" := NewEntry("n")];
    var sv := Survey("r", ["n"], Capacities(map[]), true, []);
    assert "x" != "y" by { assert "x"[0] != "y"[0]; }
    OldestFitsAndGoes(d, sv.caps, x, y);
    hide MatchFrom, KSmallest;
    var q := MatchFrom(d, sv.caps, Start(d, tracked), [x, y]).progress;
    assert "y" in (q.tracked - {"x"});
    SurplusRemoves(d, [x, y], tracked, sv, {"x"}, ["z"]);
    MatchSurplus(d, sv.caps, Start(d, tracked), [x, y]);
  }

  /** Of three the first two are judged and kept; the second is the oldest and goes. */
  lemma SecondFitsAndGoes(d: Details, caps: Capacities, x: Item, y: Item, z: Item, tracked: map<string, Tracked>)
    requires d.size == 2 && Judge(d, caps, Start(d, tracked), x.res.spec).Keep?
    requires Judge(d, caps, Kept(d, Start(d, tracked), x.res.spec), y.res.spec).Keep?
    requires x.name != y.name && y.name != z.name && Before(y.res, x.res) && Before(y.res, z.res)
    ensures var items := [x, y, z];
      && KSmallest(items, 1, {y.name})
      && MatchFrom(d, caps, Start(d, tracked), items)
           == Matched(Kept(d, Kept(d, Start(d, tracked), x.res.spec), y.res.spec).(toDelete := 1))
  {
    var items := [x, y, z];
    assert items[1].name in Names(items);
    assert items[1..] == [y, z] && [y, z][1..] == [z];
    MatchStaysFull(d, caps, Kept(d, Kept(d, Start(d, tracked), x.res.spec), y.res.spec), [z]);
  }

  lemma LeavesTwo(x: string, y: string, z: string, a: Tracked, b: Tracked)
    requires x != y && y != z
    ensures map[x := a, y := b, z := a] - {y} == map[x := a, z := a] && x in map[x := a, z := a]
  {
  }

  lemma NothingToPlace(d: Details, sv: Survey, p: Progress)
    requires d.policy == DifferentNode && d.otherSpec.None? && p.toAllocate == 0 && sv.nodes == ["a", "b"]
    requires "a" in p.used
    ensures Place(d, sv, p) == Placed([])
  {
    assert FirstSufficient(d, sv.caps, sv.nodes) == Some("a");
    ApartIdleIff(d, sv.caps, p.used, sv.nodes);
    PlaceLength(d, sv, p);
  }

  /** A differentnode request is left with two resources on one node: the one it removes sat elsewhere. */
  lemma SharedNodeExample()
    ensures
      var d := Details("gpu", "m", 2, false, DifferentNode, "", None);
      var items := [ExampleItem("x", "m", "a", 1), ExampleItem("y", "m", "b", 0), ExampleItem("z", "m", "a", 2)];
      var tracked := map["x" := NewEntry("a"), "y" := NewEntry("b"), "z" := NewEntry("a")];
      var sv := Survey("r", ["a", "b"], Capacities(map[]), true, []);
      && RightVictims(d, items, tracked, sv, {"y"})
      && Allocate(d, items, tracked, sv, {"y"}, ["u", "v"])
          == Allocated(map["x" := NewEntry("a"), "z" := NewEntry("a")])
  {
    var d := Details("gpu", "m", 2, false, DifferentNode, "", None);
    var x, y, z := ExampleItem("x", "m", "a", 1), ExampleItem("y", "m", "b", 0), ExampleItem("z", "m", "a", 2);
    var tracked := map["x" := NewEntry("a"), "y" := NewEntry("b"), "z" := NewEntry("a")];
    var sv := Survey("r", ["a", "b"], Capacities(map[]), true, []);
    assert "x"[0] != "y"[0] && "z"[0] != "y"[0] && "a"[0] != "b"[0];
    SecondFitsAndGoes(d, sv.caps, x, y, z, tracked);
    var q := MatchFrom(d, sv.caps, Start(d, tracked), [x, y, z]).progress;
    assert q.toAllocate == 0 && q.toDelete == 1 && q.tracked == tracked && "a" in q.used;
    hide MatchFrom, KSmallest, Judge, Kept, Before, ExampleItem, Place;
    LeavesTwo("x", "y", "z", NewEntry("a"), NewEntry("b"));
    NothingToPlace(d, sv, q);
    assert "x" in (tracked - {"y"});
    SurplusRemoves(d, [x, y, z], tracked, sv, {"y"}, ["u", "v"]);
  }
}
