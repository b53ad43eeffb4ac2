/**
 The admission webhook: one verdict against the listed requests, and what admission keeps over every
 sequence of creates, updates, deletes and status writes. Status writes are not validated.
 */
module Admission {
  import opened Api

  /**
   A listed request; `first` is the node of whichever of its tracked resources the map iteration yields first, "" for
   none.
   */
  datatype Listed = Listed(name: string, spec: Details, first: string)

  datatype Listing = ListError(msg: string) | Items(items: seq<Listed>)

  function NodeOf(o: Listed): string {
    if o.spec.targetNode == "" then o.first else o.spec.targetNode
  }

  predicate SameModel(r: Details, o: Details) {
    o.kind == r.kind && o.model == r.model
  }

  predicate Clashes(name: string, r: Details, o: Listed) {
    && o.name != name && SameModel(r, o.spec)
    && match r.policy
       case DifferentNode => o.spec.policy == DifferentNode
       case SameNode => NodeOf(o) == r.targetNode
  }

  const TARGET_FORBIDDEN := "TargetNode cannot be specified when AllocationPolicy is set to 'differentnode'"

  function ClashError(r: Details, o: Listed): string {
    "composabilityRequest resource " + o.name + " with type " + r.kind + " and model " + r.model + " already exists"
  }

  function FirstClash(name: string, r: Details, items: seq<Listed>): (e: Option<string>)
    ensures e.None? <==> forall o :: o in items ==> !Clashes(name, r, o)
    decreases |items|
  {
    if items == [] then None
    else if Clashes(name, r, items[0]) then Some(ClashError(r, items[0]))
    else
      assert items == [items[0]] + items[1..];
      FirstClash(name, r, items[1..])
  }

  /** The listed request stands in the way, told from its fields. */
  predicate InTheWay(name: string, r: Details, o: Listed) {
    && o.name != name && o.spec.kind == r.kind && o.spec.model == r.model
    && (r.policy == DifferentNode ==> o.spec.policy == DifferentNode)
    && (r.policy == SameNode && o.spec.targetNode != "" ==> o.spec.targetNode == r.targetNode)
    && (r.policy == SameNode && o.spec.targetNode == "" ==> o.first == r.targetNode)
  }

  ghost predicate FirstOne(name: string, r: Details, items: seq<Listed>, i: int) {
    0 <= i < |items| && InTheWay(name, r, items[i]) && forall j :: 0 <= j < i ==> !InTheWay(name, r, items[j])
  }

  lemma {:induction false} FirstInTheWay(name: string, r: Details, items: seq<Listed>, i: nat)
    requires FirstOne(name, r, items, i)
    ensures FirstClash(name, r, items)
        == Some("composabilityRequest resource " + items[i].name + " with type " + r.kind + " and model " + r.model
                + " already exists")
    decreases i
  {
    if i > 0 {
      assert !InTheWay(name, r, items[0]);
      assert items[1..][i - 1] == items[i];
      assert forall j :: 0 <= j < i - 1 ==> items[1..][j] == items[j + 1];
      FirstInTheWay(name, r, items[1..], i - 1);
    }
  }

  /**
   The verdict: a failed list and a differentnode request with a target node are refused; otherwise the first listed
   request in the way is named, and with none the request is admitted.
   */
  lemma VerdictMeans(name: string, r: Details, listing: Listing)
    ensures listing.ListError? ==> Verdict(name, r, listing) == Some(listing.msg)
    ensures listing.Items? && r.policy == DifferentNode && r.targetNode != "" ==>
      Verdict(name, r, listing) == Some(TARGET_FORBIDDEN)
    ensures listing.Items? && (r.policy == SameNode || r.targetNode == "") ==>
      && (Verdict(name, r, listing).None? <==> forall o :: o in listing.items ==> !InTheWay(name, r, o))
      && forall i :: FirstOne(name, r, listing.items, i) ==>
        Verdict(name, r, listing)
          == Some("composabilityRequest resource " + listing.items[i].name + " with type " + r.kind + " and model "
                  + r.model + " already exists")
  {
    hide FirstClash;
    if listing.Items? {
      forall i | FirstOne(name, r, listing.items, i)
        ensures FirstClash(name, r, listing.items)
             == Some("composabilityRequest resource " + listing.items[i].name + " with type " + r.kind + " and model "
                     + r.model + " already exists")
      {
        FirstInTheWay(name, r, listing.items, i);
      }
      assert forall o :: InTheWay(name, r, o) <==> Clashes(name, r, o);
    }
  }

  /** One step of the scan, for a loop that looks at the items by index. */
  lemma FirstClashFrom(name: string, r: Details, items: seq<Listed>, i: nat)
    requires i <= |items|
    ensures FirstClash(name, r, items[i..]) ==
      if i == |items| then None else if Clashes(name, r, items[i]) then Some(ClashError(r, items[i]))
        else FirstClash(name, r, items[i + 1..])
  {
    if i < |items| {
      assert items[i..][0] == items[i] && items[i..][1..] == items[i + 1..];
    }
  }

  function Verdict(name: string, r: Details, listing: Listing): Option<string> {
    if listing.ListError? then Some(listing.msg)
    else if r.policy == DifferentNode && r.targetNode != "" then Some(TARGET_FORBIDDEN)
    else FirstClash(name, r, listing.items)
  }

  method ValidateRequest(name: string, r: Details, listing: Listing) returns (err: Option<string>)
    ensures err == Verdict(name, r, listing)
  {
    if listing.ListError? {
      return Some(listing.msg);
    }
    if r.policy == DifferentNode && r.targetNode != "" {
      return Some(TARGET_FORBIDDEN);
    }
    var items := listing.items;
    hide FirstClash, ClashError;
    assert items[0..] == items;
    if r.policy == DifferentNode {
      var i := 0;
      while i < |items|
        invariant i <= |items|
        invariant FirstClash(name, r, items) == FirstClash(name, r, items[i..])
      {
        var o := items[i];
        FirstClashFrom(name, r, items, i);
        if o.name != name && o.spec.policy == DifferentNode && o.spec.kind == r.kind && o.spec.model == r.model {
          return Some(ClashError(r, o));
        }
        i := i + 1;
      }
    } else {
      var i := 0;
      while i < |items|
        invariant i <= |items|
        invariant FirstClash(name, r, items) == FirstClash(name, r, items[i..])
      {
        var o := items[i];
        FirstClashFrom(name, r, items, i);
        if o.name != name {
          var targetNode;
          if o.spec.targetNode == "" {
            targetNode := o.first;
          } else {
            targetNode := o.spec.targetNode;
          }
          if targetNode == r.targetNode && o.spec.kind == r.kind && o.spec.model == r.model {
            return Some(ClashError(r, o));
          }
        }
        i := i + 1;
      }
    }
    FirstClashFrom(name, r, items, |items|);
    err := None;
  }

  // Runs.

  /** A stored request as far as the webhook reads it: its spec and the node of each tracked resource. */
  datatype Stored = Stored(spec: Details, nodes: map<string, string>)

  type Store = map<string, Stored>

  /** Which node each request's map iteration yields first. */
  type Picks = map<string, string>

  ghost predicate LegalPick(o: Stored, node: string) {
    if o.nodes == map[] then node == "" else node in o.nodes.Values
  }

  ghost predicate LegalPicks(store: Store, picks: Picks) {
    forall n :: n in store ==> n in picks && LegalPick(store[n], picks[n])
  }

  /** The list shows every stored request, in some order. */
  ghost predicate Shows(items: seq<Listed>, store: Store, picks: Picks) {
    && LegalPicks(store, picks)
    && (forall o :: o in items ==> o.name in store && o == Listed(o.name, store[o.name].spec, picks[o.name]))
    && (forall n :: n in store ==> Listed(n, store[n].spec, picks[n]) in items)
  }

  datatype Event =
    | Put(name: string, spec: Details, listing: Listing, picks: Picks)
    | Delete(name: string)
    | WriteStatus(name: string, nodes: map<string, string>)

  /** Creates and updates pass the webhook on the current store; anything may be deleted, any status written. */
  ghost predicate Enabled(store: Store, e: Event) {
    match e
    case Put(name, spec, listing, picks) =>
      Verdict(name, spec, listing).None? && Shows(listing.items, store, picks)
    case Delete(name) => name in store
    case WriteStatus(name, _) => name in store
  }

  function Next(store: Store, e: Event): Store
    requires Enabled(store, e)
  {
    match e
    case Put(name, spec, _, _) => store[name := Stored(spec, if name in store then store[name].nodes else map[])]
    case Delete(name) => store - {name}
    case WriteStatus(name, nodes) => store[name := store[name].(nodes := nodes)]
  }

  ghost predicate Legal(store: Store, es: seq<Event>)
    decreases |es|
  {
    es == [] || (Enabled(store, es[0]) && Legal(Next(store, es[0]), es[1..]))
  }

  ghost function Run(store: Store, es: seq<Event>): Store
    requires Legal(store, es)
    decreases |es|
  {
    if es == [] then store else Run(Next(store, es[0]), es[1..])
  }

  /** Two requests that must not both be stored. */
  predicate Incompatible(a: Details, b: Details) {
    && SameModel(a, b) && a.policy == b.policy
    && (a.policy == DifferentNode || (a.targetNode == b.targetNode && a.targetNode != ""))
  }

  ghost predicate Admitted(store: Store) {
    && (forall n :: n in store && store[n].spec.policy == DifferentNode ==> store[n].spec.targetNode == "")
    && (forall n, n' :: n in store && n' in store && n != n' ==> !Incompatible(store[n].spec, store[n'].spec))
  }

  lemma PutKeepsAdmitted(store: Store, e: Event)
    requires Admitted(store) && Enabled(store, e) && e.Put?
    ensures Admitted(Next(store, e))
  {
    var name := e.name;
    forall n | n in store && n != name ensures !Incompatible(e.spec, store[n].spec) {
      var o := Listed(n, store[n].spec, e.picks[n]);
      assert o in e.listing.items;
      assert !Clashes(name, e.spec, o);
    }
  }

  lemma {:induction false} RunKeepsAdmitted(store: Store, es: seq<Event>)
    requires Admitted(store) && Legal(store, es)
    ensures Admitted(Run(store, es))
    decreases |es|
  {
    if es != [] {
      if es[0].Put? {
        PutKeepsAdmitted(store, es[0]);
      }
      RunKeepsAdmitted(Next(store, es[0]), es[1..]);
    }
  }

  /**
   What admission keeps over every run: no differentnode request has a target node, there is at most one
   differentnode request per type and model, and two samenode requests with the same explicit target
   node differ in type or model.
   */
  lemma AdmissionInvariant(es: seq<Event>, n: string, n': string)
    requires Legal(map[], es) && n in Run(map[], es) && n' in Run(map[], es)
    ensures var a, b := Run(map[], es)[n].spec, Run(map[], es)[n'].spec;
      && (a.policy == DifferentNode ==> a.targetNode == "")
      && (n != n' && a.policy == b.policy == DifferentNode ==> a.kind != b.kind || a.model != b.model)
      && (n != n' && a.policy == b.policy == SameNode && a.targetNode == b.targetNode != "" ==>
            a.kind != b.kind || a.model != b.model)
  {
    RunKeepsAdmitted(map[], es);
  }

  // What the verdict depends on besides the stored specs: the order in which Go walks the status map.

  ghost predicate Accepts(name: string, r: Details, store: Store, picks: Picks)
    requires LegalPicks(store, picks)
  {
    && !(r.policy == DifferentNode && r.targetNode != "")
    && forall n :: n in store ==> !Clashes(name, r, Listed(n, store[n].spec, picks[n]))
  }

  lemma VerdictIsAccepts(name: string, r: Details, items: seq<Listed>, store: Store, picks: Picks)
    requires Shows(items, store, picks)
    ensures Verdict(name, r, Items(items)).None? <==> Accepts(name, r, store, picks)
  {
    forall n | n in store ensures Listed(n, store[n].spec, picks[n]) in items {}
  }

  /** The stored request clashes for some order. */
  predicate MayClash(name: string, r: Details, n: string, o: Stored) {
    && n != name && o.spec.kind == r.kind && o.spec.model == r.model
    && match r.policy
       case DifferentNode => o.spec.policy == DifferentNode
       case SameNode =>
         if o.spec.targetNode != "" then o.spec.targetNode == r.targetNode
         else if o.nodes == map[] then r.targetNode == ""
         else r.targetNode in o.nodes.Values
  }

  /** It clashes for every order: all its tracked resources are on one node, or none are needed to tell. */
  predicate MustClash(name: string, r: Details, n: string, o: Stored) {
    && MayClash(name, r, n, o)
    && (r.policy == SameNode && o.spec.targetNode == "" && o.nodes != map[] ==> o.nodes.Values == {r.targetNode})
  }

  /** A node to show first for a request: one that clashes when there is one, or one that does not. */
  lemma PickFor(name: string, r: Details, n: string, o: Stored, clash: bool) returns (node: string)
    ensures LegalPick(o, node)
    ensures clash ==> (Clashes(name, r, Listed(n, o.spec, node)) <==> MayClash(name, r, n, o))
    ensures !clash ==> (Clashes(name, r, Listed(n, o.spec, node)) <==> MustClash(name, r, n, o))
  {
    if o.nodes == map[] {
      node := "";
    } else {
      var k :| k in o.nodes;
      node := o.nodes[k];
      assert node in o.nodes.Values;
      if clash && r.targetNode in o.nodes.Values {
        node := r.targetNode;
      } else if !clash && exists other :: other in o.nodes.Values && other != r.targetNode {
        node :| node in o.nodes.Values && node != r.targetNode;
      } else if !clash {
        assert o.nodes.Values == {r.targetNode};
      }
    }
  }

  /** The picks that bring about as many clashes as possible, or as few. */
  lemma {:induction false} PicksFor(name: string, r: Details, store: Store, clash: bool) returns (picks: Picks)
    ensures LegalPicks(store, picks)
    ensures forall n :: n in store ==>
      (Clashes(name, r, Listed(n, store[n].spec, picks[n])) <==>
        if clash then MayClash(name, r, n, store[n]) else MustClash(name, r, n, store[n]))
    decreases |store|
  {
    picks := map[];
    if store != map[] {
      var n :| n in store;
      var rest := store - {n};
      assert |rest| < |store| by {
        assert rest.Keys == store.Keys - {n};
      }
      var others := PicksFor(name, r, rest, clash);
      var node := PickFor(name, r, n, store[n], clash);
      picks := others[n := node];
      forall m | m in store ensures m in picks && LegalPick(store[m], picks[m])
        && (Clashes(name, r, Listed(m, store[m].spec, picks[m])) <==>
              if clash then MayClash(name, r, m, store[m]) else MustClash(name, r, m, store[m]))
      {
        if m != n {
          assert m in rest && rest[m] == store[m] && picks[m] == others[m];
        }
      }
    }
  }

  lemma PickBounds(name: string, r: Details, n: string, o: Stored, node: string)
    requires LegalPick(o, node)
    ensures MustClash(name, r, n, o) ==> Clashes(name, r, Listed(n, o.spec, node))
    ensures Clashes(name, r, Listed(n, o.spec, node)) ==> MayClash(name, r, n, o)
  {
  }

  /** A list that shows the store, whatever is picked. */
  lemma {:induction false} ListingFor(store: Store, picks: Picks) returns (items: seq<Listed>)
    requires LegalPicks(store, picks)
    ensures Shows(items, store, picks)
    decreases |store|
  {
    items := [];
    if store != map[] {
      var n :| n in store;
      var rest := store - {n};
      assert |rest| < |store| by {
        assert rest.Keys == store.Keys - {n};
      }
      var others := ListingFor(rest, picks);
      items := [Listed(n, store[n].spec, picks[n])] + others;
      assert items[0] in items;
      forall m | m in store ensures Listed(m, store[m].spec, picks[m]) in items {
        if m != n { assert m in rest; }
      }
    }
  }

  /** What the webhook says of a list that shows the store, over all orders of the list and of the status maps. */
  lemma PicksDecide(name: string, r: Details, store: Store)
    requires !(r.policy == DifferentNode && r.targetNode != "")
    ensures (forall picks :: LegalPicks(store, picks) ==> Accepts(name, r, store, picks))
      <==> forall n :: n in store ==> !MayClash(name, r, n, store[n])
    ensures (forall picks :: LegalPicks(store, picks) ==> !Accepts(name, r, store, picks))
      <==> exists n :: n in store && MustClash(name, r, n, store[n])
  {
    var most := PicksFor(name, r, store, true);
    var least := PicksFor(name, r, store, false);
    forall picks, n | LegalPicks(store, picks) && n in store
      ensures MustClash(name, r, n, store[n]) ==> Clashes(name, r, Listed(n, store[n].spec, picks[n]))
      ensures Clashes(name, r, Listed(n, store[n].spec, picks[n])) ==> MayClash(name, r, n, store[n])
    {
      PickBounds(name, r, n, store[n], picks[n]);
    }
    assert Accepts(name, r, store, most) <==> forall n :: n in store ==> !MayClash(name, r, n, store[n]);
    assert Accepts(name, r, store, least) <==> forall n :: n in store ==> !MustClash(name, r, n, store[n]);
  }

  /**
   The webhook's verdict over all orders of the list and of the status maps: a request is admitted under
   every order exactly when it is well-formed and no stored request may clash, and refused under every order
   exactly when it is not or one must.
   */
  lemma VerdictUnderEveryOrder(name: string, r: Details, store: Store)
    ensures (forall items, picks :: Shows(items, store, picks) ==> Verdict(name, r, Items(items)).None?)
      <==>
        !(r.policy == DifferentNode && r.targetNode != "") && forall n :: n in store ==> !MayClash(name, r, n, store[n])
    ensures (forall items, picks :: Shows(items, store, picks) ==> Verdict(name, r, Items(items)).Some?)
      <==>
        (r.policy == DifferentNode && r.targetNode != "") || exists n :: n in store && MustClash(name, r, n, store[n])
  {
    forall items, picks | Shows(items, store, picks)
      ensures LegalPicks(store, picks) && (Verdict(name, r, Items(items)).None? <==> Accepts(name, r, store, picks))
    {
      VerdictIsAccepts(name, r, items, store, picks);
    }
    forall picks | LegalPicks(store, picks) ensures exists items :: Shows(items, store, picks) {
      var items := ListingFor(store, picks);
    }
    var any := PicksFor(name, r, store, true);
    if !(r.policy == DifferentNode && r.targetNode != "") {
      PicksDecide(name, r, store);
    }
    hide Shows, Verdict, MayClash, MustClash;
  }

  /** A per-cluster and a per-node request of one type and model are both admitted, in this order. */
  lemma MixedAdmitted() returns (es: seq<Event>)
    ensures Legal(map[], es)
    ensures var s := Run(map[], es);
      && "a" in s && "b" in s && SameModel(s["a"].spec, s["b"].spec)
      && s["a"].spec.targetNode != "" && s["b"].spec.targetNode == "" && s["b"].spec.policy == DifferentNode
  {
    var a := Details("gpu", "A100", 1, false, SameNode, "node", None);
    var b := a.(policy := DifferentNode, targetNode := "");
    var e1 := Put("a", a, Items([]), map[]);
    var s1: Store := map["a" := Stored(a, map[])];
    var listed := Listed("a", a, "");
    var e2 := Put("b", b, Items([listed]), map["a" := ""]);
    assert Next(map[], e1) == s1;
    assert listed in [listed];
    assert Enabled(s1, e2);
    es := [e1, e2];
    assert es[1..] == [e2] && [e2][1..] == [];
    assert Legal(s1, [e2]);
    assert Run(map[], es) == Run(s1, [e2]) == Run(Next(s1, e2), []);
  }
}
