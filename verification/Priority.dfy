/**
 Removal of surplus resources by deletion priority: five buckets, each sorted by the time the
 resource was last used (or created), emptied from the front until the surplus is gone.
 */
module Priority {
  import opened Api

  const BUCKETS := 5

  /** The order the buckets give: lower is removed earlier. A resource in the empty state lands last. */
  function Bucket(r: Resource): (b: nat)
    ensures b < BUCKETS
  {
    if r.status.state == Named("None") || (r.status.state == Attaching && r.status.deviceID == "") then 0
    else if r.status.state == Online && r.deleteMark then 1
    else if r.status.state == Attaching then 2
    else if r.status.state == Online then 3
    else 4
  }

  function SortTime(r: Resource): int {
    match r.lastUsed
    case Some(t) => t
    case None => r.created
  }

  /** `a` must go strictly before `b`. */
  predicate Before(a: Resource, b: Resource) {
    Bucket(a) < Bucket(b) || (Bucket(a) == Bucket(b) && SortTime(a) < SortTime(b))
  }

  /** `victims` are k of the listed names, and nobody left behind had to go strictly before one of them. */
  ghost predicate KSmallest(items: seq<Item>, k: nat, victims: set<string>) {
    && victims <= Names(items)
    && |victims| == k
    && forall i, j ::
      0 <= i < |items| && 0 <= j < |items| && items[i].name in victims && items[j].name !in victims ==>
        !Before(items[j].res, items[i].res)
  }

  // The same order told by the states themselves.

  /** Not started, or attaching without a device. */
  predicate Unstarted(r: Resource) {
    r.status.state == Named("None") || (r.status.state == Attaching && r.status.deviceID == "")
  }

  /** Online, and its device is marked to be deleted first. */
  predicate MarkedOnline(r: Resource) {
    r.status.state == Online && r.deleteMark
  }

  predicate AttachingDevice(r: Resource) {
    r.status.state == Attaching && r.status.deviceID != ""
  }

  predicate PlainOnline(r: Resource) {
    r.status.state == Online && !r.deleteMark
  }

  /** A resource of another state. */
  predicate Elsewise(r: Resource) {
    !Unstarted(r) && r.status.state != Online && r.status.state != Attaching
  }

  /** `gone` may be removed while `left` is not: no kind that goes earlier, and within a kind no older one, is left. */
  predicate MayGoBefore(gone: Resource, left: Resource) {
    && (Unstarted(left) ==> Unstarted(gone))
    && (MarkedOnline(left) ==> Unstarted(gone) || MarkedOnline(gone))
    && (AttachingDevice(left) ==> Unstarted(gone) || MarkedOnline(gone) || AttachingDevice(gone))
    && (PlainOnline(left) ==> !Elsewise(gone))
    && ((Unstarted(left) && Unstarted(gone)) || (MarkedOnline(left) && MarkedOnline(gone))
        || (AttachingDevice(left) && AttachingDevice(gone)) || (PlainOnline(left) && PlainOnline(gone))
        || (Elsewise(left) && Elsewise(gone))
        ==> gone.lastUsed.GetOr(gone.created) <= left.lastUsed.GetOr(left.created))
  }

  /** The order of the buckets is that one. */
  lemma BeforeMeans(a: Resource, b: Resource)
    ensures !Before(b, a) <==> MayGoBefore(a, b)
  {
  }

  /** The victims of a removal: as many listed names as are surplus, each of which may go before all that are left. */
  lemma VictimsMean(items: seq<Item>, k: nat, victims: set<string>)
    ensures KSmallest(items, k, victims) <==>
      && victims <= Names(items) && |victims| == k
      && forall i, j ::
        0 <= i < |items| && 0 <= j < |items| && items[i].name in victims && items[j].name !in victims ==>
          MayGoBefore(items[i].res, items[j].res)
  {
    forall i, j | 0 <= i < |items| && 0 <= j < |items|
      ensures !Before(items[j].res, items[i].res) <==> MayGoBefore(items[i].res, items[j].res)
    {
      BeforeMeans(items[i].res, items[j].res);
    }
    hide Before, MayGoBefore;
  }

  ghost predicate SortedByTime(s: seq<Item>) {
    forall i, j :: 0 <= i < j < |s| ==> SortTime(s[i].res) <= SortTime(s[j].res)
  }

  lemma InsertedMembers(s: seq<Item>, at: nat, x: Item)
    requires at <= |s|
    ensures forall y :: y in s[..at] + [x] + s[at..] <==> y in s || y == x
  {
    assert s == s[..at] + s[at..];
  }

  lemma InsertedDistinct(s: seq<Item>, at: nat, x: Item)
    requires at <= |s| && DistinctNames(s) && forall y :: y in s ==> y.name != x.name
    ensures DistinctNames(s[..at] + [x] + s[at..])
  {
    var r := s[..at] + [x] + s[at..];
    assert forall i :: 0 <= i < |r| ==> r[i] == if i < at then s[i] else if i == at then x else s[i - 1];
  }

  lemma InsertedSorted(s: seq<Item>, at: nat, x: Item)
    requires at <= |s| && SortedByTime(s)
    requires at > 0 ==> SortTime(s[at - 1].res) <= SortTime(x.res)
    requires at < |s| ==> SortTime(x.res) <= SortTime(s[at].res)
    ensures SortedByTime(s[..at] + [x] + s[at..])
  {
    var r := s[..at] + [x] + s[at..];
    assert forall i :: 0 <= i < |r| ==> r[i] == if i < at then s[i] else if i == at then x else s[i - 1];
  }

  /** Puts `x` behind everything not later than it. */
  method InsertByTime(s: seq<Item>, x: Item) returns (r: seq<Item>)
    requires SortedByTime(s) && DistinctNames(s) && forall y :: y in s ==> y.name != x.name
    ensures SortedByTime(r) && DistinctNames(r)
    ensures forall y :: y in r <==> y in s || y == x
  {
    var at := |s|;
    while at > 0 && SortTime(x.res) < SortTime(s[at - 1].res)
      invariant 0 <= at <= |s|
      invariant at < |s| ==> SortTime(x.res) < SortTime(s[at].res)
    {
      at := at - 1;
    }
    InsertedMembers(s, at, x);
    InsertedDistinct(s, at, x);
    InsertedSorted(s, at, x);
    r := s[..at] + [x] + s[at..];
  }

  /** Stands for the library sort: callers only learn that the result is a sorted rearrangement. */
  method SortSlice(s: seq<Item>) returns (r: seq<Item>)
    requires DistinctNames(s)
    ensures SortedByTime(r) && DistinctNames(r)
    ensures forall y :: y in r <==> y in s
  {
    r := [];
    for n := 0 to |s|
      invariant SortedByTime(r) && DistinctNames(r)
      invariant forall y :: y in r <==> y in s[..n]
    {
      assert s[..n + 1] == s[..n] + [s[n]];
      r := InsertByTime(r, s[n]);
    }
    assert s[..|s|] == s;
  }

  /** The five buckets hold the listed resources, each under its own priority and once. */
  ghost predicate Sorted5(buckets: seq<seq<Item>>, items: seq<Item>) {
    && |buckets| == BUCKETS
    && (forall b :: 0 <= b < BUCKETS ==> DistinctNames(buckets[b]))
    && (forall b, x :: 0 <= b < BUCKETS ==> (x in buckets[b] <==> x in items && Bucket(x.res) == b))
  }

  method Distribute(items: seq<Item>) returns (buckets: seq<seq<Item>>)
    requires DistinctNames(items)
    ensures Sorted5(buckets, items)
    ensures forall b :: 0 <= b < BUCKETS ==> SortedByTime(buckets[b])
  {
    buckets := [[], [], [], [], []];
    for n := 0 to |items|
      invariant Sorted5(buckets, items[..n])
    {
      var b := Bucket(items[n].res);
      assert items[..n + 1] == items[..n] + [items[n]];
      assert forall i :: 0 <= i < |buckets[b]| ==> buckets[b][i] in items[..n];
      buckets := buckets[b := buckets[b] + [items[n]]];
    }
    assert items[..|items|] == items;
    for b := 0 to BUCKETS
      invariant Sorted5(buckets, items)
      invariant forall c :: 0 <= c < b ==> SortedByTime(buckets[c])
    {
      var sorted := SortSlice(buckets[b]);
      buckets := buckets[b := sorted];
    }
  }

  /** The names ahead of position (i, j) in bucket order. */
  ghost predicate Ahead(buckets: seq<seq<Item>>, i: nat, j: nat, victims: set<string>)
    requires |buckets| == BUCKETS
  {
    forall b, c :: 0 <= b < BUCKETS && 0 <= c < |buckets[b]| ==>
      (buckets[b][c].name in victims <==> b < i || (b == i && c < j))
  }

  lemma Position(buckets: seq<seq<Item>>, items: seq<Item>, x: nat) returns (b: nat, c: nat)
    requires Sorted5(buckets, items) && x < |items|
    ensures b < BUCKETS && c < |buckets[b]| && buckets[b][c] == items[x]
  {
    b := Bucket(items[x].res);
    assert items[x] in buckets[b];
    c :| 0 <= c < |buckets[b]| && buckets[b][c] == items[x];
  }

  /** What lies ahead of a position in sorted buckets is a set of smallest ones. */
  lemma AheadIsSmallest(buckets: seq<seq<Item>>, items: seq<Item>, i: nat, j: nat, victims: set<string>)
    requires DistinctNames(items) && Sorted5(buckets, items)
    requires forall b :: 0 <= b < BUCKETS ==> SortedByTime(buckets[b])
    requires victims <= Names(items) && Ahead(buckets, i, j, victims)
    ensures KSmallest(items, |victims|, victims)
  {
    forall x, y | 0 <= x < |items| && 0 <= y < |items| && items[x].name in victims && items[y].name !in victims
      ensures !Before(items[y].res, items[x].res)
    {
      var b, c := Position(buckets, items, x);
      var b', c' := Position(buckets, items, y);
    }
  }

  lemma EverythingAhead(buckets: seq<seq<Item>>, items: seq<Item>, victims: set<string>)
    requires Sorted5(buckets, items) && DistinctNames(items)
    requires victims <= Names(items) && Ahead(buckets, BUCKETS, 0, victims)
    ensures |victims| == |items|
  {
    forall x | 0 <= x < |items| ensures items[x].name in victims {
      var b, c := Position(buckets, items, x);
    }
    assert victims == Names(items);
    NamesCount(items);
  }

  /** The next name in bucket order is a listed one that is not ahead, and taking it moves the position. */
  lemma TakeNext(buckets: seq<seq<Item>>, items: seq<Item>, i: nat, j: nat, victims: set<string>)
    requires DistinctNames(items) && Sorted5(buckets, items)
    requires i < BUCKETS && j < |buckets[i]| && Ahead(buckets, i, j, victims)
    ensures buckets[i][j].name in Names(items) - victims
    ensures Ahead(buckets, i, j + 1, victims + {buckets[i][j].name})
  {
    var x := buckets[i][j];
    assert x in items;
    forall b, c | 0 <= b < BUCKETS && 0 <= c < |buckets[b]| && buckets[b][c].name == x.name
      ensures b == i && c == j
    {
      assert buckets[b][c] in items;
      assert buckets[b][c] == x;
    }
  }

  /** Empties one bucket from the front, until it or the surplus is used up. */
  method TakeFromBucket(items: seq<Item>, buckets: seq<seq<Item>>, i: nat, surplus: nat,
                        tracked: map<string, Tracked>, taken: set<string>)
    returns (left: map<string, Tracked>, victims: set<string>, toDelete: nat)
    requires DistinctNames(items) && Sorted5(buckets, items) && forall b :: 0 <= b < BUCKETS ==>
      SortedByTime(buckets[b])
    requires i < BUCKETS && surplus > 0
    requires taken <= Names(items) && Ahead(buckets, i, 0, taken)
    ensures taken <= victims <= Names(items) && |taken| + surplus == |victims| + toDelete
    ensures left == tracked - (victims - taken)
    ensures toDelete > 0 ==> Ahead(buckets, i + 1, 0, victims)
    ensures toDelete == 0 ==> KSmallest(items, |victims|, victims)
  {
    hide KSmallest, SortedByTime, DistinctNames, Names;
    left, victims, toDelete := tracked, taken, surplus;
    var j := 0;
    while j < |buckets[i]|
      invariant 0 <= j <= |buckets[i]|
      invariant 0 < toDelete && |taken| + surplus == |victims| + toDelete
      invariant taken <= victims <= Names(items) && Ahead(buckets, i, j, victims)
      invariant left == tracked - (victims - taken)
    {
      TakeNext(buckets, items, i, j, victims);
      victims := victims + {buckets[i][j].name};
      left := left - {buckets[i][j].name};
      toDelete := toDelete - 1;
      j := j + 1;
      if toDelete == 0 {
        AheadIsSmallest(buckets, items, i, j, victims);
        return;
      }
    }
  }

  /**
   The removal loop. Its bucket index has no bound of its own; the loop leaves inside the fifth bucket
   because the surplus is at most what is listed.
   */
  method RemoveByPriority(items: seq<Item>, surplus: nat, tracked: map<string, Tracked>)
    returns (left: map<string, Tracked>, victims: set<string>)
    requires DistinctNames(items)
    requires 0 < surplus <= |items|
    ensures KSmallest(items, surplus, victims)
    ensures forall i, j ::
      0 <= i < |items| && 0 <= j < |items| && items[i].name in victims && items[j].name !in victims ==>
        MayGoBefore(items[i].res, items[j].res)
    ensures left == tracked - victims
  {
    var buckets := Distribute(items);
    left, victims := tracked, {};
    var toDelete := surplus;
    var i := 0;
    while true
      invariant 0 <= i <= BUCKETS
      invariant 0 < toDelete && toDelete + |victims| == surplus
      invariant victims <= Names(items) && Ahead(buckets, i, 0, victims)
      invariant left == tracked - victims
      decreases BUCKETS - i
    {
      if i == BUCKETS {
        EverythingAhead(buckets, items, victims);
        assert false;
      }
      left, victims, toDelete := TakeFromBucket(items, buckets, i, toDelete, left, victims);
      if toDelete == 0 {
        VictimsMean(items, surplus, victims);
        return;
      }
      i := i + 1;
    }
  }
}
