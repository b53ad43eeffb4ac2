/**
 The upstream syncer: a map from device ids to the time each was first seen without a resource, and a
 detach resource created for a device once the grace period is over. Claims are about whole histories of
 passes, failed ones included, over any clock readings.
 */
module Syncer {
  import opened Api
  import Life = ResourceLifecycle

  /** Ten minutes, in seconds. */
  const GRACE := 10 * 60

  /** An entry of the fabric's list. */
  datatype DeviceInfo = DeviceInfo(nodeName: string, deviceType: string, model: string, deviceID: string,
                                   cdiDeviceID: string)

  /** The API server's answer to a create; an error may come although the object was made. */
  datatype CreateReply = Made | MadeWithError | NotMade

  /** One listed device with the clock reading and the create outcome of its loop turn. */
  datatype Sighting = Sighting(device: DeviceInfo, now: int, reply: CreateReply)

  /** One tick: a listing failed, or both lists were read. `recorded` holds every resource's status device id. */
  datatype Attempt = Failed | Synced(recorded: seq<string>, sightings: seq<Sighting>)

  type Tracking = map<string, int>

  function Owned(recorded: seq<string>): set<string> {
    set id | id in recorded && id != ""
  }

  /** The resource createDetachCR asks for. */
  function DetachOrigin(device: DeviceInfo): Life.Origin {
    Life.Origin(ResourceSpec(device.deviceType, device.model, device.nodeName, false), device.deviceID,
                device.cdiDeviceID)
  }

  predicate Overdue(m: Tracking, owned: set<string>, s: Sighting) {
    var id := s.device.deviceID;
    id !in owned && id in m && s.now - m[id] > GRACE
  }

  function Visit(m: Tracking, owned: set<string>, s: Sighting): Tracking {
    var id := s.device.deviceID;
    if id in owned then m - {id}
    else if id !in m then m[id := s.now]
    else if Overdue(m, owned, s) && s.reply.Made? then m - {id}
    else m
  }

  function VisitAll(m: Tracking, owned: set<string>, ss: seq<Sighting>): Tracking
    decreases |ss|
  {
    if ss == [] then m else Visit(VisitAll(m, owned, ss[..|ss| - 1]), owned, ss[|ss| - 1])
  }

  /** The detach resources asked for, in order. */
  function Asked(m: Tracking, owned: set<string>, ss: seq<Sighting>): seq<Life.Origin>
    decreases |ss|
  {
    if ss == [] then []
    else
      var last := ss[|ss| - 1];
      var before := Asked(m, owned, ss[..|ss| - 1]);
      if Overdue(VisitAll(m, owned, ss[..|ss| - 1]), owned, last) then before + [DetachOrigin(last.device)] else before
  }

  function Upstream(ss: seq<Sighting>): set<string> {
    set s | s in ss :: s.device.deviceID
  }

  function Sync(m: Tracking, a: Attempt): Tracking {
    match a
    case Failed => m
    case Synced(recorded, ss) =>
      var visited := VisitAll(m, Owned(recorded), ss);
      map id | id in visited && id in Upstream(ss) :: visited[id]
  }

  class UpstreamSyncer {
    var missing: Tracking

    constructor ()
      ensures missing == map[]
    {
      missing := map[];
    }

    method SyncUpstreamData(a: Attempt) returns (asked: seq<Life.Origin>)
      modifies this
      ensures missing == Sync(old(missing), a)
      ensures asked == if a.Failed? then [] else Asked(old(missing), Owned(a.recorded), a.sightings)
    {
      asked := [];
      if a.Failed? {
        return;
      }
      var owned := ExistingDeviceIDs(a.recorded);
      var ss := a.sightings;
      var i := 0;
      while i < |ss|
        invariant i <= |ss|
        invariant missing == VisitAll(old(missing), owned, ss[..i])
        invariant asked == Asked(old(missing), owned, ss[..i])
      {
        assert ss[..i + 1][..i] == ss[..i];
        var id := ss[i].device.deviceID;
        if id in owned {
          if id in missing {
            missing := missing - {id};
          }
        } else if id !in missing {
          missing := missing[id := ss[i].now];
        } else if ss[i].now - missing[id] > GRACE {
          asked := asked + [DetachOrigin(ss[i].device)];
          if ss[i].reply.Made? {
            missing := missing - {id};
          }
        }
        i := i + 1;
      }
      assert ss[..i] == ss;
      DropVanished(ss);
    }

    method ExistingDeviceIDs(recorded: seq<string>) returns (owned: set<string>)
      ensures owned == Owned(recorded)
    {
      owned := {};
      var i := 0;
      while i < |recorded|
        invariant i <= |recorded|
        invariant owned == Owned(recorded[..i])
      {
        if recorded[i] != "" {
          owned := owned + {recorded[i]};
        }
        i := i + 1;
      }
      assert recorded[..i] == recorded;
    }

    /** The closing loops: tracked devices the fabric no longer lists are forgotten. */
    method DropVanished(ss: seq<Sighting>)
      modifies this
      ensures missing == map id | id in old(missing) && id in Upstream(ss) :: old(missing)[id]
    {
      var upstream := {};
      var i := 0;
      while i < |ss|
        invariant i <= |ss|
        invariant upstream == Upstream(ss[..i])
      {
        upstream := upstream + {ss[i].device.deviceID};
        i := i + 1;
      }
      assert ss[..i] == ss;
      var left := missing.Keys;
      while left != {}
        invariant left <= missing.Keys <= old(missing).Keys
        invariant forall id :: id in missing ==> missing[id] == old(missing)[id] && (id in left || id in upstream)
        invariant forall id :: id in old(missing) && id in upstream ==> id in missing
        decreases |left|
      {
        var id :| id in left;
        if id !in upstream {
          missing := missing - {id};
        }
        left := left - {id};
      }
    }
  }

  // Histories.

  function After(h: seq<Attempt>): Tracking
    decreases |h|
  {
    if h == [] then map[] else Sync(After(h[..|h| - 1]), h[|h| - 1])
  }

  /** Position (k, i) of a history: turn i of the device loop of pass k. */
  ghost predicate At(h: seq<Attempt>, k: nat, i: nat) {
    k < |h| && h[k].Synced? && i < |h[k].sightings|
  }

  /** The map as turn i of pass k finds it. */
  ghost function Before(h: seq<Attempt>, k: nat, i: nat): Tracking
    requires At(h, k, i)
  {
    VisitAll(After(h[..k]), Owned(h[k].recorded), h[k].sightings[..i])
  }

  /** Turn i of pass k asks for a detach resource. */
  ghost predicate Creates(h: seq<Attempt>, k: nat, i: nat)
    requires At(h, k, i)
  {
    Overdue(Before(h, k, i), Owned(h[k].recorded), h[k].sightings[i])
  }

  /** The pass read both lists and found the device upstream and recorded by no resource. */
  ghost predicate SawMissing(a: Attempt, id: string) {
    a.Synced? && (exists s :: s in a.sightings && s.device.deviceID == id) && (id == "" || id !in a.recorded)
  }

  ghost predicate Earlier(k: nat, i: nat, k': nat, i': nat) {
    k < k' || (k == k' && i < i')
  }

  /** The clock never goes back. */
  ghost predicate ClockRises(h: seq<Attempt>) {
    forall k: nat, i: nat, k': nat, i': nat :: At(h, k, i) && At(h, k', i') && Earlier(k, i, k', i') ==>
      h[k].sightings[i].now <= h[k'].sightings[i'].now
  }

  /**
   Every resource asked for belongs to a turn that found its device tracked for more than ten minutes and recorded by
   nobody; it is for that device's node, type and model, and carries both its ids.
   */
  lemma {:induction false} AskedWhenOverdue(m: Tracking, owned: set<string>, ss: seq<Sighting>, o: Life.Origin)
    returns (i: nat)
    requires o in Asked(m, owned, ss)
    ensures i < |ss| && Overdue(VisitAll(m, owned, ss[..i]), owned, ss[i]) && o == DetachOrigin(ss[i].device)
    ensures var s := ss[i]; var found := VisitAll(m, owned, ss[..i]); var id := s.device.deviceID;
      && id in found && s.now - found[id] > 600 && id !in owned
      && o.detachID == id && o.detachCdiID == s.device.cdiDeviceID
      && o.spec == ResourceSpec(s.device.deviceType, s.device.model, s.device.nodeName, false)
    decreases |ss|
  {
    i := |ss| - 1;
    if o in Asked(m, owned, ss[..i]) {
      var n := i;
      i := AskedWhenOverdue(m, owned, ss[..n], o);
      assert ss[..n][..i] == ss[..i];
    }
  }

  /** And every such turn asks for one. */
  lemma {:induction false} OverdueIsAsked(m: Tracking, owned: set<string>, ss: seq<Sighting>, i: nat)
    requires i < |ss| && Overdue(VisitAll(m, owned, ss[..i]), owned, ss[i])
    ensures DetachOrigin(ss[i].device) in Asked(m, owned, ss)
    decreases |ss|
  {
    var n := |ss| - 1;
    if i < n {
      assert ss[..n][..i] == ss[..i];
      OverdueIsAsked(m, owned, ss[..n], i);
    }
  }

  /** A time in the map was there before or was read at a turn for that device. */
  lemma {:induction false} RecordedAt(m: Tracking, owned: set<string>, ss: seq<Sighting>, id: string) returns (i: nat)
    requires id in VisitAll(m, owned, ss)
    ensures i <= |ss|
    ensures i == |ss| ==> id in m && m[id] == VisitAll(m, owned, ss)[id]
    ensures i < |ss| ==> ss[i].device.deviceID == id && ss[i].now == VisitAll(m, owned, ss)[id] && id !in owned
    decreases |ss|
  {
    i := 0;
    if ss != [] {
      var n := |ss| - 1;
      var before := VisitAll(m, owned, ss[..n]);
      if id in before && before[id] == VisitAll(m, owned, ss)[id] {
        i := RecordedAt(m, owned, ss[..n], id);
        if i == n { i := |ss|; }
      } else {
        i := n;
      }
    }
  }

  /** An owned device that was listed is not tracked after the loop. */
  lemma {:induction false} OwnedDrops(m: Tracking, owned: set<string>, ss: seq<Sighting>, id: string)
    requires id in owned && id in Upstream(ss)
    ensures id !in VisitAll(m, owned, ss)
    decreases |ss|
  {
    var n := |ss| - 1;
    if ss[n].device.deviceID != id {
      var s :| s in ss && s.device.deviceID == id;
      assert ss == ss[..n] + [ss[n]];
      OwnedDrops(m, owned, ss[..n], id);
    }
  }

  /**
   What a tracked time means: it was read in pass k0, and every pass since that read its lists saw the device missing.
   */
  lemma {:induction false} TrackedSince(h: seq<Attempt>, id: string) returns (k0: nat, i0: nat)
    requires id in After(h)
    ensures At(h, k0, i0) && h[k0].sightings[i0].device.deviceID == id && h[k0].sightings[i0].now == After(h)[id]
    ensures forall k :: k0 <= k < |h| && h[k].Synced? ==> SawMissing(h[k], id)
    decreases |h|
  {
    var n := |h| - 1;
    var a := h[n];
    if a.Synced? {
      var owned := Owned(a.recorded);
      if id in owned { OwnedDrops(After(h[..n]), owned, a.sightings, id); }
      var i := RecordedAt(After(h[..n]), owned, a.sightings, id);
      if i < |a.sightings| {
        return n, i;
      }
    }
    k0, i0 := TrackedSince(h[..n], id);
  }

  /** The same at a turn in the middle of a pass. */
  lemma TrackedBefore(h: seq<Attempt>, k: nat, i: nat, id: string) returns (k0: nat, i0: nat)
    requires At(h, k, i) && id in Before(h, k, i)
    ensures At(h, k0, i0) && Earlier(k0, i0, k, i)
    ensures h[k0].sightings[i0].device.deviceID == id && h[k0].sightings[i0].now == Before(h, k, i)[id]
    ensures forall j :: k0 <= j < k && h[j].Synced? ==> SawMissing(h[j], id)
  {
    i0 := RecordedAt(After(h[..k]), Owned(h[k].recorded), h[k].sightings[..i], id);
    k0 := k;
    if i0 == i {
      k0, i0 := TrackedSince(h[..k], id);
    }
  }

  /**
   Grace-period safety: a detach resource is asked for at time t only if at some earlier turn t0 the
   device was sighted, more than ten minutes before, and every pass from that one to this one that read
   its lists saw the device upstream and owned by nobody.
   */
  lemma GracePeriod(h: seq<Attempt>, k: nat, i: nat) returns (k0: nat, i0: nat)
    requires At(h, k, i) && Creates(h, k, i)
    ensures At(h, k0, i0) && Earlier(k0, i0, k, i)
    ensures var s := h[k].sightings[i]; var s0 := h[k0].sightings[i0];
      s0.device.deviceID == s.device.deviceID && s.now - s0.now > 600
    ensures forall j :: k0 <= j <= k && h[j].Synced? ==> SawMissing(h[j], h[k].sightings[i].device.deviceID)
  {
    assert SawMissing(h[k], h[k].sightings[i].device.deviceID);
    k0, i0 := TrackedBefore(h, k, i, h[k].sightings[i].device.deviceID);
  }

  /** From turn lo to turn hi a device nobody owns stays tracked with a time no newer, or a turn finds it overdue. */
  lemma {:induction false} StaysTracked(m: Tracking, owned: set<string>, ss: seq<Sighting>, lo: nat, hi: nat,
                                        id: string, t: int)
    returns (i: nat)
    requires lo <= hi <= |ss| && id !in owned
    requires id in VisitAll(m, owned, ss[..lo]) && VisitAll(m, owned, ss[..lo])[id] <= t
    ensures lo <= i <= hi
    ensures i == hi ==> id in VisitAll(m, owned, ss[..hi]) && VisitAll(m, owned, ss[..hi])[id] <= t
    ensures i < hi ==> ss[i].device.deviceID == id && Overdue(VisitAll(m, owned, ss[..i]), owned, ss[i])
    decreases hi
  {
    i := lo;
    if lo < hi {
      i := StaysTracked(m, owned, ss, lo, hi - 1, id, t);
      assert ss[..hi][..hi - 1] == ss[..hi - 1];
      if i == hi - 1 && !(ss[i].device.deviceID == id && Overdue(VisitAll(m, owned, ss[..i]), owned, ss[i])) {
        i := hi;
      }
    }
  }

  /** The map as turn i of a pass leaves it, when that turn does not ask for a resource. */
  lemma TrackedAfterTurn(h: seq<Attempt>, k: nat, i: nat)
    requires At(h, k, i) && ClockRises(h) && !Creates(h, k, i)
    requires h[k].sightings[i].device.deviceID !in Owned(h[k].recorded)
    ensures var s := h[k].sightings[i];
      var m := VisitAll(After(h[..k]), Owned(h[k].recorded), h[k].sightings[..i + 1]);
      s.device.deviceID in m && m[s.device.deviceID] <= s.now
  {
    var ss := h[k].sightings;
    var id := ss[i].device.deviceID;
    assert ss[..i + 1][..i] == ss[..i];
    if id in Before(h, k, i) {
      var k0, i0 := TrackedBefore(h, k, i, id);
    }
  }

  /**
   At the end of pass n - 1: the device sighted at (k0, i0) has led to a creation, or is tracked at least that long.
   */
  lemma {:induction false} CreatedOrTracked(h: seq<Attempt>, k0: nat, i0: nat, n: nat)
    returns (found: bool, k': nat, i': nat)
    requires At(h, k0, i0) && ClockRises(h) && k0 < n <= |h|
    requires forall j :: k0 <= j < n && h[j].Synced? ==> SawMissing(h[j], h[k0].sightings[i0].device.deviceID)
    ensures var s := h[k0].sightings[i0]; var id := s.device.deviceID;
      && (found ==> At(h, k', i') && k0 <= k' < n && h[k'].sightings[i'].device.deviceID == id && Creates(h, k', i'))
      && (!found ==> id in After(h[..n]) && After(h[..n])[id] <= s.now)
    decreases n
  {
    var s := h[k0].sightings[i0];
    var id := s.device.deviceID;
    var a := h[n - 1];
    assert h[..n][..n - 1] == h[..n - 1];
    found, k', i' := false, n - 1, 0;
    var lo := 0;
    if k0 < n - 1 {
      found, k', i' := CreatedOrTracked(h, k0, i0, n - 1);
    } else if Creates(h, k0, i0) {
      return true, k0, i0;
    } else {
      TrackedAfterTurn(h, k0, i0);
      lo := i0 + 1;
    }
    assert After(h[..n]) == Sync(After(h[..n - 1]), a);
    if !found && a.Synced? {
      assert SawMissing(a, id);
      assert a.sightings[..|a.sightings|] == a.sightings && a.sightings[..0] == [];
      hide After, ClockRises;
      i' := StaysTracked(After(h[..n - 1]), Owned(a.recorded), a.sightings, lo, |a.sightings|, id, s.now);
      found, k' := i' < |a.sightings|, n - 1;
    }
  }

  /**
   The converse of GracePeriod: when two sightings of a device are more than ten minutes apart and every
   pass from the one to the other that read its lists saw it missing, a detach resource has been asked
   for somewhere between, at the later sighting at the latest.
   */
  lemma OverdueIsNoticed(h: seq<Attempt>, k0: nat, i0: nat, k: nat, i: nat) returns (k': nat, i': nat)
    requires At(h, k0, i0) && At(h, k, i) && Earlier(k0, i0, k, i) && ClockRises(h)
    requires var s := h[k].sightings[i]; var s0 := h[k0].sightings[i0];
      s0.device.deviceID == s.device.deviceID && s.now - s0.now > GRACE
    requires forall j :: k0 <= j <= k && h[j].Synced? ==> SawMissing(h[j], h[k].sightings[i].device.deviceID)
    ensures At(h, k', i') && k0 <= k' <= k && (k' == k ==> i' <= i)
    ensures h[k'].sightings[i'].device.deviceID == h[k].sightings[i].device.deviceID && Creates(h, k', i')
  {
    var s0 := h[k0].sightings[i0];
    assert SawMissing(h[k], s0.device.deviceID);
    var lo := 0;
    if k0 < k {
      var found;
      found, k', i' := CreatedOrTracked(h, k0, i0, k);
      if found { return; }
      assert h[k].sightings[..0] == [];
    } else if Creates(h, k0, i0) {
      return k0, i0;
    } else {
      TrackedAfterTurn(h, k0, i0);
      lo := i0 + 1;
    }
    k' := k;
    i' := StaysTracked(After(h[..k]), Owned(h[k].recorded), h[k].sightings, lo, i, s0.device.deviceID, s0.now);
  }

  /** From turn lo to turn hi a tracked time that is no older than t stays so. */
  lemma {:induction false} StaysNewer(m: Tracking, owned: set<string>, ss: seq<Sighting>, lo: nat, hi: nat,
                                      id: string, t: int)
    requires lo <= hi <= |ss|
    requires id in VisitAll(m, owned, ss[..lo]) ==> VisitAll(m, owned, ss[..lo])[id] >= t
    requires forall i :: lo <= i < hi ==> ss[i].now >= t
    ensures id in VisitAll(m, owned, ss[..hi]) ==> VisitAll(m, owned, ss[..hi])[id] >= t
    decreases hi
  {
    if lo < hi {
      StaysNewer(m, owned, ss, lo, hi - 1, id, t);
      assert ss[..hi][..hi - 1] == ss[..hi - 1];
    }
  }

  /** A time no older than t at turn lo of a pass whose later readings are no older is so at its end. */
  lemma NewerThroughPass(m: Tracking, a: Attempt, lo: nat, id: string, t: int)
    requires a.Synced? && lo <= |a.sightings|
    requires id in VisitAll(m, Owned(a.recorded), a.sightings[..lo]) ==>
      VisitAll(m, Owned(a.recorded), a.sightings[..lo])[id] >= t
    requires forall j :: lo <= j < |a.sightings| ==> a.sightings[j].now >= t
    ensures id in Sync(m, a) ==> Sync(m, a)[id] >= t
  {
    assert a.sightings[..|a.sightings|] == a.sightings;
    StaysNewer(m, Owned(a.recorded), a.sightings, lo, |a.sightings|, id, t);
  }

  /** A creation answered with success: any time tracked for its device at the end of pass n - 1 is no older. */
  lemma {:induction false} RestartsAfterCreation(h: seq<Attempt>, k: nat, i: nat, n: nat)
    requires At(h, k, i) && Creates(h, k, i) && h[k].sightings[i].reply.Made? && ClockRises(h)
    requires k < n <= |h|
    ensures var s := h[k].sightings[i]; s.device.deviceID in After(h[..n]) ==> After(h[..n])[s.device.deviceID] >= s.now
    decreases n
  {
    var s, a := h[k].sightings[i], h[n - 1];
    assert h[..n][..n - 1] == h[..n - 1];
    assert After(h[..n]) == Sync(After(h[..n - 1]), a);
    var lo := 0;
    if k < n - 1 {
      RestartsAfterCreation(h, k, i, n - 1);
    } else {
      lo := i + 1;
      assert a.sightings[..lo][..i] == a.sightings[..i];
    }
    if a.Synced? {
      forall j | lo <= j < |a.sightings| ensures a.sightings[j].now >= s.now {
        assert At(h, n - 1, j) && Earlier(k, i, n - 1, j);
      }
      assert a.sightings[..0] == [];
      hide After, Sync, ClockRises;
      NewerThroughPass(After(h[..n - 1]), a, lo, s.device.deviceID, s.now);
    }
  }

  /** Two creations for one device are more than ten minutes apart, if the first was answered with success. */
  lemma CreationsApart(h: seq<Attempt>, k: nat, i: nat, k': nat, i': nat)
    requires At(h, k, i) && At(h, k', i') && Earlier(k, i, k', i') && ClockRises(h)
    requires Creates(h, k, i) && Creates(h, k', i') && h[k].sightings[i].reply.Made?
    requires h[k].sightings[i].device.deviceID == h[k'].sightings[i'].device.deviceID
    ensures h[k'].sightings[i'].now - h[k].sightings[i].now > GRACE
  {
    var s := h[k].sightings[i];
    var ss := h[k'].sightings;
    var lo := 0;
    if k < k' {
      RestartsAfterCreation(h, k, i, k');
      assert ss[..0] == [];
    } else {
      lo := i + 1;
      assert ss[..lo][..i] == ss[..i];
    }
    assert forall j: nat :: lo <= j < i' ==> At(h, k', j);
    StaysNewer(After(h[..k']), Owned(h[k'].recorded), ss, lo, i', s.device.deviceID, s.now);
  }

  /** The next pass, if it lists nothing but this device and nobody records it. */
  function Sequel(s: Sighting, now: int, reply: CreateReply): Attempt {
    Synced([], [Sighting(s.device, now, reply)])
  }

  /** A tracked time of a device nobody owns stays while no turn for it is answered with success. */
  lemma {:induction false} StaysUnlessMade(m: Tracking, owned: set<string>, ss: seq<Sighting>, lo: nat, hi: nat,
                                           id: string)
    requires lo <= hi <= |ss| && id !in owned && id in VisitAll(m, owned, ss[..lo])
    requires forall j :: lo <= j < hi && ss[j].device.deviceID == id ==> !ss[j].reply.Made?
    ensures id in VisitAll(m, owned, ss[..hi]) && VisitAll(m, owned, ss[..hi])[id] == VisitAll(m, owned, ss[..lo])[id]
    decreases hi
  {
    if lo < hi {
      StaysUnlessMade(m, owned, ss, lo, hi - 1, id);
      assert ss[..hi][..hi - 1] == ss[..hi - 1];
    }
  }

  /**
   The condition on the answer is exact: after any creation of a pass that is answered with an error, and
   not repeated with success in the rest of that pass, the very next pass may ask again, however little
   later it is.
   */
  lemma ErrorMayRepeat(h: seq<Attempt>, k: nat, i: nat, now: int, reply: CreateReply)
    requires At(h, k, i) && k == |h| - 1 && Creates(h, k, i) && now >= h[k].sightings[i].now
    requires var ss := h[k].sightings;
      forall j :: i <= j < |ss| && ss[j].device.deviceID == ss[i].device.deviceID ==> !ss[j].reply.Made?
    ensures var h' := h + [Sequel(h[k].sightings[i], now, reply)];
      At(h', |h|, 0) && Creates(h', |h|, 0) && h'[..|h|] == h
  {
    var s, ss := h[k].sightings[i], h[k].sightings;
    var id := s.device.deviceID;
    var next := Sequel(s, now, reply);
    var h' := h + [next];
    assert h'[..|h|] == h && h[..|h|] == h;
    assert s in ss && ss[..|ss|] == ss;
    StaysUnlessMade(After(h[..k]), Owned(h[k].recorded), ss, i, |ss|, id);
    assert After(h) == Sync(After(h[..k]), h[k]);
    assert id in After(h) && After(h)[id] == Before(h, k, i)[id];
    assert next.sightings[..0] == [];
    assert Before(h', |h|, 0) == After(h);
  }

  /** With a creation that took effect but was answered with an error, the next may follow within a minute. */
  lemma LostAnswerRepeats() returns (h: seq<Attempt>)
    ensures ClockRises(h) && At(h, 1, 0) && At(h, 2, 0) && Creates(h, 1, 0) && Creates(h, 2, 0)
    ensures h[1].sightings[0].device == h[2].sightings[0].device
    ensures h[1].sightings[0].reply == MadeWithError && h[2].sightings[0].now == h[1].sightings[0].now + 60
  {
    var gpu := DeviceInfo("node", "gpu", "A100", "d", "");
    var s0, s1, s2 := Sighting(gpu, 0, NotMade), Sighting(gpu, 660, MadeWithError), Sighting(gpu, 720, Made);
    h := [Synced([], [s0]), Synced([], [s1]), Synced([], [s2])];
    assert ClockRises(h) by {
      forall k: nat, i: nat, k': nat, i': nat | At(h, k, i) && At(h, k', i') && Earlier(k, i, k', i')
        ensures h[k].sightings[i].now <= h[k'].sightings[i'].now
      {
        assert i == i' == 0;
      }
    }
    assert forall j: nat :: j < 3 ==> SawMissing(h[j], "d") by {
      assert s0 in [s0] && s1 in [s1] && s2 in [s2];
    }
    TrackedAfterFirst(h[..1], s0);
    assert h[..2][..1] == h[..1];
    StaysTrackedOnLost(h[..2], s1);
  }

  lemma TrackedAfterFirst(h: seq<Attempt>, s: Sighting)
    requires h == [Synced([], [s])]
    ensures After(h) == map[s.device.deviceID := s.now]
  {
    assert h[..0] == [] && [s][..0] == [] && s in [s];
    assert Owned([]) == {} && Upstream([s]) == {s.device.deviceID};
    assert VisitAll(map[], {}, [s]) == map[s.device.deviceID := s.now];
    assert Sync(map[], h[0]) == map[s.device.deviceID := s.now];
  }

  lemma StaysTrackedOnLost(h: seq<Attempt>, s: Sighting)
    requires |h| == 2 && h[1] == Synced([], [s]) && s.reply == MadeWithError
    requires After(h[..1]).Keys == {s.device.deviceID}
    ensures After(h) == After(h[..1])
  {
    assert [s][..0] == [] && s in [s];
    assert Owned([]) == {} && Upstream([s]) == {s.device.deviceID};
    assert VisitAll(After(h[..1]), {}, [s]) == After(h[..1]);
    assert Sync(After(h[..1]), h[1]) == After(h[..1]);
  }

  // What becomes of the resources created here.

  /** In some run some step of the resource asks the fabric for a device. */
  ghost predicate AddsAfter(kind: Life.DeviceType, d: Life.Device, moves: seq<Life.Move>, m: Life.Move) {
    Life.AddCalled in Life.Step(kind, Life.Run(kind, d, moves), m).calls
  }

  /**
   The resource made for a device stands for its removal exactly when the device has an id. With one, no run
   of it ever calls AddResource; without one, the label is ignored and two untroubled passes already ask
   the fabric for a new device.
   */
  lemma DetachResourceAddsIffNoId(device: DeviceInfo, kind: Life.DeviceType, d: Life.Device)
    requires Life.Created(d) && d.of == DetachOrigin(device)
    ensures device.deviceID == "" <==> exists moves, m :: AddsAfter(kind, d, moves, m)
  {
    if device.deviceID != "" {
      forall moves, m ensures !AddsAfter(kind, d, moves, m) {
        Life.DetachIdentity(kind, d, moves, m);
      }
    } else {
      var a := Life.Untroubled(Life.NodeFound, Life.AddWaiting, false, Life.RemoveWaiting);
      var m := Life.Reconciled(a);
      assert Life.Step(kind, d, m).device.status.state == Attaching;
      assert Life.Run(kind, d, [m]) == Life.Run(kind, Life.Step(kind, d, m).device, []);
      assert AddsAfter(kind, d, [m], m);
    }
  }

  /** The first pass over it records both ids as the fabric listed them, for the device's own node, type and model. */
  lemma ListedIdsAreRecorded(device: DeviceInfo, kind: Life.DeviceType, d: Life.Device, a: Life.Answers)
    requires Life.Created(d) && d.of == DetachOrigin(device) && device.deviceID != ""
    requires (device.nodeName == "" || a.node.NodeFound?) && a.adapter.Ok? && a.finalizer.Ok? && a.write1.Ok?
    ensures var e := Life.Step(kind, d, Life.Reconciled(a)).device;
      && e.status == ResourceStatus(Attaching, "", device.deviceID, device.cdiDeviceID)
      && e.of.spec == ResourceSpec(device.deviceType, device.model, device.nodeName, false)
  {
  }
}
