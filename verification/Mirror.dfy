/** The copy of each resource's status inside the owning request, and the queue that keeps it honest. */
module Mirror {
  import opened Api
  import opened Matching
  import opened Placement
  import opened Allocation
  import opened Cluster
  import opened Effects

  /** The request has given up its entries: their resources may go. */
  predicate Retiring(r: Request) {
    r.state == Cleaning || r.state == DeletingRequest
  }

  ghost predicate TracksBy(w: World, m: string, k: string) {
    m in w.requests && k in w.requests[m].resources
  }

  /** Nobody but the owner takes a tracked resource out of the store. */
  ghost predicate Undisturbed(w: World, e: Event) {
    match e
    case DropFinalizer(n) => forall m :: TracksBy(w, m, n) ==> Retiring(w.requests[m])
    case DeleteResource(n) => forall m :: TracksBy(w, m, n) ==> Retiring(w.requests[m])
    case _ => true
  }

  ghost predicate Reflects(e: Tracked, s: ResourceStatus) {
    e.state == s.state && e.error == s.error && e.deviceID == s.deviceID && e.cdiDeviceID == s.cdiDeviceID
  }

  ghost predicate Queued(w: World, k: string) {
    k in w.pending || (w.inflight.Some? && w.inflight.value.name == k)
  }

  /** One entry of one request. */
  ghost predicate Honest(w: World, m: string, k: string)
    requires TracksBy(w, m, k)
  {
    var e := w.requests[m].resources[k];
    if k in w.resources then
      w.resources[k].managedBy == m && w.resources[k].detachID == "" && (Reflects(e, w.resources[k].status)
                                                                         || Queued(w, k))
    else
      Retiring(w.requests[m]) || Reflects(e, NO_STATUS)
  }

  /** A mirror pass under way holds the current copy, or the resource is queued again. */
  ghost predicate CurrentCopy(w: World) {
    w.inflight.Some? ==>
      var job := w.inflight.value;
      && (job.seen.None? ==> job.name !in w.resources)
      && (job.name !in w.resources && job.seen.Some? ==>
            forall m :: TracksBy(w, m, job.name) ==> Retiring(w.requests[m]))
      && (job.name in w.resources && job.seen.Some? ==>
            && job.seen.value.managedBy == w.resources[job.name].managedBy
            && job.seen.value.detachID == w.resources[job.name].detachID
            && (job.seen.value.status == w.resources[job.name].status || job.name in w.pending))
  }

  ghost predicate Coherent(w: World) {
    && CurrentCopy(w)
    && (forall m, k :: TracksBy(w, m, k) ==> k !in w.requests && Honest(w, m, k))
    && (forall m, m', k :: TracksBy(w, m, k) && TracksBy(w, m', k) ==> m == m')
    && (forall m :: m in w.requests && w.requests[m].state == NoState ==> w.requests[m].resources == map[])
  }

  /** The same entries over the same resources, whatever else a request pass changed. */
  lemma SameEntries(w: World, w': World, name: string)
    requires Coherent(w) && name in w.requests && name in w'.requests
    requires w'.requests == w.requests[name := w'.requests[name]]
    requires w'.requests[name].resources.Keys <= w.requests[name].resources.Keys
    requires forall k :: k in w'.requests[name].resources ==>
      w'.requests[name].resources[k] == w.requests[name].resources[k]
    requires w'.requests[name].state == NoState ==> w.requests[name].state == NoState
    requires Retiring(w.requests[name]) ==> Retiring(w'.requests[name])
    requires w'.resources == w.resources && w'.pending == w.pending && w'.inflight == w.inflight
    ensures Coherent(w')
  {
    forall m, k | TracksBy(w', m, k) ensures k !in w'.requests && Honest(w', m, k) {
      assert TracksBy(w, m, k) && Honest(w, m, k);
    }
    forall m, m', k | TracksBy(w', m, k) && TracksBy(w', m', k) ensures m == m' {
      assert TracksBy(w, m, k) && TracksBy(w, m', k);
    }
  }

  /** An allocator decision keeps old entries as they were and adds blank ones under unused names. */
  lemma DecisionEntries(d: Details, items: seq<Item>, tracked: map<string, Tracked>, sv: Survey, victims: set<string>,
                        spare: seq<string>)
    requires UnusedNames(spare, d.size, tracked.Keys)
    ensures var out := Allocate(d, items, tracked, sv, victims, spare).tracked;
      && (forall k :: k in out && k in tracked ==> out[k] == tracked[k])
      && (forall k :: k in out && k !in tracked ==> k in spare && out[k] == NewEntry(out[k].nodeName))
      && (Allocate(d, items, tracked, sv, victims, spare).Failed? ==> out.Keys <= tracked.Keys)
  {
    var p := Start(d, tracked);
    MatchForgetsOnlyListed(d, sv.caps, p, items);
    var matched := MatchFrom(d, sv.caps, p, items);
    if matched.Matched? {
      MatchSurplus(d, sv.caps, p, items);
      var q := AfterRemoval(matched.progress, victims);
      var placed := Place(d, sv, q);
      if placed.Placed? {
        PlaceLength(d, sv, q);
        AddedEntries(q.tracked, spare, placed.nodes);
        var out := AddEntries(q.tracked, spare, placed.nodes);
        forall k | k in out && k !in tracked ensures k in spare && out[k] == NewEntry(out[k].nodeName) {
          var i := AddedNode(q.tracked, spare, placed.nodes, k);
        }
        forall k | k in out && k in tracked ensures out[k] == tracked[k] {
          assert k !in spare[..|placed.nodes|];
        }
      }
    }
  }

  lemma AllocateStaysCoherent(w: World, name: string, look: Lookups, save: Save)
    requires Coherent(w) && Enabled(w, PassAllocate(name, look, save))
    ensures Coherent(AllocatePass(w, name, look, save))
  {
    var w' := AllocatePass(w, name, look, save);
    AllocateEffect(w, name, look, save);
    var r, r' := w.requests[name], w'.requests[name];
    if r'.resources == r.resources {
      SameEntries(w, w', name);
    } else {
      assert UnusedNames(look.spare, r.spec.size, r.resources.Keys) by {
        forall i | 0 <= i < |look.spare| ensures look.spare[i] !in r.resources { assert !InUse(w, look.spare[i]); }
      }
      DecisionEntries(r.spec, Live(ItemsOf(w.resources, look.listing)), r.resources, SurveyOf(w, name, look),
                      look.victims, look.spare);
      NewEntriesStayCoherent(w, w', name, look.spare);
    }
  }

  lemma NewEntriesStayCoherent(w: World, w': World, name: string, spare: seq<string>)
    requires Coherent(w) && name in w.requests && name in w'.requests
    requires w'.requests == w.requests[name := w'.requests[name]]
    requires w'.resources == w.resources && w'.pending == w.pending && w'.inflight == w.inflight
    requires w.requests[name].state == NodeAllocating
    requires (w'.requests[name].state == NodeAllocating || w'.requests[name].state == Updating)
    requires forall i :: 0 <= i < |spare| ==> !InUse(w, spare[i])
    requires var old', new' := w.requests[name].resources, w'.requests[name].resources;
      && (forall k :: k in new' && k in old' ==> new'[k] == old'[k])
      && (forall k :: k in new' && k !in old' ==> k in spare && new'[k] == NewEntry(new'[k].nodeName))
    ensures Coherent(w')
  {
    forall m, k | TracksBy(w', m, k) && !TracksBy(w, m, k)
      ensures m == name && !InUse(w, k)
    {
      assert k in spare;
    }
    forall m, k | TracksBy(w', m, k) ensures k !in w'.requests && Honest(w', m, k) {
      if TracksBy(w, m, k) { assert Honest(w, m, k); } else { assert !InUse(w, k); }
    }
    forall m, m', k | TracksBy(w', m, k) && TracksBy(w', m', k) ensures m == m' {
      if !TracksBy(w, m, k) {
        assert !InUse(w, k);
        assert !TracksBy(w, m', k);
      }
    }
  }

  lemma UpdateStaysCoherent(w: World, name: string, wr: Writing, save: Save)
    requires Coherent(w) && Ready(w, name, Updating) && Lists(w, name, wr.listing)
    requires forall n :: n in wr.order ==> n in w.requests[name].resources
    ensures Coherent(UpdatePass(w, name, wr, save))
  {
    var w' := UpdatePass(w, name, wr, save);
    UpdateEffect(w, name, wr, save);
    forall m, k | TracksBy(w', m, k) ensures k !in w'.requests && Honest(w', m, k) {
      assert TracksBy(w, m, k) && Honest(w, m, k);
      if k !in w.resources && k in w'.resources {
        assert TracksBy(w, name, k);
      }
    }
    forall m, m', k | TracksBy(w', m, k) && TracksBy(w', m', k) ensures m == m' {
      assert TracksBy(w, m, k) && TracksBy(w, m', k);
    }
  }

  lemma CleanStaysCoherent(w: World, name: string, wr: Writing, save: Save)
    requires Coherent(w) && Ready(w, name, Cleaning) && Lists(w, name, wr.listing)
    ensures Coherent(CleanPass(w, name, wr, save))
  {
    var w' := CleanPass(w, name, wr, save);
    CleanEffect(w, name, wr, save);
    forall m, k | TracksBy(w', m, k) ensures k !in w'.requests && Honest(w', m, k) {
      assert TracksBy(w, m, k) && Honest(w, m, k);
      if k in wr.listing { assert ManagedBy(w, name, k); }
    }
    forall m, m', k | TracksBy(w', m, k) && TracksBy(w', m', k) ensures m == m' {
      assert TracksBy(w, m, k) && TracksBy(w, m', k);
    }
  }

  lemma FinishStaysCoherent(w: World, ok: bool)
    requires Coherent(w) && w.inflight.Some?
    ensures Coherent(FinishMirror(w, ok))
  {
    var w' := FinishMirror(w, ok);
    var job := w.inflight.value;
    forall m, k | TracksBy(w', m, k) ensures k !in w'.requests && Honest(w', m, k) {
      assert TracksBy(w, m, k) && Honest(w, m, k);
    }
    forall m, m', k | TracksBy(w', m, k) && TracksBy(w', m', k) ensures m == m' {
      assert TracksBy(w, m, k) && TracksBy(w, m', k);
    }
  }

  /**
   A delivery ends the pass it belongs to and, for a resource that was read and is not a detach resource: without the
   owner or on an error it is queued again; otherwise the owner's entry, if there is one, takes the status that was read
   and keeps its node. Nothing else changes.
   */
  lemma DeliveryMeans(w: World, ok: bool, k: string, res: Resource)
    requires w.inflight == Some(Delivery(k, Some(res)))
    ensures var w' := FinishMirror(w, ok); var m := res.managedBy;
      && w'.inflight == None && w'.resources == w.resources
      && (res.detachID != "" ==> w'.requests == w.requests && w'.pending == w.pending)
      && (res.detachID == "" && (m !in w.requests || !ok) ==>
            w'.requests == w.requests && w'.pending == w.pending + {k})
      && (res.detachID == "" && m in w.requests && ok ==>
            && w'.pending == w.pending && m in w'.requests
            && w'.requests == w.requests[m := w.requests[m].(resources := w'.requests[m].resources)]
            && w'.requests[m].resources.Keys == w.requests[m].resources.Keys
            && (forall n :: n in w.requests[m].resources && n != k ==>
                  w'.requests[m].resources[n] == w.requests[m].resources[n])
            && (TracksBy(w, m, k) ==>
                  && Reflects(w'.requests[m].resources[k], res.status)
                  && w'.requests[m].resources[k].nodeName == w.requests[m].resources[k].nodeName))
  {
    if res.detachID == "" && res.managedBy in w.requests {
      var r := w.requests[res.managedBy];
      assert w.requests == w.requests[res.managedBy := r.(resources := r.resources)];
    }
  }

  /** A resource that was gone when it was read is forgotten. */
  lemma GoneIsForgotten(w: World, ok: bool, k: string)
    requires w.inflight == Some(Delivery(k, None))
    ensures FinishMirror(w, ok) == w.(inflight := None)
  {
  }

  /** A pass reads the resource as it is and takes it off the queue; a status write queues it exactly if it changes. */
  lemma QueueMeans(w: World, k: string, status: ResourceStatus)
    ensures var w' := BeginMirror(w, k);
      && w'.pending == w.pending - {k} && w'.requests == w.requests && w'.resources == w.resources
      && w'.inflight.Some? && w'.inflight.value.name == k
      && (w'.inflight.value.seen.Some? <==> k in w.resources)
      && (k in w.resources ==> w'.inflight.value.seen == Some(w.resources[k]))
    ensures k in w.resources ==>
      var w' := WriteResourceStatus(w, k, status);
      && w'.requests == w.requests && w'.inflight == w.inflight
      && w'.resources == w.resources[k := w.resources[k].(status := status)]
      && (k !in w.pending ==> (k in w'.pending <==> status != w.resources[k].status))
      && w.pending <= w'.pending <= w.pending + {k}
  {
  }

  /**
   Requests untouched; every tracked resource that changed did so through a queued status write or not in its status.
   */
  lemma ResourceStaysCoherent(w: World, e: Event)
    requires Coherent(w) && Enabled(w, e) && Undisturbed(w, e)
    requires e.Begin? || e.CreateResource? || e.WriteStatus? || e.AddFinalizer? || e.DropFinalizer? || e.DeleteResource?
    ensures Coherent(Next(w, e))
  {
    var w' := Next(w, e);
    forall m, k | TracksBy(w', m, k) ensures k !in w'.requests && Honest(w', m, k) {
      assert TracksBy(w, m, k) && Honest(w, m, k);
    }
    forall m, m', k | TracksBy(w', m, k) && TracksBy(w', m', k) ensures m == m' {
      assert TracksBy(w, m, k) && TracksBy(w, m', k);
    }
  }

  lemma RemovedRequestStaysCoherent(w: World, name: string)
    requires Coherent(w) && name in w.requests
    ensures Coherent(w.(requests := w.requests - {name}))
  {
    var w' := w.(requests := w.requests - {name});
    forall m, k | TracksBy(w', m, k) ensures k !in w'.requests && Honest(w', m, k) {
      assert TracksBy(w, m, k) && Honest(w, m, k);
    }
    forall m, m', k | TracksBy(w', m, k) && TracksBy(w', m', k) ensures m == m' {
      assert TracksBy(w, m, k) && TracksBy(w, m', k);
    }
  }

  lemma CreatedRequestStaysCoherent(w: World, name: string, spec: Details)
    requires Coherent(w) && Enabled(w, CreateRequest(name, spec))
    ensures Coherent(Next(w, CreateRequest(name, spec)))
  {
    var w' := Next(w, CreateRequest(name, spec));
    forall m, k | TracksBy(w', m, k) ensures k !in w'.requests && Honest(w', m, k) {
      assert TracksBy(w, m, k) && Honest(w, m, k);
    }
    forall m, m', k | TracksBy(w', m, k) && TracksBy(w', m', k) ensures m == m' {
      assert TracksBy(w, m, k) && TracksBy(w, m', k);
    }
  }

  lemma RequestStaysCoherent(w: World, e: Event)
    requires Coherent(w) && Enabled(w, e)
    requires e.EditRequest? || e.DeleteRequest? || e.PassError? || e.PassNone? || e.PassRun? || e.PassFinish?
    ensures Coherent(Next(w, e))
  {
    var w' := Next(w, e);
    match e
    case EditRequest(name, _) => SameEntries(w, w', name);
    case DeleteRequest(name) =>
      if w.requests[name].finalizer { SameEntries(w, w', name); } else { RemovedRequestStaysCoherent(w, name); }
    case PassError(name, msg) => FailEffect(w, name, w.requests[name], msg, Saved); SameEntries(w, w', name);
    case PassNone(name, added, msg, save) => NoneEffect(w, name, added, msg, save); SameEntries(w, w', name);
    case PassRun(name, save) => RunEffect(w, name, save); SameEntries(w, w', name);
    case PassFinish(name, dropped, msg, save) =>
      if !dropped {
        FailEffect(w, name, w.requests[name], msg, save); SameEntries(w, w', name);
      } else if w.requests[name].deleting {
        RemovedRequestStaysCoherent(w, name);
      } else {
        SameEntries(w, w', name);
      }
  }

  lemma StepStaysCoherent(w: World, e: Event)
    requires Coherent(w) && Enabled(w, e) && Undisturbed(w, e)
    ensures Coherent(Next(w, e))
  {
    match e
    case CreateRequest(name, spec) => CreatedRequestStaysCoherent(w, name, spec);
    case PassAllocate(name, look, save) => AllocateStaysCoherent(w, name, look, save);
    case PassUpdate(name, wr, save) => UpdateStaysCoherent(w, name, wr, save);
    case PassClean(name, wr, save) => CleanStaysCoherent(w, name, wr, save);
    case Finish(ok) => FinishStaysCoherent(w, ok);
    case EditRequest(_, _) => RequestStaysCoherent(w, e);
    case DeleteRequest(_) => RequestStaysCoherent(w, e);
    case PassError(_, _) => RequestStaysCoherent(w, e);
    case PassNone(_, _, _, _) => RequestStaysCoherent(w, e);
    case PassRun(_, _) => RequestStaysCoherent(w, e);
    case PassFinish(_, _, _, _) => RequestStaysCoherent(w, e);
    case _ => ResourceStaysCoherent(w, e);
  }

  lemma {:induction false} RunStaysCoherent(w: World, events: seq<Event>, fair: (World, Event) -> bool)
    requires Coherent(w) && Legal(w, events, fair)
    requires forall w, e :: fair(w, e) ==> Undisturbed(w, e)
    ensures Coherent(Run(w, events, fair))
    decreases |events|
  {
    if events != [] {
      StepStaysCoherent(w, events[0]);
      RunStaysCoherent(Next(w, events[0]), events[1..], fair);
    }
  }

  /** Mirror coherence: an entry that differs from its resource has an update event still to come. */
  lemma StaleMeansQueued(events: seq<Event>, m: string, k: string)
    requires Legal(EMPTY, events, Undisturbed)
    requires TracksBy(Run(EMPTY, events, Undisturbed), m, k) && k in Run(EMPTY, events, Undisturbed).resources
    ensures var w := Run(EMPTY, events, Undisturbed);
      Reflects(w.requests[m].resources[k], w.resources[k].status) || Queued(w, k)
  {
    RunStaysCoherent(EMPTY, events, Undisturbed);
    assert Honest(Run(EMPTY, events, Undisturbed), m, k);
  }

  lemma OnlineWhenQuiet(w: World, m: string, wr: Writing, save: Save)
    requires Coherent(w) && w.pending == {} && Ready(w, m, Updating)
    requires forall n :: n in wr.order ==> n in w.requests[m].resources
    requires forall n :: n in wr.listing ==> n in w.resources
    requires UpdatePass(w, m, wr, save).requests[m].state == Running
    ensures var w' := UpdatePass(w, m, wr, save);
      forall k :: k in w'.requests[m].resources ==> k in w'.resources && w'.resources[k].status.state == Online
  {
    UpdateEffect(w, m, wr, save);
    var w' := UpdatePass(w, m, wr, save);
    forall k | k in w'.requests[m].resources ensures k in w'.resources && w'.resources[k].status.state == Online {
      assert TracksBy(w, m, k) && Honest(w, m, k);
      assert w.requests[m].resources[k].state == Online;
    }
  }

  /** A pass that takes a request to Running with nothing queued leaves every tracked resource truly Online. */
  lemma RunningMeansOnline(events: seq<Event>, m: string, wr: Writing, save: Save)
    requires Legal(EMPTY, events, Undisturbed)
    requires Enabled(Run(EMPTY, events, Undisturbed), PassUpdate(m, wr, save))
    requires Run(EMPTY, events, Undisturbed).pending == {}
    requires Next(Run(EMPTY, events, Undisturbed), PassUpdate(m, wr, save)).requests[m].state == Running
    ensures var w' := Next(Run(EMPTY, events, Undisturbed), PassUpdate(m, wr, save));
      forall k :: k in w'.requests[m].resources ==> k in w'.resources && w'.resources[k].status.state == Online
  {
    var w := Run(EMPTY, events, Undisturbed);
    RunStaysCoherent(EMPTY, events, Undisturbed);
    assert forall n :: n in wr.listing ==> ManagedBy(w, m, n);
    OnlineWhenQuiet(w, m, wr, save);
  }
}
