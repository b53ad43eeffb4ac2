/**
 The mirror with nothing asked of the environment: resources may vanish while a request still wants them,
 as they do when their node goes. An entry of a stored resource is then still fresh or about to be
 refreshed, except where the resource was made anew and has no status yet.
 */
module Unguarded {
  import opened Api
  import opened Allocation
  import opened Cluster
  import opened Effects
  import opened Mirror

  ghost predicate Free(w: World, e: Event) {
    true
  }

  ghost predicate Plausible(w: World, m: string, k: string)
    requires TracksBy(w, m, k)
  {
    k in w.resources ==>
      && w.resources[k].managedBy == m && w.resources[k].detachID == ""
      && (Reflects(w.requests[m].resources[k], w.resources[k].status) || Queued(w, k)
          || w.resources[k].status == NO_STATUS)
  }

  /** A mirror pass under way holds the current copy of a stored resource, or the resource is queued again. */
  ghost predicate FreshCopy(w: World) {
    w.inflight.Some? && w.inflight.value.name in w.resources ==>
      var job, r := w.inflight.value, w.resources[w.inflight.value.name];
      job.seen.Some? && job.seen.value.managedBy == r.managedBy && job.seen.value.detachID == r.detachID
      && (job.seen.value.status == r.status || job.name in w.pending)
  }

  ghost predicate Loose(w: World) {
    && FreshCopy(w)
    && (forall m, k :: TracksBy(w, m, k) ==> k !in w.requests && Plausible(w, m, k))
    && (forall m, m', k :: TracksBy(w, m, k) && TracksBy(w, m', k) ==> m == m')
  }

  /** Entries stay, go, or are new under unused names; the rest of the world is the same. */
  lemma RequestStaysLoose(w: World, w': World, name: string)
    requires Loose(w) && name in w.requests && name in w'.requests
    requires w'.requests == w.requests[name := w'.requests[name]]
    requires w'.resources == w.resources && w'.pending == w.pending && w'.inflight == w.inflight
    requires var old', new' := w.requests[name].resources, w'.requests[name].resources;
      forall k :: k in new' ==> (k in old' && new'[k] == old'[k]) || !InUse(w, k)
    ensures Loose(w')
  {
    forall m, k | TracksBy(w', m, k) ensures k !in w'.requests && Plausible(w', m, k) {
      if TracksBy(w, m, k) && w'.requests[m].resources[k] == w.requests[m].resources[k] {
        assert Plausible(w, m, k);
      } else {
        assert !InUse(w, k);
      }
    }
    forall m, m', k | TracksBy(w', m, k) && TracksBy(w', m', k) ensures m == m' {
      assert TracksBy(w, m, k) || !InUse(w, k);
      assert TracksBy(w, m', k) || !InUse(w, k);
    }
  }

  lemma AllocateStaysLoose(w: World, name: string, look: Lookups, save: Save)
    requires Loose(w) && Enabled(w, PassAllocate(name, look, save))
    ensures Loose(AllocatePass(w, name, look, save))
  {
    var w' := AllocatePass(w, name, look, save);
    AllocateEffect(w, name, look, save);
    var r := w.requests[name];
    assert UnusedNames(look.spare, r.spec.size, r.resources.Keys) by {
      forall i | 0 <= i < |look.spare| ensures look.spare[i] !in r.resources { assert !InUse(w, look.spare[i]); }
    }
    DecisionEntries(r.spec, Live(ItemsOf(w.resources, look.listing)), r.resources, SurveyOf(w, name, look),
                    look.victims, look.spare);
    hide Loose;
    RequestStaysLoose(w, w', name);
  }

  /** One request's resources are deleted and made; its entries stay. */
  lemma UpdateStaysLoose(w: World, name: string, wr: Writing, save: Save)
    requires Loose(w) && Ready(w, name, Updating) && Lists(w, name, wr.listing)
    requires forall n :: n in wr.order ==> n in w.requests[name].resources
    ensures Loose(UpdatePass(w, name, wr, save))
  {
    var w' := UpdatePass(w, name, wr, save);
    UpdateEffect(w, name, wr, save);
    hide UpdatePass;
    forall m, k | TracksBy(w', m, k) ensures k !in w'.requests && Plausible(w', m, k) {
      assert TracksBy(w, m, k) && Plausible(w, m, k);
      if k !in w.resources && k in w'.resources {
        assert TracksBy(w, name, k);
      }
    }
    forall m, m', k | TracksBy(w', m, k) && TracksBy(w', m', k) ensures m == m' {
      assert TracksBy(w, m, k) && TracksBy(w, m', k);
    }
  }

  lemma CleanStaysLoose(w: World, name: string, wr: Writing, save: Save)
    requires Loose(w) && Ready(w, name, Cleaning) && Lists(w, name, wr.listing)
    ensures Loose(CleanPass(w, name, wr, save))
  {
    var w' := CleanPass(w, name, wr, save);
    CleanEffect(w, name, wr, save);
    hide CleanPass;
    forall m, k | TracksBy(w', m, k) ensures k !in w'.requests && Plausible(w', m, k) {
      assert TracksBy(w, m, k) && Plausible(w, m, k);
    }
    forall m, m', k | TracksBy(w', m, k) && TracksBy(w', m', k) ensures m == m' {
      assert TracksBy(w, m, k) && TracksBy(w, m', k);
    }
  }

  lemma FinishStaysLoose(w: World, ok: bool)
    requires Loose(w) && w.inflight.Some?
    ensures Loose(FinishMirror(w, ok))
  {
    var w' := FinishMirror(w, ok);
    forall m, k | TracksBy(w', m, k) ensures k !in w'.requests && Plausible(w', m, k) {
      assert TracksBy(w, m, k) && Plausible(w, m, k);
    }
    forall m, m', k | TracksBy(w', m, k) && TracksBy(w', m', k) ensures m == m' {
      assert TracksBy(w, m, k) && TracksBy(w, m', k);
    }
  }

  lemma ResourceStaysLoose(w: World, e: Event)
    requires Loose(w) && Enabled(w, e)
    requires e.Begin? || e.CreateResource? || e.WriteStatus? || e.AddFinalizer? || e.DropFinalizer? || e.DeleteResource?
    ensures Loose(Next(w, e))
  {
    var w' := Next(w, e);
    forall m, k | TracksBy(w', m, k) ensures k !in w'.requests && Plausible(w', m, k) {
      assert TracksBy(w, m, k) && Plausible(w, m, k);
    }
    forall m, m', k | TracksBy(w', m, k) && TracksBy(w', m', k) ensures m == m' {
      assert TracksBy(w, m, k) && TracksBy(w, m', k);
    }
  }

  /** A request without entries comes, or a request goes. */
  lemma FewerEntriesStayLoose(w: World, w': World)
    requires Loose(w) && w'.resources == w.resources && w'.pending == w.pending && w'.inflight == w.inflight
    requires forall m, k :: TracksBy(w', m, k) ==>
      TracksBy(w, m, k) && w'.requests[m] == w.requests[m] && k !in w'.requests
    ensures Loose(w')
  {
    forall m, k | TracksBy(w', m, k) ensures k !in w'.requests && Plausible(w', m, k) {
      assert TracksBy(w, m, k) && Plausible(w, m, k);
    }
    forall m, m', k | TracksBy(w', m, k) && TracksBy(w', m', k) ensures m == m' {
      assert TracksBy(w, m, k) && TracksBy(w, m', k);
    }
  }

  lemma CreatedStaysLoose(w: World, name: string, spec: Details)
    requires Loose(w) && Enabled(w, CreateRequest(name, spec))
    ensures Loose(Next(w, CreateRequest(name, spec)))
  {
    var w' := Next(w, CreateRequest(name, spec));
    forall m, k | TracksBy(w', m, k) ensures TracksBy(w, m, k) && w'.requests[m] == w.requests[m] && k !in w'.requests {
      assert m != name && TracksBy(w, m, k);
    }
    hide Loose, Enabled;
    FewerEntriesStayLoose(w, w');
  }

  lemma RemovedStaysLoose(w: World, name: string)
    requires Loose(w)
    ensures Loose(w.(requests := w.requests - {name}))
  {
    var w' := w.(requests := w.requests - {name});
    forall m, k | TracksBy(w', m, k)
      ensures TracksBy(w, m, k) && w'.requests[m] == w.requests[m] && k !in w'.requests
    {
      assert TracksBy(w, m, k);
    }
    FewerEntriesStayLoose(w, w');
  }

  lemma UserStaysLoose(w: World, e: Event)
    requires Loose(w) && Enabled(w, e)
    requires e.EditRequest? || e.DeleteRequest? || e.PassError? || e.PassNone? || e.PassRun? || e.PassFinish?
    ensures Loose(Next(w, e))
  {
    hide Loose;
    var w' := Next(w, e);
    match e
    case EditRequest(name, _) => RequestStaysLoose(w, w', name);
    case DeleteRequest(name) =>
      if w.requests[name].finalizer { RequestStaysLoose(w, w', name); } else { RemovedStaysLoose(w, name); }
    case PassError(name, msg) => FailEffect(w, name, w.requests[name], msg, Saved); RequestStaysLoose(w, w', name);
    case PassNone(name, added, msg, save) => NoneEffect(w, name, added, msg, save); RequestStaysLoose(w, w', name);
    case PassRun(name, save) => RunEffect(w, name, save); RequestStaysLoose(w, w', name);
    case PassFinish(name, dropped, msg, save) =>
      if !dropped {
        FailEffect(w, name, w.requests[name], msg, save); RequestStaysLoose(w, w', name);
      } else if w.requests[name].deleting {
        RemovedStaysLoose(w, name);
      } else {
        RequestStaysLoose(w, w', name);
      }
  }

  lemma StepStaysLoose(w: World, e: Event)
    requires Loose(w) && Enabled(w, e)
    ensures Loose(Next(w, e))
  {
    hide Loose;
    match e
    case CreateRequest(name, spec) => CreatedStaysLoose(w, name, spec);
    case PassAllocate(name, look, save) => AllocateStaysLoose(w, name, look, save);
    case PassUpdate(name, wr, save) => UpdateStaysLoose(w, name, wr, save);
    case PassClean(name, wr, save) => CleanStaysLoose(w, name, wr, save);
    case Finish(ok) => FinishStaysLoose(w, ok);
    case EditRequest(_, _) => UserStaysLoose(w, e);
    case DeleteRequest(_) => UserStaysLoose(w, e);
    case PassError(_, _) => UserStaysLoose(w, e);
    case PassNone(_, _, _, _) => UserStaysLoose(w, e);
    case PassRun(_, _) => UserStaysLoose(w, e);
    case PassFinish(_, _, _, _) => UserStaysLoose(w, e);
    case _ => ResourceStaysLoose(w, e);
  }

  lemma {:induction false} RunStaysLoose(w: World, events: seq<Event>)
    requires Loose(w) && Legal(w, events, Free)
    ensures Loose(Run(w, events, Free))
    decreases |events|
  {
    hide Loose, Enabled, Next;
    if events != [] {
      StepStaysLoose(w, events[0]);
      RunStaysLoose(Next(w, events[0]), events[1..]);
    }
  }

  /**
   The mirror over every run whatsoever: the entry of a stored resource agrees with it, or an update event is
   to come, or the resource has no status yet.
   */
  lemma StaleMeansQueuedOrNew(events: seq<Event>, m: string, k: string)
    requires Legal(EMPTY, events, Free)
    requires TracksBy(Run(EMPTY, events, Free), m, k) && k in Run(EMPTY, events, Free).resources
    ensures var w := Run(EMPTY, events, Free);
      Reflects(w.requests[m].resources[k], w.resources[k].status) || Queued(w, k) || w.resources[k].status == NO_STATUS
  {
    RunStaysLoose(EMPTY, events);
    assert Plausible(Run(EMPTY, events, Free), m, k);
  }

  /** A pass that enters Running while nothing is queued, from any state a run may reach. */
  lemma OnlineWhenStored(w: World, m: string, wr: Writing, save: Save)
    requires Loose(w) && w.pending == {} && Ready(w, m, Updating) && Lists(w, m, wr.listing)
    requires forall n :: n in wr.order ==> n in w.requests[m].resources
    requires UpdatePass(w, m, wr, save).requests[m].state == Running
    ensures var w' := UpdatePass(w, m, wr, save);
      (forall k :: k in w'.requests[m].resources ==> k in w'.resources && w'.resources[k].status.state == Online)
      <==> forall k :: k in w.requests[m].resources ==> k in w.resources && w.resources[k].status != NO_STATUS
  {
    assert forall n :: n in wr.listing ==> ManagedBy(w, m, n);
    UpdateEffect(w, m, wr, save);
    hide UpdatePass;
    var w', entries := UpdatePass(w, m, wr, save), w.requests[m].resources;
    forall k | k in entries && k in w.resources ensures k in w'.resources && w'.resources[k] == w.resources[k] {}
    forall k | k in entries && k in w.resources && w.resources[k].status != NO_STATUS
      ensures w.resources[k].status.state == Online
    {
      assert TracksBy(w, m, k) && Plausible(w, m, k);
      assert entries[k].state == Online;
    }
    forall k | k in entries && k !in w.resources && k in w'.resources ensures w'.resources[k].status == NO_STATUS {}
  }

  /**
   Entering Running is true to the facts exactly when the pass had nothing to make anew: over every run
   whatsoever, a pass that takes a request to Running with nothing queued leaves every tracked resource
   Online if and only if every tracked name was stored, with a status, before the pass.
   */
  lemma RunningMeansOnlineIff(events: seq<Event>, m: string, wr: Writing, save: Save)
    requires Legal(EMPTY, events, Free)
    requires Enabled(Run(EMPTY, events, Free), PassUpdate(m, wr, save))
    requires Run(EMPTY, events, Free).pending == {}
    requires Next(Run(EMPTY, events, Free), PassUpdate(m, wr, save)).requests[m].state == Running
    ensures var w := Run(EMPTY, events, Free); var w' := Next(w, PassUpdate(m, wr, save));
      (forall k :: k in w'.requests[m].resources ==> k in w'.resources && w'.resources[k].status.state == Online)
      <==> forall k :: k in w.requests[m].resources ==> k in w.resources && w.resources[k].status != NO_STATUS
  {
    RunStaysLoose(EMPTY, events);
    hide Loose;
    OnlineWhenStored(Run(EMPTY, events, Free), m, wr, save);
  }
}
