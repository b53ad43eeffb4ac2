/**
 The two controllers together. The request controller's run theorems assume things of whoever writes
 resources; here the resource controller is shown to keep to them, and they are shown to suffice.
 */
module Composition {
  import opened Api
  import opened Cluster
  import opened Effects
  import opened Mirror
  import opened Exclusivity
  import opened CalmRuns

  /**
   What the resource controller guarantees while its node is there, plus the one thing asked of others:
   nobody deletes a resource a request still wants.
   */
  ghost predicate Obedient(w: World, e: Event) {
    match e
    case WriteStatus(n, status) =>
      (status.state == Detaching || status.state == Deleting) && n in w.resources ==> w.resources[n].deleting
    case DropFinalizer(n) => n in w.resources ==> w.resources[n].deleting
    case DeleteResource(n) => forall m :: TracksBy(w, m, n) ==> Retiring(w.requests[m])
    case _ => true
  }

  /** Besides, edits keep policy and target node and arrive when managed and tracked resources coincide. */
  ghost predicate SettledEdits(w: World, e: Event) {
    e.EditRequest? && e.name in w.requests ==>
      && e.spec.policy == w.requests[e.name].spec.policy && e.spec.targetNode == w.requests[e.name].spec.targetNode
      && (forall n :: ManagedBy(w, e.name, n) <==> n in w.requests[e.name].resources)
  }

  ghost predicate Lawful(w: World, e: Event) {
    Obedient(w, e) && SettledEdits(w, e)
  }

  // The assumptions suffice.

  /** A resource a request still wants is not marked for deletion. */
  ghost predicate Unmarked(w: World) {
    forall m, k :: TracksBy(w, m, k) && k in w.resources && !Retiring(w.requests[m]) ==> !w.resources[k].deleting
  }

  lemma ObedientMeansUndisturbed(w: World, e: Event)
    requires Unmarked(w) && Enabled(w, e) && Obedient(w, e)
    ensures Undisturbed(w, e)
  {
  }

  /** One request changes its status; its entries stay, go, or are new under unused names. */
  lemma RequestStaysUnmarked(w: World, w': World, name: string)
    requires Unmarked(w) && name in w.requests && name in w'.requests
    requires w'.requests == w.requests[name := w'.requests[name]] && w'.resources == w.resources
    requires Retiring(w.requests[name]) ==> Retiring(w'.requests[name])
    requires forall k :: k in w'.requests[name].resources ==> k in w.requests[name].resources || k !in w.resources
    ensures Unmarked(w')
  {
    forall m, k | TracksBy(w', m, k) && k in w'.resources && !Retiring(w'.requests[m])
      ensures !w'.resources[k].deleting
    {
      assert TracksBy(w, m, k);
    }
  }

  lemma AllocateStaysUnmarked(w: World, name: string, look: Lookups, save: Save)
    requires Unmarked(w) && Enabled(w, PassAllocate(name, look, save))
    ensures Unmarked(AllocatePass(w, name, look, save))
  {
    var w' := AllocatePass(w, name, look, save);
    AllocateEffect(w, name, look, save);
    UnusedFor(w, name, look, save);
    var r := w.requests[name];
    DecisionEntries(r.spec, Allocation.Live(ItemsOf(w.resources, look.listing)), r.resources, SurveyOf(w, name, look),
                    look.victims, look.spare);
    forall k | k in w'.requests[name].resources && k !in r.resources ensures k !in w.resources {
      assert k in look.spare;
      assert !InUse(w, k);
    }
    RequestStaysUnmarked(w, w', name);
  }

  lemma UpdateStaysUnmarked(w: World, name: string, wr: Writing, save: Save)
    requires Unmarked(w) && Coherent(w) && Ready(w, name, Updating) && Lists(w, name, wr.listing)
    requires forall n :: n in wr.order ==> n in w.requests[name].resources
    ensures Unmarked(UpdatePass(w, name, wr, save))
  {
    var w' := UpdatePass(w, name, wr, save);
    UpdateEffect(w, name, wr, save);
    forall m, k | TracksBy(w', m, k) && k in w'.resources && !Retiring(w'.requests[m])
      ensures !w'.resources[k].deleting
    {
      assert TracksBy(w, m, k) && Honest(w, m, k);
      if k in wr.listing { assert ManagedBy(w, name, k); }
    }
  }

  lemma CleanStaysUnmarked(w: World, name: string, wr: Writing, save: Save)
    requires Unmarked(w) && Coherent(w) && Ready(w, name, Cleaning) && Lists(w, name, wr.listing)
    ensures Unmarked(CleanPass(w, name, wr, save))
  {
    var w' := CleanPass(w, name, wr, save);
    CleanEffect(w, name, wr, save);
    forall m, k | TracksBy(w', m, k) && k in w'.resources && !Retiring(w'.requests[m])
      ensures !w'.resources[k].deleting
    {
      assert TracksBy(w, m, k) && Honest(w, m, k);
      if k in wr.listing { assert ManagedBy(w, name, k); }
    }
  }

  lemma FinishStaysUnmarked(w: World, ok: bool)
    requires Unmarked(w) && w.inflight.Some?
    ensures Unmarked(FinishMirror(w, ok))
  {
    var w' := FinishMirror(w, ok);
    forall m, k | TracksBy(w', m, k) && k in w'.resources && !Retiring(w'.requests[m])
      ensures !w'.resources[k].deleting
    {
      assert TracksBy(w, m, k);
    }
  }

  /** A request without entries comes, or a request goes. */
  lemma FewerEntriesStayUnmarked(w: World, w': World)
    requires Unmarked(w) && w'.resources == w.resources
    requires forall m, k :: TracksBy(w', m, k) ==> TracksBy(w, m, k) && w'.requests[m] == w.requests[m]
    ensures Unmarked(w')
  {
  }

  lemma UserStaysUnmarked(w: World, e: Event)
    requires Unmarked(w) && Coherent(w) && Enabled(w, e)
    requires e.CreateRequest? || e.EditRequest? || e.DeleteRequest? || e.PassError? || e.PassNone? || e.PassRun?
      || e.PassFinish?
    ensures Unmarked(Next(w, e))
  {
    hide Unmarked, Coherent;
    var w' := Next(w, e);
    match e
    case CreateRequest(_, _) => FewerEntriesStayUnmarked(w, w');
    case EditRequest(name, _) => RequestStaysUnmarked(w, w', name);
    case DeleteRequest(name) =>
      if w.requests[name].finalizer { RequestStaysUnmarked(w, w', name); } else { FewerEntriesStayUnmarked(w, w'); }
    case PassError(name, msg) => FailEffect(w, name, w.requests[name], msg, Saved); RequestStaysUnmarked(w, w', name);
    case PassNone(name, added, msg, save) => NoneEffect(w, name, added, msg, save); RequestStaysUnmarked(w, w', name);
    case PassRun(name, save) => RunEffect(w, name, save); RequestStaysUnmarked(w, w', name);
    case PassFinish(name, dropped, msg, save) =>
      if !dropped {
        FailEffect(w, name, w.requests[name], msg, save); RequestStaysUnmarked(w, w', name);
      } else if w.requests[name].deleting {
        FewerEntriesStayUnmarked(w, w');
      } else {
        RequestStaysUnmarked(w, w', name);
      }
  }

  lemma ResourceStaysUnmarked(w: World, e: Event)
    requires Unmarked(w) && Enabled(w, e) && Obedient(w, e)
    requires e.Begin? || e.CreateResource? || e.WriteStatus? || e.AddFinalizer? || e.DropFinalizer? || e.DeleteResource?
    ensures Unmarked(Next(w, e))
  {
    var w' := Next(w, e);
    forall m, k | TracksBy(w', m, k) && k in w'.resources && !Retiring(w'.requests[m])
      ensures !w'.resources[k].deleting
    {
      assert TracksBy(w, m, k);
    }
  }

  lemma StepStaysUnmarked(w: World, e: Event)
    requires Unmarked(w) && Coherent(w) && Enabled(w, e) && Obedient(w, e)
    ensures Unmarked(Next(w, e))
  {
    hide Unmarked, Coherent, Obedient;
    match e
    case PassAllocate(name, look, save) => AllocateStaysUnmarked(w, name, look, save);
    case PassUpdate(name, wr, save) => UpdateStaysUnmarked(w, name, wr, save);
    case PassClean(name, wr, save) => CleanStaysUnmarked(w, name, wr, save);
    case Finish(ok) => FinishStaysUnmarked(w, ok);
    case CreateRequest(_, _) => UserStaysUnmarked(w, e);
    case EditRequest(_, _) => UserStaysUnmarked(w, e);
    case DeleteRequest(_) => UserStaysUnmarked(w, e);
    case PassError(_, _) => UserStaysUnmarked(w, e);
    case PassNone(_, _, _, _) => UserStaysUnmarked(w, e);
    case PassRun(_, _) => UserStaysUnmarked(w, e);
    case PassFinish(_, _, _, _) => UserStaysUnmarked(w, e);
    case _ => ResourceStaysUnmarked(w, e);
  }

  lemma {:induction false} ObedientRun(w: World, events: seq<Event>)
    requires Unmarked(w) && Coherent(w) && Legal(w, events, Obedient)
    ensures Legal(w, events, Undisturbed) && Run(w, events, Undisturbed) == Run(w, events, Obedient)
    decreases |events|
  {
    hide Unmarked, Coherent, Enabled, Obedient, Undisturbed, Next;
    if events != [] {
      ObedientMeansUndisturbed(w, events[0]);
      StepStaysUnmarked(w, events[0]);
      StepStaysCoherent(w, events[0]);
      ObedientRun(Next(w, events[0]), events[1..]);
    }
  }

  lemma {:induction false} ObedientRunKeeps(w: World, events: seq<Event>)
    requires Unmarked(w) && Coherent(w) && Legal(w, events, Obedient)
    ensures Unmarked(Run(w, events, Obedient)) && Coherent(Run(w, events, Obedient))
    decreases |events|
  {
    hide Unmarked, Coherent, Enabled, Obedient, Undisturbed, Next;
    if events != [] {
      ObedientMeansUndisturbed(w, events[0]);
      StepStaysUnmarked(w, events[0]);
      StepStaysCoherent(w, events[0]);
      ObedientRunKeeps(Next(w, events[0]), events[1..]);
    }
  }

  lemma {:induction false} LawfulRun(w: World, events: seq<Event>)
    requires Unmarked(w) && Coherent(w) && Legal(w, events, Lawful)
    ensures Legal(w, events, Calm) && Run(w, events, Calm) == Run(w, events, Lawful)
    decreases |events|
  {
    if events != [] {
      ObedientMeansUndisturbed(w, events[0]);
      assert Calm(w, events[0]);
      hide Unmarked, Coherent, Enabled, Lawful, Calm, Next;
      StepStaysUnmarked(w, events[0]);
      StepStaysCoherent(w, events[0]);
      LawfulRun(Next(w, events[0]), events[1..]);
    }
  }

  /** Mirror coherence with whoever writes resources being obedient: a stale entry has an update event to come. */
  lemma StaleMeansQueuedTogether(events: seq<Event>, m: string, k: string)
    requires Legal(EMPTY, events, Obedient)
    requires TracksBy(Run(EMPTY, events, Obedient), m, k) && k in Run(EMPTY, events, Obedient).resources
    ensures var w := Run(EMPTY, events, Obedient);
      Reflects(w.requests[m].resources[k], w.resources[k].status) || Queued(w, k)
  {
    ObedientRun(EMPTY, events);
    StaleMeansQueued(events, m, k);
  }

  /** Exclusivity likewise. */
  lemma NeverShareNodeTogether(events: seq<Event>, m: string, m': string, k: string, l: string)
    requires Legal(EMPTY, events, Lawful) && m != m'
    requires var w := Run(EMPTY, events, Lawful);
      Floats(w, m) && Floats(w, m') && TracksBy(w, m, k) && TracksBy(w, m', l)
    ensures var w := Run(EMPTY, events, Lawful);
      w.requests[m].resources[k].nodeName != w.requests[m'].resources[l].nodeName
  {
    LawfulRun(EMPTY, events);
    CalmNeverShareNode(events, m, m', k, l);
  }
}
