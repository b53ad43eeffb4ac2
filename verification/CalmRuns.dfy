/**
 Runs in which nothing happens to the resources a request still wants and edits come when it is settled: they
 are prudent, so two samenode requests without target node never share one in them.
 */
module CalmRuns {
  import opened Api
  import opened Matching
  import opened Placement
  import opened Allocation
  import opened Cluster
  import opened Effects
  import opened NoOrphans
  import opened Mirror
  import opened Exclusivity

  /**
   What the runs assume: tracked resources are not deleted from outside, a resource starts to detach
   only once it is being deleted, and edits keep policy and target node and arrive when the managed
   resources are exactly the tracked ones.
   */
  ghost predicate Calm(w: World, e: Event) {
    && Undisturbed(w, e)
    && match e
       case EditRequest(name, spec) =>
         name in w.requests ==>
           && spec.policy == w.requests[name].spec.policy && spec.targetNode == w.requests[name].spec.targetNode
           && (forall n :: ManagedBy(w, name, n) <==> n in w.requests[name].resources)
       case WriteStatus(n, status) =>
         (status.state == Detaching || status.state == Deleting) && n in w.resources ==> w.resources[n].deleting
       case _ => true
  }

  /** The allocator runs next, or is running. */
  predicate Reallocating(r: Request) {
    r.state == NodeAllocating || ((r.state == Updating || r.state == Running) && r.scalar != r.spec)
  }

  ghost predicate TrackedAlive(w: World, m: string, k: string)
    requires TracksBy(w, m, k)
  {
    var e := w.requests[m].resources[k];
    && e.nodeName != ""
    && (k in w.resources ==>
          w.resources[k].spec.targetNode == e.nodeName && (Retiring(w.requests[m]) || !w.resources[k].deleting))
    && (Reallocating(w.requests[m]) ==> k in w.resources)
  }

  ghost predicate Settling(w: World) {
    && (forall m, k :: Floats(w, m) && TracksBy(w, m, k) ==> TrackedAlive(w, m, k))
    && (forall n :: n in w.resources ==> (IsLive(w.resources[n]) || w.resources[n].deleting))
    && (forall n :: n in w.resources && Floats(w, w.resources[n].managedBy) ==> w.resources[n].spec.targetNode != "")
  }

  ghost predicate Good(w: World) {
    Guarded(w) && Coherent(w) && Settling(w)
  }

  lemma ListedItems(w: World, m: string, listing: seq<string>, tracked: map<string, Tracked>)
    requires Lists(w, m, listing)
    requires forall k :: k in tracked ==>
      ManagedBy(w, m, k) && IsLive(w.resources[k]) && w.resources[k].spec.targetNode == tracked[k].nodeName
    requires forall n :: ManagedBy(w, m, n) ==> w.resources[n].spec.targetNode != ""
    ensures var items := Live(ItemsOf(w.resources, listing));
      DistinctNames(items) && NodesNamed(items) && SameNodesAs(tracked, items) && tracked.Keys <= Names(items)
  {
    ListedLive(w, m, listing);
  }

  /** Facts an allocation pass of a floating request starts from. */
  lemma AllocationStart(w: World, name: string, look: Lookups)
    requires Good(w) && Floats(w, name) && Reallocating(w.requests[name]) && !Retiring(w.requests[name])
    requires Lists(w, name, look.listing)
    ensures var items := Live(ItemsOf(w.resources, look.listing));
      var tracked := w.requests[name].resources;
      DistinctNames(items) && NodesNamed(items) && SameNodesAs(tracked, items) && tracked.Keys <= Names(items)
  {
    var tracked := w.requests[name].resources;
    forall k | k in tracked
      ensures ManagedBy(w, name, k) && IsLive(w.resources[k]) && w.resources[k].spec.targetNode == tracked[k].nodeName
    {
      assert TracksBy(w, name, k) && Honest(w, name, k) && TrackedAlive(w, name, k);
    }
    ListedItems(w, name, look.listing, tracked);
  }

  /** Every allocation of a calm run finds all its tracked resources listed, so it is steady. */
  lemma CalmIsPrudent(w: World, e: Event)
    requires Good(w) && Enabled(w, e) && Calm(w, e)
    ensures Prudent(w, e)
  {
    if e.PassAllocate? && Floats(w, e.name) {
      AllocationStart(w, e.name, e.look);
      hide Good, Allocate, RightVictims, MatchFrom;
    }
  }

  // Settling stays.

  lemma NewEntriesStaySettling(w: World, w': World, name: string, spare: seq<string>)
    requires Settling(w) && Floats(w, name) && name in w'.requests
    requires w'.requests == w.requests[name := w'.requests[name]] && w'.resources == w.resources
    requires w'.requests[name].state == Updating && w'.requests[name].scalar == w'.requests[name].spec
    requires !Retiring(w.requests[name])
    requires forall i :: 0 <= i < |spare| ==> !InUse(w, spare[i])
    requires var old', new' := w.requests[name].resources, w'.requests[name].resources;
      && (forall k :: k in new' && k in old' ==> new'[k] == old'[k])
      && (forall k :: k in new' && k !in old' ==> k in spare && new'[k].nodeName != "")
    ensures Settling(w')
  {
    forall m, k | Floats(w', m) && TracksBy(w', m, k) ensures TrackedAlive(w', m, k) {
      if TracksBy(w, m, k) {
        assert Floats(w, m) && TrackedAlive(w, m, k);
      } else {
        assert !InUse(w, k);
      }
    }
  }

  /** A request that does not float, loses entries, or only moves on. */
  lemma FewerStaySettling(w: World, w': World, name: string)
    requires Settling(w) && name in w.requests && name in w'.requests
    requires w'.requests == w.requests[name := w'.requests[name]] && w'.resources == w.resources
    requires Floats(w', name) <==> Floats(w, name)
    requires Floats(w', name) ==>
      && (Reallocating(w'.requests[name]) ==>
            Reallocating(w.requests[name]) || forall k :: k in w.requests[name].resources ==> k in w.resources)
      && (Retiring(w.requests[name]) ==> Retiring(w'.requests[name]))
      && w'.requests[name].resources.Keys <= w.requests[name].resources.Keys
      && forall k :: k in w'.requests[name].resources ==>
           w'.requests[name].resources[k] == w.requests[name].resources[k]
    ensures Settling(w')
  {
    forall m, k | Floats(w', m) && TracksBy(w', m, k) ensures TrackedAlive(w', m, k) {
      assert Floats(w, m) && TracksBy(w, m, k) && TrackedAlive(w, m, k);
    }
    KeepsResourceFacts(w, w');
  }

  /** An allocation of a calm run, whatever it decides. */
  lemma AllocateStaysSettling(w: World, name: string, look: Lookups, save: Save)
    requires Good(w) && Enabled(w, PassAllocate(name, look, save))
    ensures Settling(AllocatePass(w, name, look, save))
  {
    hide Guarded, Coherent, Settling, Allocate, RightVictims;
    var w' := AllocatePass(w, name, look, save);
    AllocateEffect(w, name, look, save);
    UnusedFor(w, name, look, save);
    var r, r' := w.requests[name], w'.requests[name];
    var items, sv := Live(ItemsOf(w.resources, look.listing)), SurveyOf(w, name, look);
    DecisionEntries(r.spec, items, r.resources, sv, look.victims, look.spare);
    if Floating(r) && r'.state == Updating {
      AllocationStart(w, name, look);
      NewEntriesHaveNodes(r.spec, items, r.resources, sv, look.victims, look.spare);
      NewEntriesStaySettling(w, w', name, look.spare);
    } else {
      FewerStaySettling(w, w', name);
    }
  }

  /** Where every tracked name is listed, new entries name a node. */
  lemma NewEntriesHaveNodes(d: Details, items: seq<Item>, tracked: map<string, Tracked>, sv: Survey,
                            victims: set<string>, spare: seq<string>)
    requires d.policy == SameNode && d.targetNode == "" && NodesNamed(items) && DistinctNames(items)
    requires SameNodesAs(tracked, items) && tracked.Keys <= Names(items)
    requires UnusedNames(spare, d.size, tracked.Keys) && forall n :: n in sv.nodes ==> n != ""
    requires Allocate(d, items, tracked, sv, victims, spare).Allocated?
    ensures !HasBlankNode(Allocate(d, items, tracked, sv, victims, spare).tracked)
  {
    assert !HasBlankNode(tracked) by {
      forall k | k in tracked ensures tracked[k].nodeName != "" {
        var i :| 0 <= i < |items| && items[i].name == k;
      }
    }
    BlankNodeIff(d, items, tracked, sv, victims, spare);
  }

  /** Floating requests stay floating, and resources keep liveness and node. */
  lemma KeepsResourceFacts(w: World, w': World)
    requires Settling(w)
    requires forall m :: Floats(w', m) && m in w.requests ==> Floats(w, m)
    requires forall n :: n in w'.resources ==>
      && n in w.resources && w'.resources[n].spec == w.resources[n].spec
      && w'.resources[n].managedBy == w.resources[n].managedBy
      && (IsLive(w'.resources[n]) || w'.resources[n].deleting)
      && (Floats(w', w.resources[n].managedBy) ==> w.resources[n].managedBy in w.requests)
    ensures forall n :: n in w'.resources ==> (IsLive(w'.resources[n]) || w'.resources[n].deleting)
    ensures forall n :: n in w'.resources && Floats(w', w'.resources[n].managedBy) ==>
      w'.resources[n].spec.targetNode != ""
  {
  }

  lemma UpdateStaysSettling(w: World, name: string, wr: Writing, save: Save)
    requires Coherent(w) && Settling(w) && Ready(w, name, Updating) && Lists(w, name, wr.listing)
    requires forall n :: n in wr.order ==> n in w.requests[name].resources
    ensures Settling(UpdatePass(w, name, wr, save))
  {
    hide UpdatePass;
    var w' := UpdatePass(w, name, wr, save);
    UpdateEffect(w, name, wr, save);
    forall m, k | Floats(w', m) && TracksBy(w', m, k) ensures TrackedAlive(w', m, k) {
      assert Floats(w, m) && TracksBy(w, m, k) && TrackedAlive(w, m, k) && Honest(w, m, k);
      if k in w'.resources && k !in w.resources { assert TracksBy(w, name, k); }
    }
    UpdatedNodesNamed(w, w', name, wr);
  }

  lemma UpdatedNodesNamed(w: World, w': World, name: string, wr: Writing)
    requires Settling(w) && OnlyStatus(w, w', name)
    requires Synced(w.resources, w'.resources, name, w.requests[name], wr.listing, wr.now)
    ensures forall n :: n in w'.resources && Floats(w', w'.resources[n].managedBy) ==>
      w'.resources[n].spec.targetNode != ""
  {
    forall n | n in w'.resources && Floats(w', w'.resources[n].managedBy)
      ensures w'.resources[n].spec.targetNode != ""
    {
      assert Floats(w, w'.resources[n].managedBy);
      if n !in w.resources { assert TracksBy(w, name, n) && TrackedAlive(w, name, n); }
    }
  }

  lemma CleanStaysSettling(w: World, name: string, wr: Writing, save: Save)
    requires Coherent(w) && Settling(w) && Ready(w, name, Cleaning) && Lists(w, name, wr.listing)
    ensures Settling(CleanPass(w, name, wr, save))
  {
    var w' := CleanPass(w, name, wr, save);
    CleanEffect(w, name, wr, save);
    forall m, k | Floats(w', m) && TracksBy(w', m, k) ensures TrackedAlive(w', m, k) {
      assert Floats(w, m) && TracksBy(w, m, k) && TrackedAlive(w, m, k) && Honest(w, m, k);
      if k in wr.listing { assert ManagedBy(w, name, k); }
    }
    KeepsResourceFacts(w, w');
  }

  lemma RemovedStaysSettling(w: World, name: string)
    requires Settling(w) && name in w.requests
    ensures Settling(w.(requests := w.requests - {name}))
  {
    var w' := w.(requests := w.requests - {name});
    forall m, k | Floats(w', m) && TracksBy(w', m, k) ensures TrackedAlive(w', m, k) {
      assert Floats(w, m) && TracksBy(w, m, k) && TrackedAlive(w, m, k);
    }
    KeepsResourceFacts(w, w');
  }

  lemma UserStaysSettling(w: World, e: Event)
    requires Good(w) && Enabled(w, e) && Calm(w, e)
    requires e.EditRequest? || e.DeleteRequest? || e.PassError? || e.PassNone? || e.PassRun? || e.PassFinish?
    ensures Settling(Next(w, e))
  {
    assert forall m :: m in w.requests && w.requests[m].state == NoState ==> w.requests[m].resources == map[];
    hide Guarded, Coherent, Settling, NonePass, RunPass, Fail;
    var w' := Next(w, e);
    match e
    case EditRequest(name, _) =>
      assert forall k :: k in w.requests[name].resources ==> ManagedBy(w, name, k);
      FewerStaySettling(w, w', name);
    case DeleteRequest(name) =>
      if w.requests[name].finalizer { FewerStaySettling(w, w', name); } else { RemovedStaysSettling(w, name); }
    case PassError(name, msg) => FailEffect(w, name, w.requests[name], msg, Saved); FewerStaySettling(w, w', name);
    case PassNone(name, added, msg, save) => NoneEffect(w, name, added, msg, save); FewerStaySettling(w, w', name);
    case PassRun(name, save) => RunEffect(w, name, save); FewerStaySettling(w, w', name);
    case PassFinish(name, dropped, msg, save) =>
      if !dropped {
        FailEffect(w, name, w.requests[name], msg, save); FewerStaySettling(w, w', name);
      } else if w.requests[name].deleting {
        RemovedStaysSettling(w, name);
      } else {
        FewerStaySettling(w, w', name);
      }
  }

  lemma CreatedStaysSettling(w: World, name: string, spec: Details)
    requires Good(w) && Enabled(w, CreateRequest(name, spec))
    ensures Settling(Next(w, CreateRequest(name, spec)))
  {
    var w' := Next(w, CreateRequest(name, spec));
    forall m, k | Floats(w', m) && TracksBy(w', m, k) ensures TrackedAlive(w', m, k) {
      assert Floats(w, m) && TracksBy(w, m, k) && TrackedAlive(w, m, k);
    }
    forall n | n in w'.resources ensures w'.resources[n].managedBy != name {
      assert Owned(w, n);
    }
    KeepsResourceFacts(w, w');
  }

  lemma FinishStaysSettling(w: World, ok: bool)
    requires Settling(w) && w.inflight.Some?
    ensures Settling(FinishMirror(w, ok))
  {
    var w' := FinishMirror(w, ok);
    forall m, k | Floats(w', m) && TracksBy(w', m, k) ensures TrackedAlive(w', m, k) {
      assert Floats(w, m) && TracksBy(w, m, k) && TrackedAlive(w, m, k);
    }
    KeepsResourceFacts(w, w');
  }

  lemma ResourceStaysSettling(w: World, e: Event)
    requires Settling(w) && Enabled(w, e) && Calm(w, e)
    requires e.Begin? || e.CreateResource? || e.WriteStatus? || e.AddFinalizer? || e.DropFinalizer? || e.DeleteResource?
    requires e.CreateResource? ==> "" !in w.requests
    ensures Settling(Next(w, e))
  {
    var w' := Next(w, e);
    forall m, k | Floats(w', m) && TracksBy(w', m, k) ensures TrackedAlive(w', m, k) {
      assert Floats(w, m) && TracksBy(w, m, k) && TrackedAlive(w, m, k);
    }
  }

  lemma StepStaysSettling(w: World, e: Event)
    requires Good(w) && Enabled(w, e) && Calm(w, e)
    ensures Settling(Next(w, e))
  {
    assert "" !in w.requests;
    hide Guarded, Coherent, Settling, Calm, AllocatePass, UpdatePass, CleanPass, FinishMirror;
    match e
    case CreateRequest(name, spec) => CreatedStaysSettling(w, name, spec);
    case PassAllocate(name, look, save) => AllocateStaysSettling(w, name, look, save);
    case PassUpdate(name, wr, save) => UpdateStaysSettling(w, name, wr, save);
    case PassClean(name, wr, save) => CleanStaysSettling(w, name, wr, save);
    case Finish(ok) => FinishStaysSettling(w, ok);
    case EditRequest(_, _) => UserStaysSettling(w, e);
    case DeleteRequest(_) => UserStaysSettling(w, e);
    case PassError(_, _) => UserStaysSettling(w, e);
    case PassNone(_, _, _, _) => UserStaysSettling(w, e);
    case PassRun(_, _) => UserStaysSettling(w, e);
    case PassFinish(_, _, _, _) => UserStaysSettling(w, e);
    case _ => ResourceStaysSettling(w, e);
  }

  lemma StepStaysGood(w: World, e: Event)
    requires Good(w) && Enabled(w, e) && Calm(w, e)
    ensures Good(Next(w, e))
  {
    hide Guarded, Coherent, Settling, Enabled, Next;
    StepKeepsGuard(w, e);
    StepStaysCoherent(w, e);
    StepStaysSettling(w, e);
  }

  /** Calm runs are prudent. */
  lemma {:induction false} CalmRunIsPrudent(w: World, events: seq<Event>)
    requires Good(w) && Legal(w, events, Calm)
    ensures Legal(w, events, Prudent) && Run(w, events, Prudent) == Run(w, events, Calm)
    decreases |events|
  {
    hide Good, Calm, Prudent, Enabled, Next;
    if events != [] {
      CalmIsPrudent(w, events[0]);
      StepStaysGood(w, events[0]);
      CalmRunIsPrudent(Next(w, events[0]), events[1..]);
    }
  }

  /** Over every calm run, two samenode requests without target node never track the same node. */
  lemma CalmNeverShareNode(events: seq<Event>, m: string, m': string, k: string, l: string)
    requires Legal(EMPTY, events, Calm) && m != m'
    requires var w := Run(EMPTY, events, Calm); Floats(w, m) && Floats(w, m') && TracksBy(w, m, k) && TracksBy(w, m', l)
    ensures var w := Run(EMPTY, events, Calm);
      w.requests[m].resources[k].nodeName != w.requests[m'].resources[l].nodeName
  {
    assert Good(EMPTY);
    hide Good;
    CalmRunIsPrudent(EMPTY, events);
    NeverShareNode(events, m, m', k, l);
  }
}
