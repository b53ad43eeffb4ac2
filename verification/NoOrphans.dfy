/** A request outlives every resource labelled as managed by it. */
module NoOrphans {
  import opened Api
  import opened Cluster
  import opened Effects

  /** States in which a request may own resources. */
  predicate Owning(s: RequestState) {
    s == NodeAllocating || s == Updating || s == Running || s == Cleaning
  }

  ghost predicate Sound(r: Request) {
    && (r.state != NoState ==> r.finalizer)
    && (r.state == Cleaning || r.state == DeletingRequest ==> r.deleting)
  }

  ghost predicate Owned(w: World, n: string)
    requires n in w.resources
  {
    var m := w.resources[n].managedBy;
    m != "" ==> m in w.requests && Owning(w.requests[m].state)
  }

  ghost predicate Guarded(w: World) {
    && "" !in w.requests
    && (forall m :: m in w.requests ==> Sound(w.requests[m]))
    && (forall n :: n in w.resources ==> Owned(w, n))
  }

  /** One request changes soundly and does not leave the owning states; resources keep their owners. */
  lemma RequestMoves(w: World, w': World, name: string)
    requires Guarded(w) && name in w.requests
    requires name in w'.requests && w'.requests == w.requests[name := w'.requests[name]]
    requires Sound(w'.requests[name])
    requires Owning(w.requests[name].state) ==> Owning(w'.requests[name].state)
    requires forall n :: n in w'.resources ==>
      (n in w.resources && w'.resources[n].managedBy == w.resources[n].managedBy)
      || (w'.resources[n].managedBy == name && Owning(w.requests[name].state))
    ensures Guarded(w')
  {
    forall n | n in w'.resources ensures Owned(w', n) {
      if n in w.resources { assert Owned(w, n); }
    }
  }

  lemma NoneKeepsGuard(w: World, name: string, added: bool, msg: string, save: Save)
    requires Guarded(w) && Ready(w, name, NoState)
    ensures Guarded(NonePass(w, name, added, msg, save))
  {
    NoneEffect(w, name, added, msg, save);
    RequestMoves(w, NonePass(w, name, added, msg, save), name);
  }

  lemma AllocateKeepsGuard(w: World, name: string, look: Lookups, save: Save)
    requires Guarded(w) && Ready(w, name, NodeAllocating)
    requires forall n :: n in look.peers ==> n in w.requests
    requires forall n :: n in look.listing ==> n in w.resources
    ensures Guarded(AllocatePass(w, name, look, save))
  {
    AllocateEffect(w, name, look, save);
    RequestMoves(w, AllocatePass(w, name, look, save), name);
  }

  lemma UpdateKeepsGuard(w: World, name: string, wr: Writing, save: Save)
    requires Guarded(w) && Ready(w, name, Updating) && Lists(w, name, wr.listing)
    requires forall n :: n in wr.order ==> n in w.requests[name].resources
    ensures Guarded(UpdatePass(w, name, wr, save))
  {
    UpdateEffect(w, name, wr, save);
    RequestMoves(w, UpdatePass(w, name, wr, save), name);
  }

  lemma RunKeepsStepGuard(w: World, name: string, save: Save)
    requires Guarded(w) && Ready(w, name, Running)
    ensures Guarded(RunPass(w, name, save))
  {
    RunEffect(w, name, save);
    RequestMoves(w, RunPass(w, name, save), name);
  }

  lemma CleanKeepsGuard(w: World, name: string, wr: Writing, save: Save)
    requires Guarded(w) && Ready(w, name, Cleaning) && Lists(w, name, wr.listing)
    ensures Guarded(CleanPass(w, name, wr, save))
  {
    var w' := CleanPass(w, name, wr, save);
    CleanEffect(w, name, wr, save);
    if wr.listing == [] {
      forall n | n in w'.resources ensures Owned(w', n) {
        assert Owned(w, n);
        assert !ManagedBy(w, name, n) by { assert n !in wr.listing; }
      }
    } else {
      RequestMoves(w, w', name);
    }
  }

  /** A request that is not in an owning state owns nothing, so it may go. */
  lemma RemovalKeepsGuard(w: World, name: string)
    requires Guarded(w) && name in w.requests && !Owning(w.requests[name].state)
    ensures Guarded(w.(requests := w.requests - {name}))
  {
    var w' := w.(requests := w.requests - {name});
    forall n | n in w'.resources ensures Owned(w', n) {
      assert Owned(w, n);
    }
  }

  /** Resources keep their owners, and no request changes state. */
  lemma ResourcesMove(w: World, w': World)
    requires Guarded(w) && w'.requests.Keys == w.requests.Keys
    requires forall m :: m in w.requests ==> Sound(w'.requests[m]) && w'.requests[m].state == w.requests[m].state
    requires forall n :: n in w'.resources ==>
      w'.resources[n].managedBy == "" || (n in w.resources && w'.resources[n].managedBy == w.resources[n].managedBy)
    ensures Guarded(w')
  {
    forall n | n in w'.resources ensures Owned(w', n) {
      if n in w.resources { assert Owned(w, n); }
    }
  }

  lemma UserKeepsGuard(w: World, e: Event)
    requires Guarded(w) && Enabled(w, e)
    requires e.CreateRequest? || e.EditRequest? || e.DeleteRequest? || e.PassError? || e.PassFinish?
    ensures Guarded(Next(w, e))
  {
    var w' := Next(w, e);
    match e
    case CreateRequest(name, spec) =>
      forall n | n in w'.resources ensures Owned(w', n) { assert Owned(w, n); }
    case EditRequest(name, _) => RequestMoves(w, w', name);
    case DeleteRequest(name) =>
      if w.requests[name].finalizer {
        RequestMoves(w, w', name);
      } else {
        RemovalKeepsGuard(w, name);
      }
    case PassError(name, msg) =>
      FailEffect(w, name, w.requests[name], msg, Saved);
      RequestMoves(w, w', name);
    case PassFinish(name, dropped, msg, save) =>
      if dropped {
        RemovalKeepsGuard(w, name);
      } else {
        FailEffect(w, name, w.requests[name], msg, save);
        RequestMoves(w, w', name);
      }
  }

  lemma ResourceKeepsGuard(w: World, e: Event)
    requires Guarded(w) && Enabled(w, e)
    requires e.Begin? || e.Finish? || e.CreateResource? || e.WriteStatus? || e.AddFinalizer? || e.DropFinalizer?
      || e.DeleteResource?
    ensures Guarded(Next(w, e))
  {
    ResourcesMove(w, Next(w, e));
  }

  lemma StepKeepsGuard(w: World, e: Event)
    requires Guarded(w) && Enabled(w, e)
    ensures Guarded(Next(w, e))
  {
    match e
    case PassNone(name, added, msg, save) => NoneKeepsGuard(w, name, added, msg, save);
    case PassAllocate(name, look, save) => AllocateKeepsGuard(w, name, look, save);
    case PassUpdate(name, wr, save) => UpdateKeepsGuard(w, name, wr, save);
    case PassRun(name, save) => RunKeepsStepGuard(w, name, save);
    case PassClean(name, wr, save) => CleanKeepsGuard(w, name, wr, save);
    case CreateRequest(_, _) => UserKeepsGuard(w, e);
    case EditRequest(_, _) => UserKeepsGuard(w, e);
    case DeleteRequest(_) => UserKeepsGuard(w, e);
    case PassError(_, _) => UserKeepsGuard(w, e);
    case PassFinish(_, _, _, _) => UserKeepsGuard(w, e);
    case _ => ResourceKeepsGuard(w, e);
  }

  lemma {:induction false} RunKeepsGuard(w: World, events: seq<Event>, fair: (World, Event) -> bool)
    requires Guarded(w) && Legal(w, events, fair)
    ensures Guarded(Run(w, events, fair))
    decreases |events|
  {
    if events != [] {
      StepKeepsGuard(w, events[0]);
      RunKeepsGuard(Next(w, events[0]), events[1..], fair);
    }
  }

  /** In every run, the owner a managed resource names still exists and still holds its finalizer. */
  lemma NoOrphan(events: seq<Event>, fair: (World, Event) -> bool, n: string)
    requires Legal(EMPTY, events, fair)
    requires n in Run(EMPTY, events, fair).resources && Run(EMPTY, events, fair).resources[n].managedBy != ""
    ensures var w := Run(EMPTY, events, fair);
      var m := w.resources[n].managedBy;
      m in w.requests && w.requests[m].finalizer && Owning(w.requests[m].state)
  {
    RunKeepsGuard(EMPTY, events, fair);
    assert Owned(Run(EMPTY, events, fair), n);
  }

  /** Whichever step takes a request out of the store or into Deleting finds nothing managed by it. */
  lemma LeavesOnlyWhenEmpty(events: seq<Event>, fair: (World, Event) -> bool, e: Event, m: string)
    requires Legal(EMPTY, events, fair) && Enabled(Run(EMPTY, events, fair), e)
    requires m in Run(EMPTY, events, fair).requests
    requires var w' := Next(Run(EMPTY, events, fair), e);
      m !in w'.requests || w'.requests[m].state == DeletingRequest || !w'.requests[m].finalizer
    ensures forall n :: n in Next(Run(EMPTY, events, fair), e).resources ==>
      Next(Run(EMPTY, events, fair), e).resources[n].managedBy != m
  {
    var w := Run(EMPTY, events, fair);
    RunKeepsGuard(EMPTY, events, fair);
    StepKeepsGuard(w, e);
    var w' := Next(w, e);
    forall n | n in w'.resources ensures w'.resources[n].managedBy != m {
      assert Owned(w', n);
    }
  }
}
