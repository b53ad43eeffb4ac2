/** The handlers of the request controller as they run: one object store, changed write by write. */
module RequestReconciler {
  import opened Api
  import opened Allocation
  import opened Cluster
  import RequestDiagram

  /** Everything the environment decides about one reconcile of a request. */
  datatype Inputs = Inputs(target: TargetReply, refused: Option<string>, added: bool, dropped: bool, look: Lookups,
                           wr: Writing, msg: string, save: Save)

  /** The pass of the request's state. */
  function StateEvent(name: string, s: RequestState, x: Inputs, victims: set<string>): Event {
    match s
    case NoState => PassNone(name, x.added, x.msg, x.save)
    case NodeAllocating => PassAllocate(name, x.look.(victims := victims), x.save)
    case Updating => PassUpdate(name, x.wr, x.save)
    case Running => PassRun(name, x.save)
    case Cleaning => PassClean(name, x.wr, x.save)
    case DeletingRequest => PassFinish(name, x.dropped, x.msg, x.save)
  }

  /** The event of the cluster that a reconcile amounts to; none when an error text is not even recorded. */
  function Dispatched(name: string, r: Request, x: Inputs, victims: set<string>): Option<Event> {
    if r.spec.targetNode != "" && x.target.TargetError? then Recorded(name, x.target.msg, x.save)
    else if Collectable(r, x.target) then
      match x.refused
      case Some(msg) => Recorded(name, msg, x.save)
      case None => Some(DeleteRequest(name))
    else Some(StateEvent(name, r.state, x, victims))
  }

  function Recorded(name: string, msg: string, save: Save): Option<Event> {
    if save.Lost? then None else Some(PassError(name, msg))
  }

  /** The request carries a deletion mark now or, held by no finalizer, is gone; nothing else has changed. */
  ghost predicate MarkedOrGone(w: World, w': World, name: string)
    requires name in w.requests
  {
    var r := w.requests[name];
    && w'.resources == w.resources && w'.pending == w.pending && w'.inflight == w.inflight
    && w'.requests == if r.finalizer then w.requests[name := r.(deleting := true)] else w.requests - {name}
  }

  /** Nothing but the request's error text differs, and that only if it could be written. */
  ghost predicate OnlyReported(w: World, w': World, name: string, msg: string, save: Save)
    requires name in w.requests
  {
    && w'.resources == w.resources && w'.pending == w.pending && w'.inflight == w.inflight
    && w'.requests == if save.Lost? then w.requests else w.requests[name := w.requests[name].(error := msg)]
  }

  /** The lists a handler reads are lists of the current store. */
  ghost predicate Reads(w: World, name: string, x: Inputs)
    requires name in w.requests
  {
    match w.requests[name].state
    case NodeAllocating => LooksUp(w, name, x.look)
    case Updating => Lists(w, name, x.wr.listing) && Ranges(w, name, x.wr.order)
    case Cleaning => Lists(w, name, x.wr.listing)
    case _ => true
  }

  lemma ErrorIsAnEvent(w: World, name: string, msg: string, save: Save)
    requires name in w.requests && w.inflight.None? && !save.Lost?
    ensures Enabled(w, PassError(name, msg))
    ensures Next(w, PassError(name, msg)) == Fail(w, name, w.requests[name], msg, save)
  {
  }

  lemma FailReports(w: World, name: string, msg: string, save: Save)
    requires name in w.requests
    ensures OnlyReported(w, Fail(w, name, w.requests[name], msg, save), name, msg, save)
  {
  }

  lemma DeletionIsAnEvent(w: World, name: string)
    requires name in w.requests
    ensures Enabled(w, DeleteRequest(name)) && Next(w, DeleteRequest(name)) == RequestDeleted(w, name)
  {
  }

  /** The handler of a state other than Deleting takes no request away and marks none. */
  lemma HandledStays(w: World, name: string, x: Inputs, victims: set<string>)
    requires name in w.requests && w.requests[name].state != DeletingRequest
    requires Enabled(w, StateEvent(name, w.requests[name].state, x, victims))
    ensures var w' := Next(w, StateEvent(name, w.requests[name].state, x, victims));
      && name in w'.requests && w'.requests[name].deleting == w.requests[name].deleting
      && w'.requests[name].spec == w.requests[name].spec
  {
    hide Enabled, Next, RequestDiagram.Moves;
    var e := StateEvent(name, w.requests[name].state, x, victims);
    RequestDiagram.StepComesAndGoes(w, e, name);
    RequestDiagram.StepMoves(w, e, name);
  }

  class Reconciler {
    var requests: map<string, Request>
    var resources: map<string, Resource>
    var pending: set<string>
    var inflight: Option<Delivery>

    constructor ()
      ensures Stored() == EMPTY
    {
      requests, resources, pending, inflight := map[], map[], {}, None;
    }

    function Stored(): World
      reads this
    {
      World(requests, resources, pending, inflight)
    }

    /** A status update and, when it is refused, the retry of requeueOnErr. */
    method UpdateStatus(name: string, mem: Request, save: Save)
      requires name in requests
      modifies this
      ensures Stored() == SaveStatus(old(Stored()), name, mem, save)
    {
      match save {
        case Saved =>
          requests := requests[name := WithStatus(requests[name], mem)];
        case SavedWithError(msg) =>
          requests := requests[name := WithStatus(requests[name], mem.(error := msg))];
        case Lost =>
      }
    }

    method RequeueOnErr(name: string, mem: Request, msg: string, save: Save)
      requires name in requests
      modifies this
      ensures Stored() == Fail(old(Stored()), name, mem, msg, save)
    {
      if !save.Lost? {
        UpdateStatus(name, mem, SavedWithError(msg));
      }
    }

    /** Deletes a request whose target node has vanished, once; `refused` is the error of the deletion. */
    method PerformGarbageCollection(name: string, target: TargetReply, refused: Option<string>)
      returns (done: bool, err: Option<string>)
      requires name in requests
      modifies this
      ensures var r := old(requests[name]);
        && (done <==> r.spec.targetNode != "" && target.TargetMissing? && !r.deleting && refused.None?)
        && (err.Some? <==>
              && r.spec.targetNode != ""
              && (target.TargetError? || (target.TargetMissing? && !r.deleting && refused.Some?)))
        && (err.Some? ==> err == if target.TargetError? then Some(target.msg) else refused)
      ensures done ==> MarkedOrGone(old(Stored()), Stored(), name)
      ensures Stored() == if done then RequestDeleted(old(Stored()), name) else old(Stored())
    {
      var request := requests[name];
      if request.spec.targetNode == "" {
        return false, None;
      }
      match target {
        case TargetFound => return false, None;
        case TargetError(msg) => return false, Some(msg);
        case TargetMissing =>
      }
      if request.deleting {
        return false, None;
      }
      if refused.Some? {
        return false, refused;
      }
      if request.finalizer {
        requests := requests[name := request.(deleting := true)];
      } else {
        requests := requests - {name};
      }
      return true, None;
    }

    method HandleNone(name: string, added: bool, msg: string, save: Save)
      requires name in requests && requests[name].state == NoState
      modifies this
      ensures Stored() == NonePass(old(Stored()), name, added, msg, save)
    {
      var request := requests[name];
      if !request.finalizer {
        if !added {
          RequeueOnErr(name, request, msg, save);
          return;
        }
      }
      requests := requests[name := requests[name].(finalizer := true)];
      request := request.(state := NodeAllocating);
      request := request.(error := "");
      request := request.(scalar := request.spec);
      UpdateStatus(name, request, save);
    }

    /** The allocation pass; which surplus resources it gives up is for the library sort to decide. */
    method HandleNodeAllocating(name: string, look: Lookups, save: Save) returns (victims: set<string>)
      requires name in requests && requests[name].state == NodeAllocating
      requires Lists(Stored(), name, look.listing) && forall n :: n in look.peers ==> n in requests
      modifies this
      ensures RightVictims(old(requests[name]).spec, Live(ItemsOf(old(resources), look.listing)),
                           old(requests[name]).resources,
                           SurveyOf(old(Stored()), name, look), victims)
              || old(requests[name]).deleting
      ensures Stored() == AllocatePass(old(Stored()), name, look.(victims := victims), save)
    {
      victims := {};
      var request := requests[name];
      if request.deleting {
        request := request.(state := Cleaning);
        UpdateStatus(name, request, save);
        return;
      }
      var out;
      assert forall n :: n in look.listing ==> ManagedBy(Stored(), name, n);
      out, victims := AllocateNodes(request.spec, ItemsOf(resources, look.listing), request.resources,
                                    SurveyOf(Stored(), name, look), look.spare);
      request := request.(resources := out.tracked);
      if out.Failed? {
        RequeueOnErr(name, request, out.msg, save);
        return;
      }
      request := request.(state := Updating);
      request := request.(error := "");
      request := request.(scalar := request.spec);
      UpdateStatus(name, request, save);
    }

    method DeleteRedundant(listing: seq<string>, tracked: map<string, Tracked>, budget: nat)
      returns (ok: bool, left: nat, existed: set<string>)
      modifies `resources
      ensures Writes(resources, left, ok) == DeleteEach(old(resources), listing, tracked.Keys, budget)
      ensures ok ==> existed == set n | n in listing && n in tracked
    {
      ok, left, existed := true, budget, {};
      for i := 0 to |listing|
        invariant DeleteEach(old(resources), listing, tracked.Keys, budget)
            == DeleteEach(resources, listing[i..], tracked.Keys, left)
        invariant existed == set n | n in listing[..i] && n in tracked
      {
        assert listing[i..][1..] == listing[i + 1..];
        assert listing[..i + 1] == listing[..i] + [listing[i]];
        if listing[i] !in tracked {
          if left == 0 {
            return false, left, existed;
          }
          resources := DeleteOne(resources, listing[i]);
          left := left - 1;
        } else {
          existed := existed + {listing[i]};
        }
      }
      assert listing[|listing|..] == [] && listing[..|listing|] == listing;
    }

    method CreateMissing(name: string, spec: Details, tracked: map<string, Tracked>, order: seq<string>,
                         existed: set<string>, budget: nat, now: int)
      returns (ok: bool)
      requires forall n :: n in order ==> n in tracked
      modifies `resources
      ensures var w := CreateEach(old(resources), name, spec, tracked, order, existed, budget, now);
        ok == w.ok && resources == w.resources
    {
      var left := budget;
      for i := 0 to |order|
        invariant CreateEach(old(resources), name, spec, tracked, order, existed, budget, now)
               == CreateEach(resources, name, spec, tracked, order[i..], existed, left, now)
      {
        assert order[i..][1..] == order[i + 1..];
        if order[i] !in existed {
          if left == 0 || order[i] in resources {
            return false;
          }
          resources := resources[order[i] := NewResource(name, spec, tracked[order[i]].nodeName, now)];
          left := left - 1;
        }
      }
      assert order[|order|..] == [];
      return true;
    }

    method CanRun(tracked: map<string, Tracked>, order: seq<string>) returns (canRun: bool)
      requires forall n :: n in order <==> n in tracked
      ensures canRun == AllOnline(tracked)
    {
      canRun := true;
      for i := 0 to |order|
        invariant canRun == forall j :: 0 <= j < i ==> tracked[order[j]].state == Online
      {
        if tracked[order[i]].state != Online {
          canRun := false;
        }
      }
      if canRun {
        assert forall n :: n in tracked ==> exists j :: 0 <= j < |order| && order[j] == n;
      }
    }

    method HandleUpdating(name: string, wr: Writing, save: Save)
      requires name in requests && requests[name].state == Updating
      requires forall n :: n in wr.order <==> n in requests[name].resources
      modifies this
      ensures Stored() == UpdatePass(old(Stored()), name, wr, save)
    {
      var request := requests[name];
      if request.deleting {
        UpdateStatus(name, request.(state := Cleaning), save);
        return;
      }
      if request.scalar != request.spec {
        UpdateStatus(name, request.(state := NodeAllocating, scalar := request.spec), save);
        return;
      }
      var ok, left, existed := DeleteRedundant(wr.listing, request.resources, wr.budget);
      if !ok {
        RequeueOnErr(name, request, wr.msg, save);
        return;
      }
      ok := CreateMissing(name, request.spec, request.resources, wr.order, existed, left, wr.now);
      if !ok {
        RequeueOnErr(name, request, wr.msg, save);
        return;
      }
      var canRun := CanRun(request.resources, wr.order);
      if canRun {
        request := request.(state := Running);
        request := request.(error := "");
        request := request.(scalar := request.spec);
        UpdateStatus(name, request, save);
      }
    }

    method HandleRunning(name: string, save: Save)
      requires name in requests && requests[name].state == Running
      modifies this
      ensures Stored() == RunPass(old(Stored()), name, save)
    {
      var request := requests[name];
      if request.deleting {
        UpdateStatus(name, request.(state := Cleaning), save);
        return;
      }
      if request.scalar != request.spec {
        UpdateStatus(name, request.(state := NodeAllocating, scalar := request.spec), save);
        return;
      }
      request := request.(error := "");
      UpdateStatus(name, request, save);
    }

    method HandleCleaning(name: string, wr: Writing, save: Save)
      requires name in requests && requests[name].state == Cleaning
      modifies this
      ensures Stored() == CleanPass(old(Stored()), name, wr, save)
    {
      var request := requests[name];
      if |wr.listing| == 0 {
        UpdateStatus(name, request.(state := DeletingRequest), save);
        return;
      }
      var nothing: map<string, Tracked> := map[];
      assert nothing.Keys == {};
      var ok, _, _ := DeleteRedundant(wr.listing, nothing, wr.budget);
      if !ok {
        RequeueOnErr(name, request, wr.msg, save);
        return;
      }
      UpdateStatus(name, request.(error := ""), save);
    }

    method HandleDeleting(name: string, dropped: bool, msg: string, save: Save)
      requires name in requests && requests[name].state == DeletingRequest
      modifies this
      ensures Stored() == FinishPass(old(Stored()), name, dropped, msg, save)
    {
      var request := requests[name];
      if !dropped {
        RequeueOnErr(name, request, msg, save);
        return;
      }
      if request.deleting {
        requests := requests - {name};
      } else {
        requests := requests[name := request.(finalizer := false)];
      }
    }

    /** The handler of the request's state. */
    method HandleState(name: string, x: Inputs) returns (victims: set<string>)
      requires name in requests && inflight.None? && Reads(Stored(), name, x)
      modifies this
      ensures var e := StateEvent(name, old(requests[name]).state, x, victims);
        Enabled(old(Stored()), e) && Stored() == Next(old(Stored()), e)
    {
      hide NonePass, AllocatePass, UpdatePass, RunPass, CleanPass, FinishPass, RightVictims, InUse;
      victims := {};
      match requests[name].state {
        case NoState => HandleNone(name, x.added, x.msg, x.save);
        case NodeAllocating => victims := HandleNodeAllocating(name, x.look, x.save);
        case Updating => HandleUpdating(name, x.wr, x.save);
        case Running => HandleRunning(name, x.save);
        case Cleaning => HandleCleaning(name, x.wr, x.save);
        case DeletingRequest => HandleDeleting(name, x.dropped, x.msg, x.save);
      }
    }

    /**
     One whole reconcile of a request: collection first, then the handler of its state. It is one event of the cluster.
     */
    method HandleRequestChange(name: string, x: Inputs) returns (victims: set<string>)
      requires name in requests && inflight.None? && Reads(Stored(), name, x)
      modifies this
      ensures match Dispatched(name, old(requests[name]), x, victims)
        case Some(e) => Enabled(old(Stored()), e) && Stored() == Next(old(Stored()), e)
        case None => Stored() == old(Stored())
      ensures var r := old(requests[name]);
        && (r.spec.targetNode == "" || x.target.TargetFound? || (x.target.TargetMissing? && r.deleting) ==>
              && (var e := StateEvent(name, r.state, x, victims);
                  Enabled(old(Stored()), e) && Stored() == Next(old(Stored()), e))
              && (r.state != DeletingRequest ==> name in requests && requests[name].deleting == r.deleting))
        && (r.spec.targetNode != "" && x.target.TargetMissing? && !r.deleting ==>
              match x.refused
              case None => MarkedOrGone(old(Stored()), Stored(), name)
              case Some(msg) => OnlyReported(old(Stored()), Stored(), name, msg, x.save))
        && (r.spec.targetNode != "" && x.target.TargetError? ==>
              OnlyReported(old(Stored()), Stored(), name, x.target.msg, x.save))
    {
      hide Enabled, Next, Reads, RequestDeleted;
      victims := {};
      var request := requests[name];
      var done, err := PerformGarbageCollection(name, x.target, x.refused);
      if err.Some? {
        if !x.save.Lost? { ErrorIsAnEvent(Stored(), name, err.value, x.save); }
        RequeueOnErr(name, request, err.value, x.save);
        FailReports(old(Stored()), name, err.value, x.save);
        return;
      }
      if done {
        DeletionIsAnEvent(old(Stored()), name);
        return;
      }
      victims := HandleState(name, x);
      if request.state != DeletingRequest { HandledStays(old(Stored()), name, x, victims); }
    }

    /** Takes a queued resource update and reads the resource. */
    method BeginResourceChange(name: string)
      requires name in pending && inflight.None?
      modifies this
      ensures Stored() == BeginMirror(old(Stored()), name)
    {
      pending := pending - {name};
      inflight := Some(Delivery(name, if name in resources then Some(resources[name]) else None));
    }

    /** Copies what was read into the owner's entry; an error queues the resource again. */
    method FinishResourceChange(ok: bool)
      requires inflight.Some?
      modifies this
      ensures Stored() == FinishMirror(old(Stored()), ok)
    {
      var job := inflight.value;
      inflight := None;
      if job.seen.None? || job.seen.value.detachID != "" {
        return;
      }
      var owner := job.seen.value.managedBy;
      if owner !in requests || !ok {
        pending := pending + {job.name};
        return;
      }
      var request := requests[owner];
      if job.name in request.resources {
        var entry := request.resources[job.name];
        entry := entry.(state := job.seen.value.status.state);
        entry := entry.(error := job.seen.value.status.error);
        entry := entry.(deviceID := job.seen.value.status.deviceID);
        entry := entry.(cdiDeviceID := job.seen.value.status.cdiDeviceID);
        requests := requests[owner := request.(resources := request.resources[job.name := entry])];
      }
    }

    /** A status write by the resource controller, and the predicate that queues it. */
    method ResourceStatusWritten(name: string, status: ResourceStatus)
      requires name in resources
      modifies this
      ensures Stored() == WriteResourceStatus(old(Stored()), name, status)
    {
      if status != resources[name].status {
        pending := pending + {name};
      }
      resources := resources[name := resources[name].(status := status)];
    }
  }
}
