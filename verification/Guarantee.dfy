/**
 One pass of the resource controller, seen from the cluster: a few writes to one object, each of them
 one the request controller's theorems allow for.
 */
module Guarantee {
  import opened Api
  import opened Cluster
  import opened Mirror
  import opened Composition
  import Life = ResourceLifecycle

  // What a pass may do to finalizer, deletion mark and object while the node is there.

  ghost predicate SameMarks(d: Life.Device, e: Life.Device) {
    e.of == d.of && e.deleting == d.deleting && e.finalizer == d.finalizer && e.gone == d.gone
      && e.nodeLost == d.nodeLost
  }

  lemma RecogniseMarks(d: Life.Device, a: Life.Answers)
    ensures SameMarks(d, Life.Recognise(d, a))
  {
    hide Life.Requeue, Life.Save;
  }

  lemma ReleaseMarks(kind: Life.DeviceType, d: Life.Device, a: Life.Answers)
    ensures SameMarks(d, Life.Release(kind, d, a).device)
  {
    hide Life.Taint, Life.Requeue, Life.Remove;
    var d1 := if kind == Life.Dra && Life.Taint(d, a).Tainted? then d.(taint := Life.Taint(d, a).rule) else d;
    forall calls ensures SameMarks(d1, Life.Remove(kind, d1, a, calls).device) {
      RemoveMarks(kind, d1, a, calls);
    }
  }

  lemma RemoveMarks(kind: Life.DeviceType, d: Life.Device, a: Life.Answers, calls: seq<Life.Call>)
    ensures SameMarks(d, Life.Remove(kind, d, a, calls).device)
  {
    hide Life.Requeue, Life.Forget;
    var mem := if a.note.Some? then d.status.(error := a.note.value) else d.status;
    ForgetMarks(kind, d.(status := mem), a, calls + [Life.RemoveDone(d.status.deviceID)]);
  }

  lemma ForgetMarks(kind: Life.DeviceType, d: Life.Device, a: Life.Answers, calls: seq<Life.Call>)
    ensures SameMarks(d, Life.Forget(kind, d, a, calls).device)
  {
    hide Life.Requeue, Life.Clear;
    ClearMarks(kind, d, a);
  }

  lemma ClearMarks(kind: Life.DeviceType, d: Life.Device, a: Life.Answers)
    ensures SameMarks(d, Life.Clear(kind, d, a))
  {
    hide Life.Requeue, Life.Save;
  }

  /** The ways a step may treat the object. */
  datatype Shape = Wrote | Enrolled | Marked | Left

  ghost predicate Fits(s: Shape, d: Life.Device, e: Life.Device) {
    match s
    case Wrote => SameMarks(d, e)
    case Enrolled => !d.finalizer && e.finalizer && SameMarks(d.(finalizer := true), e)
    case Marked => e == Life.Deleted(d) && !d.deleting
    case Left => d.status.state == Deleting && d.deleting && e == d.(finalizer := false, gone := true)
  }

  /**
   While the node is there: detaching and leaving are for deleted objects, and no object is left without finalizer.
   */
  ghost predicate Orderly(d: Life.Device) {
    !d.nodeLost && !d.gone ==>
      && (d.status.state == Detaching || d.status.state == Deleting ==> d.deleting)
      && (!d.finalizer ==> !d.deleting && d.status.state == Blank)
  }

  lemma HandleShape(kind: Life.DeviceType, d: Life.Device, a: Life.Answers) returns (s: Shape)
    requires Life.Sound(kind, d) && Orderly(d) && !d.gone && !d.nodeLost
    ensures Fits(s, d, Life.Handle(kind, d, a).device)
    ensures s.Marked? ==> d.of.detachID != "" && d.finalizer
  {
    hide Life.Recognise, Life.Release, Life.Requeue, Life.Save;
    var e := Life.Handle(kind, d, a).device;
    s := if e.finalizer && !d.finalizer then Enrolled else if e.deleting && !d.deleting then Marked
      else if d.finalizer && !e.finalizer then Left else Wrote;
    match d.status.state
    case Attaching =>
      RecogniseMarks(d, a);
      if a.add.Added? {
        RecogniseMarks(d.(status := d.status.(error := "", deviceID := a.add.id, cdiDeviceID := a.add.cdi)), a);
      }
    case Detaching => ReleaseMarks(kind, d, a);
    case _ =>
  }

  lemma HandleKeepsNodeLost(kind: Life.DeviceType, d: Life.Device, a: Life.Answers)
    ensures Life.Handle(kind, d, a).device.nodeLost == d.nodeLost
  {
    hide Life.Recognise, Life.Release, Life.Requeue, Life.Save;
    match d.status.state
    case Attaching =>
      RecogniseMarks(d, a);
      if a.add.Added? {
        RecogniseMarks(d.(status := d.status.(error := "", deviceID := a.add.id, cdiDeviceID := a.add.cdi)), a);
      }
    case Detaching => ReleaseMarks(kind, d, a);
    case _ =>
  }

  /** A pass whose outcome knows of no lost node was let through by the collection, or stopped by a lookup error. */
  lemma NodeWasThere(kind: Life.DeviceType, d: Life.Device, a: Life.Answers)
    requires !Life.Reconcile(kind, d, a).device.nodeLost
    ensures Life.Collect(d, a) == Life.Go(d)
      || exists msg :: Life.Collect(d, a) == Life.Stop(Life.Requeue(d, d.status, msg, a))
  {
    if d.of.spec.targetNode != "" && a.node.NodeMissing? {
      hide Life.Sweep, Life.Handle, Life.Requeue;
      Life.SweepEffect(d.(nodeLost := true, taint := None), a);
      HandleKeepsNodeLost(kind, Life.Collect(d, a).device, a);
    }
  }

  lemma ReconcileShape(kind: Life.DeviceType, d: Life.Device, a: Life.Answers) returns (s: Shape)
    requires Life.Sound(kind, d) && Orderly(d) && !d.gone && !d.nodeLost && !Life.Reconcile(kind, d, a).device.nodeLost
    ensures Fits(s, d, Life.Reconcile(kind, d, a).device)
    ensures s.Marked? ==> d.of.detachID != "" && d.finalizer
  {
    hide Life.Handle, Life.Collect, Life.Sound, Life.Requeue, Orderly;
    NodeWasThere(kind, d, a);
    s := Wrote;
    if Life.Collect(d, a) == Life.Go(d) && a.adapter.Ok? {
      s := HandleShape(kind, d, a);
    }
  }

  /**
   A step that does not see the node missing takes one of the four shapes; the controller itself marks only labelled
   resources.
   */
  lemma StepShape(kind: Life.DeviceType, d: Life.Device, m: Life.Move) returns (s: Shape)
    requires Life.Sound(kind, d) && Orderly(d) && !d.gone && !d.nodeLost && !Life.Step(kind, d, m).device.nodeLost
    ensures Fits(s, d, Life.Step(kind, d, m).device)
    ensures s.Marked? && m.Reconciled? ==> d.of.detachID != "" && d.finalizer
  {
    hide Life.Reconcile, Life.Sound;
    if m.Reconciled? {
      s := ReconcileShape(kind, d, m.answers);
    } else {
      s := if d.deleting then Wrote else Marked;
    }
  }

  lemma NodeLostStays(kind: Life.DeviceType, d: Life.Device, m: Life.Move)
    requires d.nodeLost
    ensures Life.Step(kind, d, m).device.nodeLost
  {
    if !d.gone && m.Reconciled? {
      hide Life.Collect, Life.Handle, Life.Requeue;
      Life.CollectEffect(d, m.answers);
      HandleKeepsNodeLost(kind, Life.Collect(d, m.answers).device, m.answers);
    }
  }

  lemma StepOrderly(kind: Life.DeviceType, d: Life.Device, m: Life.Move)
    requires Life.Sound(kind, d) && Orderly(d)
    ensures Orderly(Life.Step(kind, d, m).device)
  {
    hide Life.Reconcile;
    var e := Life.Step(kind, d, m).device;
    if !d.gone && !e.nodeLost {
      if d.nodeLost { NodeLostStays(kind, d, m); assert false; }
      var s := StepShape(kind, d, m);
      Life.StepSound(kind, d, m);
      hide Life.Step;
    }
  }

  lemma {:induction false} RunOrderly(kind: Life.DeviceType, d: Life.Device, moves: seq<Life.Move>)
    requires Life.Sound(kind, d) && Orderly(d)
    ensures Orderly(Life.Run(kind, d, moves))
    decreases |moves|
  {
    if moves != [] {
      hide Life.Sound, Orderly, Life.Step;
      StepOrderly(kind, d, moves[0]);
      Life.StepSound(kind, d, moves[0]);
      RunOrderly(kind, Life.Step(kind, d, moves[0]).device, moves[1..]);
    }
  }

  // What any step may do, node there or not.

  /** Objects go exactly when they are deleted and nothing holds them. */
  ghost predicate Tidy(d: Life.Device) {
    d.gone <==> d.deleting && !d.finalizer
  }

  ghost predicate Possible(d: Life.Device, e: Life.Device) {
    && e.of == d.of
    && (d.deleting ==> e.deleting)
    && (e.finalizer && !d.finalizer ==> !d.deleting && !e.deleting)
    && (d.finalizer && !e.finalizer ==> e.status.state == Deleting && e.deleting == d.deleting)
  }

  lemma SweepPossible(d: Life.Device, a: Life.Answers)
    requires Tidy(d) && !d.gone
    ensures Tidy(Life.Sweep(d, a).device) && Possible(d, Life.Sweep(d, a).device)
    ensures Life.Sweep(d, a).device.finalizer == d.finalizer
    ensures Life.Sweep(d, a).Go? ==> Life.Sweep(d, a).device == d
  {
    hide Life.Requeue;
  }

  lemma CollectPossible(d: Life.Device, a: Life.Answers)
    requires Tidy(d) && !d.gone
    ensures Tidy(Life.Collect(d, a).device) && Possible(d, Life.Collect(d, a).device)
    ensures Life.Collect(d, a).device.finalizer == d.finalizer
    ensures Life.Collect(d, a).Go? ==>
      Life.Collect(d, a).device.deleting == d.deleting && !Life.Collect(d, a).device.gone
  {
    hide Life.Requeue, Life.Sweep;
    SweepPossible(d.(nodeLost := true, taint := None), a);
  }

  lemma HandlePossible(kind: Life.DeviceType, d: Life.Device, a: Life.Answers)
    requires Tidy(d) && !d.gone
    ensures Tidy(Life.Handle(kind, d, a).device) && Possible(d, Life.Handle(kind, d, a).device)
  {
    hide Life.Recognise, Life.Release, Life.Requeue, Life.Save;
    match d.status.state
    case Attaching =>
      RecogniseMarks(d, a);
      if a.add.Added? {
        RecogniseMarks(d.(status := d.status.(error := "", deviceID := a.add.id, cdiDeviceID := a.add.cdi)), a);
      }
    case Detaching => ReleaseMarks(kind, d, a);
    case _ =>
  }

  lemma StepPossible(kind: Life.DeviceType, d: Life.Device, m: Life.Move)
    requires Tidy(d) && !d.gone
    ensures Tidy(Life.Step(kind, d, m).device) && Possible(d, Life.Step(kind, d, m).device)
  {
    hide Life.Collect, Life.Handle, Life.Requeue;
    if m.Reconciled? {
      CollectPossible(d, m.answers);
      if Life.Collect(d, m.answers).Go? {
        HandlePossible(kind, Life.Collect(d, m.answers).device, m.answers);
      }
    }
  }

  lemma {:induction false} RunTidy(kind: Life.DeviceType, d: Life.Device, moves: seq<Life.Move>)
    requires Tidy(d)
    ensures Tidy(Life.Run(kind, d, moves))
    decreases |moves|
  {
    if moves != [] {
      if !d.gone { StepPossible(kind, d, moves[0]); }
      RunTidy(kind, Life.Step(kind, d, moves[0]).device, moves[1..]);
    }
  }

  // The same step as events of the cluster.

  /** The stored object and the lifecycle's view of it agree. */
  ghost predicate Shows(r: Resource, d: Life.Device) {
    && r.spec == d.of.spec && r.detachID == d.of.detachID && r.detachCdiID == d.of.detachCdiID
    && r.status == d.status && r.deleting == d.deleting && r.finalizer == d.finalizer
  }

  /** The store after a step that leaves `e` of the object; a changed status queues it. */
  function Stored(w: World, n: string, e: Life.Device): World
    requires n in w.resources
  {
    w.(resources := if e.gone then w.resources - {n}
                    else w.resources[n := w.resources[n].(status := e.status, deleting := e.deleting,
                                                          finalizer := e.finalizer)],
       pending := if e.status != w.resources[n].status then w.pending + {n} else w.pending)
  }

  /** The writes that take the object from one view to the next. */
  function Echo(n: string, d: Life.Device, e: Life.Device): seq<Event> {
    if e.finalizer && !d.finalizer then [AddFinalizer(n), WriteStatus(n, e.status)]
    else if e.deleting && !d.deleting then [WriteStatus(n, e.status), DeleteResource(n)]
    else if d.finalizer && !e.finalizer then [WriteStatus(n, e.status), DropFinalizer(n)]
    else [WriteStatus(n, e.status)]
  }

  /** The worlds in which a step on `n` makes its writes. */
  ghost predicate AtWork(w: World, w': World, n: string) {
    w'.requests == w.requests && n in w.resources && n in w'.resources
      && w'.resources[n].deleting == w.resources[n].deleting
  }

  lemma WriteRuns(w: World, n: string, d: Life.Device, e: Life.Device)
    requires n in w.resources && Shows(w.resources[n], d) && !e.gone && e.deleting == d.deleting
    requires e.finalizer == d.finalizer
    ensures Enabled(w, WriteStatus(n, e.status)) && Next(w, WriteStatus(n, e.status)) == Stored(w, n, e)
  {
  }

  lemma EnrolRuns(w: World, n: string, d: Life.Device, e: Life.Device)
    requires n in w.resources && Shows(w.resources[n], d) && !d.deleting && !d.finalizer && !e.gone && !e.deleting
    requires e.finalizer
    ensures Enabled(w, AddFinalizer(n))
    ensures var w1 := Next(w, AddFinalizer(n));
      AtWork(w, w1, n) && Enabled(w1, WriteStatus(n, e.status)) && Next(w1, WriteStatus(n, e.status)) == Stored(w, n, e)
  {
  }

  lemma MarkRuns(w: World, n: string, d: Life.Device, e: Life.Device)
    requires n in w.resources && Shows(w.resources[n], d) && e.deleting && e.finalizer == d.finalizer
    requires (e.gone <==> !e.finalizer)
    ensures Enabled(w, WriteStatus(n, e.status))
    ensures var w1 := Next(w, WriteStatus(n, e.status));
      AtWork(w, w1, n) && Enabled(w1, DeleteResource(n)) && Next(w1, DeleteResource(n)) == Stored(w, n, e)
  {
  }

  lemma LeaveRuns(w: World, n: string, d: Life.Device, e: Life.Device)
    requires n in w.resources && Shows(w.resources[n], d) && e.status.state == Deleting && !e.finalizer
    requires e.deleting == d.deleting == e.gone
    ensures Enabled(w, WriteStatus(n, e.status))
    ensures var w1 := Next(w, WriteStatus(n, e.status));
      AtWork(w, w1, n) && Enabled(w1, DropFinalizer(n)) && Next(w1, DropFinalizer(n)) == Stored(w, n, e)
  {
  }

  /** Whatever a step does, the cluster's own events do it too. */
  lemma EchoRuns(w: World, n: string, d: Life.Device, e: Life.Device, fair: (World, Event) -> bool)
    requires n in w.resources && Shows(w.resources[n], d) && !d.gone && Tidy(d) && Tidy(e) && Possible(d, e)
    requires forall w', ev :: AtWork(w, w', n) && ev in Echo(n, d, e) ==> fair(w', ev)
    ensures Legal(w, Echo(n, d, e), fair) && Run(w, Echo(n, d, e), fair) == Stored(w, n, e)
  {
    hide Legal, Run, Enabled, Next, Stored;
    var write := WriteStatus(n, e.status);
    assert AtWork(w, w, n) && write in Echo(n, d, e);
    if e.finalizer && !d.finalizer {
      assert AddFinalizer(n) in Echo(n, d, e);
      EnrolRuns(w, n, d, e);
      Two(w, AddFinalizer(n), write, fair);
    } else if e.deleting && !d.deleting {
      assert DeleteResource(n) in Echo(n, d, e);
      MarkRuns(w, n, d, e);
      Two(w, write, DeleteResource(n), fair);
    } else if d.finalizer && !e.finalizer {
      assert DropFinalizer(n) in Echo(n, d, e);
      LeaveRuns(w, n, d, e);
      Two(w, write, DropFinalizer(n), fair);
    } else {
      WriteRuns(w, n, d, e);
      One(w, write, fair);
    }
  }

  /** The device is where some run of the resource controller has brought it. */
  ghost predicate Reached(kind: Life.DeviceType, e: Life.Device) {
    exists d, moves :: Life.Created(d) && Life.Run(kind, d, moves) == e
  }

  lemma ReachedFacts(kind: Life.DeviceType, e: Life.Device)
    requires Reached(kind, e)
    ensures Life.Sound(kind, e) && Orderly(e) && Tidy(e)
  {
    var d, moves :| Life.Created(d) && Life.Run(kind, d, moves) == e;
    Life.RunSound(kind, d, moves);
    RunOrderly(kind, d, moves);
    RunTidy(kind, d, moves);
  }

  lemma StepReached(kind: Life.DeviceType, e: Life.Device, m: Life.Move)
    requires Reached(kind, e)
    ensures Reached(kind, Life.Step(kind, e, m).device)
  {
    var d, moves :| Life.Created(d) && Life.Run(kind, d, moves) == e;
    Life.RunSplits(kind, d, moves, [m]);
    assert Life.Run(kind, e, [m]) == Life.Run(kind, Life.Step(kind, e, m).device, [m][1..]);
    assert Life.Run(kind, d, moves + [m]) == Life.Step(kind, e, m).device;
  }

  /**
   Whatever a reconcile of a resource does, under any failures and with its node there or not, is a run of
   the cluster's own events.
   */
  lemma ReconcileIsARun(w: World, n: string, kind: Life.DeviceType, d: Life.Device, a: Life.Answers,
                        fair: (World, Event) -> bool)
    requires n in w.resources && Reached(kind, d) && !d.gone && Shows(w.resources[n], d)
    requires var e := Life.Step(kind, d, Life.Reconciled(a)).device;
      forall w', ev :: AtWork(w, w', n) && ev in Echo(n, d, e) ==> fair(w', ev)
    ensures var e := Life.Step(kind, d, Life.Reconciled(a)).device;
      Legal(w, Echo(n, d, e), fair) && Run(w, Echo(n, d, e), fair) == Stored(w, n, e)
  {
    ReachedFacts(kind, d);
    StepPossible(kind, d, Life.Reconciled(a));
    hide Life.Step, Legal, Run, Possible, Tidy, Echo, Stored, Shows, Reached;
    EchoRuns(w, n, d, Life.Step(kind, d, Life.Reconciled(a)).device, fair);
  }

  lemma ShapeIsObedient(w: World, w': World, n: string, d: Life.Device, e: Life.Device, s: Shape, ev: Event)
    requires AtWork(w, w', n) && Shows(w.resources[n], d) && !d.gone && Fits(s, d, e) && Orderly(d) && Orderly(e)
    requires !d.nodeLost && !e.nodeLost
    requires s.Marked? ==> forall m :: !TracksBy(w, m, n)
    requires ev in Echo(n, d, e)
    ensures Obedient(w', ev)
  {
    if ev == DeleteResource(n) {
      assert s.Marked?;
      assert forall m :: TracksBy(w', m, n) ==> TracksBy(w, m, n);
    }
  }

  /**
   While its node is there, each of these events keeps to what the request controller's theorems assume:
   the resource controller is an obedient environment.
   */
  lemma ReconcileIsObedient(w: World, n: string, kind: Life.DeviceType, d: Life.Device, a: Life.Answers)
    requires Coherent(w) && n in w.resources && Reached(kind, d) && !d.gone && Shows(w.resources[n], d)
    requires !Life.Step(kind, d, Life.Reconciled(a)).device.nodeLost
    ensures var e := Life.Step(kind, d, Life.Reconciled(a)).device;
      forall w', ev :: AtWork(w, w', n) && ev in Echo(n, d, e) ==> Obedient(w', ev)
  {
    var m := Life.Reconciled(a);
    ReachedFacts(kind, d);
    if d.nodeLost { NodeLostStays(kind, d, m); assert false; }
    var s := StepShape(kind, d, m);
    StepOrderly(kind, d, m);
    hide Life.Step, Life.Sound, Reached;
    var e := Life.Step(kind, d, m).device;
    assert s.Marked? ==> forall k :: !TracksBy(w, k, n);
    forall w', ev | AtWork(w, w', n) && ev in Echo(n, d, e) ensures Obedient(w', ev) {
      ShapeIsObedient(w, w', n, d, e, s, ev);
    }
  }
}
