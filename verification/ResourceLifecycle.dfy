/**
 One pass of the resource controller over one ComposableResource. Every call that can fail is answered
 by the environment; a status write that fails is retried once by requeueOnErr with the whole
 in-memory status and the error text.
 */
module ResourceLifecycle {
  import opened Api

  /** DEVICE_RESOURCE_TYPE, fixed for the life of the process. */
  datatype DeviceType = DevicePlugin | Dra

  datatype Reply = Ok | Err(msg: string)
  datatype NodeReply = NodeFound | NodeMissing | NodeError(msg: string)
  datatype AddReply = Added(id: string, cdi: string) | AddWaiting | AddError(msg: string)
  datatype RemoveReply = Removed | RemoveWaiting | RemoveError(msg: string)
  datatype VisibleReply = Visible(yes: bool) | VisibleError(msg: string)

  /** ResourceSlices as far as the search for a device's uuid attribute reads them. */
  datatype SliceDevice = SliceDevice(name: string, uuid: Option<string>)
  datatype Slice = Slice(driver: string, pool: string, devices: seq<SliceDevice>)

  /** A DeviceTaintRule: the device it selects and the device id it carries as its value. */
  datatype Rule = Rule(driver: string, pool: string, device: string, uuid: string)
  datatype Tainting = Tainted(rule: Option<Rule>) | TaintError(msg: string)

  /** The environment's answers for one pass; `retry` is the fate of requeueOnErr's own write. */
  datatype Answers = Answers(
    node: NodeReply, taintLookup: Reply, untaint: Reply, adapter: Reply, delete: Reply, finalizer: Reply,
    add: AddReply, restart1: Reply, restart2: Reply, visible: VisibleReply, check: Reply,
    load: Reply, taintGet: Reply, sliceList: Reply, slices: seq<Slice>, taintCreate: Reply, drain: Reply,
        note: Option<string>, remove: RemoveReply,
    write1: Reply, write2: Reply, write3: Reply, write4: Reply, retry: bool)

  /** What never changes about a resource: its spec and the labels the syncer may have given it. */
  datatype Origin = Origin(spec: ResourceSpec, detachID: string, detachCdiID: string)

  /** The stored object, its taint rule, and whether its node was ever seen missing. */
  datatype Device = Device(of: Origin, status: ResourceStatus, deleting: bool, finalizer: bool, gone: bool,
                           taint: Option<Rule>, nodeLost: bool)

  /** The calls that matter for the order of a detach, as they succeed or are made. */
  datatype Call =
    | AddCalled | LoadPassed | TaintPassed | Drained | RemoveCalled(id: string) | RemoveDone(id: string) | SeenGone

  datatype Pass = Pass(device: Device, calls: seq<Call>)

  function Requeue(d: Device, mem: ResourceStatus, msg: string, a: Answers): (r: Device)
    ensures r == d || r == d.(status := mem.(error := msg))
  {
    if a.retry then d.(status := mem.(error := msg)) else d
  }

  /** A status write whose failure ends the pass in requeueOnErr. */
  function Save(d: Device, mem: ResourceStatus, write: Reply, a: Answers): (r: Device)
    ensures r == d || r == d.(status := mem.(error := r.status.error))
  {
    match write
    case Ok => d.(status := mem)
    case Err(msg) => Requeue(d, mem, msg, a)
  }

  function Deleted(d: Device): Device {
    if d.finalizer then d.(deleting := true) else d.(deleting := true, gone := true)
  }

  datatype Collection = Stop(device: Device) | Go(device: Device)

  /** Garbage collection when the target node has vanished. */
  function Collect(d: Device, a: Answers): Collection {
    if d.of.spec.targetNode == "" then Go(d)
    else match a.node
      case NodeFound => Go(d)
      case NodeError(msg) => Stop(Requeue(d, d.status, msg, a))
      case NodeMissing =>
        var d1 := d.(nodeLost := true);
        if a.taintLookup.Err? then Stop(Requeue(d1, d.status, a.taintLookup.msg, a))
        else if d.taint.Some? && a.untaint.Err? then Stop(Requeue(d1, d.status, a.untaint.msg, a))
        else Sweep(d1.(taint := None), a)
  }

  /** The rest of the collection, with the taint rule gone: Deleting is recorded and the object deleted. */
  function Sweep(d: Device, a: Answers): Collection {
    var mem := d.status.(state := Deleting, error := "target node " + d.of.spec.targetNode + " not found");
    if d.status.state != Deleting && a.write1.Err? then Stop(Requeue(d, mem, a.write1.msg, a))
    else
      var d2 := if d.status.state != Deleting then d.(status := mem) else d;
      if !d.deleting && a.delete.Err? then Stop(Requeue(d2, d2.status, a.delete.msg, a))
      else if !d.deleting then Stop(Deleted(d2))
      else if d.status.state != Deleting then Stop(d2)
      else Go(d2)
  }

  function NoneStep(d: Device, a: Answers): Pass {
    if !d.finalizer && a.finalizer.Err? then Pass(Requeue(d, d.status, a.finalizer.msg, a), [])
    else
      var mem := if d.of.detachID == "" then d.status
                 else if d.of.detachCdiID == "" then d.status.(deviceID := d.of.detachID)
                 else d.status.(deviceID := d.of.detachID, cdiDeviceID := d.of.detachCdiID);
      Pass(Save(d.(finalizer := true), mem.(state := Attaching, error := ""), a.write1, a), [])
  }

  /** The two daemonset or driver steps whose failure is only noted, then the visibility test. */
  function Recognise(d: Device, a: Answers): Device {
    var mem1 := if a.restart1.Err? then d.status.(error := a.restart1.msg) else d.status;
    if a.restart1.Err? && a.write2.Err? then Requeue(d, mem1, a.write2.msg, a)
    else
      var mem2 := if a.restart2.Err? then mem1.(error := a.restart2.msg) else mem1;
      if a.restart2.Err? && a.write3.Err? then Requeue(d.(status := mem1), mem2, a.write3.msg, a)
      else
        var d2 := d.(status := mem2);
        match a.visible
        case VisibleError(msg) => Requeue(d2, mem2, msg, a)
        case Visible(yes) => if yes then Save(d2, mem2.(state := Online, error := ""), a.write4, a) else d2
  }

  function AttachStep(d: Device, a: Answers): Pass {
    if d.deleting && d.status.deviceID == "" then Pass(Save(d, d.status.(state := Deleting), a.write1, a), [])
    else if d.deleting && d.status.error != "" then Pass(Save(d, d.status.(state := Detaching), a.write1, a), [])
    else if d.status.deviceID != "" then Pass(Recognise(d, a), [])
    else match a.add
      case AddWaiting => Pass(d, [AddCalled])
      case AddError(msg) => Pass(Requeue(d, d.status, msg, a), [AddCalled])
      case Added(id, cdi) =>
        var mem := d.status.(error := "", deviceID := id, cdiDeviceID := cdi);
        if a.write1.Err? then Pass(Requeue(d, mem, a.write1.msg, a), [AddCalled])
        else Pass(Recognise(d.(status := mem), a), [AddCalled])
  }

  function OnlineStep(d: Device, a: Answers): Pass {
    if d.deleting then Pass(Save(d, d.status.(state := Detaching), a.write1, a), [])
    else if d.of.detachID != "" then
      if a.delete.Err? then Pass(Requeue(d, d.status, a.delete.msg, a), []) else Pass(Deleted(d), [])
    else Pass(Save(d, d.status.(error := if a.check.Err? then a.check.msg else ""), a.write1, a), [])
  }

  function FindDevice(devices: seq<SliceDevice>, uuid: string): (r: Option<string>)
    decreases |devices|
  {
    if devices == [] then None
    else if devices[0].uuid == Some(uuid) then Some(devices[0].name)
    else FindDevice(devices[1..], uuid)
  }

  /** The first device of the listed slices with that uuid. */
  function FindRule(slices: seq<Slice>, uuid: string): (r: Option<Rule>)
    ensures r.Some? ==> r.value.uuid == uuid
    decreases |slices|
  {
    if slices == [] then None
    else match FindDevice(slices[0].devices, uuid)
      case Some(name) => Some(Rule(slices[0].driver, slices[0].pool, name, uuid))
      case None => FindRule(slices[1..], uuid)
  }

  /** CreateDeviceTaint: an existing rule is kept, a device without a name in the slices gets none. */
  function Taint(d: Device, a: Answers): (r: Tainting)
    ensures r.Tainted? && r.rule.Some? ==> r.rule == d.taint || r.rule.value.uuid == d.status.deviceID
  {
    if a.taintGet.Err? then TaintError(a.taintGet.msg)
    else if d.taint.Some? then Tainted(d.taint)
    else if a.sliceList.Err? then TaintError(a.sliceList.msg)
    else
      var rule := FindRule(a.slices, d.status.deviceID);
      if rule.None? || rule.value.device == "" then Tainted(None)
      else if a.taintCreate.Err? then TaintError(a.taintCreate.msg)
      else Tainted(rule)
  }

  /** The detach proper, entered with the device still recorded. */
  function Release(kind: DeviceType, d: Device, a: Answers): Pass {
    var id := d.status.deviceID;
    var loads := if d.of.spec.forceDetach then [] else [LoadPassed];
    if !d.of.spec.forceDetach && a.load.Err? then Pass(Requeue(d, d.status, a.load.msg, a), [])
    else if kind == Dra && Taint(d, a).TaintError? then Pass(Requeue(d, d.status, Taint(d, a).msg, a), loads)
    else
      var d1 := if kind == Dra then d.(taint := Taint(d, a).rule) else d;
      var tainted := if kind == Dra then loads + [TaintPassed] else loads;
      if a.drain.Err? then Pass(Requeue(d1, d.status, a.drain.msg, a), tainted)
      else Remove(kind, d1, a, tainted + [Drained, RemoveCalled(id)])
  }

  /** RemoveResource, which may first record a note of its own in the status. */
  function Remove(kind: DeviceType, d: Device, a: Answers, calls: seq<Call>): Pass {
    var mem := if a.note.Some? then d.status.(error := a.note.value) else d.status;
    if a.note.Some? && a.write1.Err? then Pass(Requeue(d, mem, a.write1.msg, a), calls)
    else match a.remove
      case RemoveWaiting => Pass(d.(status := mem), calls)
      case RemoveError(msg) => Pass(Requeue(d.(status := mem), mem, msg, a), calls)
      case Removed => Forget(kind, d.(status := mem), a, calls + [RemoveDone(d.status.deviceID)])
  }

  /** After a successful removal: the device must be invisible before its id and its taint go. */
  function Forget(kind: DeviceType, d: Device, a: Answers, calls: seq<Call>): Pass {
    if a.restart1.Err? then Pass(Requeue(d, d.status, a.restart1.msg, a), calls)
    else if kind == DevicePlugin && a.restart2.Err? then Pass(Requeue(d, d.status, a.restart2.msg, a), calls)
    else match a.visible
      case VisibleError(msg) => Pass(Requeue(d, d.status, msg, a), calls)
      case Visible(yes) =>
        if yes then Pass(d, calls) else Pass(Clear(kind, d, a), calls + [SeenGone])
  }

  /** The end of a detach: the taint rule, the device id, the state. */
  function Clear(kind: DeviceType, d: Device, a: Answers): Device {
    if kind == Dra && a.untaint.Err? then Requeue(d, d.status, a.untaint.msg, a)
    else
      var d1 := if kind == Dra then d.(taint := None) else d;
      var mem := d.status.(error := "", deviceID := "", cdiDeviceID := "");
      if a.write2.Err? then Requeue(d1, mem, a.write2.msg, a)
      else Save(d1.(status := mem), mem.(state := Deleting), a.write3, a)
  }

  function DetachStep(kind: DeviceType, d: Device, a: Answers): Pass {
    if d.status.deviceID != "" then Release(kind, d, a)
    else Pass(Save(d, d.status.(state := Deleting), a.write3, a), [])
  }

  function DeleteStep(d: Device, a: Answers): Pass {
    if a.finalizer.Err? then Pass(Requeue(d, d.status, a.finalizer.msg, a), [])
    else Pass(d.(finalizer := false, gone := d.deleting), [])
  }

  function Handle(kind: DeviceType, d: Device, a: Answers): Pass {
    match d.status.state
    case Blank => NoneStep(d, a)
    case Attaching => AttachStep(d, a)
    case Online => OnlineStep(d, a)
    case Detaching => DetachStep(kind, d, a)
    case Deleting => DeleteStep(d, a)
    case Named(_) => Pass(d, [])
  }

  function Reconcile(kind: DeviceType, d: Device, a: Answers): Pass {
    match Collect(d, a)
    case Stop(d1) => Pass(d1, [])
    case Go(d1) => if a.adapter.Err? then Pass(Requeue(d1, d1.status, a.adapter.msg, a), []) else Handle(kind, d1, a)
  }

  // Runs: passes with any answers, and deletions by others in between.

  datatype Move = Reconciled(answers: Answers) | MarkedDeleted

  function Step(kind: DeviceType, d: Device, m: Move): Pass {
    if d.gone then Pass(d, [])
    else match m
      case Reconciled(a) => Reconcile(kind, d, a)
      case MarkedDeleted => Pass(Deleted(d), [])
  }

  function Run(kind: DeviceType, d: Device, moves: seq<Move>): Device
    decreases |moves|
  {
    if moves == [] then d else Run(kind, Step(kind, d, moves[0]).device, moves[1..])
  }

  /** A pass in which every write and every check succeeds. */
  function Untroubled(node: NodeReply, add: AddReply, visible: bool, remove: RemoveReply): Answers {
    Answers(node, Ok, Ok, Ok, Ok, Ok, add, Ok, Ok, Visible(visible), Ok,
            Ok, Ok, Ok, [], Ok, Ok, None, remove, Ok, Ok, Ok, Ok, true)
  }

  function Fresh(of: Origin): Device {
    Device(of, NO_STATUS, false, false, false, None, false)
  }

  /** A resource as it is created. */
  predicate Created(d: Device) {
    d.status == NO_STATUS && !d.deleting && !d.finalizer && !d.gone && d.taint.None? && !d.nodeLost
  }

  function Rank(s: State): nat {
    match s
    case Blank => 0
    case Attaching => 1
    case Online => 2
    case Detaching => 3
    case Deleting => 4
    case Named(_) => 5
  }

  // What each part of a pass may do to the state, the recorded device and the taint rule.

  ghost predicate Frame(d: Device, d': Device) {
    && d'.of == d.of
    && (d.nodeLost ==> d'.nodeLost) && (d.deleting ==> d'.deleting) && (d.gone ==> d'.gone)
    && (d'.gone ==> d.gone || !d'.finalizer) && (d.finalizer ==> d'.finalizer)
  }

  ghost predicate To(d: Device, s: State, id: string) {
    d.status.state == s && d.status.deviceID == id
  }

  lemma SweepEffect(d: Device, a: Answers)
    ensures var c := Sweep(d, a); var e := c.device;
      && Frame(d, e) && e.nodeLost == d.nodeLost && e.taint == d.taint
      && (c.Go? ==> e == d)
      && (To(e, d.status.state, d.status.deviceID) || To(e, Deleting, d.status.deviceID))
  {
    hide Requeue;
  }

  lemma CollectEffect(d: Device, a: Answers)
    ensures var c := Collect(d, a); var e := c.device;
      && Frame(d, e)
      && (c.Go? ==> e.status == d.status && e.deleting == d.deleting && e.gone == d.gone && e.finalizer == d.finalizer)
      && (e.taint == d.taint || e.taint.None?)
      && (To(e, d.status.state, d.status.deviceID)
          || (To(e, Deleting, d.status.deviceID) && e.nodeLost && e.taint.None?))
  {
    hide Requeue, Sweep;
    SweepEffect(d.(nodeLost := true, taint := None), a);
  }

  lemma NoneEffect(d: Device, a: Answers)
    requires d.status.state == Blank
    ensures var p := NoneStep(d, a); var e := p.device;
      && Frame(d, e) && e.taint == d.taint && p.calls == []
      && (To(e, Blank, d.status.deviceID)
          || (To(e, Attaching, if d.of.detachID == "" then d.status.deviceID else d.of.detachID) && e.finalizer))
  {
    hide Requeue, Save;
  }

  lemma RecogniseEffect(d: Device, a: Answers)
    requires d.status.state == Attaching
    ensures var e := Recognise(d, a);
      Frame(d, e) && e.taint == d.taint && (To(e, Attaching, d.status.deviceID) || To(e, Online, d.status.deviceID))
  {
    hide Requeue, Save;
  }

  lemma AttachEffect(d: Device, a: Answers)
    requires d.status.state == Attaching
    ensures var p := AttachStep(d, a); var e := p.device;
      && Frame(d, e) && e.taint == d.taint
      && p.calls == (if d.status.deviceID == "" && !d.deleting then [AddCalled] else [])
      && (e.status.state == Attaching || e.status.state == Online
          || (d.deleting && (e.status.state == Detaching || e.status.state == Deleting)))
      && (d.status.deviceID != "" ==> e.status.deviceID == d.status.deviceID && e.status.state != Deleting)
      && (e.status.state == Deleting ==> e.status.deviceID == "")
  {
    hide Requeue, Save, Recognise;
    if !d.deleting && d.status.deviceID == "" && a.add.Added? {
      RecogniseEffect(d.(status := d.status.(error := "", deviceID := a.add.id, cdiDeviceID := a.add.cdi)), a);
    } else if d.status.deviceID != "" {
      RecogniseEffect(d, a);
    }
  }

  lemma OnlineEffect(d: Device, a: Answers)
    requires d.status.state == Online
    ensures var p := OnlineStep(d, a); var e := p.device;
      && Frame(d, e) && e.taint == d.taint && p.calls == []
      && (To(e, Online, d.status.deviceID) || (d.deleting && To(e, Detaching, d.status.deviceID)))
  {
    hide Requeue, Save;
  }

  lemma ClearEffect(kind: DeviceType, d: Device, a: Answers)
    requires d.status.state == Detaching
    ensures var e := Clear(kind, d, a);
      && Frame(d, e) && (e.taint == d.taint || e.taint.None?)
      && (To(e, Detaching, d.status.deviceID)
          || (e.status.deviceID == "" && (e.status.state == Detaching || e.status.state == Deleting)
              && (kind == Dra ==> e.taint.None?)))
  {
    hide Requeue, Save;
  }

  lemma ForgetDevice(kind: DeviceType, d: Device, a: Answers, calls: seq<Call>)
    requires d.status.state == Detaching
    ensures var e := Forget(kind, d, a, calls).device;
      && Frame(d, e) && (e.taint == d.taint || e.taint.None?)
      && (To(e, Detaching, d.status.deviceID)
          || (e.status.deviceID == "" && (e.status.state == Detaching || e.status.state == Deleting)
              && (kind == Dra ==> e.taint.None?)))
  {
    hide Requeue, Clear;
    ClearEffect(kind, d, a);
  }

  lemma ForgetCalls(kind: DeviceType, d: Device, a: Answers, calls: seq<Call>)
    ensures var p := Forget(kind, d, a, calls);
      p.calls == calls + [SeenGone] || (p.calls == calls && p.device.status.deviceID == d.status.deviceID)
  {
    hide Clear;
  }

  /** The script a pass follows up to and including its RemoveResource call. */
  function Protocol(kind: DeviceType, forced: bool, id: string): seq<Call> {
    (if forced then [] else [LoadPassed]) + (if kind == Dra then [TaintPassed] else []) + [Drained, RemoveCalled(id)]
  }

  /** The calls of a pass that stops before RemoveResource. */
  ghost predicate Early(calls: seq<Call>) {
    forall i :: 0 <= i < |calls| ==> calls[i] == LoadPassed || calls[i] == TaintPassed
  }

  /** A rule after a detach pass is the one there was or one that carries the recorded device. */
  ghost predicate Taints(kind: DeviceType, d: Device, e: Device) {
    e.taint.Some? ==> e.taint == d.taint || (kind == Dra && e.taint.value.uuid == d.status.deviceID)
  }

  lemma RemoveDevice(kind: DeviceType, d: Device, a: Answers, calls: seq<Call>)
    requires d.status.state == Detaching
    ensures var e := Remove(kind, d, a, calls).device;
      && Frame(d, e) && (e.taint == d.taint || e.taint.None?)
      && (To(e, Detaching, d.status.deviceID)
          || (e.status.deviceID == "" && (e.status.state == Detaching || e.status.state == Deleting)
              && (kind == Dra ==> e.taint.None?)))
  {
    hide Requeue, Forget;
    var mem := if a.note.Some? then d.status.(error := a.note.value) else d.status;
    ForgetDevice(kind, d.(status := mem), a, calls + [RemoveDone(d.status.deviceID)]);
  }

  lemma RemoveCalls(kind: DeviceType, d: Device, a: Answers, calls: seq<Call>)
    ensures var p := Remove(kind, d, a, calls); var done := RemoveDone(d.status.deviceID);
      || p.calls == calls + [done, SeenGone]
      || ((p.calls == calls || p.calls == calls + [done]) && p.device.status.deviceID == d.status.deviceID)
  {
    hide Forget;
    var mem := if a.note.Some? then d.status.(error := a.note.value) else d.status;
    var done := RemoveDone(d.status.deviceID);
    ForgetCalls(kind, d.(status := mem), a, calls + [done]);
    assert calls + [done] + [SeenGone] == calls + [done, SeenGone];
  }

  lemma ReleaseEffect(kind: DeviceType, d: Device, a: Answers)
    requires d.status.state == Detaching
    ensures var e := Release(kind, d, a).device;
      && Frame(d, e) && Taints(kind, d, e)
      && (To(e, Detaching, d.status.deviceID)
          || (e.status.deviceID == "" && (e.status.state == Detaching || e.status.state == Deleting)
              && (kind == Dra ==> e.taint.None?)))
  {
    hide Remove, Requeue, Taint;
    if kind == Dra ==> Taint(d, a).Tainted? {
      var id := d.status.deviceID;
      var loads := if d.of.spec.forceDetach then [] else [LoadPassed];
      var tainted := if kind == Dra then loads + [TaintPassed] else loads;
      RemoveDevice(kind, if kind == Dra then d.(taint := Taint(d, a).rule)
        else d, a, tainted + [Drained, RemoveCalled(id)]);
    }
  }

  /** The calls of a detach pass: cut short, or the whole script up to the removal and maybe beyond. */
  lemma ReleaseScript(kind: DeviceType, d: Device, a: Answers)
    ensures var p := Release(kind, d, a); var id := d.status.deviceID;
      var script := Protocol(kind, d.of.spec.forceDetach, id);
      || p.calls == script + [RemoveDone(id), SeenGone]
      || ((Early(p.calls) || p.calls == script || p.calls == script + [RemoveDone(id)])
          && p.device.status.deviceID == id)
  {
    hide Remove, Taint;
    if kind == Dra ==> Taint(d, a).Tainted? {
      var id := d.status.deviceID;
      var loads := if d.of.spec.forceDetach then [] else [LoadPassed];
      var tainted := if kind == Dra then loads + [TaintPassed] else loads;
      assert Protocol(kind, d.of.spec.forceDetach, id) == tainted + [Drained, RemoveCalled(id)];
      RemoveCalls(kind, if kind == Dra then d.(taint := Taint(d, a).rule)
        else d, a, tainted + [Drained, RemoveCalled(id)]);
    }
  }

  /**
   What every pass keeps: the taint lives only while detaching a recorded device, Deleting means nothing is recorded.
   */
  ghost predicate Sound(kind: DeviceType, d: Device) {
    && !d.status.state.Named?
    && (d.taint.Some? ==> kind == Dra && d.status.state == Detaching)
    && (d.taint.Some? ==> d.status.deviceID != "" && d.taint.value.uuid == d.status.deviceID)
    && (d.status.state == Deleting ==> d.status.deviceID == "" || d.nodeLost)
    && (d.status.state == Blank ==> d.status.deviceID == "")
    && (d.status.state == Attaching || d.status.state == Online || d.status.state == Detaching ==> d.finalizer)
    && (d.gone ==> !d.finalizer)
  }

  /** Progress of one step: rank, the reasons for leaving, and what is kept. */
  ghost predicate Advances(d: Device, d': Device) {
    && d'.of == d.of
    && Rank(d.status.state) <= Rank(d'.status.state)
    && (Rank(d.status.state) < Rank(Detaching) <= Rank(d'.status.state) ==> d.deleting || d'.nodeLost)
  }

  lemma HandleSound(kind: DeviceType, d: Device, a: Answers)
    requires Sound(kind, d) && !d.gone
    ensures Sound(kind, Handle(kind, d, a).device) && Advances(d, Handle(kind, d, a).device)
  {
    hide NoneStep, AttachStep, OnlineStep, Release, Requeue, Save;
    match d.status.state
    case Blank => NoneEffect(d, a);
    case Attaching => AttachEffect(d, a);
    case Online => OnlineEffect(d, a);
    case Detaching => if d.status.deviceID != "" { ReleaseEffect(kind, d, a); }
    case Deleting =>
  }

  lemma StepSound(kind: DeviceType, d: Device, m: Move)
    requires Sound(kind, d)
    ensures Sound(kind, Step(kind, d, m).device) && Advances(d, Step(kind, d, m).device)
  {
    hide Handle, Collect, Requeue;
    if !d.gone && m.Reconciled? {
      CollectEffect(d, m.answers);
      if Collect(d, m.answers).Go? {
        HandleSound(kind, Collect(d, m.answers).device, m.answers);
      }
    }
  }

  lemma {:induction false} RunSound(kind: DeviceType, d: Device, moves: seq<Move>)
    requires Sound(kind, d)
    ensures Sound(kind, Run(kind, d, moves)) && Rank(d.status.state) <= Rank(Run(kind, d, moves).status.state)
    decreases |moves|
  {
    if moves != [] {
      StepSound(kind, d, moves[0]);
      RunSound(kind, Step(kind, d, moves[0]).device, moves[1..]);
    }
  }

  lemma {:induction false} RunSplits(kind: DeviceType, d: Device, before: seq<Move>, after: seq<Move>)
    ensures Run(kind, d, before + after) == Run(kind, Run(kind, d, before), after)
    decreases |before|
  {
    if before == [] {
      assert before + after == after;
    } else {
      assert (before + after)[1..] == before[1..] + after;
      RunSplits(kind, Step(kind, d, before[0]).device, before[1..], after);
    }
  }

  /** Under arbitrary failures the state never goes back: between any two moments of any run. */
  lemma StateNeverGoesBack(kind: DeviceType, d: Device, before: seq<Move>, after: seq<Move>)
    requires Created(d)
    ensures Rank(Run(kind, d, before).status.state) <= Rank(Run(kind, d, before + after).status.state)
  {
    RunSound(kind, d, before);
    RunSound(kind, Run(kind, d, before), after);
    RunSplits(kind, d, before, after);
  }

  /**
   No device is lost: the finalizer is missing, the object gone or the state Deleting only with no device
   recorded or a vanished node, Deleting never with a taint rule left; and a rule names the recorded device.
   */
  lemma NoDeviceLost(kind: DeviceType, d: Device, moves: seq<Move>)
    requires Created(d)
    ensures var e := Run(kind, d, moves);
      && (e.gone || !e.finalizer ==> e.status.deviceID == "" || e.nodeLost)
      && (e.status.state == Deleting ==> e.taint.None? && (e.status.deviceID == "" || e.nodeLost))
      && (e.taint.Some? ==>
            e.status.state == Detaching && e.status.deviceID != "" && e.taint.value.uuid == e.status.deviceID)
  {
    RunSound(kind, d, moves);
  }

  /** A resource leaves Blank, Attaching or Online for Detaching or Deleting only when deleted, or its node was lost. */
  lemma DetachesOnlyWhenDeleted(kind: DeviceType, d: Device, moves: seq<Move>, m: Move)
    requires Created(d)
    ensures var e := Run(kind, d, moves); var e' := Step(kind, e, m).device;
      Rank(e.status.state) < Rank(Detaching) <= Rank(e'.status.state) ==> e.deleting || e'.nodeLost
  {
    RunSound(kind, d, moves);
    StepSound(kind, Run(kind, d, moves), m);
  }

  // Order of a detach within one pass.

  ghost predicate IsPrefix(p: seq<Call>, s: seq<Call>) {
    |p| <= |s| && s[..|p|] == p
  }

  /** Only a pass in Detaching with a recorded device makes calls other than AddResource. */
  lemma CallsOfStep(kind: DeviceType, d: Device, m: Move)
    ensures var p := Step(kind, d, m);
      || p.calls == [] || p.calls == [AddCalled]
      || (d.status.state == Detaching && d.status.deviceID != "" && !d.gone && m.Reconciled?
          && Collect(d, m.answers).Go? && Collect(d, m.answers).device.status == d.status
          && p == Release(kind, Collect(d, m.answers).device, m.answers))
  {
    if !d.gone && m.Reconciled? {
      hide Collect, Requeue, Save, AttachStep, Release;
      var c := Collect(d, m.answers);
      CollectEffect(d, m.answers);
      if c.Go? && m.answers.adapter.Ok? && c.device.status.state == Attaching {
        AttachEffect(c.device, m.answers);
      }
    }
  }

  /**
   Every RemoveResource call is made by a pass that has, in this order, passed the load check unless
   detaching is forced, passed the taint step under DRA and drained the device; it names the recorded
   device, and the pass made no other calls before it.
   */
  lemma RemoveFollowsProtocol(kind: DeviceType, d: Device, m: Move, i: nat)
    requires i < |Step(kind, d, m).calls| && Step(kind, d, m).calls[i].RemoveCalled?
    ensures d.status.state == Detaching && d.status.deviceID != ""
    ensures var calls := Step(kind, d, m).calls;
      var script := Protocol(kind, d.of.spec.forceDetach, d.status.deviceID);
      calls[i].id == d.status.deviceID && IsPrefix(script, calls) && i == |script| - 1
  {
    hide Step, Collect, Release;
    CallsOfStep(kind, d, m);
    CollectEffect(d, m.answers);
    ReleaseScript(kind, Collect(d, m.answers).device, m.answers);
  }

  /** A recorded device id disappears only in a pass whose removal succeeded and that then saw the device gone. */
  lemma ClearedOnlyWhenGone(kind: DeviceType, d: Device, m: Move)
    requires d.status.deviceID != "" && Step(kind, d, m).device.status.deviceID != d.status.deviceID
    requires d.status.state != Blank
    ensures d.status.state == Detaching && Step(kind, d, m).device.status.deviceID == ""
    ensures Step(kind, d, m).calls
        == Protocol(kind, d.of.spec.forceDetach, d.status.deviceID) + [RemoveDone(d.status.deviceID), SeenGone]
  {
    hide Collect, Requeue, Save, AttachStep, OnlineStep, Release;
    var c := Collect(d, m.answers);
    CollectEffect(d, m.answers);
    match d.status.state
    case Attaching => AttachEffect(c.device, m.answers);
    case Online => OnlineEffect(c.device, m.answers);
    case Detaching =>
      ReleaseEffect(kind, c.device, m.answers);
      ReleaseScript(kind, c.device, m.answers);
    case _ =>
  }

  // Resources made by the upstream syncer to get rid of one device.

  /** The id comes with the first status past Blank and stays until Detaching clears it. */
  ghost predicate CarriesLabel(d: Device) {
    match d.status.state
    case Blank => d.status.deviceID == ""
    case Attaching => d.status.deviceID == d.of.detachID
    case Online => d.status.deviceID == d.of.detachID
    case Detaching => d.status.deviceID == d.of.detachID || d.status.deviceID == ""
    case Deleting => d.status.deviceID == "" || (d.status.deviceID == d.of.detachID && d.nodeLost)
    case Named(_) => false
  }

  lemma HandleCarries(kind: DeviceType, d: Device, a: Answers)
    requires CarriesLabel(d) && d.of.detachID != ""
    ensures CarriesLabel(Handle(kind, d, a).device) && Handle(kind, d, a).device.of.detachID == d.of.detachID
  {
    hide NoneStep, AttachStep, OnlineStep, Release, Requeue, Save;
    match d.status.state
    case Blank => NoneEffect(d, a);
    case Attaching => AttachEffect(d, a);
    case Online => OnlineEffect(d, a);
    case Detaching => if d.status.deviceID != "" { ReleaseEffect(kind, d, a); }
    case Deleting =>
  }

  lemma HandleNeverAdds(kind: DeviceType, d: Device, a: Answers)
    requires CarriesLabel(d) && d.of.detachID != ""
    ensures AddCalled !in Handle(kind, d, a).calls
  {
    hide NoneStep, AttachStep, OnlineStep, Release, Requeue, Save;
    match d.status.state
    case Blank => NoneEffect(d, a);
    case Attaching => AttachEffect(d, a);
    case Online => OnlineEffect(d, a);
    case Detaching => if d.status.deviceID != "" { ReleaseScript(kind, d, a); }
    case Deleting =>
  }

  lemma StepCarries(kind: DeviceType, d: Device, m: Move)
    requires CarriesLabel(d) && d.of.detachID != ""
    ensures var p := Step(kind, d, m);
      && CarriesLabel(p.device) && p.device.of.detachID == d.of.detachID
      && AddCalled !in p.calls && forall id :: RemoveCalled(id) in p.calls ==> id == d.of.detachID
  {
    hide Handle, Collect, Requeue;
    if !d.gone && m.Reconciled? {
      CollectEffect(d, m.answers);
      if Collect(d, m.answers).Go? {
        HandleCarries(kind, Collect(d, m.answers).device, m.answers);
        HandleNeverAdds(kind, Collect(d, m.answers).device, m.answers);
      }
    }
    var calls := Step(kind, d, m).calls;
    forall id | RemoveCalled(id) in calls ensures id == d.of.detachID {
      var i :| 0 <= i < |calls| && calls[i] == RemoveCalled(id);
      RemoveFollowsProtocol(kind, d, m, i);
    }
  }

  lemma {:induction false} RunCarries(kind: DeviceType, d: Device, moves: seq<Move>)
    requires CarriesLabel(d) && d.of.detachID != ""
    ensures CarriesLabel(Run(kind, d, moves)) && Run(kind, d, moves).of.detachID == d.of.detachID
    decreases |moves|
  {
    if moves != [] {
      StepCarries(kind, d, moves[0]);
      RunCarries(kind, Step(kind, d, moves[0]).device, moves[1..]);
    }
  }

  /** Identity of a detach resource over every run: it never adds a device and only ever removes its own. */
  lemma DetachIdentity(kind: DeviceType, d: Device, moves: seq<Move>, m: Move)
    requires Created(d) && d.of.detachID != ""
    ensures var e := Run(kind, d, moves); var p := Step(kind, e, m);
      && (e.status.state == Attaching || e.status.state == Online ==> e.status.deviceID == d.of.detachID)
      && (e.status.deviceID == d.of.detachID || e.status.deviceID == "")
      && (e.status.state == Deleting && e.status.deviceID != "" ==> e.nodeLost)
      && AddCalled !in p.calls
      && forall id :: RemoveCalled(id) in p.calls ==> id == d.of.detachID
  {
    RunCarries(kind, d, moves);
    StepCarries(kind, Run(kind, d, moves), m);
  }

  // The recorded device across one step, whatever the resource was made for.

  lemma AttachId(d: Device, a: Answers)
    requires d.status.state == Attaching
    ensures var id := AttachStep(d, a).device.status.deviceID;
      id == d.status.deviceID || (d.status.deviceID == "" && a.add.Added? && id == a.add.id)
  {
    hide Requeue, Save, Recognise;
    if d.status.deviceID == "" && a.add.Added? {
      RecogniseEffect(d.(status := d.status.(error := "", deviceID := a.add.id, cdiDeviceID := a.add.cdi)), a);
    } else if d.status.deviceID != "" {
      RecogniseEffect(d, a);
    }
  }

  lemma HandleId(kind: DeviceType, d: Device, a: Answers)
    ensures var id := Handle(kind, d, a).device.status.deviceID;
      || id == d.status.deviceID || id == "" || id == d.of.detachID
      || (d.status.deviceID == "" && a.add.Added? && id == a.add.id)
  {
    hide NoneStep, AttachStep, OnlineStep, Release, Requeue, Save;
    match d.status.state
    case Blank => NoneEffect(d, a);
    case Attaching => AttachId(d, a);
    case Online => OnlineEffect(d, a);
    case Detaching => if d.status.deviceID != "" { ReleaseEffect(kind, d, a); }
    case Deleting =>
    case Named(_) =>
  }

  /** The device a resource records comes from itself, its label, or an answer of AddResource while it had none. */
  lemma StepId(kind: DeviceType, d: Device, m: Move)
    ensures var e := Step(kind, d, m).device; var id := e.status.deviceID;
      && e.of == d.of
      && (|| id == d.status.deviceID || id == "" || id == d.of.detachID
          || (d.status.deviceID == "" && m.Reconciled? && m.answers.add.Added? && id == m.answers.add.id))
  {
    hide Handle, Collect, Requeue;
    if !d.gone && m.Reconciled? {
      CollectEffect(d, m.answers);
      if Collect(d, m.answers).Go? {
        HandleId(kind, Collect(d, m.answers).device, m.answers);
        HandleOf(kind, Collect(d, m.answers).device, m.answers);
      }
    }
  }

  lemma HandleOf(kind: DeviceType, d: Device, a: Answers)
    ensures Handle(kind, d, a).device.of == d.of
  {
    hide NoneStep, AttachStep, OnlineStep, Release, Requeue, Save;
    match d.status.state
    case Blank => NoneEffect(d, a);
    case Attaching => AttachEffect(d, a);
    case Online => OnlineEffect(d, a);
    case Detaching => if d.status.deviceID != "" { ReleaseEffect(kind, d, a); }
    case Deleting =>
    case Named(_) =>
  }
}
