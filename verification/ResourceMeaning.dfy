/** What each pass of the resource controller means for the stored object, told from its fields and the answers. */
module ResourceMeaning {
  import opened Api
  import opened ResourceLifecycle

  /** The pass gets to the handler of the state: no target node or a node that is there, and an adapter. */
  predicate Arrives(d: Device, a: Answers) {
    !d.gone && (d.of.spec.targetNode == "" || a.node.NodeFound?) && a.adapter.Ok?
  }

  /** The object after a status write: as asked for, with the error of the refused write, or as before. */
  ghost predicate Written(d: Device, e: Device, mem: ResourceStatus, write: Reply, retry: bool) {
    e == d.(status := e.status) &&
      match write
      case Ok => e.status == mem
      case Err(msg) => e.status == if retry then mem.(error := msg) else d.status
  }

  /** The object after an error: only its error text differs, and that only if it could be written. */
  ghost predicate Reported(d: Device, e: Device, msg: string, retry: bool) {
    e == if retry then d.(status := d.status.(error := msg)) else d
  }

  // The device of a taint rule.

  predicate Carries(slices: seq<Slice>, uuid: string, i: int, j: int) {
    0 <= i < |slices| && 0 <= j < |slices[i].devices| && slices[i].devices[j].uuid == Some(uuid)
  }

  /** No device before the j-th of the i-th slice carries the uuid. */
  ghost predicate FirstToCarry(slices: seq<Slice>, uuid: string, i: int, j: int) {
    Carries(slices, uuid, i, j)
    && forall k, l :: Carries(slices, uuid, k, l) ==> i < k || (i == k && j <= l)
  }

  lemma {:induction false} FindDeviceMeans(devices: seq<SliceDevice>, uuid: string)
    ensures match FindDevice(devices, uuid)
      case None => forall j :: 0 <= j < |devices| ==> devices[j].uuid != Some(uuid)
      case Some(name) =>
        exists j :: 0 <= j < |devices| && devices[j].uuid == Some(uuid) && devices[j].name == name
          && forall l :: 0 <= l < j ==> devices[l].uuid != Some(uuid)
    decreases |devices|
  {
    if devices != [] && devices[0].uuid != Some(uuid) {
      var rest := devices[1..];
      FindDeviceMeans(rest, uuid);
      assert forall j :: 0 < j < |devices| ==> devices[j] == rest[j - 1];
      if FindDevice(rest, uuid).Some? {
        var j :| 0 <= j < |rest| && rest[j].uuid == Some(uuid) && rest[j].name == FindDevice(rest, uuid).value
          && forall l :: 0 <= l < j ==> rest[l].uuid != Some(uuid);
        assert devices[j + 1] == rest[j];
      }
    }
  }

  lemma {:induction false} FirstIsFound(slices: seq<Slice>, uuid: string)
    ensures match FindRule(slices, uuid)
      case None => forall i, j :: !Carries(slices, uuid, i, j)
      case Some(rule) =>
        exists i, j :: FirstToCarry(slices, uuid, i, j)
          && rule == Rule(slices[i].driver, slices[i].pool, slices[i].devices[j].name, uuid)
    decreases |slices|
  {
    if slices != [] {
      var rest := slices[1..];
      FindDeviceMeans(slices[0].devices, uuid);
      match FindDevice(slices[0].devices, uuid)
      case Some(name) =>
        var j :| 0 <= j < |slices[0].devices| && slices[0].devices[j].uuid == Some(uuid)
          && slices[0].devices[j].name == name
          && forall l :: 0 <= l < j ==> slices[0].devices[l].uuid != Some(uuid);
        assert FirstToCarry(slices, uuid, 0, j);
      case None =>
        FirstIsFound(rest, uuid);
        forall i, j | Carries(slices, uuid, i, j) ensures Carries(rest, uuid, i - 1, j) {}
        if FindRule(rest, uuid).Some? {
          var i, j :| FirstToCarry(rest, uuid, i, j)
            && FindRule(rest, uuid).value == Rule(rest[i].driver, rest[i].pool, rest[i].devices[j].name, uuid);
          assert slices[i + 1] == rest[i];
          assert FirstToCarry(slices, uuid, i + 1, j);
        }
    }
  }

  /** The rule selects the first device that carries the uuid, by its own name and its slice's driver and pool. */
  lemma RuleSelects(slices: seq<Slice>, uuid: string)
    ensures FindRule(slices, uuid).None? <==> forall i, j :: !Carries(slices, uuid, i, j)
    ensures forall i, j :: FirstToCarry(slices, uuid, i, j) ==>
      FindRule(slices, uuid) == Some(Rule(slices[i].driver, slices[i].pool, slices[i].devices[j].name, uuid))
  {
    hide FindRule;
    FirstIsFound(slices, uuid);
    if FindRule(slices, uuid).Some? {
      var k, l :| FirstToCarry(slices, uuid, k, l)
        && FindRule(slices, uuid).value == Rule(slices[k].driver, slices[k].pool, slices[k].devices[l].name, uuid);
      forall i, j | FirstToCarry(slices, uuid, i, j) ensures i == k && j == l {}
    }
  }

  // The first two states.

  /** Blank: with the finalizer set, the labels are carried over and the resource is recorded as Attaching. */
  lemma BlankMeans(kind: DeviceType, d: Device, a: Answers)
    requires Arrives(d, a) && d.status.state == Blank
    ensures var p := Step(kind, d, Reconciled(a)); var of := d.of;
      && p.calls == []
      && (if d.finalizer || a.finalizer.Ok? then
            var id := if of.detachID == "" then d.status.deviceID else of.detachID;
            var cdi := if of.detachID == "" || of.detachCdiID == "" then d.status.cdiDeviceID else of.detachCdiID;
            Written(d.(finalizer := true), p.device, ResourceStatus(Attaching, "", id, cdi), a.write1, a.retry)
          else Reported(d, p.device, a.finalizer.msg, a.retry))
  {
  }

  /** The daemonset or driver steps are behind: each went well, or its failure could be noted. */
  predicate Restarted(a: Answers) {
    (a.restart1.Ok? || a.write2.Ok?) && (a.restart2.Ok? || a.write3.Ok?)
  }

  /** The status with the failures noted that the two steps left. */
  function Noted(s: ResourceStatus, a: Answers): ResourceStatus {
    var s1 := if a.restart1.Err? then s.(error := a.restart1.msg) else s;
    if a.restart2.Err? then s1.(error := a.restart2.msg) else s1
  }

  lemma RecogniseCases(d: Device, a: Answers)
    ensures var e := Recognise(d, a); var seen := d.(status := Noted(d.status, a));
      if !Restarted(a) then e == d.(status := d.status.(error := e.status.error))
      else match a.visible
        case VisibleError(msg) => e == Requeue(seen, seen.status, msg, a)
        case Visible(yes) =>
          e == if yes then Save(seen, seen.status.(state := Online, error := ""), a.write4, a) else seen
  {
  }

  /** A device is Online exactly when the steps are behind, it is seen, and that can be written. */
  lemma RecogniseMeans(d: Device, a: Answers)
    requires d.status.state == Attaching
    ensures var e := Recognise(d, a);
      && e == d.(status := e.status) && e.status.deviceID == d.status.deviceID
      && e.status.cdiDeviceID == d.status.cdiDeviceID
      && (e.status.state == Online <==> Restarted(a) && a.visible == Visible(true) && (a.write4.Ok? || a.retry))
      && (e.status.state == Online ==> e.status.error == if a.write4.Ok? then "" else a.write4.msg)
      && (e.status.state != Online ==> e.status.state == Attaching)
      && (Restarted(a) && a.visible.VisibleError? && a.retry ==> e.status.error == a.visible.msg)
      && (Restarted(a) && a.visible == Visible(false) ==> e == d.(status := Noted(d.status, a)))
  {
    hide Recognise;
    RecogniseCases(d, a);
  }

  /** A marked resource that is Attaching: without a device it goes to Deleting, with one and an error to Detaching. */
  lemma AttachingMarked(kind: DeviceType, d: Device, a: Answers)
    requires Arrives(d, a) && d.status.state == Attaching && d.deleting
    requires d.status.deviceID == "" || d.status.error != ""
    ensures var p := Step(kind, d, Reconciled(a));
      var to := if d.status.deviceID == "" then Deleting else Detaching;
      p.calls == [] && Written(d, p.device, d.status.(state := to), a.write1, a.retry)
  {
  }

  /** Attaching with a device recorded, and not turned away: it is recognised, and AddResource is not called. */
  lemma AttachingAgain(kind: DeviceType, d: Device, a: Answers)
    requires Arrives(d, a) && d.status.state == Attaching && d.status.deviceID != ""
    requires d.deleting ==> d.status.error == ""
    ensures Step(kind, d, Reconciled(a)) == Pass(Recognise(d, a), [])
  {
    hide Recognise;
  }

  /** Attaching without a device: AddResource is called once, and both ids of a device it hands out are recorded. */
  lemma AttachingAdds(kind: DeviceType, d: Device, a: Answers)
    requires Arrives(d, a) && d.status.state == Attaching && d.status.deviceID == "" && !d.deleting
    ensures var p := Step(kind, d, Reconciled(a)); var e := p.device;
      && p.calls == [AddCalled]
      && match a.add
         case AddWaiting => e == d
         case AddError(msg) => Reported(d, e, msg, a.retry)
         case Added(id, cdi) =>
           var mem := ResourceStatus(Attaching, "", id, cdi);
           if a.write1.Ok? then e == Recognise(d.(status := mem), a) else Written(d, e, mem, a.write1, a.retry)
  {
    hide Recognise;
  }

  /** Online: marked it goes to Detaching, labelled it is deleted, and otherwise the check's verdict is its error. */
  lemma OnlineMeans(kind: DeviceType, d: Device, a: Answers)
    requires Arrives(d, a) && d.status.state == Online
    ensures var p := Step(kind, d, Reconciled(a)); var e := p.device;
      && p.calls == []
      && (d.deleting ==> Written(d, e, d.status.(state := Detaching), a.write1, a.retry))
      && (!d.deleting && d.of.detachID != "" && a.delete.Ok? ==> e == d.(deleting := true, gone := !d.finalizer))
      && (!d.deleting && d.of.detachID != "" && a.delete.Err? ==> Reported(d, e, a.delete.msg, a.retry))
      && (!d.deleting && d.of.detachID == "" ==>
            Written(d, e, d.status.(error := if a.check.Ok? then "" else a.check.msg), a.write1, a.retry))
  {
  }

  /**
   A resource turns Online only from Attaching, in a pass that saw the device, with an id recorded, and not while it is
   both marked and in error.
   */
  lemma OnlineOnlyWhenSeen(kind: DeviceType, d: Device, m: Move)
    requires d.status.state != Online && Step(kind, d, m).device.status.state == Online
    ensures d.status.state == Attaching && m.Reconciled? && m.answers.visible == Visible(true) && Restarted(m.answers)
    ensures var e := Step(kind, d, m).device;
      e.status.deviceID == if d.status.deviceID != "" || m.answers.add.AddError? || m.answers.add.AddWaiting?
        then d.status.deviceID else m.answers.add.id
    ensures d.deleting ==> d.status.deviceID != "" && d.status.error == ""
  {
    hide Collect, Recognise, Release, Requeue, Save;
    var a := m.answers;
    CollectEffect(d, a);
    var c := Collect(d, a).device;
    match c.status.state
    case Blank => NoneEffect(c, a);
    case Attaching =>
      RecogniseMeans(c, a);
      if a.add.Added? {
        RecogniseMeans(c.(status := c.status.(error := "", deviceID := a.add.id, cdiDeviceID := a.add.cdi)), a);
      }
    case Detaching => if c.status.deviceID != "" { ReleaseEffect(kind, c, a); }
    case _ =>
  }

  // Detaching.

  /** The taint step goes through: an existing rule, nothing to select, or a rule that could be created. */
  ghost predicate TaintGoesThrough(d: Device, a: Answers) {
    a.taintGet.Ok? &&
      (d.taint.Some?
       || (a.sliceList.Ok? &&
           (a.taintCreate.Ok?
            || forall i, j :: FirstToCarry(a.slices, d.status.deviceID, i, j) ==> a.slices[i].devices[j].name == "")))
  }

  /** The rule after the taint step: the one there was, or the first named device with the recorded uuid. */
  lemma TaintMeans(d: Device, a: Answers)
    ensures Taint(d, a).Tainted? <==> TaintGoesThrough(d, a)
    ensures TaintGoesThrough(d, a) && d.taint.Some? ==> Taint(d, a).rule == d.taint
    ensures TaintGoesThrough(d, a) && d.taint.None? ==>
      var uuid := d.status.deviceID;
      && ((forall i, j :: !Carries(a.slices, uuid, i, j)) ==> Taint(d, a).rule == None)
      && forall i, j :: FirstToCarry(a.slices, uuid, i, j) ==>
        var s, device := a.slices[i], a.slices[i].devices[j].name;
        Taint(d, a).rule == if device == "" then None else Some(Rule(s.driver, s.pool, device, uuid))
  {
    hide FindRule;
    var uuid := d.status.deviceID;
    RuleSelects(a.slices, uuid);
    FirstIsFound(a.slices, uuid);
  }

  /** Everything RemoveResource is preceded by goes well. */
  ghost predicate MayRemove(kind: DeviceType, d: Device, a: Answers) {
    (d.of.spec.forceDetach || a.load.Ok?) && (kind == Dra ==> TaintGoesThrough(d, a)) && a.drain.Ok?
  }

  /** RemoveResource succeeds, the daemonset steps do too, and the device is no longer seen. */
  predicate RemovedAndUnseen(kind: DeviceType, a: Answers) {
    && (a.note.Some? ==> a.write1.Ok?) && a.remove == Removed && a.restart1.Ok?
    && (kind == DevicePlugin ==> a.restart2.Ok?) && a.visible == Visible(false)
  }

  /** The taint rule is out of the way and the empty ids can be written. */
  predicate MayForget(kind: DeviceType, a: Answers) {
    (kind == Dra ==> a.untaint.Ok?) && (a.write2.Ok? || a.retry)
  }

  /** The device is still recorded and the resource still Detaching. */
  predicate StillRecorded(d: Device, e: Device) {
    && e.status.deviceID == d.status.deviceID && e.status.cdiDeviceID == d.status.cdiDeviceID
    && e.status.state == Detaching
  }

  /** Nothing of the device is left, and the resource is Deleting unless a write was refused. */
  predicate Forgotten(kind: DeviceType, e: Device, a: Answers) {
    && e.status.deviceID == "" && e.status.cdiDeviceID == "" && (kind == Dra ==> e.taint == None)
    && e.status.state == if a.write2.Ok? && (a.write3.Ok? || a.retry) then Deleting else Detaching
  }

  lemma ClearMeans(kind: DeviceType, d: Device, a: Answers)
    requires d.status.state == Detaching
    ensures var e := Clear(kind, d, a); if MayForget(kind, a) then Forgotten(kind, e, a) else StillRecorded(d, e)
  {
  }

  lemma ForgetMeans(kind: DeviceType, d: Device, a: Answers, calls: seq<Call>)
    requires d.status.state == Detaching
    ensures var e := Forget(kind, d, a, calls).device;
      if a.restart1.Ok? && (kind == DevicePlugin ==> a.restart2.Ok?) && a.visible == Visible(false)
        && MayForget(kind, a)
      then Forgotten(kind, e, a) else StillRecorded(d, e)
  {
    hide Clear, MayForget, Forgotten;
    ClearMeans(kind, d, a);
  }

  lemma RemoveMeans(kind: DeviceType, d: Device, a: Answers, calls: seq<Call>)
    requires d.status.state == Detaching
    ensures var e := Remove(kind, d, a, calls).device;
      if RemovedAndUnseen(kind, a) && MayForget(kind, a) then Forgotten(kind, e, a) else StillRecorded(d, e)
  {
    hide Forget, MayForget, Forgotten;
    var mem := if a.note.Some? then d.status.(error := a.note.value) else d.status;
    ForgetMeans(kind, d.(status := mem), a, calls + [RemoveDone(d.status.deviceID)]);
  }

  lemma ReleaseMeans(kind: DeviceType, d: Device, a: Answers)
    requires d.status.state == Detaching
    ensures var p := Release(kind, d, a);
      && ((RemoveCalled(d.status.deviceID) in p.calls) <==> MayRemove(kind, d, a))
      && if MayRemove(kind, d, a) && RemovedAndUnseen(kind, a) && MayForget(kind, a) then Forgotten(kind, p.device, a)
         else StillRecorded(d, p.device)
  {
    hide Taint, Remove, MayForget, Forgotten, RemovedAndUnseen, TaintGoesThrough;
    TaintMeans(d, a);
    var id := d.status.deviceID;
    var loads := if d.of.spec.forceDetach then [] else [LoadPassed];
    var tainted := if kind == Dra then loads + [TaintPassed] else loads;
    assert RemoveCalled(id) !in tainted;
    if MayRemove(kind, d, a) {
      var d1 := if kind == Dra then d.(taint := Taint(d, a).rule) else d;
      var calls := tainted + [Drained, RemoveCalled(id)];
      assert RemoveCalled(id) in calls;
      RemoveMeans(kind, d1, a, calls);
      RemoveCalls(kind, d1, a, calls);
    }
  }

  /**
   Detaching with a device recorded: RemoveResource is called exactly when everything before it goes well. The device
   is forgotten exactly when, besides, the removal succeeds, the device is unseen and that can be written; until then
   it stays recorded.
   */
  lemma DetachingMeans(kind: DeviceType, d: Device, a: Answers)
    requires Arrives(d, a) && d.status.state == Detaching && d.status.deviceID != ""
    ensures var p := Step(kind, d, Reconciled(a));
      && ((RemoveCalled(d.status.deviceID) in p.calls) <==> MayRemove(kind, d, a))
      && if MayRemove(kind, d, a) && RemovedAndUnseen(kind, a) && MayForget(kind, a) then Forgotten(kind, p.device, a)
         else StillRecorded(d, p.device)
  {
    hide Release, MayForget, Forgotten, RemovedAndUnseen, MayRemove;
    ReleaseMeans(kind, d, a);
  }

  /** The text of a failed call. */
  function Text(r: Reply): Option<string> {
    if r.Err? then Some(r.msg) else None
  }

  /** The taint step's failure: the first of its calls that was needed and failed. */
  ghost function TaintFailure(d: Device, a: Answers): Option<string> {
    if a.taintGet.Err? || d.taint.Some? then Text(a.taintGet)
    else if a.sliceList.Err? then Text(a.sliceList)
    else if TaintGoesThrough(d, a) then None
    else Text(a.taintCreate)
  }

  /** What goes wrong first, in the order of the calls: load, taint, drain, removal, daemonsets, sight, taint rule. */
  ghost function FirstFailure(kind: DeviceType, d: Device, a: Answers): Option<string> {
    if !d.of.spec.forceDetach && a.load.Err? then Text(a.load)
    else if kind == Dra && TaintFailure(d, a).Some? then TaintFailure(d, a)
    else if a.drain.Err? then Text(a.drain)
    else RemoveFailure(kind, a)
  }

  lemma TaintFails(d: Device, a: Answers)
    ensures Taint(d, a).TaintError? <==> TaintFailure(d, a).Some?
    ensures Taint(d, a).TaintError? ==> TaintFailure(d, a) == Some(Taint(d, a).msg)
  {
    hide FindRule, FirstToCarry, TaintGoesThrough;
    TaintMeans(d, a);
  }

  /** What stops a detach is what is written as its error, if anything can be written. */
  lemma DetachingReports(kind: DeviceType, d: Device, a: Answers)
    requires Arrives(d, a) && d.status.state == Detaching && d.status.deviceID != "" && a.retry
    requires FirstFailure(kind, d, a).Some?
    ensures Step(kind, d, Reconciled(a)).device.status.error == FirstFailure(kind, d, a).value
  {
    hide Taint, TaintGoesThrough, TaintFailure, Remove;
    TaintFails(d, a);
    if kind == Dra ==> Taint(d, a).Tainted? {
      var d1 := if kind == Dra then d.(taint := Taint(d, a).rule) else d;
      var loads := if d.of.spec.forceDetach then [] else [LoadPassed];
      var tainted := if kind == Dra then loads + [TaintPassed] else loads;
      RemoveReports(kind, d1, a, tainted + [Drained, RemoveCalled(d.status.deviceID)]);
    }
  }

  /** While a removal is under way its note, if there is one and it can be written, is the error, and all else stays. */
  lemma DetachingWaits(kind: DeviceType, d: Device, a: Answers)
    requires Arrives(d, a) && d.status.state == Detaching && d.status.deviceID != "" && MayRemove(kind, d, a)
    requires a.remove.RemoveWaiting? && (a.note.Some? ==> a.write1.Ok?)
    ensures var e := Step(kind, d, Reconciled(a)).device;
      && e.status == d.status.(error := if a.note.Some? then a.note.value else d.status.error)
      && e == d.(status := e.status, taint := e.taint) && (kind == DevicePlugin ==> e.taint == d.taint)
  {
    hide Taint, TaintGoesThrough, Forget;
    TaintMeans(d, a);
  }

  /** The failures from RemoveResource on. */
  ghost function RemoveFailure(kind: DeviceType, a: Answers): Option<string> {
    if a.note.Some? && a.write1.Err? then Text(a.write1)
    else if a.remove.RemoveError? then Some(a.remove.msg)
    else if a.remove.RemoveWaiting? then None
    else ForgetFailure(kind, a)
  }

  /** And those from the successful removal on. */
  ghost function ForgetFailure(kind: DeviceType, a: Answers): Option<string> {
    if a.restart1.Err? then Text(a.restart1)
    else if kind == DevicePlugin && a.restart2.Err? then Text(a.restart2)
    else if a.visible.VisibleError? then Some(a.visible.msg)
    else if a.visible == Visible(false) && kind == Dra && a.untaint.Err? then Text(a.untaint)
    else None
  }

  lemma RemoveReports(kind: DeviceType, d: Device, a: Answers, calls: seq<Call>)
    requires a.retry
    ensures RemoveFailure(kind, a).Some? ==>
      Remove(kind, d, a, calls).device.status.error == RemoveFailure(kind, a).value
  {
    hide Forget, ForgetFailure;
    var mem := if a.note.Some? then d.status.(error := a.note.value) else d.status;
    ForgetReports(kind, d.(status := mem), a, calls + [RemoveDone(d.status.deviceID)]);
  }

  lemma ForgetReports(kind: DeviceType, d: Device, a: Answers, calls: seq<Call>)
    requires a.retry
    ensures ForgetFailure(kind, a).Some? ==>
      Forget(kind, d, a, calls).device.status.error == ForgetFailure(kind, a).value
  {
    hide Clear;
    if kind == Dra && a.untaint.Err? { ClearReports(kind, d, a); }
  }

  lemma ClearReports(kind: DeviceType, d: Device, a: Answers)
    requires a.retry && kind == Dra && a.untaint.Err?
    ensures Clear(kind, d, a).status.error == a.untaint.msg
  {
  }

  /** Detaching without a device goes to Deleting; Deleting loses its finalizer and, marked, is gone. */
  lemma LastStates(kind: DeviceType, d: Device, a: Answers)
    requires Arrives(d, a)
    ensures var p := Step(kind, d, Reconciled(a)); var e := p.device;
      && (d.status.state == Detaching && d.status.deviceID == "" ==>
            p.calls == [] && Written(d, e, d.status.(state := Deleting), a.write3, a.retry))
      && (d.status.state == Deleting ==>
            p.calls == [] && if a.finalizer.Ok? then e == d.(finalizer := false, gone := d.deleting)
              else Reported(d, e, a.finalizer.msg, a.retry))
  {
    hide Release;
  }

  // A vanished node.

  /**
   With its node gone, a resource first loses its taint rule, is then recorded as Deleting with the node named in its
   error, and is then marked or, without a finalizer, gone. Each of these ends the pass when it fails; a resource that
   is already Deleting and marked goes on to its handler.
   */
  lemma NodeGoneMeans(kind: DeviceType, d: Device, a: Answers)
    requires !d.gone && d.of.spec.targetNode != "" && a.node.NodeMissing?
    ensures var p := Step(kind, d, Reconciled(a)); var e := p.device;
      var lost := d.(nodeLost := true);
      var mem := d.status.(state := Deleting, error := "target node " + d.of.spec.targetNode + " not found");
      var swept := lost.(taint := None, status := if d.status.state == Deleting then d.status else mem);
      && p.calls == []
      && (if a.taintLookup.Err? then Reported(lost, e, a.taintLookup.msg, a.retry)
          else if d.taint.Some? && a.untaint.Err? then Reported(lost, e, a.untaint.msg, a.retry)
          else if d.status.state != Deleting && a.write1.Err? then
            Written(lost.(taint := None), e, mem, a.write1, a.retry)
          else if !d.deleting && a.delete.Err? then Reported(swept, e, a.delete.msg, a.retry)
          else if !d.deleting then e == swept.(deleting := true, gone := !d.finalizer)
          else if d.status.state != Deleting then e == swept
          else if a.adapter.Err? then Reported(swept, e, a.adapter.msg, a.retry)
          else if a.finalizer.Err? then Reported(swept, e, a.finalizer.msg, a.retry)
          else e == swept.(finalizer := false, gone := true))
  {
  }

  /** A pass that cannot tell whether the node is there, or has no adapter, only reports that. */
  lemma TurnedAway(kind: DeviceType, d: Device, a: Answers)
    requires !d.gone
    requires d.of.spec.targetNode == "" || !a.node.NodeMissing?
    requires (d.of.spec.targetNode != "" && a.node.NodeError?) || a.adapter.Err?
    ensures var p := Step(kind, d, Reconciled(a));
      && p.calls == []
      && Reported(d, p.device, if d.of.spec.targetNode != "" && a.node.NodeError? then a.node.msg else a.adapter.msg,
                  a.retry)
  {
  }

  // Both ids of a device go together.

  /** Both ids are as they were, or neither is there. */
  ghost predicate SameIds(s: ResourceStatus, s': ResourceStatus) {
    || (s'.deviceID == s.deviceID && s'.cdiDeviceID == s.cdiDeviceID)
    || (s'.deviceID == "" && s'.cdiDeviceID == "")
  }

  lemma CollectKeepsIds(d: Device, a: Answers)
    ensures SameIds(d.status, Collect(d, a).device.status)
  {
  }

  lemma HandleKeepsIds(kind: DeviceType, d: Device, a: Answers)
    requires d.status.deviceID != "" && d.status.state != Blank
    ensures SameIds(d.status, Handle(kind, d, a).device.status)
  {
    hide Recognise, Release;
    if d.status.state == Attaching { RecogniseMeans(d, a); }
    if d.status.state == Detaching {
      ReleaseMeans(kind, d, a);
    }
  }

  /** A device recorded with its fabric id keeps both ids until both are dropped. */
  lemma IdsGoTogether(kind: DeviceType, d: Device, m: Move)
    requires d.status.deviceID != "" && d.status.state != Blank
    ensures SameIds(d.status, Step(kind, d, m).device.status)
  {
    hide Collect, Handle;
    if !d.gone && m.Reconciled? {
      CollectKeepsIds(d, m.answers);
      CollectEffect(d, m.answers);
      if Collect(d, m.answers).Go? { HandleKeepsIds(kind, Collect(d, m.answers).device, m.answers); }
    }
  }

  /** The two ids of a detach resource: none yet, those of its labels, or none any more. */
  ghost predicate LabelIds(d: Device) {
    || (d.status.deviceID == "" && d.status.cdiDeviceID == "")
    || (d.status.deviceID == d.of.detachID && d.status.cdiDeviceID == d.of.detachCdiID && d.status.state != Blank)
  }

  lemma StepLabelIds(kind: DeviceType, d: Device, m: Move)
    requires d.of.detachID != "" && CarriesLabel(d) && LabelIds(d)
    ensures LabelIds(Step(kind, d, m).device)
  {
    hide Collect, Release, Recognise, CarriesLabel;
    StepCarries(kind, d, m);
    StepId(kind, d, m);
    if d.status.deviceID != "" {
      IdsGoTogether(kind, d, m);
      StepNotBlank(kind, d, m);
    } else if !d.gone && m.Reconciled? {
      CollectKeepsIds(d, m.answers);
      CollectEffect(d, m.answers);
      var c := Collect(d, m.answers);
      if c.Go? { UnrecordedLabelIds(kind, d, c.device, m.answers); }
    }
  }

  lemma StepNotBlank(kind: DeviceType, d: Device, m: Move)
    requires d.status.state != Blank
    ensures Step(kind, d, m).device.status.state != Blank
  {
    hide Collect, NoneStep, AttachStep, OnlineStep, Release, Requeue, Save;
    if !d.gone && m.Reconciled? {
      CollectEffect(d, m.answers);
      var c := Collect(d, m.answers).device;
      match c.status.state
      case Attaching => AttachEffect(c, m.answers);
      case Online => OnlineEffect(c, m.answers);
      case Detaching => if c.status.deviceID != "" { ReleaseEffect(kind, c, m.answers); }
      case _ =>
    }
  }

  lemma UnrecordedLabelIds(kind: DeviceType, d: Device, c: Device, a: Answers)
    requires d.of.detachID != "" && CarriesLabel(d) && d.status.deviceID == "" && d.status.cdiDeviceID == ""
    requires c.of == d.of && c.status == d.status
    ensures LabelIds(if a.adapter.Err? then Requeue(c, c.status, a.adapter.msg, a) else Handle(kind, c, a).device)
  {
    hide Release, AttachStep, OnlineStep, Requeue, Save;
  }

  lemma {:induction false} RunLabelIds(kind: DeviceType, d: Device, moves: seq<Move>)
    requires d.of.detachID != "" && CarriesLabel(d) && LabelIds(d)
    ensures LabelIds(Run(kind, d, moves)) && Run(kind, d, moves).of == d.of
    decreases |moves|
  {
    hide Step, LabelIds, CarriesLabel;
    if moves != [] {
      StepCarries(kind, d, moves[0]);
      StepLabelIds(kind, d, moves[0]);
      StepId(kind, d, moves[0]);
      RunLabelIds(kind, Step(kind, d, moves[0]).device, moves[1..]);
    }
  }

  /** Over every run a detach resource records both ids of its labels together, or neither. */
  lemma LabelsStayTogether(kind: DeviceType, d: Device, moves: seq<Move>)
    requires Created(d) && d.of.detachID != ""
    ensures var s := Run(kind, d, moves).status;
      || (s.deviceID == "" && s.cdiDeviceID == "")
      || (s.deviceID == d.of.detachID && s.cdiDeviceID == d.of.detachCdiID)
  {
    RunLabelIds(kind, d, moves);
  }
}
