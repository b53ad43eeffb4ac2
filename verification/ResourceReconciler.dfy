/**
 The handlers of the resource controller as they work: an in-memory copy of the status changed step by
 step, status writes that may fail, and early returns. Each is proved to have the effect its function
 in ResourceLifecycle gives it, on the stored object and on the list of calls.
 */
module ResourceReconciler {
  import opened Api
  import opened ResourceLifecycle

  class Reconciler {
    const kind: DeviceType
    var stored: Device
    var status: ResourceStatus
    var calls: seq<Call>

    constructor (kind: DeviceType, d: Device)
      ensures this.kind == kind && stored == d && status == d.status && calls == []
    {
      this.kind, stored, status, calls := kind, d, d.status, [];
    }

    /** The pass over the object as it was stored, with the calls made so far before its own. */
    ghost predicate After(made: seq<Call>, p: Pass)
      reads this
    {
      stored == p.device && calls == made + p.calls
    }

    method UpdateStatus(answer: Reply)
      modifies this`stored
      ensures stored == if answer.Ok? then old(stored).(status := status) else old(stored)
    {
      if answer.Ok? {
        stored := stored.(status := status);
      }
    }

    method RequeueOnErr(msg: string, a: Answers)
      modifies this`stored, this`status
      ensures stored == Requeue(old(stored), old(status), msg, a)
      ensures status == old(status).(error := msg)
    {
      status := status.(error := msg);
      UpdateStatus(if a.retry then Ok else Err(""));
    }

    /** A status write whose error the handler returns. */
    method Finish(answer: Reply, a: Answers)
      modifies this`stored, this`status
      ensures stored == Save(old(stored), old(status), answer, a)
    {
      UpdateStatus(answer);
      if answer.Err? {
        RequeueOnErr(answer.msg, a);
      }
    }

    method Note(msg: string)
      modifies this`status
      ensures status == old(status).(error := msg)
    {
      status := status.(error := msg);
    }

    method DeleteObject(answer: Reply)
      modifies this`stored
      ensures stored == if answer.Ok? then Deleted(old(stored)) else old(stored)
    {
      if answer.Ok? {
        stored := stored.(deleting := true, gone := stored.gone || !stored.finalizer);
      }
    }

    method PerformGarbageCollection(a: Answers) returns (done: bool, err: Reply)
      requires status == stored.status
      modifies this`stored, this`status
      ensures err.Ok? ==> Collect(old(stored), a) == (if done then Stop(stored) else Go(stored))
      ensures err.Ok? && !done ==> status == stored.status
      ensures err.Err? ==> Collect(old(stored), a) == Stop(Requeue(stored, status, err.msg, a))
    {
      if stored.of.spec.targetNode == "" {
        return false, Ok;
      }
      match a.node {
        case NodeFound => return false, Ok;
        case NodeError(msg) => return false, Err(msg);
        case NodeMissing =>
      }
      stored := stored.(nodeLost := true);
      if a.taintLookup.Err? {
        return false, a.taintLookup;
      }
      if stored.taint.Some? {
        if a.untaint.Err? {
          return false, a.untaint;
        }
        stored := stored.(taint := None);
      }
      done := false;
      if status.state != Deleting {
        status := status.(state := Deleting, error := "target node " + stored.of.spec.targetNode + " not found");
        UpdateStatus(a.write1);
        if a.write1.Err? {
          return false, a.write1;
        }
        done := true;
      }
      if !stored.deleting {
        DeleteObject(a.delete);
        if a.delete.Err? {
          return false, a.delete;
        }
        done := true;
      }
      err := Ok;
    }

    method HandleNone(a: Answers)
      requires status == stored.status
      modifies this`stored, this`status
      ensures After(calls, NoneStep(old(stored), a))
    {
      if !stored.finalizer {
        if a.finalizer.Err? {
          RequeueOnErr(a.finalizer.msg, a);
          return;
        }
        stored := stored.(finalizer := true);
      }
      if stored.of.detachID != "" {
        status := status.(deviceID := stored.of.detachID);
        if stored.of.detachCdiID != "" {
          status := status.(cdiDeviceID := stored.of.detachCdiID);
        }
      }
      status := status.(state := Attaching, error := "");
      Finish(a.write1, a);
    }

    /** The tail of the Attaching handler, from the daemonset restarts or nvidia-smi on. */
    method RecogniseDevice(a: Answers)
      requires status == stored.status
      modifies this`stored, this`status
      ensures stored == Recognise(old(stored), a)
    {
      if a.restart1.Err? {
        Note(a.restart1.msg);
        UpdateStatus(a.write2);
        if a.write2.Err? {
          RequeueOnErr(a.write2.msg, a);
          return;
        }
      }
      if a.restart2.Err? {
        Note(a.restart2.msg);
        UpdateStatus(a.write3);
        if a.write3.Err? {
          RequeueOnErr(a.write3.msg, a);
          return;
        }
      }
      match a.visible {
        case VisibleError(msg) =>
          RequeueOnErr(msg, a);
        case Visible(yes) =>
          if yes {
            status := status.(state := Online, error := "");
            Finish(a.write4, a);
          }
      }
    }

    method HandleAttaching(a: Answers)
      requires status == stored.status
      modifies this
      ensures After(old(calls), AttachStep(old(stored), a))
    {
      hide Recognise;
      if stored.deleting {
        if status.deviceID == "" {
          status := status.(state := Deleting);
          Finish(a.write1, a);
          return;
        } else if status.error != "" {
          status := status.(state := Detaching);
          Finish(a.write1, a);
          return;
        }
      }
      if status.deviceID == "" {
        calls := calls + [AddCalled];
        match a.add {
          case AddWaiting => return;
          case AddError(msg) =>
            RequeueOnErr(msg, a);
            return;
          case Added(id, cdi) =>
            status := status.(error := "", deviceID := id, cdiDeviceID := cdi);
        }
        UpdateStatus(a.write1);
        if a.write1.Err? {
          RequeueOnErr(a.write1.msg, a);
          return;
        }
      }
      RecogniseDevice(a);
    }

    method HandleOnline(a: Answers)
      requires status == stored.status
      modifies this`stored, this`status
      ensures After(calls, OnlineStep(old(stored), a))
    {
      if stored.deleting {
        status := status.(state := Detaching);
        Finish(a.write1, a);
        return;
      }
      if stored.of.detachID != "" {
        DeleteObject(a.delete);
        if a.delete.Err? {
          RequeueOnErr(a.delete.msg, a);
        }
        return;
      }
      Note(if a.check.Err? then a.check.msg else "");
      Finish(a.write1, a);
    }

    method FindTaintDevice(slices: seq<Slice>, uuid: string) returns (rule: Option<Rule>)
      ensures rule == FindRule(slices, uuid)
    {
      var i := 0;
      while i < |slices|
        invariant i <= |slices|
        invariant FindRule(slices, uuid) == FindRule(slices[i..], uuid)
      {
        var devices := slices[i].devices;
        var j := 0;
        while j < |devices|
          invariant j <= |devices|
          invariant FindDevice(devices, uuid) == FindDevice(devices[j..], uuid)
        {
          if devices[j].uuid == Some(uuid) {
            return Some(Rule(slices[i].driver, slices[i].pool, devices[j].name, uuid));
          }
          j := j + 1;
        }
        i := i + 1;
      }
      rule := None;
    }

    method CreateDeviceTaint(a: Answers) returns (err: Reply)
      requires status == stored.status
      modifies this`stored
      ensures err.Err? ==> stored == old(stored) && Taint(old(stored), a) == TaintError(err.msg)
      ensures err.Ok? ==>
        Taint(old(stored), a) == Tainted(stored.taint) && stored == old(stored).(taint := stored.taint)
    {
      if a.taintGet.Err? {
        return a.taintGet;
      }
      if stored.taint.Some? {
        return Ok;
      }
      if a.sliceList.Err? {
        return a.sliceList;
      }
      var rule := FindTaintDevice(a.slices, status.deviceID);
      if rule.None? || rule.value.device == "" {
        return Ok;
      }
      if a.taintCreate.Err? {
        return a.taintCreate;
      }
      stored := stored.(taint := rule);
      err := Ok;
    }

    method HandleDetaching(a: Answers)
      requires status == stored.status
      modifies this
      ensures After(old(calls), DetachStep(kind, old(stored), a))
    {
      hide Forget, Remove, Taint, Requeue, Save;
      if status.deviceID == "" {
        status := status.(state := Deleting);
        Finish(a.write3, a);
        return;
      }
      if !stored.of.spec.forceDetach {
        if a.load.Err? {
          RequeueOnErr(a.load.msg, a);
          return;
        }
        calls := calls + [LoadPassed];
      }
      if kind == Dra {
        var err := CreateDeviceTaint(a);
        if err.Err? {
          RequeueOnErr(err.msg, a);
          return;
        }
        calls := calls + [TaintPassed];
      }
      if a.drain.Err? {
        RequeueOnErr(a.drain.msg, a);
        return;
      }
      calls := calls + [Drained, RemoveCalled(status.deviceID)];
      RemoveDeviceFromFabric(a);
    }

    /** RemoveResource and what follows it. */
    method RemoveDeviceFromFabric(a: Answers)
      requires status == stored.status
      modifies this
      ensures forall made, before :: old(calls) == made + before ==> After(made, Remove(kind, old(stored), a, before))
    {
      hide Forget;
      if a.note.Some? {
        Note(a.note.value);
        UpdateStatus(a.write1);
        if a.write1.Err? {
          RequeueOnErr(a.write1.msg, a);
          return;
        }
      }
      match a.remove {
        case RemoveWaiting =>
        case RemoveError(msg) => RequeueOnErr(msg, a);
        case Removed =>
          calls := calls + [RemoveDone(status.deviceID)];
          ForgetDeviceWhenGone(a);
      }
    }

    /** Daemonset restarts, the visibility test, and the end of the detach. */
    method ForgetDeviceWhenGone(a: Answers)
      requires status == stored.status
      modifies this
      ensures forall made, before :: old(calls) == made + before ==> After(made, Forget(kind, old(stored), a, before))
    {
      if a.restart1.Err? {
        RequeueOnErr(a.restart1.msg, a);
        return;
      }
      if kind == DevicePlugin && a.restart2.Err? {
        RequeueOnErr(a.restart2.msg, a);
        return;
      }
      match a.visible {
        case VisibleError(msg) =>
          RequeueOnErr(msg, a);
          return;
        case Visible(yes) =>
          if yes {
            return;
          }
      }
      calls := calls + [SeenGone];
      if kind == Dra {
        if a.untaint.Err? {
          RequeueOnErr(a.untaint.msg, a);
          return;
        }
        stored := stored.(taint := None);
      }
      status := status.(error := "", deviceID := "", cdiDeviceID := "");
      UpdateStatus(a.write2);
      if a.write2.Err? {
        RequeueOnErr(a.write2.msg, a);
        return;
      }
      status := status.(state := Deleting);
      Finish(a.write3, a);
    }

    method HandleDeleting(a: Answers)
      requires status == stored.status
      modifies this`stored, this`status
      ensures After(calls, DeleteStep(old(stored), a))
    {
      if a.finalizer.Err? {
        RequeueOnErr(a.finalizer.msg, a);
        return;
      }
      stored := stored.(finalizer := false, gone := stored.deleting);
    }

    /** One pass over the stored object. */
    method ReconcileOnce(a: Answers)
      requires !stored.gone
      modifies this
      ensures After(old(calls), Reconcile(kind, old(stored), a))
    {
      hide Collect, NoneStep, AttachStep, OnlineStep, DetachStep, DeleteStep, Requeue;
      status := stored.status;
      var done, err := PerformGarbageCollection(a);
      if err.Err? {
        RequeueOnErr(err.msg, a);
        return;
      }
      if done {
        return;
      }
      if a.adapter.Err? {
        RequeueOnErr(a.adapter.msg, a);
        return;
      }
      match status.state {
        case Blank => HandleNone(a);
        case Attaching => HandleAttaching(a);
        case Online => HandleOnline(a);
        case Detaching => HandleDetaching(a);
        case Deleting => HandleDeleting(a);
        case Named(_) =>
      }
    }
  }
}
