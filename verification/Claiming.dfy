/**
 The cluster-manager provider: which device an attaching resource takes, which removal is sent, and who
 records which device over every interleaving of whole reconciles.
 */
module Claiming {
  import opened Api
  import Life = ResourceLifecycle
  import Sync = Syncer

  const ADD_COMPLETE := "ADD_COMPLETE"
  const ADD_FAILED := "ADD_FAILED"
  const REMOVE_FAILED := "REMOVE_FAILED"

  datatype Condition = Condition(column: string, operator: string, value: string)
  datatype Entry = Entry(uuid: string, resourceUUID: string, status: string, reason: string)
  datatype CmSpec = CmSpec(kind: string, specUUID: string, conditions: seq<Condition>, devices: seq<Entry>,
                           deviceCount: int)

  /** A machine as the cluster manager describes it. */
  type Machine = seq<CmSpec>

  predicate Selects(c: Condition, model: string) {
    c.column == "model" && c.operator == "eq" && c.value == model
  }

  predicate IsSpecMatch(s: CmSpec, spec: ResourceSpec) {
    s.kind == spec.kind && exists c :: c in s.conditions && Selects(c, spec.model)
  }

  /** A spec matches by its type and one of its conditions, the model being equal. */
  lemma MatchMeans(s: CmSpec, spec: ResourceSpec)
    ensures IsSpecMatch(s, spec) <==> s.kind == spec.kind && Condition("model", "eq", spec.model) in s.conditions
  {
    var c := Condition("model", "eq", spec.model);
    assert Selects(c, spec.model) && forall x :: Selects(x, spec.model) <==> x == c;
  }

  /** Index of the first matching spec, or the length if there is none. */
  function FirstMatch(machine: Machine, spec: ResourceSpec): (i: nat)
    ensures i <= |machine|
    ensures i < |machine| ==> IsSpecMatch(machine[i], spec)
    ensures forall j :: 0 <= j < i ==> !IsSpecMatch(machine[j], spec)
    decreases |machine|
  {
    if machine == [] then 0
    else if IsSpecMatch(machine[0], spec) then 0
    else 1 + FirstMatch(machine[1..], spec)
  }

  /** Index of the first device nobody records, or the length if there is none. */
  function FirstUnused(devices: seq<Entry>, recorded: set<string>): (i: nat)
    ensures i <= |devices|
    ensures i < |devices| ==> devices[i].uuid !in recorded
    ensures forall j :: 0 <= j < i ==> devices[j].uuid in recorded
    decreases |devices|
  {
    if devices == [] then 0
    else if devices[0].uuid !in recorded then 0
    else 1 + FirstUnused(devices[1..], recorded)
  }

  /** Index of the first entry for a device, or the length if there is none. */
  function FirstNamed(devices: seq<Entry>, uuid: string): (i: nat)
    ensures i <= |devices|
    ensures i < |devices| ==> devices[i].uuid == uuid
    ensures forall j :: 0 <= j < i ==> devices[j].uuid != uuid
    decreases |devices|
  {
    if devices == [] then 0
    else if devices[0].uuid == uuid then 0
    else 1 + FirstNamed(devices[1..], uuid)
  }

  datatype Adding = Adding(specUUID: string, count: int, uuid: string, resourceUUID: string, error: Option<string>)
  datatype Removing = Removing(specUUID: string, count: int, error: Option<string>)

  method MatchesSpec(s: CmSpec, spec: ResourceSpec) returns (r: bool)
    ensures r == IsSpecMatch(s, spec)
    ensures r <==> s.kind == spec.kind && Condition("model", "eq", spec.model) in s.conditions
  {
    MatchMeans(s, spec);
    if s.kind != spec.kind {
      return false;
    }
    for i := 0 to |s.conditions|
      invariant forall j :: 0 <= j < i ==> !Selects(s.conditions[j], spec.model)
    {
      if Selects(s.conditions[i], spec.model) {
        return true;
      }
    }
    return false;
  }

  method FindAvailableDevice(s: CmSpec, recorded: set<string>) returns (i: nat)
    ensures i == FirstUnused(s.devices, recorded)
  {
    i := 0;
    while i < |s.devices|
      invariant i <= |s.devices|
      invariant FirstUnused(s.devices, recorded) == i + FirstUnused(s.devices[i..], recorded)
    {
      if s.devices[i].uuid !in recorded {
        return;
      }
      i := i + 1;
    }
  }

  /**
   Only the first matching spec is looked at, and in it only the first device nobody records. It is
   handed out when its attachment is complete, handed out together with an error when that failed,
   and otherwise the spec is to be scaled up.
   */
  method CheckAddingResources(machine: Machine, listed: seq<string>, spec: ResourceSpec) returns (r: Adding)
    ensures r == CheckAdding(machine, (set id | id in listed), spec)
  {
    var recorded := {};
    for i := 0 to |listed|
      invariant recorded == set id | id in listed[..i]
    {
      recorded := recorded + {listed[i]};
    }
    assert listed[..|listed|] == listed;
    var i := 0;
    while i < |machine|
      invariant i <= |machine|
      invariant forall j :: 0 <= j < i ==> !IsSpecMatch(machine[j], spec)
    {
      var matches := MatchesSpec(machine[i], spec);
      if matches {
        var s := machine[i];
        var k := FindAvailableDevice(s, recorded);
        if k < |s.devices| {
          var d := s.devices[k];
          if d.status == ADD_COMPLETE {
            return Adding("", 0, d.uuid, d.resourceUUID, None);
          } else if d.status == ADD_FAILED {
            return Adding("", 0, d.uuid, d.resourceUUID, Some(FailedText(d.reason)));
          }
        }
        return Adding(s.specUUID, s.deviceCount, "", "", None);
      }
      i := i + 1;
    }
    r := Adding("", 0, "", "", None);
  }

  method CheckRemovingResources(machine: Machine, spec: ResourceSpec, id: string) returns (r: Removing)
    ensures r == CheckRemoving(machine, spec, id)
  {
    var i := 0;
    while i < |machine|
      invariant i <= |machine|
      invariant forall j :: 0 <= j < i ==> !IsSpecMatch(machine[j], spec)
    {
      var matches := MatchesSpec(machine[i], spec);
      if matches {
        var s := machine[i];
        for k := 0 to |s.devices|
          invariant forall j :: 0 <= j < k ==> s.devices[j].uuid != id
        {
          if s.devices[k].uuid == id {
            if s.devices[k].status == REMOVE_FAILED {
              return Removing(s.specUUID, s.deviceCount, Some(s.devices[k].reason));
            }
            return Removing(s.specUUID, s.deviceCount, None);
          }
        }
        return Removing("", 0, None);
      }
      i := i + 1;
    }
    r := Removing("", 0, None);
  }

  function CheckAdding(machine: Machine, recorded: set<string>, spec: ResourceSpec): Adding {
    var i := FirstMatch(machine, spec);
    if i == |machine| then Adding("", 0, "", "", None)
    else
      var s := machine[i];
      var k := FirstUnused(s.devices, recorded);
      if k < |s.devices|
        && s.devices[k].status == ADD_COMPLETE then Adding("", 0, s.devices[k].uuid, s.devices[k].resourceUUID, None)
      else if k < |s.devices| && s.devices[k].status == ADD_FAILED then
        Adding("", 0, s.devices[k].uuid, s.devices[k].resourceUUID, Some(FailedText(s.devices[k].reason)))
      else Adding(s.specUUID, s.deviceCount, "", "", None)
  }

  function CheckRemoving(machine: Machine, spec: ResourceSpec, id: string): Removing {
    var i := FirstMatch(machine, spec);
    if i == |machine| then Removing("", 0, None)
    else
      var s := machine[i];
      var k := FirstNamed(s.devices, id);
      if k == |s.devices| then Removing("", 0, None)
      else Removing(s.specUUID, s.deviceCount,
                    if s.devices[k].status == REMOVE_FAILED then Some(s.devices[k].reason) else None)
  }

  /** The cluster manager's side of one call: the machine's description, and the answer to a resize. */
  datatype CmReply = CmReply(machine: Option<Machine>, failure: string, resize: Life.Reply)

  /** What a resize asks for: so many devices of that spec. */
  datatype ScaleUp = ScaleUp(specUUID: string, count: int)

  /** The scale-up that AddResource sends, unless it has a device to hand out. */
  function Wanted(machine: Machine, recorded: set<string>, spec: ResourceSpec): Option<ScaleUp> {
    var found := CheckAdding(machine, recorded, spec);
    if found.uuid != "" then None else Some(ScaleUp(found.specUUID, found.count + 1))
  }

  /** AddResource. */
  function AddResource(cm: CmReply, recorded: set<string>, spec: ResourceSpec): Life.AddReply {
    if cm.machine.None? then Life.AddError(cm.failure)
    else
      var found := CheckAdding(cm.machine.value, recorded, spec);
      if found.uuid != "" then
        match found.error
        case None => Life.Added(found.uuid, found.resourceUUID)
        case Some(msg) => Life.AddError(msg)
      else match cm.resize
        case Ok => Life.AddWaiting
        case Err(msg) => Life.AddError(msg)
  }

  /** The first spec that matches. */
  ghost predicate MatchesFirst(machine: Machine, spec: ResourceSpec, i: int) {
    && 0 <= i < |machine| && IsSpecMatch(machine[i], spec)
    && forall j :: 0 <= j < i ==> !IsSpecMatch(machine[j], spec)
  }

  /** The first device of a spec that nobody records. */
  ghost predicate UnusedFirst(s: CmSpec, recorded: set<string>, k: int) {
    && 0 <= k < |s.devices| && s.devices[k].uuid !in recorded
    && forall j :: 0 <= j < k ==> s.devices[j].uuid in recorded
  }

  /**
   The search, device by device: the first unrecorded device of the first matching spec is handed out when its
   attachment is complete, and handed out with an error that quotes its reason when that failed. In any other case
   that spec is to grow by one device; without a matching spec, the spec without a name.
   */
  lemma AddingMeans(machine: Machine, recorded: set<string>, spec: ResourceSpec)
    ensures var r := CheckAdding(machine, recorded, spec);
      && ((forall i :: !MatchesFirst(machine, spec, i)) ==> r == Adding("", 0, "", "", None))
      && forall i :: MatchesFirst(machine, spec, i) ==>
        var s := machine[i];
        && ((forall k :: !UnusedFirst(s, recorded, k)) ==> r == Adding(s.specUUID, s.deviceCount, "", "", None))
        && forall k :: UnusedFirst(s, recorded, k) ==>
          var d := s.devices[k];
          && (d.status == ADD_COMPLETE ==> r == Adding("", 0, d.uuid, d.resourceUUID, None))
          && (d.status == ADD_FAILED ==> r == Adding("", 0, d.uuid, d.resourceUUID, Some(FailedText(d.reason))))
          && (d.status != ADD_COMPLETE && d.status != ADD_FAILED ==>
                r == Adding(s.specUUID, s.deviceCount, "", "", None))
  {
    hide IsSpecMatch;
    var i := FirstMatch(machine, spec);
    if i < |machine| {
      assert MatchesFirst(machine, spec, i);
      var k := FirstUnused(machine[i].devices, recorded);
      if k < |machine[i].devices| {
        assert UnusedFirst(machine[i], recorded, k);
      }
    }
  }

  function FailedText(reason: string): string {
    "an error occurred with the resource in CM: '" + reason + "'"
  }

  /**
   A scale-up is sent exactly when no device with an id is there to hand out, finished or failed; it asks for one device
   more of the first matching spec.
   */
  lemma ScaleUpSent(machine: Machine, recorded: set<string>, spec: ResourceSpec, i: int)
    requires MatchesFirst(machine, spec, i)
    ensures var s := machine[i];
      && (Wanted(machine, recorded, spec).None? <==> exists k :: Offers(s, recorded, k))
      && ((forall k :: UnusedFirst(s, recorded, k) ==>
             s.devices[k].status != ADD_COMPLETE && s.devices[k].status != ADD_FAILED) ==>
            Wanted(machine, recorded, spec) == Some(ScaleUp(s.specUUID, s.deviceCount + 1)))
  {
    hide IsSpecMatch, CheckAdding;
    AddingMeans(machine, recorded, spec);
    var s := machine[i];
    var k := FirstUnused(s.devices, recorded);
    if k < |s.devices| {
      assert UnusedFirst(s, recorded, k);
      if Wanted(machine, recorded, spec).None? { assert Offers(s, recorded, k); }
    }
  }

  /** Without a matching spec a scale-up is sent too: of one device, of the spec without a name. */
  lemma ScaleUpOfNothing(machine: Machine, recorded: set<string>, spec: ResourceSpec)
    requires forall i :: 0 <= i < |machine| ==> !IsSpecMatch(machine[i], spec)
    ensures Wanted(machine, recorded, spec) == Some(ScaleUp("", 1))
  {
    hide IsSpecMatch, CheckAdding;
    AddingMeans(machine, recorded, spec);
  }

  ghost predicate Offers(s: CmSpec, recorded: set<string>, k: int) {
    UnusedFirst(s, recorded, k) && s.devices[k].uuid != ""
    && (s.devices[k].status == ADD_COMPLETE || s.devices[k].status == ADD_FAILED)
  }

  /** AddResource fails exactly without a machine, with a failed device to hand out, or with a refused scale-up. */
  lemma AddFailsIff(cm: CmReply, recorded: set<string>, spec: ResourceSpec, msg: string)
    ensures AddResource(cm, recorded, spec) == Life.AddError(msg) <==>
      || (cm.machine.None? && msg == cm.failure)
      || (cm.machine.Some? && Wanted(cm.machine.value, recorded, spec).Some? && cm.resize == Life.Err(msg))
      || (cm.machine.Some? && exists i, k :: FailsAt(cm.machine.value, recorded, spec, i, k, msg))
  {
    hide IsSpecMatch, CheckAdding;
    if cm.machine.Some? {
      var machine := cm.machine.value;
      AddingMeans(machine, recorded, spec);
      var i := FirstMatch(machine, spec);
      if i < |machine| {
        assert MatchesFirst(machine, spec, i);
        var k := FirstUnused(machine[i].devices, recorded);
        if k < |machine[i].devices| {
          assert UnusedFirst(machine[i], recorded, k);
          if machine[i].devices[k].status == ADD_FAILED && machine[i].devices[k].uuid != "" {
            assert FailsAt(machine, recorded, spec, i, k, FailedText(machine[i].devices[k].reason));
          }
        }
      }
    }
  }

  ghost predicate FailsAt(machine: Machine, recorded: set<string>, spec: ResourceSpec, i: int, k: int, msg: string) {
    && MatchesFirst(machine, spec, i) && UnusedFirst(machine[i], recorded, k)
    && var d := machine[i].devices[k];
       d.status == ADD_FAILED && d.uuid != "" && msg == FailedText(d.reason)
  }

  /**
   A device is handed out exactly when it is the first unrecorded one of the first matching spec and its attachment is
   complete.
   */
  lemma AddedIff(cm: CmReply, recorded: set<string>, spec: ResourceSpec, id: string, cdi: string)
    ensures AddResource(cm, recorded, spec) == Life.Added(id, cdi) <==>
      && cm.machine.Some? && id != "" && id !in recorded
      && exists i, k :: Takes(cm.machine.value, recorded, spec, i, k, id, cdi)
  {
    if cm.machine.Some? {
      var machine := cm.machine.value;
      var i := FirstMatch(machine, spec);
      if i < |machine| {
        var k := FirstUnused(machine[i].devices, recorded);
        if AddResource(cm, recorded, spec) == Life.Added(id, cdi) {
          assert Takes(machine, recorded, spec, i, k, id, cdi);
        }
      }
      forall i', k' | Takes(machine, recorded, spec, i', k', id, cdi)
        ensures i' == i && k' == FirstUnused(machine[i].devices, recorded)
      {}
    }
  }

  ghost predicate Takes(machine: Machine, recorded: set<string>, spec: ResourceSpec, i: int, k: int, id: string,
                        cdi: string) {
    && MatchesFirst(machine, spec, i) && UnusedFirst(machine[i], recorded, k)
    && machine[i].devices[k] == Entry(id, cdi, ADD_COMPLETE, machine[i].devices[k].reason)
  }

  /**
   A device still being attached hides a finished one behind it: a scale-up is asked for although a device is free.
   */
  lemma PendingDeviceHidesFreeOne() returns (cm: CmReply, spec: ResourceSpec)
    ensures cm.machine.Some? && |cm.machine.value| == 1 && IsSpecMatch(cm.machine.value[0], spec)
    ensures var devices := cm.machine.value[0].devices;
      && |devices| == 2 && devices[1].status == ADD_COMPLETE && devices[1].uuid !in {""}
      && AddResource(cm, {""}, spec) == Life.AddWaiting
  {
    var model := Condition("model", "eq", "A100");
    var s := CmSpec("gpu", "spec", [model],
                    [Entry("GPU-1", "r1", "ADDING", ""), Entry("GPU-2", "r2", ADD_COMPLETE, "")], 2);
    cm := CmReply(Some([s]), "", Life.Ok);
    spec := ResourceSpec("gpu", "A100", "node", false);
    assert model in s.conditions && Selects(model, spec.model);
    assert IsSpecMatch(s, spec);
  }

  /** What RemoveResource does once the machine is known: nothing, or a resize that names the device. */
  datatype Removal = Silent | Resize(specUUID: string, count: int, device: string)

  function RemoveResource(machine: Machine, spec: ResourceSpec, id: string): Removal {
    var found := CheckRemoving(machine, spec, id);
    if found.specUUID == "" then Silent else Resize(found.specUUID, found.count - 1, id)
  }

  /** A removal is sent exactly when the first spec matching the resource lists the device and has an id of its own. */
  lemma RemovalSentIff(machine: Machine, spec: ResourceSpec, id: string)
    ensures RemoveResource(machine, spec, id).Resize? <==> exists i, k :: Lists(machine, spec, i, k, id)
    ensures forall i, k :: Lists(machine, spec, i, k, id) ==>
      RemoveResource(machine, spec, id) == Resize(machine[i].specUUID, machine[i].deviceCount - 1, id)
  {
    var i := FirstMatch(machine, spec);
    if i < |machine| {
      var k := FirstNamed(machine[i].devices, id);
      assert RemoveResource(machine, spec, id).Resize? ==> Lists(machine, spec, i, k, id);
    }
    forall i', k' | Lists(machine, spec, i', k', id)
      ensures i' == i && FirstNamed(machine[i].devices, id) < |machine[i].devices|
    {}
  }

  ghost predicate Lists(machine: Machine, spec: ResourceSpec, i: int, k: int, id: string) {
    && MatchesFirst(machine, spec, i) && machine[i].specUUID != ""
    && 0 <= k < |machine[i].devices| && machine[i].devices[k].uuid == id
  }

  /** A failed removal of the device is noted with its reason, and the removal is sent again all the same. */
  lemma FailureIsNoted(machine: Machine, spec: ResourceSpec, id: string, msg: string)
    ensures CheckRemoving(machine, spec, id).error == Some(msg) <==>
      exists i, k :: NotedAt(machine, spec, i, k, id, msg)
  {
    hide IsSpecMatch;
    var i := FirstMatch(machine, spec);
    if i < |machine| {
      assert MatchesFirst(machine, spec, i);
      var k := FirstNamed(machine[i].devices, id);
      if k < |machine[i].devices| && CheckRemoving(machine, spec, id).error == Some(msg) {
        assert NotedAt(machine, spec, i, k, id, msg);
      }
    }
  }

  /** The first entry for the device in the first matching spec has failed to be removed, for that reason. */
  ghost predicate NotedAt(machine: Machine, spec: ResourceSpec, i: int, k: int, id: string, msg: string) {
    && MatchesFirst(machine, spec, i) && 0 <= k < |machine[i].devices|
    && (forall j :: 0 <= j < k ==> machine[i].devices[j].uuid != id)
    && machine[i].devices[k] == Entry(id, machine[i].devices[k].resourceUUID, REMOVE_FAILED, msg)
  }

  // GetResources, and what its empty model means for the detach resources made from it.

  datatype Node = Node(name: string, machine: Machine)

  function InfosOf(node: string, s: CmSpec): seq<Sync.DeviceInfo> {
    seq(|s.devices|, k requires 0 <= k < |s.devices| => Sync.DeviceInfo(node, s.kind, "", s.devices[k].uuid,
                                                                        s.devices[k].resourceUUID))
  }

  function MachineInfos(node: string, machine: Machine): seq<Sync.DeviceInfo>
    decreases |machine|
  {
    if machine == [] then []
    else
      var before := MachineInfos(node, machine[..|machine| - 1]);
      if machine[|machine| - 1].kind == "gpu" then before + InfosOf(node, machine[|machine| - 1]) else before
  }

  function NodeInfos(nodes: seq<Node>): seq<Sync.DeviceInfo>
    decreases |nodes|
  {
    if nodes == [] then []
    else NodeInfos(nodes[..|nodes| - 1]) + MachineInfos(nodes[|nodes| - 1].name, nodes[|nodes| - 1].machine)
  }

  method GetResources(nodes: seq<Node>) returns (infos: seq<Sync.DeviceInfo>)
    ensures infos == NodeInfos(nodes)
  {
    infos := [];
    for n := 0 to |nodes|
      invariant infos == NodeInfos(nodes[..n])
    {
      var machine := nodes[n].machine;
      ghost var before := infos;
      for i := 0 to |machine|
        invariant infos == before + MachineInfos(nodes[n].name, machine[..i])
      {
        assert machine[..i + 1][..i] == machine[..i];
        var s := machine[i];
        if s.kind == "gpu" {
          ghost var sofar := infos;
          for k := 0 to |s.devices|
            invariant infos == sofar + InfosOf(nodes[n].name, s)[..k]
          {
            infos := infos + [Sync.DeviceInfo(nodes[n].name, s.kind, "", s.devices[k].uuid, s.devices[k].resourceUUID)];
          }
        }
      }
      assert machine[..|machine|] == machine && nodes[..n + 1][..n] == nodes[..n];
    }
    assert nodes[..|nodes|] == nodes;
  }

  /** The list holds exactly the devices of the GPU specs of every node, each with its node and both its ids. */
  lemma {:induction false} InfosMean(nodes: seq<Node>, info: Sync.DeviceInfo)
    ensures info in NodeInfos(nodes) <==> exists n :: 0 <= n < |nodes| && HasDevice(nodes[n], info)
    decreases |nodes|
  {
    if nodes != [] {
      var n := |nodes| - 1;
      InfosMean(nodes[..n], info);
      MachineInfosMean(nodes[n].name, nodes[n].machine, info);
      assert forall j :: 0 <= j < n ==> nodes[..n][j] == nodes[j];
      hide HasDevice, MachineInfos;
    }
  }

  ghost predicate HasDevice(node: Node, info: Sync.DeviceInfo) {
    exists i, k :: At(node.name, node.machine, i, k, info)
  }

  predicate At(node: string, machine: Machine, i: int, k: int, info: Sync.DeviceInfo) {
    && 0 <= i < |machine| && machine[i].kind == "gpu" && 0 <= k < |machine[i].devices|
    && info == Sync.DeviceInfo(node, "gpu", "", machine[i].devices[k].uuid, machine[i].devices[k].resourceUUID)
  }

  lemma {:induction false} MachineInfosMean(node: string, machine: Machine, info: Sync.DeviceInfo)
    ensures info in MachineInfos(node, machine) <==> exists i, k :: At(node, machine, i, k, info)
    decreases |machine|
  {
    if machine != [] {
      var n := |machine| - 1;
      var before := machine[..n];
      MachineInfosMean(node, before, info);
      forall i, k ensures At(node, machine, i, k, info) <==>
        At(node, before, i, k, info) || (i == n && At(node, machine, n, k, info))
      {}
      var last := InfosOf(node, machine[n]);
      if machine[n].kind == "gpu" && info in last {
        var k :| 0 <= k < |last| && last[k] == info;
        assert At(node, machine, n, k, info);
      }
      if k :| At(node, machine, n, k, info) { assert last[k] == info; }
    }
  }

  lemma {:induction false} MachineInfosHaveNoModel(node: string, machine: Machine)
    ensures forall info :: info in MachineInfos(node, machine) ==> info.model == ""
    decreases |machine|
  {
    if machine != [] { MachineInfosHaveNoModel(node, machine[..|machine| - 1]); }
  }

  lemma {:induction false} InfosHaveNoModel(nodes: seq<Node>)
    ensures forall info :: info in NodeInfos(nodes) ==> info.model == ""
    decreases |nodes|
  {
    if nodes != [] {
      InfosHaveNoModel(nodes[..|nodes| - 1]);
      MachineInfosHaveNoModel(nodes[|nodes| - 1].name, nodes[|nodes| - 1].machine);
    }
  }

  /** Some spec of the machine selects on an empty model. */
  ghost predicate SelectsNothing(machine: Machine) {
    exists i, c :: 0 <= i < |machine| && c in machine[i].conditions && Selects(c, "")
  }

  /**
   A detach resource the syncer makes from this provider's own list never has its device removed: the
   list carries no model, so no spec matches and RemoveResource reports success without a request,
   unless the fabric has a spec that selects on an empty model.
   */
  lemma SyncerRemovalIsSilent(nodes: seq<Node>, info: Sync.DeviceInfo, machine: Machine)
    requires info in NodeInfos(nodes) && !SelectsNothing(machine)
    ensures RemoveResource(machine, Sync.DetachOrigin(info).spec, info.deviceID) == Silent
  {
    InfosHaveNoModel(nodes);
    var spec := Sync.DetachOrigin(info).spec;
    var i := FirstMatch(machine, spec);
    if i < |machine| {
      var c :| c in machine[i].conditions && Selects(c, "");
      assert SelectsNothing(machine);
    }
  }

  /** One listed device: the detach resource made for it has no removal sent, one that knew the model would have. */
  lemma SilentRemovalExample() returns (node: Node, info: Sync.DeviceInfo)
    ensures info in NodeInfos([node]) && info.deviceID == "GPU-1"
    ensures RemoveResource(node.machine, Sync.DetachOrigin(info).spec, "GPU-1") == Silent
    ensures RemoveResource(node.machine, Sync.DetachOrigin(info).spec.(model := "A100"), "GPU-1")
        == Resize("spec", 0, "GPU-1")
  {
    var model := Condition("model", "eq", "A100");
    var s := CmSpec("gpu", "spec", [model], [Entry("GPU-1", "r1", ADD_COMPLETE, "")], 1);
    node, info := Node("node", [s]), Sync.DeviceInfo("node", "gpu", "", "GPU-1", "r1");
    assert InfosOf("node", s) == [info];
    assert [s][..0] == [] && [node][..0] == [];
    assert MachineInfos("node", [s]) == [info] && NodeInfos([node]) == [info];
    assert |"A100"| == 4 && |"spec"| == 4;
    SyncerRemovalIsSilent([node], info, [s]);
    var spec := Sync.DetachOrigin(info).spec.(model := "A100");
    assert model in s.conditions && Selects(model, spec.model);
    assert FirstMatch([s], spec) == 0 && FirstNamed(s.devices, "GPU-1") == 0;
    assert Lists([s], spec, 0, 0, "GPU-1");
    RemovalSentIff([s], spec, "GPU-1");
  }

  // Ownership over interleavings.

  /** All stored resources, by name. */
  type Fleet = map<string, Life.Device>

  datatype Event =
    | Create(name: string, of: Life.Origin)
    | Act(name: string, move: Life.Move, cm: CmReply)

  function Recorded(f: Fleet): set<string> {
    set name | name in f :: f[name].status.deviceID
  }

  /** Names are new at creation; a pass gets from AddResource what this provider answers on the current list. */
  ghost predicate Enabled(f: Fleet, e: Event) {
    match e
    case Create(name, _) => name !in f
    case Act(name, m, cm) =>
      name in f && (m.Reconciled? ==> m.answers.add == AddResource(cm, Recorded(f), f[name].of.spec))
  }

  function Next(kind: Life.DeviceType, f: Fleet, e: Event): Fleet
    requires Enabled(f, e)
  {
    match e
    case Create(name, of) => f[name := Life.Fresh(of)]
    case Act(name, m, _) =>
      var d := Life.Step(kind, f[name], m).device;
      if d.gone then f - {name} else f[name := d]
  }

  ghost predicate Legal(kind: Life.DeviceType, f: Fleet, es: seq<Event>)
    decreases |es|
  {
    es == [] || (Enabled(f, es[0]) && Legal(kind, Next(kind, f, es[0]), es[1..]))
  }

  ghost function Run(kind: Life.DeviceType, f: Fleet, es: seq<Event>): Fleet
    requires Legal(kind, f, es)
    decreases |es|
  {
    if es == [] then f else Run(kind, Next(kind, f, es[0]), es[1..])
  }

  /** One device, two resources: then one of them was made to detach exactly that device. */
  ghost predicate SoleOwners(f: Fleet) {
    && (forall n :: n in f && f[n].of.detachID != "" ==> Life.CarriesLabel(f[n]))
    && forall n, n' :: n in f && n' in f && n != n' && f[n].status.deviceID == f[n'].status.deviceID != "" ==>
      f[n].status.deviceID == f[n].of.detachID || f[n'].status.deviceID == f[n'].of.detachID
  }

  /** Only a device that nobody recorded, or the one to detach, is newly recorded: ownership stays. */
  lemma ChangeKeepsOwners(f: Fleet, name: string, d: Life.Device)
    requires SoleOwners(f) && name in f && d.of == f[name].of && (d.of.detachID != "" ==> Life.CarriesLabel(d))
    requires d.status.deviceID in ["", f[name].status.deviceID, d.of.detachID] || d.status.deviceID !in Recorded(f)
    ensures SoleOwners(f[name := d]) && SoleOwners(f - {name})
  {
    hide Life.CarriesLabel;
    assert forall n :: n in f ==> f[n].status.deviceID in Recorded(f);
  }

  lemma StepKeepsOwners(kind: Life.DeviceType, f: Fleet, e: Event)
    requires SoleOwners(f) && Enabled(f, e)
    ensures SoleOwners(Next(kind, f, e))
  {
    if e.Act? {
      hide Life.Step, AddResource, Life.CarriesLabel, Recorded;
      var d := f[e.name];
      Life.StepId(kind, d, e.move);
      if d.of.detachID != "" { Life.StepCarries(kind, d, e.move); }
      if e.move.Reconciled? && e.move.answers.add.Added? {
        AddedIff(e.cm, Recorded(f), d.of.spec, e.move.answers.add.id, e.move.answers.add.cdi);
      }
      ChangeKeepsOwners(f, e.name, Life.Step(kind, d, e.move).device);
    }
  }

  lemma {:induction false} RunKeepsOwners(kind: Life.DeviceType, f: Fleet, es: seq<Event>)
    requires SoleOwners(f) && Legal(kind, f, es)
    ensures SoleOwners(Run(kind, f, es))
    decreases |es|
  {
    if es != [] {
      StepKeepsOwners(kind, f, es[0]);
      RunKeepsOwners(kind, Next(kind, f, es[0]), es[1..]);
    }
  }

  /**
   Single ownership over every run from an empty store: two resources that record the same device
   include one labelled to detach that device; so resources without the label never share one.
   */
  lemma SingleOwnership(kind: Life.DeviceType, es: seq<Event>, n: string, n': string)
    requires Legal(kind, map[], es)
    requires var f := Run(kind, map[], es);
      n in f && n' in f && n != n' && f[n].status.deviceID == f[n'].status.deviceID != ""
    ensures var f := Run(kind, map[], es);
      f[n].of.detachID == f[n].status.deviceID || f[n'].of.detachID == f[n].status.deviceID
  {
    RunKeepsOwners(kind, map[], es);
  }

  /** A pass in which every write and every check succeeds but the device is not visible yet. */
  function Smooth(add: Life.AddReply): Life.Answers {
    Life.Untroubled(Life.NodeFound, add, false, Life.RemoveWaiting)
  }

  function Attached(of: Life.Origin, id: string, cdi: string): Life.Device {
    Life.Device(of, ResourceStatus(Attaching, "", id, cdi), false, true, false, None, false)
  }

  lemma SmoothFirstPass(kind: Life.DeviceType, of: Life.Origin, add: Life.AddReply)
    requires of.detachID == "" || of.detachCdiID == ""
    ensures Life.Step(kind, Life.Fresh(of), Life.Reconciled(Smooth(add))).device == Attached(of, of.detachID, "")
  {
    assert Life.Collect(Life.Fresh(of), Smooth(add)) == Life.Go(Life.Fresh(of));
  }

  lemma SmoothClaim(kind: Life.DeviceType, of: Life.Origin, id: string, cdi: string)
    ensures Life.Step(kind, Attached(of, "", ""), Life.Reconciled(Smooth(Life.Added(id, cdi)))).device
        == Attached(of, id, cdi)
  {
    assert Life.Collect(Attached(of, "", ""), Smooth(Life.Added(id, cdi))) == Life.Go(Attached(of, "", ""));
  }

  // A labelled resource and an unlabelled one on a machine with a single device.

  const ONE_GPU := CmSpec("gpu", "spec", [Condition("model", "eq", "A100")], [Entry("GPU", "r", ADD_COMPLETE, "")], 1)
  const ONE_GPU_MACHINE := CmReply(Some([ONE_GPU]), "", Life.Ok)
  const WANTS_GPU := ResourceSpec("gpu", "A100", "node", false)
  const PLAIN := Life.Origin(WANTS_GPU, "", "")
  const LABELLED := Life.Origin(WANTS_GPU, "GPU", "")

  function Two(a: Life.Device, b: Life.Device): Fleet {
    map["a" := a, "b" := b]
  }

  lemma OneGpuAnswers(recorded: set<string>)
    ensures AddResource(ONE_GPU_MACHINE, recorded, WANTS_GPU) == if "GPU" in recorded then Life.AddWaiting
      else Life.Added("GPU", "r")
  {
    assert ONE_GPU.conditions[0] in ONE_GPU.conditions && Selects(ONE_GPU.conditions[0], "A100");
    assert IsSpecMatch(ONE_GPU, WANTS_GPU);
    assert FirstMatch([ONE_GPU], WANTS_GPU) == 0;
  }

  lemma TwoRecord(a: Life.Device, b: Life.Device)
    ensures Recorded(Two(a, b)) == {a.status.deviceID, b.status.deviceID}
  {
    assert Two(a, b)["a"].status.deviceID in Recorded(Two(a, b))
      && Two(a, b)["b"].status.deviceID in Recorded(Two(a, b));
  }

  lemma TwoAct(kind: Life.DeviceType, a: Life.Device, b: Life.Device, m: Life.Move)
    requires !Life.Step(kind, a, m).device.gone && !Life.Step(kind, b, m).device.gone
    requires Enabled(Two(a, b), Act("a", m, ONE_GPU_MACHINE))
    ensures Next(kind, Two(a, b), Act("a", m, ONE_GPU_MACHINE)) == Two(Life.Step(kind, a, m).device, b)
  {
    hide Life.Step;
  }

  /** The label is needed: a labelled resource and an unlabelled one can come to record the same device. */
  lemma LabelledMayShare(kind: Life.DeviceType) returns (es: seq<Event>)
    ensures Legal(kind, map[], es)
    ensures var f := Run(kind, map[], es);
      "a" in f && "b" in f && f["a"].of.detachID == "" && f["a"].status.deviceID == f["b"].status.deviceID == "GPU"
  {
    hide Life.Step, AddResource, Recorded;
    var take, wait := Life.Reconciled(Smooth(Life.Added("GPU", "r"))), Life.Reconciled(Smooth(Life.AddWaiting));
    var e1, e2 := Create("a", PLAIN), Create("b", LABELLED);
    var e3, e5 := Act("a", take, ONE_GPU_MACHINE), Act("b", wait, ONE_GPU_MACHINE);
    var a3, a4 := Attached(PLAIN, "", ""), Attached(PLAIN, "GPU", "r");
    var f2, f3, f4 := Two(Life.Fresh(PLAIN), Life.Fresh(LABELLED)), Two(a3, Life.Fresh(LABELLED)),
        Two(a4, Life.Fresh(LABELLED));
    OneGpuAnswers(Recorded(f2));
    OneGpuAnswers(Recorded(f3));
    OneGpuAnswers(Recorded(f4));
    TwoRecord(Life.Fresh(PLAIN), Life.Fresh(LABELLED));
    TwoRecord(a3, Life.Fresh(LABELLED));
    TwoRecord(a4, Life.Fresh(LABELLED));
    SmoothFirstPass(kind, PLAIN, Life.Added("GPU", "r"));
    SmoothFirstPass(kind, LABELLED, Life.Added("GPU", "r"));
    SmoothFirstPass(kind, LABELLED, Life.AddWaiting);
    SmoothClaim(kind, PLAIN, "GPU", "r");
    TwoAct(kind, Life.Fresh(PLAIN), Life.Fresh(LABELLED), take);
    TwoAct(kind, a3, Life.Fresh(LABELLED), take);
    assert Next(kind, map["a" := Life.Fresh(PLAIN)], e2) == f2;
    RunOne(kind, f4, e5, []);
    RunOne(kind, f3, e3, [e5]);
    RunOne(kind, f2, e3, [e3] + [e5]);
    RunOne(kind, map["a" := Life.Fresh(PLAIN)], e2, [e3] + ([e3] + [e5]));
    RunOne(kind, map[], e1, [e2] + ([e3] + ([e3] + [e5])));
    assert [e5] + [] == [e5];
    es := [e1] + ([e2] + ([e3] + ([e3] + [e5])));
  }

  lemma RunOne(kind: Life.DeviceType, f: Fleet, e: Event, es: seq<Event>)
    requires Enabled(f, e) && Legal(kind, Next(kind, f, e), es)
    ensures Legal(kind, f, [e] + es) && Run(kind, f, [e] + es) == Run(kind, Next(kind, f, e), es)
  {
    assert ([e] + es)[1..] == es;
  }
}
