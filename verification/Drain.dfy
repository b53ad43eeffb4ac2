/**
 DrainGPU over every sequence of command results: the three platform branches as programs of commands,
 each answered by an arbitrary oracle, and what has always happened before a device file is removed, a
 GPU is reset or its PCI device is removed.
 */
module Drain {
  import opened Api
  import opened Text
  import Listing

  /** What running a command in a pod gives back. */
  datatype Reply = Reply(out: string, err: string, execErr: bool)

  predicate Fine(r: Reply) {
    !r.execErr && r.err == ""
  }

  datatype Command =
    | ListGpus
    | QueryDrain(bus: string)
    | DisablePersistence(uuid: string)
    | CheckOpen(minor: string)
    | SetMaintenance(bus: string)
    | RemoveFile(path: string)
    | ResetGpu(bus: string)
    | ListModules
    | RemoveModule(name: string)
    | FindRemoval(bus: string)
    | PciRemove(bus: string)

  datatype Exec = Exec(cmd: Command, reply: Reply)

  /** The answer to the n-th command of a pass. */
  type Oracle = nat -> Reply

  /** A pass so far: the commands with their answers, and whether it may go on. */
  datatype Shell = Shell(log: seq<Exec>, ok: bool)

  /** What a step demands of its answer. */
  datatype Rule = MustSucceed | MustBeSilent | MayFail
  datatype Step = Step(cmd: Command, rule: Rule)

  predicate Passes(s: Step, r: Reply) {
    s.rule == MayFail || (Fine(r) && (s.rule == MustBeSilent ==> r.out == ""))
  }

  function Do(sh: Shell, s: Step, o: Oracle): (r: Shell)
    ensures sh.ok ==> r.log == sh.log + [Exec(s.cmd, o(|sh.log|))]
    ensures !sh.ok ==> r == sh
  {
    if sh.ok then Shell(sh.log + [Exec(s.cmd, o(|sh.log|))], Passes(s, o(|sh.log|))) else sh
  }

  function DoAll(sh: Shell, steps: seq<Step>, o: Oracle): Shell
    decreases |steps|
  {
    if steps == [] then sh else Do(DoAll(sh, steps[..|steps| - 1], o), steps[|steps| - 1], o)
  }

  /** The GPU to be drained, with the device minor and bus id the branch works with. */
  datatype Target = Target(uuid: string, minor: string, bus: string)

  // Reading command output.

  function LineState(line: string): Option<bool> {
    var lower := ToLower(TrimSpace(line));
    var i := Find(lower, ':');
    if !Contains(lower, "drain") || i == |lower| then None
    else
      var status := TrimDots(TrimSpace(lower[i + 1..]));
      if Contains(status, "not draining") then Some(false)
      else if Contains(status, "draining") then Some(true)
      else None
  }

  function FirstState(lines: seq<string>): Option<bool>
    decreases |lines|
  {
    if lines == [] then None else if LineState(lines[0]).Some? then LineState(lines[0]) else FirstState(lines[1..])
  }

  /** What a drain query says, if it says anything. */
  function DrainState(out: string): Option<bool> {
    if TrimSpace(out) == "" then None else FirstState(Split(TrimSpace(out), '\n'))
  }

  /** A module is loaded when some line of the lsmod output starts with its name. */
  predicate Loaded(out: string, name: string) {
    exists line :: line in Split(TrimSpace(out), '\n') && FirstField(line) == name
  }

  const DRM := "nvidia_drm"
  const UVM := "nvidia_uvm"

  function Removals(out: string): seq<Step> {
    (if Loaded(out, DRM) then [Step(RemoveModule(DRM), MustSucceed)] else [])
    + (if Loaded(out, UVM) then [Step(RemoveModule(UVM), MustSucceed)] else [])
  }

  /** Index of the first entry with that uuid, or the length. */
  function FindGpu(infos: seq<Listing.Info>, uuid: string): (i: nat)
    ensures i <= |infos|
    ensures i < |infos| ==> Get(infos[i], "gpu_uuid") == uuid
    ensures forall j :: 0 <= j < i ==> Get(infos[j], "gpu_uuid") != uuid
    decreases |infos|
  {
    if infos == [] then 0
    else if Get(infos[0], "gpu_uuid") == uuid then 0
    else 1 + FindGpu(infos[1..], uuid)
  }

  /** A Go map read: "" for a missing key. */
  function Get(info: Listing.Info, key: string): string {
    if key in info then info[key] else ""
  }

  // RKE2 with DRA.

  predicate SkippedWhenDraining(c: Command) {
    c.DisablePersistence? || c.SetMaintenance?
  }

  function Table(t: Target): seq<Step> {
    [Step(DisablePersistence(t.uuid), MustSucceed), Step(CheckOpen(t.minor), MustBeSilent),
     Step(SetMaintenance(t.bus), MustSucceed), Step(RemoveFile("/dev/nvidia" + t.minor), MustSucceed)]
  }

  function Unskipped(steps: seq<Step>, draining: bool): seq<Step>
    decreases |steps|
  {
    if steps == [] then []
    else
      var before := Unskipped(steps[..|steps| - 1], draining);
      if draining && SkippedWhenDraining(steps[|steps| - 1].cmd) then before else before + [steps[|steps| - 1]]
  }

  /** The drain query; the flag means something only when the pass goes on. */
  function Query(sh: Shell, bus: string, o: Oracle): (Shell, bool) {
    if !sh.ok || TrimSpace(bus) == "" then (sh.(ok := false), false)
    else
      var r := o(|sh.log|);
      var sh1 := Do(sh, Step(QueryDrain(TrimSpace(bus)), MustSucceed), o);
      if !sh1.ok || DrainState(r.out).None? then (sh1.(ok := false), false) else (sh1, DrainState(r.out).value)
  }

  function RemoveModules(sh: Shell, o: Oracle): Shell {
    var sh1 := Do(sh, Step(ListModules, MustSucceed), o);
    if sh.ok && sh1.ok then DoAll(sh1, Removals(o(|sh.log|).out), o) else sh1
  }

  /** Looks for a PCI removal still under way. */
  function StillRunning(sh: Shell, bus: string, o: Oracle): (Shell, bool) {
    (Do(sh, Step(FindRemoval(bus), MustSucceed), o), TrimSpace(o(|sh.log|).out) == "true")
  }

  /**
   The last GPU of a node. The PCI removal is started in the background unless one is under way;
   `late` says that its answer had arrived when the error flag was read.
   */
  function LastGpu(sh: Shell, bus: string, o: Oracle, late: bool): Shell {
    var sh1 := RemoveModules(sh, o);
    var (sh2, running) := StillRunning(sh1, bus, o);
    if !sh2.ok then sh2
    else
      var sh3 := if running then sh2 else Do(sh2, Step(PciRemove(bus), MayFail), o);
      var failed := !running && late && !Fine(o(|sh2.log|));
      var sh4 := RemoveModules(sh3, o);
      var (sh5, still) := StillRunning(sh4, bus, o);
      sh5.(ok := sh5.ok && !still && !failed)
  }

  function Rke2Target(sh: Shell, t: Target, last: bool, o: Oracle, late: bool): Shell {
    var (sh1, draining) := Query(sh, t.bus, o);
    var sh2 := DoAll(sh1, Unskipped(Table(t), draining), o);
    if !sh2.ok then sh2
    else if last then LastGpu(sh2, ToLower(t.bus), o, late)
    else Do(sh2, Step(ResetGpu(t.bus), MustSucceed), o)
  }

  function FoundInProc(info: Listing.Info, uuid: string): Target {
    Target(uuid, Get(info, "device_minor"), ToUpper(TrimSpace(Get(info, "pci.bus_id"))))
  }

  function Rke2(uuid: string, agentPod: bool, o: Oracle, late: bool): Shell {
    if !agentPod then Shell([], false)
    else
      var sh := Do(Shell([], true), Step(ListGpus, MustSucceed), o);
      if !sh.ok then sh
      else match Listing.Parse(o(0).out, Listing.QUERY)
        case Infos(infos) =>
          var i := FindGpu(infos, uuid);
          if i == |infos| then sh else Rke2Target(sh, FoundInProc(infos[i], uuid), |infos| == 1, o, late)
        case _ => sh.(ok := false)
  }

  // OCP, with DRA and with the device plugin. The GPUs come from an nvidia-smi query that is not part of the program.

  function FoundBySmi(info: Listing.Info, uuid: string): Target {
    var bus := Get(info, "pci.bus_id");
    Target(uuid, Get(info, "device_minor"), if |bus| >= 4 && bus[..4] == "0000" then bus[4..] else bus)
  }

  /** The target, unless it is not listed or its bus id is empty. */
  function SmiTarget(infos: seq<Listing.Info>, uuid: string): Option<Target> {
    var i := FindGpu(infos, uuid);
    if i == |infos| || FoundBySmi(infos[i], uuid).bus == "" then None else Some(FoundBySmi(infos[i], uuid))
  }

  function OcpDraHead(t: Target): seq<Step> {
    [Step(DisablePersistence(t.uuid), MustSucceed), Step(CheckOpen(t.minor), MustBeSilent),
     Step(RemoveFile("/run/nvidia/driver/dev/nvidia" + t.minor), MustSucceed)]
  }

  function OcpDraTail(t: Target): seq<Step> {
    [Step(RemoveFile("/dev/nvidia" + t.minor), MustSucceed), Step(SetMaintenance(t.bus), MustSucceed),
     Step(ResetGpu(t.bus), MayFail)]
  }

  /** `infos` is None when the query failed. */
  function OcpDra(uuid: string, nvidiaPod: bool, infos: Option<seq<Listing.Info>>, pluginPod: bool, o: Oracle): Shell {
    if !nvidiaPod then Shell([], true)
    else if infos.None? then Shell([], false)
    else match SmiTarget(infos.value, uuid)
      case None => Shell([], true)
      case Some(t) =>
        var sh := DoAll(Shell([], true), OcpDraHead(t), o);
        if !sh.ok || !pluginPod then sh.(ok := false) else DoAll(sh, OcpDraTail(t), o)
  }

  function OcpPluginSteps(t: Target): seq<Step> {
    [Step(DisablePersistence(t.uuid), MustSucceed), Step(CheckOpen(t.minor), MustBeSilent),
     Step(SetMaintenance(t.bus), MustSucceed), Step(ResetGpu(t.bus), MayFail)]
  }

  function OcpPlugin(uuid: string, nvidiaPod: bool, infos: Option<seq<Listing.Info>>, o: Oracle): Shell {
    if !nvidiaPod || infos.None? then Shell([], false)
    else match SmiTarget(infos.value, uuid)
      case None => Shell([], true)
      case Some(t) => DoAll(Shell([], true), OcpPluginSteps(t), o)
  }

  /** Everything a pass depends on besides the command results. */
  datatype Setup = Setup(
    dra: bool, driverEnabled: Option<bool>, uuid: string, agentPod: bool, nvidiaPod: bool, pluginPod: bool,
    infos: Option<seq<Listing.Info>>, late: bool)

  function DrainGpu(s: Setup, o: Oracle): Shell {
    match s.driverEnabled
    case None => Shell([], false)
    case Some(enabled) =>
      if s.dra && !enabled then Rke2(s.uuid, s.agentPod, o, s.late)
      else if s.dra then OcpDra(s.uuid, s.nvidiaPod, s.infos, s.pluginPod, o)
      else OcpPlugin(s.uuid, s.nvidiaPod, s.infos, o)
  }
}
