/** When an RKE2 drain succeeds, told from the commands it ran and the answers it got. */
module DrainOutcome {
  import opened Api
  import opened Text
  import opened Drain
  import DrainText
  import DrainSafety
  import Listing

  /** The answers a drain insists on; that of a PCI removal is looked at only when it has arrived in time. */
  ghost predicate AllWell(log: seq<Exec>, from: nat, late: bool) {
    forall i :: from <= i < |log| ==>
      && (Fine(log[i].reply) || (log[i].cmd.PciRemove? && !late))
      && (log[i].cmd.CheckOpen? ==> log[i].reply.out == "")
  }

  /** The pass goes on, without a noted failure, exactly as long as all is well. */
  ghost predicate Tells(sh: Shell, failed: bool, from: nat, late: bool) {
    from <= |sh.log| && (sh.ok && !failed <==> AllWell(sh.log, from, late))
  }

  predicate Strict(s: Step) {
    !s.cmd.PciRemove? && s.rule == if s.cmd.CheckOpen? then MustBeSilent else MustSucceed
  }

  predicate AllStrict(steps: seq<Step>) {
    forall k :: 0 <= k < |steps| ==> Strict(steps[k])
  }

  lemma WellGrows(log: seq<Exec>, e: Exec, from: nat, late: bool)
    requires from <= |log|
    ensures AllWell(log + [e], from, late) <==>
      && AllWell(log, from, late) && (Fine(e.reply) || (e.cmd.PciRemove? && !late))
      && (e.cmd.CheckOpen? ==> e.reply.out == "")
  {
    var more := log + [e];
    assert more[|log|] == e;
    assert forall i :: 0 <= i < |log| ==> more[i] == log[i];
  }

  lemma DoTells(sh: Shell, s: Step, o: Oracle, failed: bool, from: nat, late: bool)
    requires Tells(sh, failed, from, late) && Strict(s)
    ensures Tells(Do(sh, s, o), failed, from, late)
  {
    hide AllWell;
    WellGrows(sh.log, Exec(s.cmd, o(|sh.log|)), from, late);
  }

  lemma {:induction false} DoAllTells(sh: Shell, steps: seq<Step>, o: Oracle, failed: bool, from: nat, late: bool)
    requires Tells(sh, failed, from, late) && AllStrict(steps)
    ensures Tells(DoAll(sh, steps, o), failed, from, late)
    decreases |steps|
  {
    hide Tells, Strict;
    if steps != [] {
      var n := |steps| - 1;
      DoAllTells(sh, steps[..n], o, failed, from, late);
      DoTells(DoAll(sh, steps[..n], o), steps[n], o, failed, from, late);
    }
  }

  lemma RemoveModulesTells(sh: Shell, o: Oracle, failed: bool, from: nat, late: bool)
    requires Tells(sh, failed, from, late)
    ensures Tells(RemoveModules(sh, o), failed, from, late)
  {
    hide Tells, Loaded, DoAll, Do;
    var list := Step(ListModules, MustSucceed);
    DoTells(sh, list, o, failed, from, late);
    DoAllTells(Do(sh, list, o), Removals(o(|sh.log|).out), o, failed, from, late);
  }

  /** The removal was sent off, or an earlier one was found under way. */
  ghost predicate Removing(log: seq<Exec>, from: nat, bus: string) {
    exists i :: from <= i < |log| &&
      (log[i].cmd == PciRemove(bus) || (log[i].cmd == FindRemoval(bus) && TrimSpace(log[i].reply.out) == "true"))
  }

  /** The last GPU is drained exactly when all is well and no removal is left under way at the end. */
  lemma LastGpuSucceedsIff(sh: Shell, bus: string, o: Oracle, late: bool, from: nat)
    requires sh.ok && Tells(sh, false, from, late)
    ensures var r := LastGpu(sh, bus, o, late);
      && sh.log < r.log
      && (r.ok <==> AllWell(r.log, from, late) && TrimSpace(r.log[|r.log| - 1].reply.out) != "true")
      && (r.ok ==> r.log[|r.log| - 1].cmd == FindRemoval(bus) && Removing(r.log, |sh.log|, bus))
  {
    hide RemoveModules, TrimSpace, AllWell, Passes;
    var find, remove := Step(FindRemoval(bus), MustSucceed), Step(PciRemove(bus), MayFail);
    var sh1 := RemoveModules(sh, o);
    RemoveModulesTells(sh, o, false, from, late);
    RemoveModulesGrows(sh, o);
    var sh2 := Do(sh1, find, o);
    DoTells(sh1, find, o, false, from, late);
    if sh2.ok {
      var e := Exec(PciRemove(bus), o(|sh2.log|));
      var running := StillRunning(sh1, bus, o).1;
      var sh3 := if running then sh2 else Do(sh2, remove, o);
      assert sh3.ok by { PassesAnyhow(remove, o(|sh2.log|)); }
      var failed := !running && late && !Fine(o(|sh2.log|));
      WellGrows(sh2.log, e, from, late);
      assert Tells(sh3, failed, from, late);
      RemoveModulesTells(sh3, o, failed, from, late);
      RemoveModulesGrows(sh3, o);
      var sh4 := RemoveModules(sh3, o);
      DoTells(sh4, find, o, failed, from, late);
      var r := LastGpu(sh, bus, o, late);
      assert r.log == Do(sh4, find, o).log;
      assert r.log[|sh1.log|] == Exec(FindRemoval(bus), o(|sh1.log|));
      assert !running ==> r.log[|sh2.log|] == e;
    }
  }

  lemma PassesAnyhow(s: Step, r: Reply)
    ensures s.rule == MayFail ==> Passes(s, r)
  {
  }

  lemma RemoveModulesGrows(sh: Shell, o: Oracle)
    ensures sh.log <= RemoveModules(sh, o).log && (sh.ok ==> |sh.log| < |RemoveModules(sh, o).log|)
    ensures !sh.ok ==> RemoveModules(sh, o) == sh
  {
    hide Loaded, DoAll;
    var sh1 := Do(sh, Step(ListModules, MustSucceed), o);
    if sh.ok && sh1.ok { DoAllGrows(sh1, Removals(o(|sh.log|).out), o); }
  }

  lemma {:induction false} DoAllGrows(sh: Shell, steps: seq<Step>, o: Oracle)
    ensures sh.log <= DoAll(sh, steps, o).log
    decreases |steps|
  {
    if steps != [] { DoAllGrows(sh, steps[..|steps| - 1], o); }
  }

  /** What a drain runs before the GPU leaves; a draining GPU needs less of it. */
  function Opening(t: Target, draining: bool): seq<Command> {
    [QueryDrain(TrimSpace(t.bus))]
    + if draining then [CheckOpen(t.minor), RemoveFile("/dev/nvidia" + t.minor)]
      else [DisablePersistence(t.uuid), CheckOpen(t.minor), SetMaintenance(t.bus), RemoveFile("/dev/nvidia" + t.minor)]
  }

  ghost predicate Ran(log: seq<Exec>, from: nat, cmds: seq<Command>) {
    from + |cmds| <= |log| && forall k :: 0 <= k < |cmds| ==> log[from + k].cmd == cmds[k]
  }

  lemma OpeningRuns(sh: Shell, t: Target, draining: bool, o: Oracle)
    requires sh.ok && Query(sh, t.bus, o).0.ok && draining == Query(sh, t.bus, o).1
    requires DoAll(Query(sh, t.bus, o).0, Unskipped(Table(t), draining), o).ok
    ensures var r := DoAll(Query(sh, t.bus, o).0, Unskipped(Table(t), draining), o);
      Ran(r.log, |sh.log|, Opening(t, draining)) && |r.log| == |sh.log| + |Opening(t, draining)|
  {
    hide DrainState, TrimSpace, DoAll;
    var sh1 := Query(sh, t.bus, o).0;
    DrainSafety.UnskippedTable(t, draining);
    var steps := DrainSafety.QuietSteps(t, draining);
    DrainSafety.DoAllSucceedsIff(sh1, steps, o);
    var r := DoAll(sh1, steps, o);
    assert |sh1.log| == |sh.log| + 1 && sh1.log[|sh.log|].cmd == QueryDrain(TrimSpace(t.bus));
    assert r.log[|sh.log|] == sh1.log[|sh.log|];
    forall k | 0 <= k < |Opening(t, draining)| ensures r.log[|sh.log| + k].cmd == Opening(t, draining)[k] {
      if k > 0 { assert r.log[|sh1.log| + (k - 1)] == Exec(steps[k - 1].cmd, o(|sh1.log| + (k - 1))); }
    }
  }

  lemma QueryTells(sh: Shell, bus: string, o: Oracle, late: bool)
    requires sh.ok && TrimSpace(bus) != ""
    ensures var (r, draining) := Query(sh, bus, o);
      && r.log == sh.log + [Exec(QueryDrain(TrimSpace(bus)), o(|sh.log|))]
      && (r.ok <==> Fine(o(|sh.log|)) && Decided(o(|sh.log|).out))
      && (r.ok ==> DrainText.Answers(o(|sh.log|).out, draining))
      && (AllWell(r.log, |sh.log|, late) <==> Fine(o(|sh.log|)))
  {
    hide DrainState, TrimSpace, DrainText.Answers;
    var out := o(|sh.log|).out;
    DrainText.DrainStateMeans(out, true);
    DrainText.DrainStateMeans(out, false);
    WellGrows(sh.log, Exec(QueryDrain(TrimSpace(bus)), o(|sh.log|)), |sh.log|, late);
    if DrainState(out).Some? {
      assert DrainState(out) == Some(DrainState(out).value);
      if DrainState(out).value {} else {}
    }
  }

  /** The text of a drain query tells the drain state. */
  ghost predicate Decided(out: string) {
    DrainText.Answers(out, true) || DrainText.Answers(out, false)
  }

  /** How the GPU left from position k of the log on: by the reset alone or, the last one, by a PCI removal. */
  ghost predicate Departed(log: seq<Exec>, k: nat, t: Target, last: bool) {
    k < |log| &&
      if last then log[|log| - 1].cmd == FindRemoval(ToLower(t.bus)) && Removing(log, k, ToLower(t.bus))
      else |log| == k + 1 && log[k].cmd == ResetGpu(t.bus)
  }

  ghost predicate Drained(log: seq<Exec>, n: nat, t: Target, last: bool, draining: bool) {
    Ran(log, n, Opening(t, draining)) && Departed(log, n + |Opening(t, draining)|, t, last)
  }

  lemma AfterOpening(sh: Shell, t: Target, last: bool, o: Oracle, late: bool, draining: bool, n: nat)
    requires sh.ok && Tells(sh, false, n, late)
    requires Ran(sh.log, n, Opening(t, draining)) && |sh.log| == n + |Opening(t, draining)|
    ensures var r := if last then LastGpu(sh, ToLower(t.bus), o, late)
                     else Do(sh, Step(ResetGpu(t.bus), MustSucceed), o);
      && r.log != []
      && (r.ok <==> AllWell(r.log, n, late) && (last ==> TrimSpace(r.log[|r.log| - 1].reply.out) != "true"))
      && (r.ok ==> Drained(r.log, n, t, last, draining))
  {
    hide LastGpu, TrimSpace, AllWell, ToLower, Opening, Removing;
    if last {
      LastGpuSucceedsIff(sh, ToLower(t.bus), o, late, n);
    } else {
      DoTells(sh, Step(ResetGpu(t.bus), MustSucceed), o, false, n, late);
    }
  }

  lemma QuietIsStrict(t: Target, draining: bool)
    ensures AllStrict(Unskipped(Table(t), draining))
  {
    DrainSafety.UnskippedTable(t, draining);
  }

  /**
   An RKE2 drain succeeds exactly when the bus id is not blank, the query's text tells the drain state, every command it
   ran went well and no removal is left under way after the last GPU. It has then run the opening for that drain state
   and, after it, just the reset or, for the last GPU, the removal of its PCI device.
   */
  lemma Rke2SucceedsIff(sh: Shell, t: Target, last: bool, o: Oracle, late: bool)
    requires sh.ok
    ensures var r, n, out := Rke2Target(sh, t, last, o, late), |sh.log|, o(|sh.log|).out;
      && (r.ok <==>
            && TrimSpace(t.bus) != "" && Decided(out) && AllWell(r.log, n, late)
            && (last ==> r.log != [] && TrimSpace(r.log[|r.log| - 1].reply.out) != "true"))
      && (r.ok && DrainText.Answers(out, true) ==> Drained(r.log, n, t, last, true))
      && (r.ok && DrainText.Answers(out, false) ==> Drained(r.log, n, t, last, false))
  {
    hide Query, DoAll, LastGpu, TrimSpace, AllWell, DrainText.Answers, ToLower, Unskipped, Drained, Do, AllStrict,
      Table;
    var n, out := |sh.log|, o(|sh.log|).out;
    var (sh1, draining) := Query(sh, t.bus, o);
    var steps := Unskipped(Table(t), draining);
    var sh2 := DoAll(sh1, steps, o);
    if !sh1.ok { DrainSafety.StoppedStays(sh1, steps, o); }
    if TrimSpace(t.bus) == "" {
      BlankFails(sh, t.bus, o);
    } else {
      QueryTells(sh, t.bus, o, late);
      if sh1.ok {
        OneAnswer(out);
        QuietIsStrict(t, draining);
        DoAllTells(sh1, steps, o, false, n, late);
        if sh2.ok {
          OpeningRuns(sh, t, draining, o);
          AfterOpening(sh2, t, last, o, late, draining, n);
        }
      }
    }
  }

  lemma BlankFails(sh: Shell, bus: string, o: Oracle)
    requires TrimSpace(bus) == ""
    ensures !Query(sh, bus, o).0.ok
  {
  }

  lemma OneAnswer(out: string)
    ensures !(DrainText.Answers(out, true) && DrainText.Answers(out, false))
  {
    hide DrainState, DrainText.Answers;
    DrainText.DrainStateMeans(out, true);
    DrainText.DrainStateMeans(out, false);
  }

  // Which GPU is drained.

  /** The first listed GPU with that uuid. */
  ghost predicate FirstWith(gpus: seq<Listing.Gpu>, uuid: string, i: int) {
    0 <= i < |gpus| && gpus[i].uuid == uuid && forall j :: 0 <= j < i ==> gpus[j].uuid != uuid
  }

  /**
   On an RKE2 node whose script lists these GPUs, the drain is that of the first one with the uuid: its own minor, its
   bus id in upper case, as the last one if it is alone. Without one, only the listing runs and the drain succeeds.
   */
  lemma DrainsTheNamedGpu(gpus: seq<Listing.Gpu>, uuid: string, o: Oracle, late: bool)
    requires o(0).out == Listing.Print(gpus) && forall i :: 0 <= i < |gpus| ==> Listing.CleanGpu(gpus[i])
    requires Fine(o(0))
    ensures var sh := Shell([Exec(ListGpus, o(0))], true);
      && (forall i :: FirstWith(gpus, uuid, i) ==>
            Rke2(uuid, true, o, late)
              == Rke2Target(sh, Target(uuid, gpus[i].minor, ToUpper(TrimSpace(gpus[i].bus))), |gpus| == 1, o, late))
      && ((forall i :: 0 <= i < |gpus| ==> gpus[i].uuid != uuid) ==> Rke2(uuid, true, o, late) == sh)
  {
    hide *;
    Listing.RoundTrip(gpus);
    var infos := Listing.InfosOf(gpus);
    var i := FindGpu(infos, uuid);
    ListedDrain(infos, uuid, o, late);
    forall j | 0 <= j < |gpus| ensures Get(infos[j], "gpu_uuid") == gpus[j].uuid { FieldsOf(gpus[j], uuid); }
    if i < |infos| {
      FieldsOf(gpus[i], uuid);
      FirstIsFound(gpus, uuid, i);
    } else {
      NoneIsFirst(gpus, uuid);
    }
  }

  lemma FirstIsFound(gpus: seq<Listing.Gpu>, uuid: string, i: nat)
    requires i < |gpus| && gpus[i].uuid == uuid && forall j :: 0 <= j < i ==> gpus[j].uuid != uuid
    ensures forall j :: FirstWith(gpus, uuid, j) ==> j == i
  {
  }

  lemma NoneIsFirst(gpus: seq<Listing.Gpu>, uuid: string)
    requires forall j :: 0 <= j < |gpus| ==> gpus[j].uuid != uuid
    ensures forall j :: !FirstWith(gpus, uuid, j)
  {
  }

  lemma FieldsOf(g: Listing.Gpu, uuid: string)
    ensures Get(Listing.InfoOf(g), "gpu_uuid") == g.uuid
    ensures FoundInProc(Listing.InfoOf(g), uuid) == Target(uuid, g.minor, ToUpper(TrimSpace(g.bus)))
  {
    hide TrimSpace, ToUpper;
  }

  lemma ListedDrain(infos: seq<Listing.Info>, uuid: string, o: Oracle, late: bool)
    requires Listing.Parse(o(0).out, Listing.QUERY) == Listing.Infos(infos) && Fine(o(0))
    ensures var sh, i := Shell([Exec(ListGpus, o(0))], true), FindGpu(infos, uuid);
      Rke2(uuid, true, o, late)
        == if i == |infos| then sh else Rke2Target(sh, FoundInProc(infos[i], uuid), |infos| == 1, o, late)
  {
    hide Rke2Target, FoundInProc, FindGpu, Listing.Parse;
    assert Do(Shell([], true), Step(ListGpus, MustSucceed), o) == Shell([Exec(ListGpus, o(0))], true);
  }

  /** On OCP the first entry with the uuid is drained, at its bus id less a leading "0000" if that leaves anything. */
  lemma SmiTargetIs(infos: seq<Listing.Info>, uuid: string, i: nat, bus: string, long: bool)
    requires i < |infos| && Get(infos[i], "gpu_uuid") == uuid
    requires forall j :: 0 <= j < i ==> Get(infos[j], "gpu_uuid") != uuid
    requires Get(infos[i], "pci.bus_id") == if long then "0000" + bus else bus
    requires !long ==> |bus| < 4 || bus[..4] != "0000"
    ensures SmiTarget(infos, uuid) == if bus == "" then None else Some(Target(uuid, Get(infos[i], "device_minor"), bus))
  {
    hide Get, FindGpu;
    assert FindGpu(infos, uuid) == i;
    if long {
      assert ("0000" + bus)[..4] == "0000" && ("0000" + bus)[4..] == bus;
    }
  }

  lemma SmiTargetMissing(infos: seq<Listing.Info>, uuid: string)
    requires forall j :: 0 <= j < |infos| ==> Get(infos[j], "gpu_uuid") != uuid
    ensures SmiTarget(infos, uuid) == None
  {
    hide Get, FindGpu;
  }

  /** A listing that failed or cannot be read ends the drain at once. */
  lemma UnreadListing(uuid: string, o: Oracle, late: bool)
    requires o(0).execErr || o(0).err != "" || !Listing.Parse(o(0).out, Listing.QUERY).Infos?
    ensures Rke2(uuid, true, o, late) == Shell([Exec(ListGpus, o(0))], false)
  {
    hide Rke2Target, FoundInProc, FindGpu, Listing.Parse;
  }

  // Which branch runs.

  ghost predicate Uses(log: seq<Exec>, file: bool) {
    exists i :: 0 <= i < |log| && if file then log[i].cmd.RemoveFile? else log[i].cmd.ListGpus?
  }

  lemma {:induction false} DoAllUses(sh: Shell, steps: seq<Step>, o: Oracle, file: bool)
    requires !Uses(sh.log, file)
    requires forall k :: 0 <= k < |steps| ==> !(if file then steps[k].cmd.RemoveFile? else steps[k].cmd.ListGpus?)
    ensures !Uses(DoAll(sh, steps, o).log, file)
    decreases |steps|
  {
    if steps != [] { DoAllUses(sh, steps[..|steps| - 1], o, file); }
  }

  /**
   The GPUs are listed by a command exactly on a node with DRA, without the container driver and with the agent's pod;
   without DRA no device file is touched. Without the answer about the container driver, or without a pod, nothing runs,
   and only the OCP branch with DRA then counts as drained.
   */
  lemma BranchTaken(s: Setup, o: Oracle)
    ensures var r := DrainGpu(s, o);
      && (Uses(r.log, false) <==> s.dra && s.driverEnabled == Some(false) && s.agentPod)
      && (!s.dra ==> !Uses(r.log, true))
      && (s.driverEnabled.None? ==> r == Shell([], false))
      && (s.dra && s.driverEnabled == Some(false) && !s.agentPod ==> r == Shell([], false))
      && (s.dra && s.driverEnabled == Some(true) && !s.nvidiaPod ==> r == Shell([], true))
      && (!s.dra && !s.nvidiaPod ==> r == Shell([], false))
  {
    hide DoAll, SmiTarget, Rke2;
    if s.driverEnabled.Some? {
      if s.dra && !s.driverEnabled.value {
        ListsFirst(s.uuid, s.agentPod, o, s.late);
      } else if s.nvidiaPod && s.infos.Some? {
        match SmiTarget(s.infos.value, s.uuid)
        case None =>
        case Some(t) =>
          var start := Shell([], true);
          DoAllUses(start, OcpDraHead(t), o, false);
          DoAllUses(DoAll(start, OcpDraHead(t), o), OcpDraTail(t), o, false);
          DoAllUses(start, OcpPluginSteps(t), o, false);
          DoAllUses(start, OcpPluginSteps(t), o, true);
      }
    }
  }

  lemma ListsFirst(uuid: string, agentPod: bool, o: Oracle, late: bool)
    ensures var r := Rke2(uuid, agentPod, o, late);
      if agentPod then r.log != [] && r.log[0].cmd == ListGpus else r == Shell([], false)
  {
    hide Rke2Target, Listing.Parse, FindGpu, FoundInProc;
    var sh := Do(Shell([], true), Step(ListGpus, MustSucceed), o);
    var parsed := Listing.Parse(o(0).out, Listing.QUERY);
    if agentPod && sh.ok && parsed.Infos? && FindGpu(parsed.infos, uuid) < |parsed.infos| {
      var t := FoundInProc(parsed.infos[FindGpu(parsed.infos, uuid)], uuid);
      TargetGrows(sh, t, |parsed.infos| == 1, o, late);
    }
  }

  lemma TargetGrows(sh: Shell, t: Target, last: bool, o: Oracle, late: bool)
    ensures sh.log <= Rke2Target(sh, t, last, o, late).log
  {
    hide DrainState, TrimSpace, DoAll, RemoveModules, ToLower;
    var (sh1, draining) := Query(sh, t.bus, o);
    DoAllGrows(sh1, Unskipped(Table(t), draining), o);
    var sh2 := DoAll(sh1, Unskipped(Table(t), draining), o);
    LastGpuGrows(sh2, ToLower(t.bus), o, late);
  }

  lemma LastGpuGrows(sh: Shell, bus: string, o: Oracle, late: bool)
    ensures sh.log <= LastGpu(sh, bus, o, late).log
  {
    hide RemoveModules, TrimSpace;
    RemoveModulesGrows(sh, o);
    var sh2 := StillRunning(RemoveModules(sh, o), bus, o).0;
    RemoveModulesGrows(sh2, o);
    RemoveModulesGrows(Do(sh2, Step(PciRemove(bus), MayFail), o), o);
  }

  // A command that goes wrong.

  predicate Trouble(r: Reply) {
    r.execErr || r.err != ""
  }

  /** Answers that do not decide: a reset on OCP, and a PCI removal that answers too late. */
  predicate Ignored(s: Setup, cmd: Command) {
    (cmd.ResetGpu? && !(s.dra && s.driverEnabled == Some(false))) || (cmd.PciRemove? && !s.late)
  }

  lemma {:induction false} TroubleStops(sh: Shell, steps: seq<Step>, o: Oracle, i: nat)
    requires DoAll(sh, steps, o).ok && |sh.log| <= i < |DoAll(sh, steps, o).log|
    ensures var e := DoAll(sh, steps, o).log[i];
      Trouble(e.reply) ==> exists k :: 0 <= k < |steps| && steps[k].cmd == e.cmd && steps[k].rule == MayFail
  {
    DrainSafety.DoAllSucceedsIff(sh, steps, o);
    hide DoAll;
    assert Passes(steps[i - |sh.log|], o(|sh.log| + (i - |sh.log|)));
  }

  /** In every branch a drain that succeeded has run no command that failed or wrote an error, but for those ignored. */
  lemma NoTroubleOnSuccess(s: Setup, o: Oracle, i: nat)
    requires DrainGpu(s, o).ok && i < |DrainGpu(s, o).log| && Trouble(DrainGpu(s, o).log[i].reply)
    ensures Ignored(s, DrainGpu(s, o).log[i].cmd)
  {
    hide DoAll, SmiTarget, Rke2;
    if s.dra && !s.driverEnabled.value {
      Rke2Trouble(s.uuid, s.agentPod, o, s.late, i);
    } else {
      match SmiTarget(s.infos.value, s.uuid)
      case None =>
      case Some(t) =>
        if s.dra {
          var sh := DoAll(Shell([], true), OcpDraHead(t), o);
          DrainSafety.DoAllSucceedsIff(Shell([], true), OcpDraHead(t), o);
          DrainSafety.DoAllSucceedsIff(sh, OcpDraTail(t), o);
          if i < |sh.log| {
            TroubleStops(Shell([], true), OcpDraHead(t), o, i);
          } else {
            TroubleStops(sh, OcpDraTail(t), o, i);
          }
        } else {
          TroubleStops(Shell([], true), OcpPluginSteps(t), o, i);
        }
    }
  }

  lemma Rke2Trouble(uuid: string, agentPod: bool, o: Oracle, late: bool, i: nat)
    requires var r := Rke2(uuid, agentPod, o, late); r.ok && i < |r.log| && Trouble(r.log[i].reply)
    ensures var e := Rke2(uuid, agentPod, o, late).log[i]; e.cmd.PciRemove? && !late
  {
    hide Rke2Target, Listing.Parse, FindGpu, FoundInProc;
    var sh := Do(Shell([], true), Step(ListGpus, MustSucceed), o);
    var parsed := Listing.Parse(o(0).out, Listing.QUERY);
    assert sh == Shell([Exec(ListGpus, o(0))], true);
    var k := FindGpu(parsed.infos, uuid);
    if k < |parsed.infos| {
      var t := FoundInProc(parsed.infos[k], uuid);
      TargetGrows(sh, t, |parsed.infos| == 1, o, late);
      Rke2SucceedsIff(sh, t, |parsed.infos| == 1, o, late);
    }
  }
}
