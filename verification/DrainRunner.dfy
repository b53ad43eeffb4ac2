/**
 DrainGPU as it runs: commands executed one by one in a pod, tables of steps walked in loops, early
 returns. Each method is proved to leave the log and the outcome its function in Drain gives.
 */
module DrainRunner {
  import opened Api
  import opened Text
  import opened Drain
  import DrainText
  import Listing

  /** Once a program has stopped, its remaining steps do nothing. */
  lemma {:induction false} StopsAt(sh: Shell, steps: seq<Step>, o: Oracle, k: nat)
    requires k <= |steps| && !DoAll(sh, steps[..k], o).ok
    ensures DoAll(sh, steps, o) == DoAll(sh, steps[..k], o)
    decreases |steps|
  {
    if k == |steps| {
      assert steps[..k] == steps;
    } else {
      var n := |steps| - 1;
      assert steps[..n][..k] == steps[..k];
      StopsAt(sh, steps[..n], o, k);
    }
  }

  lemma {:induction false} UnskippedJoins(steps: seq<Step>, draining: bool, k: nat)
    requires k <= |steps|
    ensures Unskipped(steps[..k], draining) <= Unskipped(steps, draining)
    decreases |steps|
  {
    if k == |steps| {
      assert steps[..k] == steps;
    } else {
      var n := |steps| - 1;
      assert steps[..n][..k] == steps[..k];
      UnskippedJoins(steps[..n], draining, k);
    }
  }

  lemma LoadedNext(lines: seq<string>, n: nat, name: string)
    requires n < |lines|
    ensures (exists line :: line in lines[..n + 1] && FirstField(line) == name)
      <==> (exists line :: line in lines[..n] && FirstField(line) == name) || FirstField(lines[n]) == name
  {
    assert lines[..n + 1] == lines[..n] + [lines[n]];
    assert lines[n] in lines[..n + 1];
  }

  class Session {
    const answers: Oracle
    var log: seq<Exec>

    constructor (answers: Oracle)
      ensures this.answers == answers && log == []
    {
      this.answers, log := answers, [];
    }

    method ExecCommandInPod(cmd: Command) returns (r: Reply)
      modifies this`log
      ensures r == answers(|old(log)|) && log == old(log) + [Exec(cmd, r)]
    {
      r := answers(|log|);
      log := log + [Exec(cmd, r)];
    }

    /** One entry of a table: a failure ends the pass unless the entry is the reset of an OCP branch. */
    method RunStep(step: Step) returns (ok: bool)
      modifies this`log
      ensures Shell(log, ok) == Do(Shell(old(log), true), step, answers)
    {
      var r := ExecCommandInPod(step.cmd);
      if r.execErr || r.err != "" {
        return step.rule == MayFail;
      }
      if step.rule == MustBeSilent && r.out != "" {
        return false;
      }
      ok := true;
    }

    method RunTable(steps: seq<Step>) returns (ok: bool)
      modifies this`log
      ensures Shell(log, ok) == DoAll(Shell(old(log), true), steps, answers)
    {
      for i := 0 to |steps|
        invariant Shell(log, true) == DoAll(Shell(old(log), true), steps[..i], answers)
      {
        assert steps[..i + 1][..i] == steps[..i];
        ok := RunStep(steps[i]);
        if !ok {
          StopsAt(Shell(old(log), true), steps, answers, i + 1);
          return;
        }
      }
      assert steps[..|steps|] == steps;
      ok := true;
    }

    /** The table of the RKE2 branch, without the steps a GPU that is already draining does not need. */
    method RunUnlessDraining(steps: seq<Step>, draining: bool) returns (ok: bool)
      modifies this`log
      ensures Shell(log, ok) == DoAll(Shell(old(log), true), Unskipped(steps, draining), answers)
    {
      ghost var sh := Shell(old(log), true);
      ghost var all := Unskipped(steps, draining);
      for i := 0 to |steps|
        invariant Shell(log, true) == DoAll(sh, Unskipped(steps[..i], draining), answers)
      {
        assert steps[..i + 1][..i] == steps[..i];
        if draining && SkippedWhenDraining(steps[i].cmd) {
          continue;
        }
        ghost var before := Unskipped(steps[..i], draining);
        ghost var here := Unskipped(steps[..i + 1], draining);
        assert here == before + [steps[i]] && here[..|here| - 1] == before;
        ok := RunStep(steps[i]);
        if !ok {
          UnskippedJoins(steps, draining, i + 1);
          assert all[..|here|] == here;
          StopsAt(sh, all, answers, |here|);
          return;
        }
      }
      assert steps[..|steps|] == steps;
      ok := true;
    }

    method FindTarget(infos: seq<Listing.Info>, uuid: string) returns (i: nat)
      ensures i == FindGpu(infos, uuid)
    {
      i := 0;
      while i < |infos|
        invariant i <= |infos|
        invariant forall j :: 0 <= j < i ==> Get(infos[j], "gpu_uuid") != uuid
      {
        if Get(infos[i], "gpu_uuid") == uuid {
          return;
        }
        i := i + 1;
      }
    }

    /** The first line of a drain query that says whether the GPU is draining. */
    method ReadDrainState(out: string) returns (state: Option<bool>)
      ensures state == DrainState(out)
      ensures forall draining :: state == Some(draining) <==> DrainText.Answers(out, draining)
    {
      hide LineState, DrainText.Answers, TrimSpace, Split;
      forall draining ensures DrainState(out) == Some(draining) <==> DrainText.Answers(out, draining) {
        DrainText.DrainStateMeans(out, draining);
      }
      var trimmed := TrimSpace(out);
      if trimmed == "" {
        return None;
      }
      var lines := Split(trimmed, '\n');
      for i := 0 to |lines|
        invariant FirstState(lines) == FirstState(lines[i..])
      {
        assert lines[i..][1..] == lines[i + 1..];
        if LineState(lines[i]).Some? {
          return LineState(lines[i]);
        }
      }
      assert lines[|lines|..] == [];
      state := None;
    }

    method CheckDrainStatus(bus: string) returns (ok: bool, draining: bool)
      modifies this`log
      ensures Query(Shell(old(log), true), bus, answers) == (Shell(log, ok), draining)
    {
      hide DrainState, TrimSpace;
      if TrimSpace(bus) == "" {
        return false, false;
      }
      var r := ExecCommandInPod(QueryDrain(TrimSpace(bus)));
      if r.execErr || r.err != "" {
        return false, false;
      }
      var state := ReadDrainState(r.out);
      if state.None? {
        return false, false;
      }
      return true, state.value;
    }

    method LoadedModules(out: string) returns (drm: bool, uvm: bool)
      ensures drm == Loaded(out, DRM) && uvm == Loaded(out, UVM)
    {
      hide FirstField;
      drm, uvm := false, false;
      var lines := Split(TrimSpace(out), '\n');
      for i := 0 to |lines|
        invariant drm <==> exists line :: line in lines[..i] && FirstField(line) == DRM
        invariant uvm <==> exists line :: line in lines[..i] && FirstField(line) == UVM
      {
        LoadedNext(lines, i, DRM);
        LoadedNext(lines, i, UVM);
        var field := FirstField(lines[i]);
        if field == DRM {
          drm := true;
        } else if field == UVM {
          uvm := true;
        }
      }
      assert lines[..|lines|] == lines;
    }

    method RemoveDriverModules() returns (ok: bool)
      modifies this`log
      ensures Shell(log, ok) == RemoveModules(Shell(old(log), true), answers)
    {
      hide Loaded, DoAll;
      var r := ExecCommandInPod(ListModules);
      if r.err != "" || r.execErr {
        return false;
      }
      var drm, uvm := LoadedModules(r.out);
      var drmStep, uvmStep := Step(RemoveModule(DRM), MustSucceed), Step(RemoveModule(UVM), MustSucceed);
      if drm && uvm {
        assert Removals(r.out) == [drmStep, uvmStep];
        ok := RunTable([drmStep, uvmStep]);
      } else if drm {
        assert Removals(r.out) == [drmStep];
        ok := RunTable([drmStep]);
      } else if uvm {
        assert Removals(r.out) == [uvmStep];
        ok := RunTable([uvmStep]);
      } else {
        assert Removals(r.out) == [];
        ok := RunTable([]);
      }
    }

    method CheckStillRunning(bus: string) returns (ok: bool, running: bool)
      modifies this`log
      ensures Shell(log, ok) == Do(Shell(old(log), true), Step(FindRemoval(bus), MustSucceed), answers)
      ensures running == (TrimSpace(answers(|old(log)|).out) == "true")
    {
      var r := ExecCommandInPod(FindRemoval(bus));
      ok := r.err == "" && !r.execErr;
      running := TrimSpace(r.out) == "true";
    }

    /** `late`: the background removal had answered when its error flag was read. */
    method RemoveLastGpu(bus: string, late: bool) returns (ok: bool)
      modifies this`log
      ensures Shell(log, ok) == LastGpu(Shell(old(log), true), bus, answers, late)
    {
      hide RemoveModules, TrimSpace;
      ok := RemoveDriverModules();
      if !ok {
        return;
      }
      var running;
      ok, running := CheckStillRunning(bus);
      if !ok {
        return;
      }
      var failed := false;
      if !running {
        var r := ExecCommandInPod(PciRemove(bus));
        failed := late && (r.execErr || r.err != "");
      }
      ghost var sh3 := Shell(log, true);
      ok := RemoveDriverModules();
      assert Shell(log, ok) == RemoveModules(sh3, answers);
      if !ok {
        return;
      }
      ok, running := CheckStillRunning(bus);
      ok := ok && !running && !failed;
    }

    method DrainListed(t: Target, last: bool, late: bool) returns (ok: bool)
      modifies this`log
      ensures Shell(log, ok) == Rke2Target(Shell(old(log), true), t, last, answers, late)
    {
      hide Query, LastGpu, Unskipped;
      var draining;
      ok, draining := CheckDrainStatus(t.bus);
      if !ok {
        StopsAt(Shell(log, false), Unskipped(Table(t), draining), answers, 0);
        return;
      }
      ok := RunUnlessDraining(Table(t), draining);
      if !ok {
        return;
      }
      if last {
        ok := RemoveLastGpu(ToLower(t.bus), late);
      } else {
        ok := RunStep(Step(ResetGpu(t.bus), MustSucceed));
      }
    }

    method DrainRke2(uuid: string, agentPod: bool, late: bool) returns (ok: bool)
      requires log == []
      modifies this`log
      ensures Shell(log, ok) == Rke2(uuid, agentPod, answers, late)
    {
      hide Rke2Target, Listing.Parse, FoundInProc;
      if !agentPod {
        return false;
      }
      ok := RunStep(Step(ListGpus, MustSucceed));
      if !ok {
        return;
      }
      var parsed := Listing.ParseListing(log[0].reply.out, Listing.QUERY);
      if !parsed.Infos? {
        return false;
      }
      var i := FindTarget(parsed.infos, uuid);
      if i == |parsed.infos| {
        return true;
      }
      ok := DrainListed(FoundInProc(parsed.infos[i], uuid), |parsed.infos| == 1, late);
    }

    method FindSmiTarget(infos: seq<Listing.Info>, uuid: string) returns (t: Option<Target>)
      ensures t == SmiTarget(infos, uuid)
    {
      var i := FindTarget(infos, uuid);
      if i == |infos| {
        return None;
      }
      var found := FoundBySmi(infos[i], uuid);
      t := if found.bus == "" then None else Some(found);
    }

    method DrainOcpDra(uuid: string, nvidiaPod: bool, infos: Option<seq<Listing.Info>>, pluginPod: bool)
      returns (ok: bool)
      requires log == []
      modifies this`log
      ensures Shell(log, ok) == OcpDra(uuid, nvidiaPod, infos, pluginPod, answers)
    {
      hide DoAll, SmiTarget;
      if !nvidiaPod {
        return true;
      }
      if infos.None? {
        return false;
      }
      var t := FindSmiTarget(infos.value, uuid);
      if t.None? {
        return true;
      }
      ok := RunTable(OcpDraHead(t.value));
      if !ok {
        return;
      }
      if !pluginPod {
        return false;
      }
      ok := RunTable(OcpDraTail(t.value));
    }

    method DrainOcpPlugin(uuid: string, nvidiaPod: bool, infos: Option<seq<Listing.Info>>) returns (ok: bool)
      requires log == []
      modifies this`log
      ensures Shell(log, ok) == OcpPlugin(uuid, nvidiaPod, infos, answers)
    {
      hide DoAll, SmiTarget;
      if !nvidiaPod || infos.None? {
        return false;
      }
      var t := FindSmiTarget(infos.value, uuid);
      if t.None? {
        return true;
      }
      ok := RunTable(OcpPluginSteps(t.value));
    }

    /** DrainGPU: the branch depends on the device type and on whether the container driver is enabled. */
    method DrainGpuDevice(s: Setup) returns (ok: bool)
      requires log == []
      modifies this`log
      ensures Shell(log, ok) == DrainGpu(s, answers)
    {
      hide Rke2, OcpDra, OcpPlugin;
      if s.driverEnabled.None? {
        return false;
      }
      if s.dra {
        if !s.driverEnabled.value {
          ok := DrainRke2(s.uuid, s.agentPod, s.late);
        } else {
          ok := DrainOcpDra(s.uuid, s.nvidiaPod, s.infos, s.pluginPod);
        }
      } else {
        ok := DrainOcpPlugin(s.uuid, s.nvidiaPod, s.infos);
      }
    }
  }
}
