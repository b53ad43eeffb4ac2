/** What has always happened before a dangerous command, and when a drain succeeds. */
module DrainSafety {
  import opened Api
  import opened Text
  import opened Drain
  import DrainText
  import Listing

  // Facts a log can establish; each survives whatever is logged later.

  /** The open-file check ran, succeeded and printed nothing. */
  ghost predicate Checked(log: seq<Exec>, minor: string) {
    exists j :: 0 <= j < |log| && log[j].cmd == CheckOpen(minor) && Fine(log[j].reply) && log[j].reply.out == ""
  }

  ghost predicate Succeeded(log: seq<Exec>, cmd: Command) {
    exists j :: 0 <= j < |log| && Fine(log[j].reply) && log[j].cmd == cmd
  }

  /** The drain query succeeded and printed that the GPU is draining. */
  ghost predicate FoundDraining(log: seq<Exec>, bus: string) {
    exists j :: 0 <= j < |log| && Fine(log[j].reply) && log[j].cmd == QueryDrain(TrimSpace(bus))
      && DrainText.Answers(log[j].reply.out, true)
  }

  ghost predicate InMaintenance(log: seq<Exec>, bus: string) {
    Succeeded(log, SetMaintenance(bus)) || FoundDraining(log, bus)
  }

  ghost predicate NotPersistent(log: seq<Exec>, t: Target) {
    Succeeded(log, DisablePersistence(t.uuid)) || FoundDraining(log, t.bus)
  }

  /** The last thing done was to look for a removal under way, and there was none. */
  ghost predicate NoRemovalUnderWay(log: seq<Exec>, bus: string) {
    log != [] &&
      var e := log[|log| - 1];
      e.cmd == FindRemoval(bus) && Fine(e.reply) && TrimSpace(e.reply.out) != "true"
  }

  predicate DeviceFile(path: string, minor: string) {
    path == "/dev/nvidia" + minor || path == "/run/nvidia/driver/dev/nvidia" + minor
  }

  ghost predicate Unloads(log: seq<Exec>, from: int, name: string) {
    exists k :: from < k < |log| && 0 <= k && log[k].cmd == RemoveModule(name) && Fine(log[k].reply)
  }

  /** The modules were listed at j, and each of the two that was loaded then has been removed since. */
  ghost predicate ModulesGoneSince(log: seq<Exec>, j: int) {
    && 0 <= j < |log| && log[j].cmd == ListModules && Fine(log[j].reply)
    && (Loaded(log[j].reply.out, DRM) ==> Unloads(log, j, DRM))
    && (Loaded(log[j].reply.out, UVM) ==> Unloads(log, j, UVM))
  }

  ghost predicate ModulesGone(log: seq<Exec>) {
    exists j :: ModulesGoneSince(log, j)
  }

  /** The condition on a command, given the log before it. */
  ghost predicate Allowed(before: seq<Exec>, t: Target, cmd: Command) {
    match cmd
    case RemoveFile(path) => DeviceFile(path, t.minor) && Checked(before, t.minor) && NotPersistent(before, t)
    case ResetGpu(bus) =>
      bus == t.bus && Checked(before, t.minor) && NotPersistent(before, t) && InMaintenance(before, t.bus)
    case PciRemove(bus) =>
      && bus == ToLower(t.bus) && Checked(before, t.minor) && NotPersistent(before, t) && InMaintenance(before, t.bus)
      && ModulesGone(before) && NoRemovalUnderWay(before, bus)
    case _ => true
  }

  ghost predicate Safe(log: seq<Exec>, t: Target) {
    forall i :: 0 <= i < |log| ==> Allowed(log[..i], t, log[i].cmd)
  }

  lemma Lasts(log: seq<Exec>, more: seq<Exec>, t: Target)
    requires log <= more
    ensures Checked(log, t.minor) ==> Checked(more, t.minor)
    ensures InMaintenance(log, t.bus) ==> InMaintenance(more, t.bus)
    ensures NotPersistent(log, t) ==> NotPersistent(more, t)
    ensures FoundDraining(log, t.bus) ==> FoundDraining(more, t.bus)
  {
    hide Fine, TrimSpace, DrainText.Answers;
    assert forall j :: 0 <= j < |log| ==> more[j] == log[j];
  }

  // Programs.

  lemma DoSafe(sh: Shell, s: Step, o: Oracle, t: Target)
    requires Safe(sh.log, t) && (sh.ok ==> Allowed(sh.log, t, s.cmd))
    ensures Safe(Do(sh, s, o).log, t) && sh.log <= Do(sh, s, o).log
  {
    var log := Do(sh, s, o).log;
    hide Allowed, Do;
    forall i | 0 <= i < |log| ensures Allowed(log[..i], t, log[i].cmd) {
      if i < |sh.log| {
        assert log[..i] == sh.log[..i];
      } else {
        assert log[..i] == sh.log;
      }
    }
  }

  /** A program keeps the log safe if each of its commands is allowed where it is reached. */
  lemma {:induction false} DoAllSafe(sh: Shell, steps: seq<Step>, o: Oracle, t: Target)
    requires Safe(sh.log, t)
    requires forall k :: 0 <= k < |steps| && DoAll(sh, steps[..k], o).ok ==>
      Allowed(DoAll(sh, steps[..k], o).log, t, steps[k].cmd)
    ensures Safe(DoAll(sh, steps, o).log, t) && sh.log <= DoAll(sh, steps, o).log
    decreases |steps|
  {
    hide Allowed, Safe;
    if steps != [] {
      var n := |steps| - 1;
      forall k | 0 <= k < n && DoAll(sh, steps[..n][..k], o).ok
        ensures Allowed(DoAll(sh, steps[..n][..k], o).log, t, steps[..n][k].cmd)
      {
        assert steps[..n][..k] == steps[..k];
      }
      DoAllSafe(sh, steps[..n], o, t);
      DoSafe(DoAll(sh, steps[..n], o), steps[n], o, t);
    }
  }

  /** The steps from index lo on, answered from position at on, all pass. */
  ghost predicate AllPass(steps: seq<Step>, o: Oracle, at: nat) {
    forall k :: 0 <= k < |steps| ==> Passes(steps[k], o(at + k))
  }

  function Logged(steps: seq<Step>, o: Oracle, at: nat): (log: seq<Exec>)
    ensures |log| == |steps| && forall k :: 0 <= k < |steps| ==> log[k] == Exec(steps[k].cmd, o(at + k))
  {
    seq(|steps|, k requires 0 <= k < |steps| => Exec(steps[k].cmd, o(at + k)))
  }

  /** A program succeeds exactly when every answer passes, and has then run every command once, in order. */
  lemma {:induction false} DoAllSucceedsIff(sh: Shell, steps: seq<Step>, o: Oracle)
    ensures DoAll(sh, steps, o).ok <==> sh.ok && AllPass(steps, o, |sh.log|)
    ensures DoAll(sh, steps, o).ok ==> DoAll(sh, steps, o).log == sh.log + Logged(steps, o, |sh.log|)
    decreases |steps|
  {
    if steps != [] {
      var n := |steps| - 1;
      DoAllSucceedsIff(sh, steps[..n], o);
      assert AllPass(steps, o, |sh.log|) <==> AllPass(steps[..n], o, |sh.log|) && Passes(steps[n], o(|sh.log| + n));
      assert Logged(steps, o, |sh.log|) == Logged(steps[..n], o, |sh.log|) + [Exec(steps[n].cmd, o(|sh.log| + n))];
    }
  }

  /** A program that succeeded has established what its steps demand. */
  lemma Establishes(sh: Shell, steps: seq<Step>, o: Oracle, k: nat, t: Target)
    requires k < |steps| && DoAll(sh, steps, o).ok
    ensures steps[k] == Step(CheckOpen(t.minor), MustBeSilent) ==> Checked(DoAll(sh, steps, o).log, t.minor)
    ensures steps[k] == Step(SetMaintenance(t.bus), MustSucceed) ==> InMaintenance(DoAll(sh, steps, o).log, t.bus)
    ensures steps[k] == Step(DisablePersistence(t.uuid), MustSucceed) ==> NotPersistent(DoAll(sh, steps, o).log, t)
  {
    DoAllSucceedsIff(sh, steps, o);
    var log := DoAll(sh, steps, o).log;
    hide DoAll;
    assert Passes(steps[k], o(|sh.log| + k));
    assert log[|sh.log| + k] == Exec(steps[k].cmd, o(|sh.log| + k));
  }

  // The two OCP branches.

  lemma OcpPluginSafe(t: Target, o: Oracle)
    ensures Safe(DoAll(Shell([], true), OcpPluginSteps(t), o).log, t)
  {
    var sh := Shell([], true);
    var steps := OcpPluginSteps(t);
    assert steps[3].cmd == ResetGpu(t.bus);
    if DoAll(sh, steps[..3], o).ok {
      Establishes(sh, steps[..3], o, 0, t);
      Establishes(sh, steps[..3], o, 1, t);
      Establishes(sh, steps[..3], o, 2, t);
    }
    hide DoAll;
    DoAllSafe(sh, steps, o, t);
  }

  lemma OcpDraHeadSafe(t: Target, o: Oracle)
    ensures var sh := DoAll(Shell([], true), OcpDraHead(t), o);
      Safe(sh.log, t) && (sh.ok ==> Checked(sh.log, t.minor) && NotPersistent(sh.log, t))
  {
    var sh := Shell([], true);
    var steps := OcpDraHead(t);
    if DoAll(sh, steps[..2], o).ok {
      Establishes(sh, steps[..2], o, 0, t);
      Establishes(sh, steps[..2], o, 1, t);
    }
    if DoAll(sh, steps, o).ok {
      Establishes(sh, steps, o, 0, t);
      Establishes(sh, steps, o, 1, t);
    }
    hide DoAll;
    DoAllSafe(sh, steps, o, t);
  }

  lemma OcpDraTailSafe(sh: Shell, t: Target, o: Oracle)
    requires Safe(sh.log, t) && Checked(sh.log, t.minor) && NotPersistent(sh.log, t)
    ensures Safe(DoAll(sh, OcpDraTail(t), o).log, t)
  {
    var steps := OcpDraTail(t);
    assert steps[..0] == [] && DoAll(sh, [], o) == sh;
    if DoAll(sh, steps[..2], o).ok {
      DoAllSucceedsIff(sh, steps[..2], o);
      Lasts(sh.log, DoAll(sh, steps[..2], o).log, t);
      Establishes(sh, steps[..2], o, 1, t);
    }
    hide DoAll;
    DoAllSafe(sh, steps, o, t);
  }

  /**
   In both OCP branches the outcome does not depend on the answer to the reset: with a target found and
   every pod there, the drain succeeds exactly when the answers before it pass.
   */
  lemma OcpPluginSucceedsIff(uuid: string, infos: seq<Listing.Info>, t: Target, o: Oracle)
    requires SmiTarget(infos, uuid) == Some(t)
    ensures var sh := OcpPlugin(uuid, true, Some(infos), o);
      && (sh.ok <==> Fine(o(0)) && Fine(o(1)) && o(1).out == "" && Fine(o(2)))
      && (sh.ok ==> sh.log == [Exec(DisablePersistence(uuid), o(0)), Exec(CheckOpen(t.minor), o(1)),
                               Exec(SetMaintenance(t.bus), o(2)), Exec(ResetGpu(t.bus), o(3))])
  {
    var steps := OcpPluginSteps(t);
    DoAllSucceedsIff(Shell([], true), steps, o);
    hide DoAll;
    assert t.uuid == uuid;
    assert AllPass(steps, o, 0) <==>
      Passes(steps[0], o(0)) && Passes(steps[1], o(1)) && Passes(steps[2], o(2)) && Passes(steps[3], o(3));
  }

  lemma OcpDraSucceedsIff(uuid: string, infos: seq<Listing.Info>, t: Target, o: Oracle)
    requires SmiTarget(infos, uuid) == Some(t)
    ensures var sh := OcpDra(uuid, true, Some(infos), true, o);
      && (sh.ok <==> Fine(o(0)) && Fine(o(1)) && o(1).out == "" && Fine(o(2)) && Fine(o(3)) && Fine(o(4)))
      && (sh.ok ==> sh.log == [Exec(DisablePersistence(uuid), o(0)), Exec(CheckOpen(t.minor), o(1)),
                               Exec(RemoveFile("/run/nvidia/driver/dev/nvidia" + t.minor), o(2)),
                               Exec(RemoveFile("/dev/nvidia" + t.minor), o(3)), Exec(SetMaintenance(t.bus), o(4)),
                               Exec(ResetGpu(t.bus), o(5))])
  {
    var head, tail := OcpDraHead(t), OcpDraTail(t);
    var sh := DoAll(Shell([], true), head, o);
    DoAllSucceedsIff(Shell([], true), head, o);
    DoAllSucceedsIff(sh, tail, o);
    hide DoAll;
    assert AllPass(head, o, 0) <==> Passes(head[0], o(0)) && Passes(head[1], o(1)) && Passes(head[2], o(2));
    assert AllPass(tail, o, 3) <==> Passes(tail[0], o(3 + 0)) && Passes(tail[1], o(3 + 1)) && Passes(tail[2], o(3 + 2));
  }

  // RKE2.

  /** The table without the steps a draining GPU skips. */
  function QuietSteps(t: Target, draining: bool): seq<Step> {
    if draining then [Step(CheckOpen(t.minor), MustBeSilent), Step(RemoveFile("/dev/nvidia" + t.minor), MustSucceed)]
      else Table(t)
  }

  lemma UnskippedTable(t: Target, draining: bool)
    ensures Unskipped(Table(t), draining) == QuietSteps(t, draining)
  {
    var steps := Table(t);
    assert steps[..3][..2][..1][..0] == [];
    assert steps[..3][..2][..1] == [steps[0]] && steps[..3][..2] == [steps[0], steps[1]]
      && steps[..3] == [steps[0], steps[1], steps[2]];
    assert Unskipped([steps[0]], draining) == if draining then [] else [steps[0]];
    assert Unskipped([steps[0], steps[1]], draining) == if draining then [steps[1]] else [steps[0], steps[1]];
    assert Unskipped(steps[..3], draining) == if draining then [steps[1]] else [steps[0], steps[1], steps[2]];
  }

  lemma QuietEstablishes(sh: Shell, t: Target, draining: bool, o: Oracle, n: nat)
    requires draining ==> FoundDraining(sh.log, t.bus)
    requires |QuietSteps(t, draining)| - 1 <= n <= |QuietSteps(t, draining)|
    requires DoAll(sh, QuietSteps(t, draining)[..n], o).ok
    ensures var r := DoAll(sh, QuietSteps(t, draining)[..n], o);
      Checked(r.log, t.minor) && NotPersistent(r.log, t) && InMaintenance(r.log, t.bus)
  {
    hide FoundDraining, DoAll;
    var steps := QuietSteps(t, draining)[..n];
    Establishes(sh, steps, o, if draining then 0 else 1, t);
    DoAllSucceedsIff(sh, steps, o);
    Lasts(sh.log, DoAll(sh, steps, o).log, t);
    if !draining {
      Establishes(sh, steps, o, 0, t);
      Establishes(sh, steps, o, 2, t);
    }
  }

  lemma QuietSafe(sh: Shell, t: Target, draining: bool, o: Oracle)
    requires Safe(sh.log, t) && (draining ==> FoundDraining(sh.log, t.bus))
    ensures var r := DoAll(sh, QuietSteps(t, draining), o);
      && Safe(r.log, t) && sh.log <= r.log
      && (r.ok ==> Checked(r.log, t.minor) && NotPersistent(r.log, t) && InMaintenance(r.log, t.bus))
  {
    hide FoundDraining, DoAll, Safe, Checked, NotPersistent, InMaintenance;
    var steps := QuietSteps(t, draining);
    var n := |steps| - 1;
    if DoAll(sh, steps[..n], o).ok { QuietEstablishes(sh, t, draining, o, n); }
    assert steps[..n + 1] == steps;
    if DoAll(sh, steps, o).ok { QuietEstablishes(sh, t, draining, o, n + 1); }
    DoAllSafe(sh, steps, o, t);
  }

  lemma QuerySafe(sh: Shell, t: Target, o: Oracle)
    requires Safe(sh.log, t)
    ensures var (r, draining) := Query(sh, t.bus, o);
      Safe(r.log, t) && (r.ok && draining ==> FoundDraining(r.log, t.bus))
  {
    DoSafe(sh, Step(QueryDrain(TrimSpace(t.bus)), MustSucceed), o, t);
    var (r, draining) := Query(sh, t.bus, o);
    hide Safe, DrainState, TrimSpace, DrainText.Answers;
    if r.ok && draining {
      DrainText.DrainStateMeans(o(|sh.log|).out, true);
      assert r.log[|sh.log|] == Exec(QueryDrain(TrimSpace(t.bus)), o(|sh.log|));
    }
  }

  lemma RemoveModulesSafe(sh: Shell, o: Oracle, t: Target)
    requires Safe(sh.log, t)
    ensures Safe(RemoveModules(sh, o).log, t) && sh.log <= RemoveModules(sh, o).log
    ensures RemoveModules(sh, o).ok ==> sh.ok && ModulesGone(RemoveModules(sh, o).log)
  {
    hide Loaded, Safe, Checked, NotPersistent, InMaintenance, Unloads, DoAll;
    var sh1 := Do(sh, Step(ListModules, MustSucceed), o);
    DoSafe(sh, Step(ListModules, MustSucceed), o, t);
    if sh.ok && sh1.ok {
      var steps := Removals(o(|sh.log|).out);
      DoAllSafe(sh1, steps, o, t);
      DoAllSucceedsIff(sh1, steps, o);
      if DoAll(sh1, steps, o).ok {
        UnloadsAll(sh1, o(|sh.log|).out, o);
        var log := DoAll(sh1, steps, o).log;
        assert log[|sh.log|] == sh1.log[|sh.log|] == Exec(ListModules, o(|sh.log|));
        assert ModulesGoneSince(log, |sh.log|);
      }
    }
  }

  lemma UnloadsAt(sh: Shell, steps: seq<Step>, o: Oracle, k: nat, name: string)
    requires DoAll(sh, steps, o).ok && k < |steps| && steps[k] == Step(RemoveModule(name), MustSucceed)
    ensures Unloads(DoAll(sh, steps, o).log, |sh.log| - 1, name)
  {
    DoAllSucceedsIff(sh, steps, o);
    var log := DoAll(sh, steps, o).log;
    hide DoAll;
    assert Passes(steps[k], o(|sh.log| + k));
    assert log[|sh.log| + k] == Exec(RemoveModule(name), o(|sh.log| + k));
  }

  lemma UnloadsAll(sh: Shell, out: string, o: Oracle)
    requires DoAll(sh, Removals(out), o).ok
    ensures var log := DoAll(sh, Removals(out), o).log;
      && (Loaded(out, DRM) ==> Unloads(log, |sh.log| - 1, DRM))
      && (Loaded(out, UVM) ==> Unloads(log, |sh.log| - 1, UVM))
  {
    hide Loaded, DoAll, Unloads;
    var steps := Removals(out);
    if Loaded(out, DRM) { UnloadsAt(sh, steps, o, 0, DRM); }
    if Loaded(out, UVM) { UnloadsAt(sh, steps, o, |steps| - 1, UVM); }
  }

  lemma LastGpuSafe(sh: Shell, t: Target, o: Oracle, late: bool)
    requires Safe(sh.log, t) && Checked(sh.log, t.minor) && NotPersistent(sh.log, t) && InMaintenance(sh.log, t.bus)
    ensures Safe(LastGpu(sh, ToLower(t.bus), o, late).log, t)
  {
    var bus := ToLower(t.bus);
    hide Safe, Checked, NotPersistent, InMaintenance, RemoveModules, Loaded, TrimSpace;
    var sh1 := RemoveModules(sh, o);
    RemoveModulesSafe(sh, o, t);
    var find := Step(FindRemoval(bus), MustSucceed);
    var sh2 := Do(sh1, find, o);
    DoSafe(sh1, find, o, t);
    if sh2.ok {
      ModulesStayGone(sh1.log, sh2.log);
      Lasts(sh.log, sh2.log, t);
      var sh3 := if StillRunning(sh1, bus, o).1 then sh2 else Do(sh2, Step(PciRemove(bus), MayFail), o);
      if !StillRunning(sh1, bus, o).1 { DoSafe(sh2, Step(PciRemove(bus), MayFail), o, t); }
      RemoveModulesSafe(sh3, o, t);
      DoSafe(RemoveModules(sh3, o), find, o, t);
    }
  }

  lemma ModulesStayGone(log: seq<Exec>, more: seq<Exec>)
    requires log <= more && ModulesGone(log)
    ensures ModulesGone(more)
  {
    hide Loaded;
    var j :| ModulesGoneSince(log, j);
    assert more[j] == log[j];
    forall name | Unloads(log, j, name) ensures Unloads(more, j, name) {
      var k :| j < k < |log| && log[k].cmd == RemoveModule(name) && Fine(log[k].reply);
      assert more[k] == log[k];
    }
    assert ModulesGoneSince(more, j);
  }

  lemma Rke2TargetSafe(sh: Shell, t: Target, last: bool, o: Oracle, late: bool)
    requires Safe(sh.log, t)
    ensures Safe(Rke2Target(sh, t, last, o, late).log, t)
  {
    hide Safe, Checked, NotPersistent, InMaintenance, FoundDraining, Query, DoAll, LastGpu;
    var (sh1, draining) := Query(sh, t.bus, o);
    QuerySafe(sh, t, o);
    UnskippedTable(t, draining);
    var sh2 := DoAll(sh1, Unskipped(Table(t), draining), o);
    if !sh1.ok {
      StoppedStays(sh1, Unskipped(Table(t), draining), o);
    } else {
      QuietSafe(sh1, t, draining, o);
      if sh2.ok {
        LastGpuSafe(sh2, t, o, late);
        DoSafe(sh2, Step(ResetGpu(t.bus), MustSucceed), o, t);
      }
    }
  }

  lemma {:induction false} StoppedStays(sh: Shell, steps: seq<Step>, o: Oracle)
    requires !sh.ok
    ensures DoAll(sh, steps, o) == sh
    decreases |steps|
  {
    if steps != [] { StoppedStays(sh, steps[..|steps| - 1], o); }
  }

  // All branches.

  /** The GPU the pass works on, if it gets as far as finding it. */
  function TargetOf(s: Setup, o: Oracle): Option<Target> {
    if s.driverEnabled.None? then None
    else if s.dra && !s.driverEnabled.value then
      var parsed := Listing.Parse(o(0).out, Listing.QUERY);
      if !s.agentPod || !Fine(o(0)) || !parsed.Infos? || FindGpu(parsed.infos, s.uuid) == |parsed.infos| then None
      else Some(FoundInProc(parsed.infos[FindGpu(parsed.infos, s.uuid)], s.uuid))
    else if !s.nvidiaPod || s.infos.None? then None
    else SmiTarget(s.infos.value, s.uuid)
  }

  predicate Dangerous(c: Command) {
    c.RemoveFile? || c.ResetGpu? || c.PciRemove?
  }

  /**
   Drain safety in all three branches, over every sequence of command results: only the target's device
   files are removed, and only after persistence mode was disabled or draining reported and the open-file
   check of this pass printed nothing; a GPU is reset or its PCI device removed only if, besides,
   maintenance mode was set or draining reported; for the PCI removal the loaded driver modules have been
   removed and no earlier removal is under way. All of it is for the target's own uuid, minor and bus id.
   */
  lemma DrainSafe(s: Setup, o: Oracle)
    ensures var log := DrainGpu(s, o).log;
      match TargetOf(s, o)
      case Some(t) => Safe(log, t)
      case None => forall i :: 0 <= i < |log| ==> !Dangerous(log[i].cmd)
  {
    hide Safe, DoAll, Rke2Target, Listing.Parse, FindGpu, FoundInProc;
    match TargetOf(s, o)
    case None =>
    case Some(t) =>
      assert Safe([], t) by { EmptySafe(t); }
      if s.dra && !s.driverEnabled.value {
        var sh := Do(Shell([], true), Step(ListGpus, MustSucceed), o);
        DoSafe(Shell([], true), Step(ListGpus, MustSucceed), o, t);
        Rke2TargetSafe(sh, t, |Listing.Parse(o(0).out, Listing.QUERY).infos| == 1, o, s.late);
      } else if s.dra {
        OcpDraHeadSafe(t, o);
        var sh := DoAll(Shell([], true), OcpDraHead(t), o);
        if sh.ok && s.pluginPod { OcpDraTailSafe(sh, t, o); }
      } else {
        OcpPluginSafe(t, o);
      }
  }

  lemma EmptySafe(t: Target)
    ensures Safe([], t)
  {
  }

  // Which of the two ways a GPU leaves an RKE2 node.

  ghost predicate Avoids(log: seq<Exec>, resets: bool) {
    forall i :: 0 <= i < |log| ==> !(if resets then log[i].cmd.ResetGpu? else log[i].cmd.PciRemove?)
  }

  lemma {:induction false} DoAllAvoids(sh: Shell, steps: seq<Step>, o: Oracle, resets: bool)
    requires Avoids(sh.log, resets) && forall k :: 0 <= k < |steps| ==>
      !steps[k].cmd.ResetGpu? && !steps[k].cmd.PciRemove?
    ensures Avoids(DoAll(sh, steps, o).log, resets)
    decreases |steps|
  {
    if steps != [] { DoAllAvoids(sh, steps[..|steps| - 1], o, resets); }
  }

  lemma RemoveModulesAvoids(sh: Shell, o: Oracle, resets: bool)
    requires Avoids(sh.log, resets)
    ensures Avoids(RemoveModules(sh, o).log, resets)
  {
    hide Loaded;
    var sh1 := Do(sh, Step(ListModules, MustSucceed), o);
    if sh.ok && sh1.ok { DoAllAvoids(sh1, Removals(o(|sh.log|).out), o, resets); }
  }

  lemma LastGpuAvoids(sh: Shell, bus: string, o: Oracle, late: bool)
    requires Avoids(sh.log, true)
    ensures Avoids(LastGpu(sh, bus, o, late).log, true)
  {
    hide RemoveModules, TrimSpace;
    var sh1 := RemoveModules(sh, o);
    RemoveModulesAvoids(sh, o, true);
    var (sh2, running) := StillRunning(sh1, bus, o);
    if sh2.ok {
      var sh3 := if running then sh2 else Do(sh2, Step(PciRemove(bus), MayFail), o);
      RemoveModulesAvoids(sh3, o, true);
    }
  }

  lemma Rke2TargetAvoids(sh: Shell, t: Target, last: bool, o: Oracle, late: bool)
    requires Avoids(sh.log, last)
    ensures Avoids(Rke2Target(sh, t, last, o, late).log, last)
  {
    hide LastGpu, TrimSpace, DrainState, DoAll, ToLower;
    var (sh1, draining) := Query(sh, t.bus, o);
    UnskippedTable(t, draining);
    DoAllAvoids(sh1, Unskipped(Table(t), draining), o, last);
    var sh2 := DoAll(sh1, Unskipped(Table(t), draining), o);
    if last && sh2.ok { LastGpuAvoids(sh2, ToLower(t.bus), o, late); }
  }

  /** Whatever the listing reads as: which way the GPU leaves depends on how many GPUs were read. */
  lemma RemovalByCount(uuid: string, agentPod: bool, infos: seq<Listing.Info>, o: Oracle, late: bool)
    requires Listing.Parse(o(0).out, Listing.QUERY) == Listing.Infos(infos)
    ensures Avoids(Rke2(uuid, agentPod, o, late).log, |infos| == 1)
  {
    hide Rke2Target, FindGpu, FoundInProc, Fine, Listing.Parse;
    var i := FindGpu(infos, uuid);
    var sh := Do(Shell([], true), Step(ListGpus, MustSucceed), o);
    if i < |infos| {
      Rke2TargetAvoids(sh, FoundInProc(infos[i], uuid), |infos| == 1, o, late);
    }
  }

  /**
   On an RKE2 node whose script lists these GPUs, a PCI removal is issued only when exactly one is listed
   and a reset only when not exactly one is: the listing is read back as it was printed.
   */
  lemma RemovalOnlyOfTheLast(gpus: seq<Listing.Gpu>, uuid: string, agentPod: bool, o: Oracle, late: bool)
    requires o(0).out == Listing.Print(gpus) && forall i :: 0 <= i < |gpus| ==> Listing.CleanGpu(gpus[i])
    ensures Avoids(Rke2(uuid, agentPod, o, late).log, |gpus| == 1)
  {
    hide *;
    Listing.RoundTrip(gpus);
    RemovalByCount(uuid, agentPod, Listing.InfosOf(gpus), o, late);
  }
}
