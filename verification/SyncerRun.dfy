/**
 The upstream syncer on the store of both controllers: its ticks read the resources there are, and labelled
 resources are made because a tick asked for them.
 */
module SyncerRun {
  import opened Api
  import opened Cluster
  import opened Effects
  import opened Guarantee
  import opened Joint
  import Life = ResourceLifecycle
  import Sync = Syncer

  /** The store, the ticks so far, and the store each of them read. */
  datatype Total = Total(joint: Joint.State, history: seq<Sync.Attempt>, shots: seq<Joint.State>)

  datatype Step = Work(move: Joint.Move) | Tick(attempt: Sync.Attempt)

  function Recorded(w: World): set<string> {
    set n | n in w.resources :: w.resources[n].status.deviceID
  }

  function OriginOf(r: Resource): Life.Origin {
    Life.Origin(r.spec, r.detachID, r.detachCdiID)
  }

  /** Some turn of some tick asked for such a resource. */
  ghost predicate WasAsked(h: seq<Sync.Attempt>, of: Life.Origin) {
    exists k: nat, i: nat :: Sync.At(h, k, i) && Sync.Creates(h, k, i)
      && Sync.DetachOrigin(h[k].sightings[i].device) == of
  }

  ghost predicate CanStep(t: Total, x: Step) {
    match x
    case Work(m) =>
      && Able(t.joint, m)
      && (m.Other? && m.event.CreateResource? && m.event.res.detachID != "" ==>
            WasAsked(t.history, OriginOf(m.event.res)))
    case Tick(a) => a.Synced? ==> (set id | id in a.recorded) == Recorded(t.joint.world)
  }

  ghost function Then(kind: Life.DeviceType, t: Total, x: Step): Total
    requires CanStep(t, x)
  {
    match x
    case Work(m) => t.(joint := After(kind, t.joint, m))
    case Tick(a) => t.(history := t.history + [a], shots := t.shots + [t.joint])
  }

  ghost predicate Legal(kind: Life.DeviceType, t: Total, steps: seq<Step>)
    decreases |steps|
  {
    steps == [] || (CanStep(t, steps[0]) && Legal(kind, Then(kind, t, steps[0]), steps[1..]))
  }

  ghost function Run(kind: Life.DeviceType, t: Total, steps: seq<Step>): Total
    requires Legal(kind, t, steps)
    decreases |steps|
  {
    if steps == [] then t else Run(kind, Then(kind, t, steps[0]), steps[1..])
  }

  const BEGIN := Total(START, [], [])

  /** What every step keeps. */
  ghost predicate Fine(kind: Life.DeviceType, t: Total) {
    && Joined(kind, t.joint) && |t.shots| == |t.history|
    && (forall k :: 0 <= k < |t.history| ==>
          Joined(kind, t.shots[k]) && (t.history[k].Synced? ==>
            (set id | id in t.history[k].recorded) == Recorded(t.shots[k].world)))
    && AllAsked(t.history, t.joint.world.resources)
  }

  ghost predicate AllAsked(h: seq<Sync.Attempt>, resources: map<string, Resource>) {
    forall n :: n in resources && resources[n].detachID != "" ==> WasAsked(h, OriginOf(resources[n]))
  }

  /** A later tick takes back nothing that was asked for. */
  lemma StillAsked(h: seq<Sync.Attempt>, a: Sync.Attempt, of: Life.Origin)
    requires WasAsked(h, of)
    ensures WasAsked(h + [a], of)
  {
    var k: nat, i: nat :| Sync.At(h, k, i) && Sync.Creates(h, k, i)
      && Sync.DetachOrigin(h[k].sightings[i].device) == of;
    var h' := h + [a];
    assert h'[..k] == h[..k] && h'[k] == h[k];
    assert Sync.At(h', k, i) && Sync.Creates(h', k, i);
  }

  /** Only an explicit creation brings a labelled resource, and labels never change. */
  ghost predicate KeepsLabels(before: map<string, Resource>, after: map<string, Resource>) {
    forall n :: n in after ==>
      if n in before then OriginOf(after[n]) == OriginOf(before[n]) else after[n].detachID == ""
  }

  lemma EventKeepsLabels(w: World, e: Event)
    requires Enabled(w, e) && !OwnWrite(e) && !e.CreateResource?
    ensures KeepsLabels(w.resources, Next(w, e).resources)
  {
    OthersOnlyMark(w, e);
    if e.PassUpdate? {
      assert forall n :: n in e.wr.listing ==> ManagedBy(w, e.name, n);
      UpdateEffect(w, e.name, e.wr, e.save);
      hide UpdatePass;
    } else {
      NothingNew(w, e);
      hide Next;
    }
  }

  lemma NothingNew(w: World, e: Event)
    requires Enabled(w, e) && !OwnWrite(e) && !e.CreateResource? && !e.PassUpdate?
    ensures Next(w, e).resources.Keys <= w.resources.Keys
  {
    hide UpdatePass, CleanPass, AllocatePass, NonePass, RunPass, Fail;
    match e
    case PassNone(name, added, msg, save) => NoneEffect(w, name, added, msg, save);
    case PassAllocate(name, look, save) => AllocateEffect(w, name, look, save);
    case PassClean(name, wr, save) => CleanEffect(w, name, wr, save);
    case PassRun(name, save) => RunEffect(w, name, save);
    case PassError(name, msg) => FailEffect(w, name, w.requests[name], msg, Saved);
    case PassFinish(name, dropped, msg, save) => FailEffect(w, name, w.requests[name], msg, save);
    case _ =>
  }

  lemma KeptLabelsAsked(h: seq<Sync.Attempt>, before: map<string, Resource>, after: map<string, Resource>)
    requires AllAsked(h, before) && KeepsLabels(before, after)
    ensures AllAsked(h, after)
  {
    hide WasAsked;
  }

  lemma PassKeepsLabels(kind: Life.DeviceType, s: Joint.State, n: string, a: Life.Answers)
    requires Able(s, Pass(n, a))
    ensures KeepsLabels(s.world.resources, After(kind, s, Pass(n, a)).world.resources)
  {
    hide Life.Step;
  }

  lemma CreationAsked(h: seq<Sync.Attempt>, w: World, name: string, res: Resource)
    requires Enabled(w, CreateResource(name, res)) && AllAsked(h, w.resources)
    requires res.detachID != "" ==> WasAsked(h, OriginOf(res))
    ensures AllAsked(h, Next(w, CreateResource(name, res)).resources)
  {
    hide WasAsked;
  }

  lemma WorkStaysAsked(kind: Life.DeviceType, t: Total, m: Joint.Move)
    requires CanStep(t, Work(m)) && AllAsked(t.history, t.joint.world.resources)
    ensures AllAsked(t.history, After(kind, t.joint, m).world.resources)
  {
    var w := t.joint.world;
    if m.Pass? {
      PassKeepsLabels(kind, t.joint, m.n, m.answers);
    } else if m.event.CreateResource? {
      CreationAsked(t.history, w, m.event.name, m.event.res);
    } else {
      EventKeepsLabels(w, m.event);
    }
    hide AllAsked, Enabled, Next, KeepsLabels, Life.Step, Stored;
    if m.Pass? || !m.event.CreateResource? {
      KeptLabelsAsked(t.history, w.resources, After(kind, t.joint, m).world.resources);
    }
  }

  lemma WorkStaysFine(kind: Life.DeviceType, t: Total, m: Joint.Move)
    requires Fine(kind, t) && CanStep(t, Work(m))
    ensures Fine(kind, Then(kind, t, Work(m)))
  {
    hide Joined, AllAsked, WasAsked, Recorded, Able, After;
    MoveJoins(kind, t.joint, m);
    WorkStaysAsked(kind, t, m);
  }

  lemma TickStaysFine(kind: Life.DeviceType, t: Total, a: Sync.Attempt)
    requires Fine(kind, t) && CanStep(t, Tick(a))
    ensures Fine(kind, Then(kind, t, Tick(a)))
  {
    hide Joined, WasAsked, Recorded;
    var t' := Then(kind, t, Tick(a));
    forall n | n in t.joint.world.resources && t.joint.world.resources[n].detachID != ""
      ensures WasAsked(t'.history, OriginOf(t.joint.world.resources[n]))
    {
      StillAsked(t.history, a, OriginOf(t.joint.world.resources[n]));
    }
  }

  lemma {:induction false} RunStaysFine(kind: Life.DeviceType, t: Total, steps: seq<Step>)
    requires Fine(kind, t) && Legal(kind, t, steps)
    ensures Fine(kind, Run(kind, t, steps))
    decreases |steps|
  {
    if steps != [] {
      hide Fine, CanStep, Then;
      match steps[0] {
        case Work(m) => WorkStaysFine(kind, t, m);
        case Tick(a) => TickStaysFine(kind, t, a);
      }
      RunStaysFine(kind, Then(kind, t, steps[0]), steps[1..]);
    }
  }

  /** Nobody records the device, and whoever is labelled to detach it has not begun or has already let go of it. */
  ghost predicate LeftAlone(w: World, id: string) {
    forall n :: n in w.resources ==>
      && w.resources[n].status.deviceID != id
      && (w.resources[n].detachID == id ==>
            w.resources[n].status.state == Blank
            || (w.resources[n].status.deviceID == ""
                && (w.resources[n].status.state == Detaching || w.resources[n].status.state == Deleting)))
  }

  lemma ReachedCarries(kind: Life.DeviceType, e: Life.Device)
    requires Reached(kind, e) && e.of.detachID != ""
    ensures Life.CarriesLabel(e)
  {
    var d, moves :| Life.Created(d) && Life.Run(kind, d, moves) == e;
    RunKeepsOf(kind, d, moves);
    Life.RunCarries(kind, d, moves);
  }

  lemma {:induction false} RunKeepsOf(kind: Life.DeviceType, d: Life.Device, moves: seq<Life.Move>)
    ensures Life.Run(kind, d, moves).of == d.of
    decreases |moves|
  {
    if moves != [] {
      hide Life.Step;
      Life.StepId(kind, d, moves[0]);
      RunKeepsOf(kind, Life.Step(kind, d, moves[0]).device, moves[1..]);
    }
  }

  /** A tick that saw a device missing found it left alone in the store. */
  lemma MissingIsLeftAlone(kind: Life.DeviceType, s: Joint.State, a: Sync.Attempt, id: string)
    requires Joined(kind, s) && Sync.SawMissing(a, id) && id != "" && (set i | i in a.recorded) == Recorded(s.world)
    ensures LeftAlone(s.world, id)
  {
    forall n | n in s.world.resources
      ensures s.world.resources[n].status.deviceID != id
      ensures s.world.resources[n].detachID == id ==> Life.CarriesLabel(s.devices[n]) && s.devices[n].of.detachID == id
    {
      assert s.world.resources[n].status.deviceID in Recorded(s.world);
      if s.world.resources[n].detachID == id { ReachedCarries(kind, s.devices[n]); }
    }
  }

  /**
   The syncer against the resources it makes: when a detach resource for a device is asked for, then at every
   tick since a sighting more than ten minutes earlier nobody had the device recorded, and every resource
   stored to detach it had not begun or had already let go of it.
   */
  lemma AskedWhenLeftAlone(kind: Life.DeviceType, steps: seq<Step>, k: nat, i: nat) returns (k0: nat, i0: nat)
    requires Legal(kind, BEGIN, steps)
    requires var h := Run(kind, BEGIN, steps).history;
      Sync.At(h, k, i) && Sync.Creates(h, k, i) && h[k].sightings[i].device.deviceID != ""
    ensures var t := Run(kind, BEGIN, steps); var h := t.history;
      && Sync.At(h, k0, i0) && Sync.Earlier(k0, i0, k, i) && |t.shots| == |h|
      && h[k0].sightings[i0].device.deviceID == h[k].sightings[i].device.deviceID
      && h[k].sightings[i].now - h[k0].sightings[i0].now > Sync.GRACE
      && forall j :: k0 <= j <= k && h[j].Synced? ==> LeftAlone(t.shots[j].world, h[k].sightings[i].device.deviceID)
  {
    StartFacts(kind);
    RunStaysFine(kind, BEGIN, steps);
    var t := Run(kind, BEGIN, steps);
    var id := t.history[k].sightings[i].device.deviceID;
    k0, i0 := Sync.GracePeriod(t.history, k, i);
    hide Joined, LeftAlone, Recorded, WasAsked;
    forall j | k0 <= j <= k && t.history[j].Synced? ensures LeftAlone(t.shots[j].world, id) {
      MissingIsLeftAlone(kind, t.shots[j], t.history[j], id);
    }
  }

  /** Every labelled resource in the store was asked for by some tick. */
  lemma LabelledWasAsked(kind: Life.DeviceType, steps: seq<Step>, n: string)
    requires Legal(kind, BEGIN, steps)
    requires var r := Run(kind, BEGIN, steps).joint.world.resources; n in r && r[n].detachID != ""
    ensures var t := Run(kind, BEGIN, steps); WasAsked(t.history, OriginOf(t.joint.world.resources[n]))
  {
    StartFacts(kind);
    RunStaysFine(kind, BEGIN, steps);
  }
}
