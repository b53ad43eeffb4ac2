/**
 Both controllers at work on one store. The world is the cluster's; beside it stands, for every stored
 resource, the device as the resource controller's lifecycle has it. A move is an event of the request
 controller or of a user, or one whole reconcile of one resource under any answers.
 */
module Joint {
  import opened Api
  import opened Cluster
  import opened Effects
  import opened Mirror
  import opened Exclusivity
  import opened Composition
  import opened Guarantee
  import opened Unguarded
  import Life = ResourceLifecycle

  datatype State = State(world: World, devices: map<string, Life.Device>)

  datatype Move = Other(event: Event) | Pass(n: string, answers: Life.Answers)

  /** Status and finalizer of a resource are the resource controller's to write. */
  predicate OwnWrite(e: Event) {
    e.WriteStatus? || e.AddFinalizer? || e.DropFinalizer?
  }

  ghost predicate Able(s: State, m: Move) {
    match m
    case Other(e) => Enabled(s.world, e) && !OwnWrite(e)
    case Pass(n, _) => n in s.devices && n in s.world.resources
  }

  function NewDevice(r: Resource): Life.Device {
    Life.Fresh(Life.Origin(r.spec, r.detachID, r.detachCdiID))
  }

  /** Objects others made are new devices, objects others marked are devices to be deleted. */
  function Follow(resources: map<string, Resource>, devices: map<string, Life.Device>): map<string, Life.Device> {
    map n | n in resources :: if n in devices then devices[n].(deleting := resources[n].deleting)
      else NewDevice(resources[n])
  }

  function Reconciled(kind: Life.DeviceType, s: State, n: string, a: Life.Answers): Life.Device
    requires n in s.devices
  {
    Life.Step(kind, s.devices[n], Life.Reconciled(a)).device
  }

  ghost function After(kind: Life.DeviceType, s: State, m: Move): State
    requires Able(s, m)
  {
    match m
    case Other(e) => State(Next(s.world, e), Follow(Next(s.world, e).resources, s.devices))
    case Pass(n, a) =>
      var e := Reconciled(kind, s, n, a);
      State(Stored(s.world, n, e), if e.gone then s.devices - {n} else s.devices[n := e])
  }

  /** Store and lifecycle agree on every resource, and every device is where its controller has brought it. */
  ghost predicate Joined(kind: Life.DeviceType, s: State) {
    && s.devices.Keys == s.world.resources.Keys
    && forall n :: n in s.devices ==>
      Shows(s.world.resources[n], s.devices[n]) && !s.devices[n].gone && Reached(kind, s.devices[n])
  }

  // Others only make and mark resources.

  ghost predicate OnlyMarks(before: map<string, Resource>, after: map<string, Resource>) {
    forall n :: n in after ==>
      if n in before then after[n] == before[n] || (before[n].finalizer && after[n] == before[n].(deleting := true))
      else after[n].status == NO_STATUS && !after[n].deleting && !after[n].finalizer
  }

  lemma UpdateOnlyMarks(w: World, name: string, wr: Writing, save: Save)
    requires Ready(w, name, Updating) && Lists(w, name, wr.listing) && forall n :: n in wr.order ==>
      n in w.requests[name].resources
    ensures OnlyMarks(w.resources, UpdatePass(w, name, wr, save).resources)
  {
    assert forall n :: n in wr.listing ==> ManagedBy(w, name, n);
    UpdateEffect(w, name, wr, save);
    hide UpdatePass;
  }

  lemma CleanOnlyMarks(w: World, name: string, wr: Writing, save: Save)
    requires Ready(w, name, Cleaning)
    ensures OnlyMarks(w.resources, CleanPass(w, name, wr, save).resources)
  {
    CleanEffect(w, name, wr, save);
    hide CleanPass;
  }

  lemma OthersOnlyMark(w: World, e: Event)
    requires Enabled(w, e) && !OwnWrite(e)
    ensures OnlyMarks(w.resources, Next(w, e).resources)
  {
    hide UpdatePass, CleanPass, AllocatePass, NonePass, RunPass, Fail;
    match e
    case PassNone(name, added, msg, save) => NoneEffect(w, name, added, msg, save);
    case PassAllocate(name, look, save) => AllocateEffect(w, name, look, save);
    case PassUpdate(name, wr, save) => UpdateOnlyMarks(w, name, wr, save);
    case PassClean(name, wr, save) => CleanOnlyMarks(w, name, wr, save);
    case PassRun(name, save) => RunEffect(w, name, save);
    case PassError(name, msg) => FailEffect(w, name, w.requests[name], msg, Saved);
    case PassFinish(name, dropped, msg, save) => FailEffect(w, name, w.requests[name], msg, save);
    case _ =>
  }

  lemma NewIsReached(kind: Life.DeviceType, r: Resource)
    ensures Reached(kind, NewDevice(r))
  {
    assert Life.Run(kind, NewDevice(r), []) == NewDevice(r);
  }

  lemma MarkedIsReached(kind: Life.DeviceType, d: Life.Device)
    requires Reached(kind, d) && !d.gone && d.finalizer
    ensures Reached(kind, d.(deleting := true))
  {
    StepReached(kind, d, Life.MarkedDeleted);
  }

  lemma FollowJoins(kind: Life.DeviceType, s: State, w': World)
    requires Joined(kind, s) && OnlyMarks(s.world.resources, w'.resources)
    ensures Joined(kind, State(w', Follow(w'.resources, s.devices)))
  {
    hide Reached;
    forall n | n in w'.resources
      ensures var d := Follow(w'.resources, s.devices)[n]; Shows(w'.resources[n], d) && !d.gone && Reached(kind, d)
    {
      if n !in s.devices {
        NewIsReached(kind, w'.resources[n]);
      } else if w'.resources[n] == s.world.resources[n] {
        assert Follow(w'.resources, s.devices)[n] == s.devices[n];
      } else {
        MarkedIsReached(kind, s.devices[n]);
      }
    }
  }

  lemma PassJoins(kind: Life.DeviceType, s: State, n: string, a: Life.Answers)
    requires Joined(kind, s) && n in s.devices
    ensures Joined(kind, After(kind, s, Pass(n, a)))
  {
    StepReached(kind, s.devices[n], Life.Reconciled(a));
    ReachedFacts(kind, s.devices[n]);
    StepPossible(kind, s.devices[n], Life.Reconciled(a));
    hide Reached, Life.Step, Tidy;
  }

  lemma MoveJoins(kind: Life.DeviceType, s: State, m: Move)
    requires Joined(kind, s) && Able(s, m)
    ensures Joined(kind, After(kind, s, m))
  {
    match m
    case Other(e) =>
      OthersOnlyMark(s.world, e);
      hide Enabled, Next, Joined, OnlyMarks, Follow;
      FollowJoins(kind, s, Next(s.world, e));
    case Pass(n, a) => PassJoins(kind, s, n, a);
  }

  // Joint runs are runs of the cluster.

  /** The move keeps to `fair`: the event does, or every write of the reconcile does. */
  ghost predicate Fair(kind: Life.DeviceType, s: State, m: Move, fair: (World, Event) -> bool)
    requires Able(s, m)
  {
    match m
    case Other(e) => fair(s.world, e)
    case Pass(n, a) =>
      forall w', ev :: AtWork(s.world, w', n) && ev in Echo(n, s.devices[n], Reconciled(kind, s, n, a)) ==> fair(w', ev)
  }

  ghost predicate AllFair(kind: Life.DeviceType, s: State, moves: seq<Move>, fair: (World, Event) -> bool)
    decreases |moves|
  {
    moves == [] || (Able(s, moves[0]) && Fair(kind, s, moves[0], fair)
                    && AllFair(kind, After(kind, s, moves[0]), moves[1..], fair))
  }

  ghost predicate AllAble(kind: Life.DeviceType, s: State, moves: seq<Move>)
    decreases |moves|
  {
    moves == [] || (Able(s, moves[0]) && AllAble(kind, After(kind, s, moves[0]), moves[1..]))
  }

  ghost function End(kind: Life.DeviceType, s: State, moves: seq<Move>): State
    requires AllAble(kind, s, moves)
    decreases |moves|
  {
    if moves == [] then s else End(kind, After(kind, s, moves[0]), moves[1..])
  }

  lemma MoveRefines(kind: Life.DeviceType, s: State, m: Move, fair: (World, Event) -> bool) returns (es: seq<Event>)
    requires Joined(kind, s) && Able(s, m) && Fair(kind, s, m, fair)
    ensures Legal(s.world, es, fair) && Run(s.world, es, fair) == After(kind, s, m).world
  {
    hide Enabled, Next, Reached, Stored, Shows, Legal, Run, Echo;
    match m
    case Other(e) =>
      es := [e];
      One(s.world, e, fair);
    case Pass(n, a) =>
      es := Echo(n, s.devices[n], Reconciled(kind, s, n, a));
      ReconcileIsARun(s.world, n, kind, s.devices[n], a, fair);
  }

  /**
   Every joint run is a run of cluster events that keeps to the same assumptions, and store and lifecycle agree
   throughout.
   */
  lemma {:induction false} JointRefines(kind: Life.DeviceType, s: State, moves: seq<Move>,
                                        fair: (World, Event) -> bool)
    returns (es: seq<Event>)
    requires Joined(kind, s) && AllFair(kind, s, moves, fair) && AllAble(kind, s, moves)
    ensures Legal(s.world, es, fair) && Run(s.world, es, fair) == End(kind, s, moves).world
    ensures Joined(kind, End(kind, s, moves))
    decreases |moves|
  {
    es := [];
    if moves != [] {
      hide Joined, Able, Fair, After;
      var first := MoveRefines(kind, s, moves[0], fair);
      MoveJoins(kind, s, moves[0]);
      var rest := JointRefines(kind, After(kind, s, moves[0]), moves[1..], fair);
      RunAppends(s.world, first, rest, fair);
      es := first + rest;
    }
  }

  /** The move keeps to `fair`, and a reconcile does not find its node missing. */
  ghost predicate Peaceful(kind: Life.DeviceType, s: State, m: Move, fair: (World, Event) -> bool)
    requires Able(s, m)
  {
    match m
    case Other(e) => fair(s.world, e)
    case Pass(n, a) => !Reconciled(kind, s, n, a).nodeLost
  }

  ghost predicate AllPeaceful(kind: Life.DeviceType, s: State, moves: seq<Move>, fair: (World, Event) -> bool)
    decreases |moves|
  {
    moves == [] || (Able(s, moves[0]) && Peaceful(kind, s, moves[0], fair)
                    && AllPeaceful(kind, After(kind, s, moves[0]), moves[1..], fair))
  }

  /** Obedience, perhaps with something asked of edits besides. */
  ghost predicate Asks(fair: (World, Event) -> bool) {
    && (forall w: World, e: Event :: fair(w, e) ==> Obedient(w, e))
    && (forall w: World, e: Event :: !e.EditRequest? && Obedient(w, e) ==> fair(w, e))
  }

  lemma PeacefulIsFair(kind: Life.DeviceType, s: State, m: Move, fair: (World, Event) -> bool)
    requires Asks(fair) && Joined(kind, s) && Coherent(s.world) && Able(s, m) && Peaceful(kind, s, m, fair)
    ensures Fair(kind, s, m, fair) && Fair(kind, s, m, Obedient)
  {
    hide Coherent, Reached, Obedient, Enabled, AtWork, Shows;
    match m
    case Other(e) =>
    case Pass(n, a) =>
      ReconcileIsObedient(s.world, n, kind, s.devices[n], a);
      assert forall ev :: ev in Echo(n, s.devices[n], Reconciled(kind, s, n, a)) ==> !ev.EditRequest?;
  }

  lemma PeaceStays(kind: Life.DeviceType, s: State, m: Move)
    requires Joined(kind, s) && Coherent(s.world) && Unmarked(s.world) && Able(s, m) && Fair(kind, s, m, Obedient)
    ensures Coherent(After(kind, s, m).world) && Unmarked(After(kind, s, m).world)
  {
    hide Joined, Coherent, Unmarked, Able, Fair, After;
    var es := MoveRefines(kind, s, m, Obedient);
    ObedientRunKeeps(s.world, es);
  }

  lemma {:induction false} PeacefulRunIsFair(kind: Life.DeviceType, s: State, moves: seq<Move>,
                                             fair: (World, Event) -> bool)
    requires Asks(fair) && Joined(kind, s) && Coherent(s.world) && Unmarked(s.world)
    requires AllPeaceful(kind, s, moves, fair)
    ensures AllFair(kind, s, moves, fair) && AllAble(kind, s, moves)
    decreases |moves|
  {
    if moves != [] {
      hide Asks, Joined, Coherent, Unmarked, Able, Fair, Peaceful, After;
      PeacefulIsFair(kind, s, moves[0], fair);
      MoveJoins(kind, s, moves[0]);
      PeaceStays(kind, s, moves[0]);
      PeacefulRunIsFair(kind, After(kind, s, moves[0]), moves[1..], fair);
    }
  }

  /** The run is possible; nothing is asked of anybody. */
  lemma {:induction false} AbleIsFree(kind: Life.DeviceType, s: State, moves: seq<Move>)
    requires AllAble(kind, s, moves)
    ensures AllFair(kind, s, moves, Free)
    decreases |moves|
  {
    if moves != [] {
      hide Able, After;
      AbleIsFree(kind, After(kind, s, moves[0]), moves[1..]);
    }
  }

  // The theorems, over every joint run.

  const START := State(EMPTY, map[])

  lemma StartFacts(kind: Life.DeviceType)
    ensures Joined(kind, START) && Coherent(START.world) && Unmarked(START.world)
  {
  }

  /** Store and lifecycle agree at the end of every joint run. */
  lemma JointJoined(kind: Life.DeviceType, moves: seq<Move>)
    requires AllAble(kind, START, moves)
    ensures Joined(kind, End(kind, START, moves))
  {
    StartFacts(kind);
    AbleIsFree(kind, START, moves);
    hide Joined;
    var es := JointRefines(kind, START, moves, Free);
  }

  /** Every resource of every joint run is where its own lifecycle has brought it, node there or not. */
  lemma JointLifecycle(kind: Life.DeviceType, moves: seq<Move>, n: string)
    requires AllAble(kind, START, moves) && n in End(kind, START, moves).world.resources
    ensures var s := End(kind, START, moves);
      n in s.devices && Shows(s.world.resources[n], s.devices[n]) && Reached(kind, s.devices[n])
  {
    JointJoined(kind, moves);
  }

  /** Mirror coherence for both controllers together, while nodes stay and nobody else deletes what a request wants. */
  lemma JointMirror(kind: Life.DeviceType, moves: seq<Move>, m: string, k: string)
    requires AllPeaceful(kind, START, moves, Obedient) && AllAble(kind, START, moves)
    requires var w := End(kind, START, moves).world; TracksBy(w, m, k) && k in w.resources
    ensures var w := End(kind, START, moves).world;
      Reflects(w.requests[m].resources[k], w.resources[k].status) || Queued(w, k)
  {
    StartFacts(kind);
    assert Asks(Obedient);
    hide Joined, Coherent, Unmarked, Obedient;
    PeacefulRunIsFair(kind, START, moves, Obedient);
    var es := JointRefines(kind, START, moves, Obedient);
    StaleMeansQueuedTogether(es, m, k);
  }

  /** A tracked name is without a resource only before its resource is made, or when its request is leaving. */
  lemma JointMissing(kind: Life.DeviceType, moves: seq<Move>, m: string, k: string)
    requires AllPeaceful(kind, START, moves, Obedient) && AllAble(kind, START, moves)
    requires var w := End(kind, START, moves).world; TracksBy(w, m, k) && k !in w.resources
    ensures var w := End(kind, START, moves).world;
      Retiring(w.requests[m]) || Reflects(w.requests[m].resources[k], NO_STATUS)
  {
    StartFacts(kind);
    assert Asks(Obedient);
    PeacefulRunIsFair(kind, START, moves, Obedient);
    hide Joined, Coherent, Unmarked, Obedient;
    var es := JointRefines(kind, START, moves, Obedient);
    ObedientRunKeeps(EMPTY, es);
    MissingInCoherent(End(kind, START, moves).world, m, k);
  }

  lemma MissingInCoherent(w: World, m: string, k: string)
    requires Coherent(w) && TracksBy(w, m, k) && k !in w.resources
    ensures Retiring(w.requests[m]) || Reflects(w.requests[m].resources[k], NO_STATUS)
  {
    assert Honest(w, m, k);
  }

  /** Running is entered with every tracked resource Online, over every joint run while nodes stay. */
  lemma JointRunningMeansOnline(kind: Life.DeviceType, moves: seq<Move>, m: string, wr: Writing, save: Save)
    requires AllPeaceful(kind, START, moves, Obedient) && AllAble(kind, START, moves)
    requires var w := End(kind, START, moves).world;
      w.pending == {} && Enabled(w, PassUpdate(m, wr, save))
        && Next(w, PassUpdate(m, wr, save)).requests[m].state == Running
    ensures var w' := Next(End(kind, START, moves).world, PassUpdate(m, wr, save));
      forall k :: k in w'.requests[m].resources ==> k in w'.resources && w'.resources[k].status.state == Online
  {
    StartFacts(kind);
    assert Asks(Obedient);
    PeacefulRunIsFair(kind, START, moves, Obedient);
    hide Joined, Coherent, Unmarked, Obedient, Undisturbed, Enabled, Next;
    var es := JointRefines(kind, START, moves, Obedient);
    ObedientRun(EMPTY, es);
    RunningMeansOnline(es, m, wr, save);
  }

  /** Only edits and allocations can be imprudent; what the resource controller does never is. */
  ghost predicate AllPrudent(kind: Life.DeviceType, s: State, moves: seq<Move>)
    requires AllAble(kind, s, moves)
    decreases |moves|
  {
    moves != [] ==>
      && (moves[0].Other? ==> Prudent(s.world, moves[0].event))
      && AllPrudent(kind, After(kind, s, moves[0]), moves[1..])
  }

  lemma {:induction false} PrudentIsFair(kind: Life.DeviceType, s: State, moves: seq<Move>)
    requires AllAble(kind, s, moves) && AllPrudent(kind, s, moves)
    ensures AllFair(kind, s, moves, Prudent)
    decreases |moves|
  {
    if moves != [] {
      hide Able, After, Floats;
      PrudentIsFair(kind, After(kind, s, moves[0]), moves[1..]);
    }
  }

  /**
   Exclusivity for both controllers together, nodes vanishing at any time: in every joint run whose allocations
   are prudent, two samenode requests without target node never track the same node.
   */
  lemma JointExclusivity(kind: Life.DeviceType, moves: seq<Move>, m: string, m': string, k: string, l: string)
    requires AllAble(kind, START, moves) && AllPrudent(kind, START, moves) && m != m'
    requires var w := End(kind, START, moves).world;
      Floats(w, m) && Floats(w, m') && TracksBy(w, m, k) && TracksBy(w, m', l)
    ensures var w := End(kind, START, moves).world;
      w.requests[m].resources[k].nodeName != w.requests[m'].resources[l].nodeName
  {
    StartFacts(kind);
    hide Joined, Coherent, Unmarked, Prudent;
    PrudentIsFair(kind, START, moves);
    var es := JointRefines(kind, START, moves, Prudent);
    NeverShareNode(es, m, m', k, l);
  }

  /** And without that condition, while nodes stay, nobody else deletes what a request wants, and edits are settled. */
  lemma JointExclusivityAtPeace(kind: Life.DeviceType, moves: seq<Move>, m: string, m': string, k: string, l: string)
    requires AllPeaceful(kind, START, moves, Lawful) && AllAble(kind, START, moves) && m != m'
    requires var w := End(kind, START, moves).world;
      Floats(w, m) && Floats(w, m') && TracksBy(w, m, k) && TracksBy(w, m', l)
    ensures var w := End(kind, START, moves).world;
      w.requests[m].resources[k].nodeName != w.requests[m'].resources[l].nodeName
  {
    StartFacts(kind);
    assert Asks(Lawful);
    hide Joined, Coherent, Unmarked, Obedient, Lawful;
    PeacefulRunIsFair(kind, START, moves, Lawful);
    var es := JointRefines(kind, START, moves, Lawful);
    NeverShareNodeTogether(es, m, m', k, l);
  }

  /** And when nodes vanish, or anybody deletes anything: what is left of mirror coherence. */
  lemma JointMirrorAnyhow(kind: Life.DeviceType, moves: seq<Move>, m: string, k: string)
    requires AllAble(kind, START, moves)
    requires var w := End(kind, START, moves).world; TracksBy(w, m, k) && k in w.resources
    ensures var w := End(kind, START, moves).world;
      Reflects(w.requests[m].resources[k], w.resources[k].status) || Queued(w, k) || w.resources[k].status == NO_STATUS
  {
    StartFacts(kind);
    hide Joined, Coherent, Unmarked;
    AbleIsFree(kind, START, moves);
    var es := JointRefines(kind, START, moves, Free);
    StaleMeansQueuedOrNew(es, m, k);
  }

  /** Every joint run ends in a state of which the theorems without assumptions speak. */
  lemma JointLoose(kind: Life.DeviceType, moves: seq<Move>)
    requires AllAble(kind, START, moves)
    ensures Loose(End(kind, START, moves).world)
  {
    StartFacts(kind);
    assert Loose(EMPTY);
    hide Joined, Coherent, Unmarked, Loose;
    AbleIsFree(kind, START, moves);
    var es := JointRefines(kind, START, moves, Free);
    RunStaysLoose(EMPTY, es);
  }

  /** And when nodes vanish: Running is entered truthfully exactly when the pass had nothing to make anew. */
  lemma JointRunningIff(kind: Life.DeviceType, moves: seq<Move>, m: string, wr: Writing, save: Save)
    requires AllAble(kind, START, moves)
    requires var w := End(kind, START, moves).world;
      w.pending == {} && Enabled(w, PassUpdate(m, wr, save))
        && Next(w, PassUpdate(m, wr, save)).requests[m].state == Running
    ensures var w := End(kind, START, moves).world; var w' := Next(w, PassUpdate(m, wr, save));
      (forall k :: k in w'.requests[m].resources ==> k in w'.resources && w'.resources[k].status.state == Online)
      <==> forall k :: k in w.requests[m].resources ==> k in w.resources && w.resources[k].status != NO_STATUS
  {
    JointLoose(kind, moves);
    hide Loose, AllAble, End;
    OnlineWhenStored(End(kind, START, moves).world, m, wr, save);
  }
}
