/**
 A run of both controllers from the empty cluster to a request that reports Running on a resource without
 a status: the resource comes online, goes with its node, and is made anew.
 */
module BlindRun {
  import opened Api
  import opened Cluster
  import opened Joint
  import opened Unguarded
  import opened Finishing
  import opened SettledCycle
  import opened EarlyEdit
  import Life = ResourceLifecycle

  const MADE := NewResource("r", ASKED, "n", 0)

  const UP := ResourceStatus(Online, "", "id", "cdi")

  /** The request with its one entry, and its one resource. */
  function Both(res: Resource, entry: Tracked, pending: set<string>, inflight: Option<Delivery>): World {
    World(map["r" := Request(ASKED, Updating, "", map["x" := entry], ASKED, false, true)], map["x" := res], pending,
          inflight)
  }

  function Held(status: ResourceStatus): Resource {
    MADE.(status := status, finalizer := true)
  }

  lemma Making()
    ensures var w, e := Only(ASKED, Updating, ASKED, map["x" := NewEntry("n")], true),
        PassUpdate("r", Writing([], ["x"], 1, 0, ""), Saved);
      Enabled(w, e) && Next(w, e) == Both(MADE, NewEntry("n"), {}, None)
  {
    var w := Only(ASKED, Updating, ASKED, map["x" := NewEntry("n")], true);
    var r := w.requests["r"];
    var existing := set n | n in [] && n in r.resources;
    assert DeleteEach(map[], [], r.resources.Keys, 1) == Writes(map[], 1, true);
    assert ["x"][1..] == [];
    assert CreateEach(map[], "r", ASKED, r.resources, ["x"], existing, 1, 0) == Writes(map["x" := MADE], 0, true);
    assert !AllOnline(r.resources) by { assert r.resources["x"].state == Blank; }
    hide DeleteEach, CreateEach, AllOnline;
  }

  lemma Mirroring(res: Resource, entry: Tracked)
    requires res.managedBy == "r" && res.detachID == ""
    ensures var w := Both(res, entry, {"x"}, None);
      Enabled(w, Begin("x")) && Enabled(Next(w, Begin("x")), Finish(true))
      && Next(Next(w, Begin("x")), Finish(true)) == Both(res, MirrorOf(entry, res.status), {}, None)
  {
    var w := Both(res, entry, {"x"}, None);
    assert {"x"} - {"x"} == {};
    var w1 := Both(res, entry, {}, Some(Delivery("x", Some(res))));
    assert Next(w, Begin("x")) == w1;
    var entries := map["x" := entry]["x" := MirrorOf(entry, res.status)];
    assert entries == map["x" := MirrorOf(entry, res.status)];
    assert w1.requests["r" := w1.requests["r"].(resources := entries)]
        == Both(res, MirrorOf(entry, res.status), {}, None).requests;
  }

  function Answer(first: bool): Life.Answers {
    Life.Untroubled(Life.NodeFound, if first then Life.AddWaiting
      else Life.Added("id", "cdi"), true, Life.RemoveWaiting)
  }

  /** Two passes take a new resource online. */
  lemma ComesOnline(kind: Life.DeviceType, of: Life.Origin)
    requires of.detachID == ""
    ensures var d1 := Life.Step(kind, Life.Fresh(of), Life.Reconciled(Answer(true))).device;
      var d2 := Life.Step(kind, d1, Life.Reconciled(Answer(false))).device;
      d1 == Life.Fresh(of).(status := NO_STATUS.(state := Attaching), finalizer := true) && d2 == d1.(status := UP)
  {
    var d := Life.Fresh(of);
    assert Life.Collect(d, Answer(true)) == Life.Go(d);
    var d1 := d.(status := NO_STATUS.(state := Attaching), finalizer := true);
    assert Life.Collect(d1, Answer(false)) == Life.Go(d1);
  }

  const OF := Life.Origin(MADE.spec, "", "")

  function Coming(): Life.Device {
    Life.Fresh(OF).(status := NO_STATUS.(state := Attaching), finalizer := true)
  }

  function Small(w: World, d: Life.Device): Joint.State {
    Joint.State(w, map["x" := d])
  }

  /** A pass over the one resource, as a move. */
  lemma PassOver(kind: Life.DeviceType, res: Resource, d: Life.Device, pending: set<string>, a: Life.Answers,
                 e: Life.Device)
    requires Life.Step(kind, d, Life.Reconciled(a)).device == e && !e.gone && e.status != res.status && !e.deleting
    requires e.finalizer
    requires MADE.(status := res.status, finalizer := res.finalizer) == res
    ensures var s := Small(Both(res, NewEntry("n"), pending, None), d);
      Able(s, Pass("x", a))
        && After(kind, s, Pass("x", a)) == Small(Both(Held(e.status), NewEntry("n"), pending + {"x"}, None), e)
  {
    hide Life.Step;
    assert map["x" := res]["x" := Held(e.status)] == map["x" := Held(e.status)];
    assert map["x" := d]["x" := e] == map["x" := e];
  }

  /** An event that leaves the one resource unmarked, as a move. */
  lemma EventOver(kind: Life.DeviceType, w: World, d: Life.Device, e: Event)
    requires Enabled(w, e) && !OwnWrite(e) && "x" in Next(w, e).resources && Next(w, e).resources.Keys == {"x"}
    requires Next(w, e).resources["x"].deleting == d.deleting
    ensures Able(Small(w, d), Other(e)) && After(kind, Small(w, d), Other(e)) == Small(Next(w, e), d)
  {
    hide Enabled, Next;
    assert Follow(Next(w, e).resources, map["x" := d]) == map["x" := d];
  }

  /** Before there is a resource. */
  lemma EventBefore(kind: Life.DeviceType, w: World, e: Event)
    requires Enabled(w, e) && !OwnWrite(e) && Next(w, e).resources == map[]
    ensures Able(Joint.State(w, map[]), Other(e))
    ensures After(kind, Joint.State(w, map[]), Other(e)) == Joint.State(Next(w, e), map[])
  {
    hide Enabled, Next;
    assert Follow(map[], map[]) == map[];
  }

  /** Created, accepted, allocated, and its resource made. */
  lemma GetsResource(kind: Life.DeviceType) returns (moves: seq<Joint.Move>)
    ensures AllAble(kind, START, moves)
    ensures End(kind, START, moves) == Small(Both(MADE, NewEntry("n"), {}, None), Life.Fresh(OF))
  {
    Created();
    Accepted();
    FirstAllocation();
    Making();
    var x := map["x" := NewEntry("n")];
    var w1, w2 := Only(ASKED, NoState, NOTHING, map[], false), Only(ASKED, NodeAllocating, ASKED, map[], true);
    var w3, w4 := Only(ASKED, Updating, ASKED, x, true), Both(MADE, NewEntry("n"), {}, None);
    var e1, e2 := CreateRequest("r", ASKED), PassNone("r", true, "", Saved);
    var e3, e4 := PassAllocate("r", Look(map[], ["x"]), Saved), PassUpdate("r", Writing([], ["x"], 1, 0, ""), Saved);
    assert w1.resources == map[] && w2.resources == map[] && w3.resources == map[];
    assert Follow(w4.resources, map[]) == map["x" := Life.Fresh(OF)];
    hide Enabled, Next, Only, Look, Both, Follow;
    EventBefore(kind, EMPTY, e1);
    EventBefore(kind, w1, e2);
    EventBefore(kind, w2, e3);
    moves := [];
    assert End(kind, START, moves) == START;
    AbleLast(kind, START, moves, Other(e1));
    moves := moves + [Other(e1)];
    AbleLast(kind, START, moves, Other(e2));
    moves := moves + [Other(e2)];
    AbleLast(kind, START, moves, Other(e3));
    moves := moves + [Other(e3)];
    assert End(kind, START, moves) == Joint.State(w3, map[]);
    AbleLast(kind, START, moves, Other(e4));
    moves := moves + [Other(e4)];
  }

  /** The resource comes online and the entry says so. */
  lemma GetsOnline(kind: Life.DeviceType) returns (moves: seq<Joint.Move>)
    ensures AllAble(kind, START, moves)
    ensures End(kind, START, moves)
        == Small(Both(Held(UP), MirrorOf(NewEntry("n"), UP), {}, None), Coming().(status := UP))
  {
    moves := GetsResource(kind);
    ComesOnline(kind, OF);
    PassOver(kind, MADE, Life.Fresh(OF), {}, Answer(true), Coming());
    PassOver(kind, Held(Coming().status), Coming(), {} + {"x"}, Answer(false), Coming().(status := UP));
    Mirroring(Held(UP), NewEntry("n"));
    assert {} + {"x"} + {"x"} == {"x"};
    var w := Both(Held(UP), NewEntry("n"), {"x"}, None);
    assert Next(w, Begin("x")).resources == map["x" := Held(UP)];
    EventOver(kind, w, Coming().(status := UP), Begin("x"));
    EventOver(kind, Next(w, Begin("x")), Coming().(status := UP), Finish(true));
    hide Enabled, Next, Both, Small, Answer, Able, After, AllAble, End;
    AbleLast(kind, START, moves, Pass("x", Answer(true)));
    moves := moves + [Pass("x", Answer(true))];
    AbleLast(kind, START, moves, Pass("x", Answer(false)));
    moves := moves + [Pass("x", Answer(false))];
    AbleLast(kind, START, moves, Other(Begin("x")));
    moves := moves + [Other(Begin("x"))];
    AbleLast(kind, START, moves, Other(Finish(true)));
    moves := moves + [Other(Finish(true))];
  }

  lemma ReadyToVanish()
    ensures var s := Small(Both(Held(UP), MirrorOf(NewEntry("n"), UP), {}, None), Coming().(status := UP));
      && Vanishing(s, "r", "x") && Ready(s.world, "r", Updating) && OwnEntries(s.world, "r")
      && !s.world.requests["r"].deleting && s.world.requests["r"].scalar == s.world.requests["r"].spec
      && AllOnline(s.world.requests["r"].resources)
  {
  }

  /** From the empty cluster to Running, with nothing queued and the one resource without a status. */
  lemma RunningBlindRun(kind: Life.DeviceType) returns (moves: seq<Joint.Move>)
    ensures AllAble(kind, START, moves)
    ensures var w := End(kind, START, moves).world;
      && "r" in w.requests && w.requests["r"].state == Running && w.pending == {} && w.inflight.None?
      && "x" in w.requests["r"].resources && "x" in w.resources && w.resources["x"].status == NO_STATUS
  {
    var online := GetsOnline(kind);
    ReadyToVanish();
    JointLoose(kind, online);
    JointJoined(kind, online);
    hide Loose, Joined, Vanishing, OwnEntries, AllOnline, AllAble, End, Held;
    var s := End(kind, START, online);
    assert "x" in s.world.requests["r"].resources && s.world.pending == {} && s.world.inflight.None?;
    var rest := RunsAfterVanishing(kind, s, "r", "x");
    AbleAppends(kind, START, online, rest);
    moves := online + rest;
  }

  lemma {:induction false} AbleAppends(kind: Life.DeviceType, s: Joint.State, a: seq<Joint.Move>, b: seq<Joint.Move>)
    requires AllAble(kind, s, a) && AllAble(kind, End(kind, s, a), b)
    ensures AllAble(kind, s, a + b) && End(kind, s, a + b) == End(kind, End(kind, s, a), b)
    decreases |a|
  {
    hide Able, After;
    if a == [] {
      assert a + b == b;
    } else {
      assert (a + b)[1..] == a[1..] + b;
      AbleAppends(kind, After(kind, s, a[0]), a[1..], b);
    }
  }
}
