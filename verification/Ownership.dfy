/** Who records which device, over runs of both controllers with the cluster-manager provider. */
module Ownership {
  import opened Cluster
  import opened Guarantee
  import opened Joint
  import Life = ResourceLifecycle
  import Cm = Claiming

  /** AddResource answers what the cluster-manager provider answers on the current store. */
  ghost predicate Answered(s: Joint.State, m: Joint.Move)
    requires Able(s, m)
  {
    m.Pass? ==> exists cm :: m.answers.add == Cm.AddResource(cm, Cm.Recorded(s.devices), s.world.resources[m.n].spec)
  }

  ghost predicate AllAnswered(kind: Life.DeviceType, s: Joint.State, moves: seq<Joint.Move>)
    requires AllAble(kind, s, moves)
    decreases |moves|
  {
    moves == [] || (Answered(s, moves[0]) && AllAnswered(kind, After(kind, s, moves[0]), moves[1..]))
  }

  /** Others neither record nor forget a device. */
  lemma FollowKeepsOwners(s: Joint.State, w': World)
    requires Cm.SoleOwners(s.devices)
    ensures Cm.SoleOwners(Follow(w'.resources, s.devices))
  {
  }

  /** A reconcile is a step of the claiming model. */
  lemma PassKeepsOwners(kind: Life.DeviceType, s: Joint.State, n: string, a: Life.Answers)
    requires Joined(kind, s) && Able(s, Pass(n, a)) && Answered(s, Pass(n, a)) && Cm.SoleOwners(s.devices)
    ensures Cm.SoleOwners(After(kind, s, Pass(n, a)).devices)
  {
    var cm :| a.add == Cm.AddResource(cm, Cm.Recorded(s.devices), s.world.resources[n].spec);
    hide Life.Step, Cm.AddResource, Cm.SoleOwners, Reached, Cm.Recorded;
    Cm.StepKeepsOwners(kind, s.devices, Cm.Act(n, Life.Reconciled(a), cm));
  }

  lemma {:induction false} RunKeepsOwners(kind: Life.DeviceType, s: Joint.State, moves: seq<Joint.Move>)
    requires Joined(kind, s) && Cm.SoleOwners(s.devices) && AllAble(kind, s, moves) && AllAnswered(kind, s, moves)
    ensures Cm.SoleOwners(End(kind, s, moves).devices)
    decreases |moves|
  {
    if moves != [] {
      var m := moves[0];
      MoveJoins(kind, s, m);
      if m.Pass? {
        PassKeepsOwners(kind, s, m.n, m.answers);
      } else {
        FollowKeepsOwners(s, Next(s.world, m.event));
      }
      hide Joined, Cm.SoleOwners, Able, After, Answered;
      RunKeepsOwners(kind, After(kind, s, m), moves[1..]);
    }
  }

  /**
   Single ownership in the store, over every interleaving of both controllers and the users: two resources
   that record the same device include one labelled to detach exactly that device.
   */
  lemma JointOwnership(kind: Life.DeviceType, moves: seq<Joint.Move>, n: string, n': string)
    requires AllAble(kind, START, moves) && AllAnswered(kind, START, moves) && n != n'
    requires var r := End(kind, START, moves).world.resources;
      n in r && n' in r && r[n].status.deviceID == r[n'].status.deviceID != ""
    ensures var r := End(kind, START, moves).world.resources;
      r[n].detachID == r[n].status.deviceID || r[n'].detachID == r[n].status.deviceID
  {
    StartFacts(kind);
    RunKeepsOwners(kind, START, moves);
    JointJoined(kind, moves);
    hide AllAble, AllAnswered, End, Reached;
  }
}
