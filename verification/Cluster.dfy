/**
 The cluster as the request controller sees it: both kinds of stored objects, the queue of resource
 updates it still has to look at, and the update it is looking at. One event is one whole pass of a
 handler, one half of a mirror pass, or one write by somebody else. What the environment decides
 (list orders, lookups, which writes fail) is part of the event.
 */
module Cluster {
  import opened Api
  import opened Placement
  import opened Allocation

  /** A mirror pass under way: the resource it was queued for and the copy it read. */
  datatype Delivery = Delivery(name: string, seen: Option<Resource>)

  datatype World = World(
    requests: map<string, Request>,
    resources: map<string, Resource>,
    pending: set<string>,
    inflight: Option<Delivery>)

  /**
   Fate of a status write: stored; refused but stored by the retry that requeueOnErr makes with the
   error text; or never stored.
   */
  datatype Save = Saved | SavedWithError(msg: string) | Lost

  /** What an allocation pass looked up, and the choices it is free in. */
  datatype Lookups = Lookups(
    listing: seq<string>,
    peers: seq<string>,
    firsts: map<string, string>,
    nodes: seq<string>,
    caps: Capacities,
    targetExists: bool,
    victims: set<string>,
    spare: seq<string>)

  /** List orders, clock and number of object writes that succeed before one fails. */
  datatype Writing = Writing(listing: seq<string>, order: seq<string>, budget: nat, now: int, msg: string)

  datatype Event =
    | CreateRequest(name: string, spec: Details)
    | EditRequest(name: string, spec: Details)
    | DeleteRequest(name: string)
    | PassError(name: string, msg: string)
    | PassNone(name: string, added: bool, msg: string, save: Save)
    | PassAllocate(name: string, look: Lookups, save: Save)
    | PassUpdate(name: string, wr: Writing, save: Save)
    | PassRun(name: string, save: Save)
    | PassClean(name: string, wr: Writing, save: Save)
    | PassFinish(name: string, dropped: bool, msg: string, save: Save)
    | Begin(name: string)
    | Finish(ok: bool)
    | CreateResource(name: string, res: Resource)
    | WriteStatus(name: string, status: ResourceStatus)
    | AddFinalizer(name: string)
    | DropFinalizer(name: string)
    | DeleteResource(name: string)

  // Writes.

  /** A status write leaves spec and metadata alone. */
  function WithStatus(stored: Request, mem: Request): Request {
    stored.(state := mem.state, error := mem.error, resources := mem.resources, scalar := mem.scalar)
  }

  function SaveStatus(w: World, name: string, mem: Request, save: Save): World
    requires name in w.requests
  {
    match save
    case Saved => w.(requests := w.requests[name := WithStatus(w.requests[name], mem)])
    case SavedWithError(msg) => w.(requests := w.requests[name := WithStatus(w.requests[name], mem.(error := msg))])
    case Lost => w
  }

  /** requeueOnErr: the in-memory status goes back with the error text, if that write gets through. */
  function Fail(w: World, name: string, mem: Request, msg: string, save: Save): World
    requires name in w.requests
  {
    if save.Lost? then w else SaveStatus(w, name, mem, SavedWithError(msg))
  }

  /** Deletion of an object only marks it while a finalizer holds it. */
  function DeleteOne(resources: map<string, Resource>, n: string): map<string, Resource> {
    if n !in resources then resources
    else if resources[n].finalizer then resources[n := resources[n].(deleting := true)]
    else resources - {n}
  }

  function RequestDeleted(w: World, name: string): World
    requires name in w.requests
  {
    if w.requests[name].finalizer then w.(requests := w.requests[name := w.requests[name].(deleting := true)])
    else w.(requests := w.requests - {name})
  }

  /** Answer to the lookup of a request's target node. */
  datatype TargetReply = TargetFound | TargetMissing | TargetError(msg: string)

  /** A request whose target node has vanished and that is not being deleted yet. */
  predicate Collectable(r: Request, target: TargetReply) {
    r.spec.targetNode != "" && target.TargetMissing? && !r.deleting
  }

  datatype Writes = Writes(resources: map<string, Resource>, budget: nat, ok: bool)

  function DeleteEach(resources: map<string, Resource>, names: seq<string>, keep: set<string>, budget: nat): Writes
    decreases |names|
  {
    if names == [] then Writes(resources, budget, true)
    else if names[0] in keep then DeleteEach(resources, names[1..], keep, budget)
    else if budget == 0 then Writes(resources, 0, false)
    else DeleteEach(DeleteOne(resources, names[0]), names[1..], keep, budget - 1)
  }

  function NewResource(owner: string, d: Details, node: string, now: int): Resource {
    Resource(ResourceSpec(d.kind, d.model, node, d.forceDetach), NO_STATUS, owner, "", "", false, false, None, now,
             false)
  }

  function CreateEach(resources: map<string, Resource>, owner: string, d: Details, tracked: map<string, Tracked>,
                      names: seq<string>, existing: set<string>, budget: nat, now: int): Writes
    requires forall n :: n in names ==> n in tracked
    decreases |names|
  {
    if names == [] then Writes(resources, budget, true)
    else if names[0] in existing then CreateEach(resources, owner, d, tracked, names[1..], existing, budget, now)
    else if budget == 0 || names[0] in resources then Writes(resources, budget, false)
    else CreateEach(resources[names[0] := NewResource(owner, d, tracked[names[0]].nodeName, now)],
                    owner, d, tracked, names[1..], existing, budget - 1, now)
  }

  // Reads.

  predicate ManagedBy(w: World, m: string, n: string) {
    n in w.resources && w.resources[n].managedBy == m
  }

  /** The label selector returns the managed resources, each once, in some order. */
  ghost predicate Lists(w: World, m: string, listing: seq<string>) {
    && (forall n :: n in listing <==> ManagedBy(w, m, n))
    && (forall i, j :: 0 <= i < j < |listing| ==> listing[i] != listing[j])
  }

  function ItemsOf(resources: map<string, Resource>, listing: seq<string>): (items: seq<Item>)
    requires forall n :: n in listing ==> n in resources
    ensures |items| == |listing|
    ensures forall i :: 0 <= i < |items| ==> items[i] == Item(listing[i], resources[listing[i]])
  {
    seq(|listing|, i requires 0 <= i < |listing| => Item(listing[i], resources[listing[i]]))
  }

  function PeerOf(name: string, r: Request, firsts: map<string, string>): Peer {
    Peer(name, r.spec.policy, r.spec.targetNode, r.resources, if name in firsts then firsts[name] else "")
  }

  function PeersOf(requests: map<string, Request>, order: seq<string>, firsts: map<string, string>): (peers: seq<Peer>)
    requires forall n :: n in order ==> n in requests
    ensures |peers| == |order|
    ensures forall i :: 0 <= i < |peers| ==> peers[i] == PeerOf(order[i], requests[order[i]], firsts)
  {
    seq(|order|, i requires 0 <= i < |order| => PeerOf(order[i], requests[order[i]], firsts))
  }

  /** The pass listed every request, and a range over a map that is not empty starts at one of its keys. */
  ghost predicate ListsPeers(w: World, look: Lookups) {
    && (forall n :: n in look.peers <==> n in w.requests)
    && (forall n :: n in w.requests && w.requests[n].resources != map[] ==>
          n in look.firsts && look.firsts[n] in w.requests[n].resources)
  }

  function SurveyOf(w: World, name: string, look: Lookups): Survey
    requires forall n :: n in look.peers ==> n in w.requests
  {
    Survey(name, look.nodes, look.caps, look.targetExists, PeersOf(w.requests, look.peers, look.firsts))
  }

  /** Every name anything is known under; generated names are none of these. */
  ghost predicate InUse(w: World, n: string) {
    || n in w.requests || n in w.resources || n in w.pending
    || (w.inflight.Some? && w.inflight.value.name == n)
    || exists m :: m in w.requests && n in w.requests[m].resources
  }

  // One pass of each handler.

  function NonePass(w: World, name: string, added: bool, msg: string, save: Save): World
    requires name in w.requests
  {
    var r := w.requests[name];
    if !r.finalizer && !added then Fail(w, name, r, msg, save)
    else
      var w' := w.(requests := w.requests[name := r.(finalizer := true)]);
      SaveStatus(w', name, r.(state := NodeAllocating, error := "", scalar := r.spec), save)
  }

  function AllocatePass(w: World, name: string, look: Lookups, save: Save): World
    requires name in w.requests
    requires forall n :: n in look.peers ==> n in w.requests
    requires forall n :: n in look.listing ==> n in w.resources
  {
    var r := w.requests[name];
    if r.deleting then SaveStatus(w, name, r.(state := Cleaning), save)
    else
      match Allocate(r.spec, Live(ItemsOf(w.resources, look.listing)), r.resources, SurveyOf(w, name, look),
                     look.victims, look.spare)
      case Failed(msg, left) => Fail(w, name, r.(resources := left), msg, save)
      case Allocated(tracked) =>
        SaveStatus(w, name, r.(resources := tracked, state := Updating, error := "", scalar := r.spec), save)
  }

  predicate AllOnline(tracked: map<string, Tracked>) {
    forall k :: k in tracked ==> tracked[k].state == Online
  }

  function UpdatePass(w: World, name: string, wr: Writing, save: Save): World
    requires name in w.requests
    requires forall n :: n in wr.order ==> n in w.requests[name].resources
  {
    var r := w.requests[name];
    if r.deleting then SaveStatus(w, name, r.(state := Cleaning), save)
    else if r.scalar != r.spec then SaveStatus(w, name, r.(state := NodeAllocating, scalar := r.spec), save)
    else
      var deleted := DeleteEach(w.resources, wr.listing, r.resources.Keys, wr.budget);
      if !deleted.ok then Fail(w.(resources := deleted.resources), name, r, wr.msg, save)
      else
        var existing := set n | n in wr.listing && n in r.resources;
        var created := CreateEach(deleted.resources, name, r.spec, r.resources, wr.order, existing, deleted.budget,
                                  wr.now);
        var w' := w.(resources := created.resources);
        if !created.ok then Fail(w', name, r, wr.msg, save)
        else if AllOnline(r.resources) then SaveStatus(w', name, r.(state := Running, error := "", scalar := r.spec),
                                                       save)
        else w'
  }

  function RunPass(w: World, name: string, save: Save): World
    requires name in w.requests
  {
    var r := w.requests[name];
    if r.deleting then SaveStatus(w, name, r.(state := Cleaning), save)
    else if r.scalar != r.spec then SaveStatus(w, name, r.(state := NodeAllocating, scalar := r.spec), save)
    else SaveStatus(w, name, r.(error := ""), save)
  }

  function CleanPass(w: World, name: string, wr: Writing, save: Save): World
    requires name in w.requests
  {
    var r := w.requests[name];
    if wr.listing == [] then SaveStatus(w, name, r.(state := DeletingRequest), save)
    else
      var deleted := DeleteEach(w.resources, wr.listing, {}, wr.budget);
      var w' := w.(resources := deleted.resources);
      if !deleted.ok then Fail(w', name, r, wr.msg, save)
      else SaveStatus(w', name, r.(error := ""), save)
  }

  function FinishPass(w: World, name: string, dropped: bool, msg: string, save: Save): World
    requires name in w.requests
  {
    var r := w.requests[name];
    if !dropped then Fail(w, name, r, msg, save)
    else if r.deleting then w.(requests := w.requests - {name})
    else w.(requests := w.requests[name := r.(finalizer := false)])
  }

  function MirrorOf(e: Tracked, s: ResourceStatus): Tracked {
    Tracked(s.state, s.error, s.deviceID, s.cdiDeviceID, e.nodeName)
  }

  function BeginMirror(w: World, name: string): World {
    w.(pending := w.pending - {name},
       inflight := Some(Delivery(name, if name in w.resources then Some(w.resources[name]) else None)))
  }

  function FinishMirror(w: World, ok: bool): World
    requires w.inflight.Some?
  {
    var job := w.inflight.value;
    var idle := w.(inflight := None);
    if job.seen.None? || job.seen.value.detachID != "" then idle
    else
      var owner := job.seen.value.managedBy;
      if owner !in w.requests || !ok then idle.(pending := w.pending + {job.name})
      else
        var r := w.requests[owner];
        if job.name !in r.resources then idle
        else
          var entry := MirrorOf(r.resources[job.name], job.seen.value.status);
          idle.(requests := w.requests[owner := r.(resources := r.resources[job.name := entry])])
  }

  /** A status change queues the resource, anything else does not. */
  function WriteResourceStatus(w: World, name: string, status: ResourceStatus): World
    requires name in w.resources
  {
    w.(resources := w.resources[name := w.resources[name].(status := status)],
       pending := if status != w.resources[name].status then w.pending + {name} else w.pending)
  }

  // Runs.

  /** The request controller has one worker: its passes do not overlap a mirror pass. */
  ghost predicate Ready(w: World, name: string, s: RequestState) {
    name in w.requests && w.requests[name].state == s && w.inflight.None?
  }

  /** What an allocation pass finds in the store, and enough generated names that are not in use. */
  ghost predicate LooksUp(w: World, name: string, look: Lookups)
    requires name in w.requests
  {
    && Lists(w, name, look.listing) && ListsPeers(w, look)
    && (forall n :: n in look.nodes ==> n != "")
    && |look.spare| >= w.requests[name].spec.size
    && (forall i, j :: 0 <= i < j < |look.spare| ==> look.spare[i] != look.spare[j])
    && (forall i :: 0 <= i < |look.spare| ==> !InUse(w, look.spare[i]))
  }

  /** A range over the request's entries yields each of them once. */
  ghost predicate Ranges(w: World, name: string, order: seq<string>)
    requires name in w.requests
  {
    && (forall n :: n in order <==> n in w.requests[name].resources)
    && (forall i, j :: 0 <= i < j < |order| ==> order[i] != order[j])
  }

  ghost predicate Enabled(w: World, e: Event) {
    match e
    case CreateRequest(name, spec) => name != "" && !InUse(w, name)
    case EditRequest(name, spec) => name in w.requests
    case DeleteRequest(name) => name in w.requests
    case PassError(name, msg) => name in w.requests && w.inflight.None?
    case PassNone(name, added, msg, save) => Ready(w, name, NoState)
    case PassAllocate(name, look, save) =>
      && Ready(w, name, NodeAllocating) && LooksUp(w, name, look)
      && (w.requests[name].deleting
          || RightVictims(w.requests[name].spec, Live(ItemsOf(w.resources, look.listing)), w.requests[name].resources,
                          SurveyOf(w, name, look), look.victims))
    case PassUpdate(name, wr, save) =>
      Ready(w, name, Updating) && Lists(w, name, wr.listing) && Ranges(w, name, wr.order)
    case PassRun(name, save) => Ready(w, name, Running)
    case PassClean(name, wr, save) => Ready(w, name, Cleaning) && Lists(w, name, wr.listing)
    case PassFinish(name, dropped, msg, save) => Ready(w, name, DeletingRequest)
    case Begin(name) => name in w.pending && w.inflight.None?
    case Finish(ok) => w.inflight.Some?
    case CreateResource(name, res) =>
      !InUse(w, name) && res.managedBy == "" && res.status == NO_STATUS && !res.deleting && !res.finalizer
    case WriteStatus(name, status) => name in w.resources
    case AddFinalizer(name) => name in w.resources && !w.resources[name].deleting
    case DropFinalizer(name) => name in w.resources && w.resources[name].status.state == Deleting
    case DeleteResource(name) => name in w.resources
  }

  ghost function Next(w: World, e: Event): World
    requires Enabled(w, e)
  {
    match e
    case CreateRequest(name, spec) => w.(requests := w.requests[name := Request(spec, NoState, "", map[],
        Details("", "", 0, false, SameNode, "", None), false, false)])
    case EditRequest(name, spec) => w.(requests := w.requests[name := w.requests[name].(spec := spec)])
    case DeleteRequest(name) => RequestDeleted(w, name)
    case PassError(name, msg) => Fail(w, name, w.requests[name], msg, Saved)
    case PassNone(name, added, msg, save) => NonePass(w, name, added, msg, save)
    case PassAllocate(name, look, save) => AllocatePass(w, name, look, save)
    case PassUpdate(name, wr, save) => UpdatePass(w, name, wr, save)
    case PassRun(name, save) => RunPass(w, name, save)
    case PassClean(name, wr, save) => CleanPass(w, name, wr, save)
    case PassFinish(name, dropped, msg, save) => FinishPass(w, name, dropped, msg, save)
    case Begin(name) => BeginMirror(w, name)
    case Finish(ok) => FinishMirror(w, ok)
    case CreateResource(name, res) => w.(resources := w.resources[name := res])
    case WriteStatus(name, status) => WriteResourceStatus(w, name, status)
    case AddFinalizer(name) => w.(resources := w.resources[name := w.resources[name].(finalizer := true)])
    case DropFinalizer(name) =>
      if w.resources[name].deleting then w.(resources := w.resources - {name})
      else w.(resources := w.resources[name := w.resources[name].(finalizer := false)])
    case DeleteResource(name) => w.(resources := DeleteOne(w.resources, name))
  }

  const EMPTY := World(map[], map[], {}, None)

  /** Every event was possible when it happened, and the environment kept to `fair`. */
  ghost predicate Legal(w: World, events: seq<Event>, fair: (World, Event) -> bool)
    decreases |events|
  {
    events == [] || (Enabled(w, events[0]) && fair(w, events[0]) && Legal(Next(w, events[0]), events[1..], fair))
  }

  ghost function Run(w: World, events: seq<Event>, fair: (World, Event) -> bool): World
    requires Legal(w, events, fair)
    decreases |events|
  {
    if events == [] then w else Run(Next(w, events[0]), events[1..], fair)
  }

  lemma One(w: World, e: Event, fair: (World, Event) -> bool)
    requires Enabled(w, e) && fair(w, e)
    ensures Legal(w, [e], fair) && Run(w, [e], fair) == Next(w, e)
  {
    hide Enabled, Next;
    assert [e][1..] == [];
    assert Legal(Next(w, e), [], fair);
  }

  lemma Two(w: World, e1: Event, e2: Event, fair: (World, Event) -> bool)
    requires Enabled(w, e1) && fair(w, e1) && Enabled(Next(w, e1), e2) && fair(Next(w, e1), e2)
    ensures Legal(w, [e1, e2], fair) && Run(w, [e1, e2], fair) == Next(Next(w, e1), e2)
  {
    hide Enabled, Next;
    One(Next(w, e1), e2, fair);
    assert [e1, e2][1..] == [e2];
  }

  lemma {:induction false} RunAppends(w: World, a: seq<Event>, b: seq<Event>, fair: (World, Event) -> bool)
    requires Legal(w, a, fair) && Legal(Run(w, a, fair), b, fair)
    ensures Legal(w, a + b, fair) && Run(w, a + b, fair) == Run(Run(w, a, fair), b, fair)
    decreases |a|
  {
    hide Enabled, Next;
    if a == [] {
      assert a + b == b;
    } else {
      assert (a + b)[1..] == a[1..] + b;
      RunAppends(Next(w, a[0]), a[1..], b, fair);
    }
  }

  /** Deletions touch nothing but the listed names outside `keep`: what a finalizer holds is marked, the rest goes. */
  lemma {:induction false} DeleteEachEffect(resources: map<string, Resource>, names: seq<string>, keep: set<string>,
                                            budget: nat)
    ensures var out := DeleteEach(resources, names, keep, budget).resources;
      && out.Keys <= resources.Keys
      && (forall n :: n in resources && (n !in names || n in keep) ==> n in out && out[n] == resources[n])
      && (forall n :: n in out ==>
            out[n] == resources[n] || (resources[n].finalizer && out[n] == resources[n].(deleting := true)))
      && (forall n :: n in resources && resources[n].finalizer ==> n in out)
    decreases |names|
  {
    if names != [] && !(names[0] !in keep && budget == 0) {
      var next := if names[0] in keep then resources else DeleteOne(resources, names[0]);
      DeleteEachEffect(next, names[1..], keep, if names[0] in keep then budget else budget - 1);
      assert forall n :: n in names[1..] ==> n in names;
    }
  }

  /** With as many writes left as there are names, deletions complete. */
  lemma {:induction false} DeleteEachSucceeds(resources: map<string, Resource>, names: seq<string>, keep: set<string>,
                                              budget: nat)
    requires budget >= |names|
    ensures var out := DeleteEach(resources, names, keep, budget); out.ok && out.budget >= budget - |names|
    decreases |names|
  {
    if names != [] {
      var next := if names[0] in keep then resources else DeleteOne(resources, names[0]);
      DeleteEachSucceeds(next, names[1..], keep, if names[0] in keep then budget else budget - 1);
    }
  }

  /** A complete run of deletions leaves every listed name outside `keep` marked or gone. */
  lemma {:induction false} DeleteEachComplete(resources: map<string, Resource>, names: seq<string>, keep: set<string>,
                                              budget: nat)
    requires DeleteEach(resources, names, keep, budget).ok
    ensures var out := DeleteEach(resources, names, keep, budget).resources;
      forall n :: n in names && n !in keep ==> n !in out || (out[n].deleting && out[n].finalizer)
    decreases |names|
  {
    if names != [] {
      var head, rest := names[0], names[1..];
      var next := if head in keep then resources else DeleteOne(resources, head);
      var left := if head in keep then budget else budget - 1;
      DeleteEachComplete(next, rest, keep, left);
      DeleteEachEffect(next, rest, keep, left);
      assert forall n :: n in names ==> n == head || n in rest by { assert names == [head] + rest; }
    }
  }

  /** Creations only add new objects of the request's making, under tracked names. */
  lemma {:induction false} CreateEachEffect(resources: map<string, Resource>, owner: string, d: Details,
                                            tracked: map<string, Tracked>,
                                            names: seq<string>, existing: set<string>, budget: nat, now: int)
    requires forall n :: n in names ==> n in tracked
    ensures var out := CreateEach(resources, owner, d, tracked, names, existing, budget, now).resources;
      && resources.Keys <= out.Keys
      && (forall n :: n in resources ==> out[n] == resources[n])
      && (forall n :: n in out && n !in resources ==>
            n in names && n !in existing && out[n] == NewResource(owner, d, tracked[n].nodeName, now))
    decreases |names|
  {
    if names != [] {
      assert forall n :: n in names[1..] ==> n in names;
      if names[0] in existing {
        CreateEachEffect(resources, owner, d, tracked, names[1..], existing, budget, now);
      } else if budget != 0 && names[0] !in resources {
        var more := resources[names[0] := NewResource(owner, d, tracked[names[0]].nodeName, now)];
        CreateEachEffect(more, owner, d, tracked, names[1..], existing, budget - 1, now);
      }
    }
  }

  /** A complete run of creations leaves every name present. */
  lemma {:induction false} CreateEachComplete(resources: map<string, Resource>, owner: string, d: Details,
                                              tracked: map<string, Tracked>,
                                              names: seq<string>, existing: set<string>, budget: nat, now: int)
    requires forall n :: n in names ==> n in tracked
    requires CreateEach(resources, owner, d, tracked, names, existing, budget, now).ok
    ensures var out := CreateEach(resources, owner, d, tracked, names, existing, budget, now).resources;
      forall n :: n in names && n !in existing ==> n in out
    decreases |names|
  {
    if names != [] {
      var head, rest := names[0], names[1..];
      assert forall n :: n in rest ==> n in names;
      assert forall n :: n in names ==> n == head || n in rest by { assert names == [head] + rest; }
      if head in existing {
        CreateEachComplete(resources, owner, d, tracked, rest, existing, budget, now);
      } else {
        var more := resources[head := NewResource(owner, d, tracked[head].nodeName, now)];
        CreateEachComplete(more, owner, d, tracked, rest, existing, budget - 1, now);
        CreateEachEffect(more, owner, d, tracked, rest, existing, budget - 1, now);
      }
    }
  }
}
