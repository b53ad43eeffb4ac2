/** The state diagram of a request, over the stored fields: the moves each pass makes, and all the moves there are. */
module RequestDiagram {
  import opened Api
  import opened Allocation
  import opened Cluster
  import opened Effects

  /** How the writes of a pass end: with the status asked for, with another error text, or without a status write. */
  ghost predicate Records(w: World, w': World, name: string, save: Save, state: RequestState, error: string,
                          entries: map<string, Tracked>, scalar: Details) {
    name in w.requests && name in w'.requests && OnlyStatus(w, w', name) &&
      var r := w'.requests[name];
      match save
      case Saved => r.state == state && r.error == error && r.resources == entries && r.scalar == scalar
      case SavedWithError(msg) => r.state == state && r.error == msg && r.resources == entries && r.scalar == scalar
      case Lost => w'.requests == w.requests
  }

  lemma SaveRecords(w: World, name: string, mem: Request, save: Save)
    requires name in w.requests
    ensures var w' := SaveStatus(w, name, mem, save);
      Records(w, w', name, save, mem.state, mem.error, mem.resources, mem.scalar) && w'.resources == w.resources
  {
    assert w.requests == w.requests[name := w.requests[name]];
  }

  /** An error is recorded as it stands, or not at all. */
  function Reporting(msg: string, save: Save): Save {
    if save.Lost? then Lost else SavedWithError(msg)
  }

  lemma FailRecords(w: World, name: string, mem: Request, msg: string, save: Save)
    requires name in w.requests
    ensures var w' := Fail(w, name, mem, msg, save);
      Records(w, w', name, Reporting(msg, save), mem.state, msg, mem.resources, mem.scalar)
      && w'.resources == w.resources
  {
    assert w.requests == w.requests[name := w.requests[name]];
  }

  // What a pass does.

  /** A marked request that is not on its way out yet is sent to Cleaning, and nothing else happens. */
  lemma MarkedIsCleaned(w: World, name: string, e: Event, save: Save)
    requires Enabled(w, e) && name in w.requests && w.requests[name].deleting
    requires || (e.PassAllocate? && e.name == name && e.save == save)
             || (e.PassUpdate? && e.name == name && e.save == save)
             || (e.PassRun? && e.name == name && e.save == save)
    ensures var r, w' := w.requests[name], Next(w, e);
      Records(w, w', name, save, Cleaning, r.error, r.resources, r.scalar) && w'.resources == w.resources
  {
    hide Records;
    SaveRecords(w, name, w.requests[name].(state := Cleaning), save);
  }

  /** A request whose spec is not the one last applied goes back to NodeAllocating, and nothing else happens. */
  lemma EditIsReallocated(w: World, name: string, e: Event, save: Save)
    requires Enabled(w, e) && name in w.requests
    requires !w.requests[name].deleting && w.requests[name].scalar != w.requests[name].spec
    requires (e.PassUpdate? && e.name == name && e.save == save) || (e.PassRun? && e.name == name && e.save == save)
    ensures var r, w' := w.requests[name], Next(w, e);
      Records(w, w', name, save, NodeAllocating, r.error, r.resources, r.spec) && w'.resources == w.resources
  {
    hide Records;
    var r := w.requests[name];
    SaveRecords(w, name, r.(state := NodeAllocating, scalar := r.spec), save);
  }

  /** A Running request with nothing to do has its error text cleared, and nothing else happens. */
  lemma QuietRunning(w: World, name: string, save: Save)
    requires Enabled(w, PassRun(name, save))
    requires !w.requests[name].deleting && w.requests[name].scalar == w.requests[name].spec
    ensures var r, w' := w.requests[name], Next(w, PassRun(name, save));
      Records(w, w', name, save, Running, "", r.resources, r.scalar) && w'.resources == w.resources
  {
    hide Records;
    SaveRecords(w, name, w.requests[name].(error := ""), save);
  }

  /**
   A new request gets its finalizer before anything else, and without it stays where it is; with it, it is recorded as
   NodeAllocating for its spec.
   */
  lemma NewIsStarted(w: World, name: string, added: bool, msg: string, save: Save)
    requires Enabled(w, PassNone(name, added, msg, save))
    ensures var r, w' := w.requests[name], Next(w, PassNone(name, added, msg, save));
      && w'.resources == w.resources && name in w'.requests
      && (if r.finalizer || added then
            && w'.requests[name].finalizer
            && Records(w.(requests := w.requests[name := r.(finalizer := true)]), w', name, save, NodeAllocating, "",
                       r.resources, r.spec)
          else
            Records(w, w', name, Reporting(msg, save), NoState, msg, r.resources, r.scalar))
  {
    hide Records;
    var r := w.requests[name];
    if r.finalizer || added {
      SaveRecords(w.(requests := w.requests[name := r.(finalizer := true)]), name,
                  r.(state := NodeAllocating, error := "", scalar := r.spec), save);
    } else {
      FailRecords(w, name, r, msg, save);
    }
  }

  /** What the allocator decides is recorded: the entries it leaves, with Updating or with its error text. */
  lemma DecisionIsRecorded(w: World, name: string, look: Lookups, save: Save)
    requires Enabled(w, PassAllocate(name, look, save)) && !w.requests[name].deleting
    ensures var r, w' := w.requests[name], Next(w, PassAllocate(name, look, save));
      && w'.resources == w.resources
      && match Decision(w, name, look)
         case Allocated(tracked) => Records(w, w', name, save, Updating, "", tracked, r.spec)
         case Failed(msg, left) =>
           Records(w, w', name, Reporting(msg, save), NodeAllocating, msg, left, r.scalar)
  {
    hide Records, Allocate, RightVictims, InUse;
    var r := w.requests[name];
    match Decision(w, name, look)
    case Allocated(tracked) =>
      SaveRecords(w, name, r.(resources := tracked, state := Updating, error := "", scalar := r.spec), save);
    case Failed(msg, left) =>
      FailRecords(w, name, r.(resources := left), msg, save);
  }

  lemma RecordsAfterWrites(w: World, w1: World, w': World, name: string, save: Save, state: RequestState, error: string,
                           entries: map<string, Tracked>, scalar: Details)
    requires w1 == w.(resources := w1.resources) && Records(w1, w', name, save, state, error, entries, scalar)
    ensures Records(w, w', name, save, state, error, entries, scalar)
  {
  }

  lemma NothingListed(w: World, name: string, listing: seq<string>)
    requires Lists(w, name, listing)
    ensures listing == [] <==> forall n :: n in w.resources ==> w.resources[n].managedBy != name
  {
    if listing == [] {
      forall n | n in w.resources ensures w.resources[n].managedBy != name {
        assert n in listing <==> ManagedBy(w, name, n);
      }
    } else {
      assert ManagedBy(w, name, listing[0]);
    }
  }

  /** Cleaning with nothing managed left: the request is recorded as Deleting. */
  lemma CleaningEnds(w: World, name: string, wr: Writing, save: Save)
    requires Enabled(w, PassClean(name, wr, save))
    requires forall n :: n in w.resources ==> w.resources[n].managedBy != name
    ensures var r, w' := w.requests[name], Next(w, PassClean(name, wr, save));
      Records(w, w', name, save, DeletingRequest, r.error, r.resources, r.scalar) && w'.resources == w.resources
  {
    hide Records, Lists;
    NothingListed(w, name, wr.listing);
    SaveRecords(w, name, w.requests[name].(state := DeletingRequest), save);
  }

  /**
   Cleaning with something managed left: the pass marks every managed resource a finalizer holds and takes the others
   away, touches nothing else and stays in Cleaning; when its writes run out it reports that.
   */
  lemma CleaningDeletesAll(w: World, name: string, wr: Writing, save: Save)
    requires Enabled(w, PassClean(name, wr, save))
    requires exists n :: n in w.resources && w.resources[n].managedBy == name
    ensures var r, w' := w.requests[name], Next(w, PassClean(name, wr, save));
      && (wr.budget >= |wr.listing| ==>
            && Records(w, w', name, save, Cleaning, "", r.resources, r.scalar)
            && (forall n :: ManagedBy(w, name, n) && w.resources[n].finalizer ==>
                  n in w'.resources && w'.resources[n] == w.resources[n].(deleting := true))
            && (forall n :: ManagedBy(w, name, n) && !w.resources[n].finalizer ==> n !in w'.resources))
      && (Records(w, w', name, save, Cleaning, "", r.resources, r.scalar)
          || Records(w, w', name, Reporting(wr.msg, save), Cleaning, wr.msg, r.resources, r.scalar))
      && (forall n :: n in w.resources && w.resources[n].managedBy != name ==>
            n in w'.resources && w'.resources[n] == w.resources[n])
  {
    hide Records, DeleteEach;
    var r := w.requests[name];
    NothingListed(w, name, wr.listing);
    var deleted := DeleteEach(w.resources, wr.listing, {}, wr.budget);
    var w1 := w.(resources := deleted.resources);
    var w' := CleanPass(w, name, wr, save);
    DeleteEachEffect(w.resources, wr.listing, {}, wr.budget);
    if deleted.ok {
      SaveRecords(w1, name, r.(error := ""), save);
      RecordsAfterWrites(w, w1, w', name, save, Cleaning, "", r.resources, r.scalar);
      DeleteEachComplete(w.resources, wr.listing, {}, wr.budget);
      forall n | ManagedBy(w, name, n)
        ensures if w.resources[n].finalizer then n in w'.resources && w'.resources[n].deleting else n !in w'.resources
      {
        assert n in wr.listing;
      }
    } else {
      FailRecords(w1, name, r, wr.msg, save);
      RecordsAfterWrites(w, w1, w', name, Reporting(wr.msg, save), Cleaning, wr.msg, r.resources, r.scalar);
      if wr.budget >= |wr.listing| { DeleteEachSucceeds(w.resources, wr.listing, {}, wr.budget); }
    }
    forall n | n in w.resources && w.resources[n].managedBy != name
      ensures n in w'.resources && w'.resources[n] == w.resources[n]
    {
      assert n in wr.listing <==> ManagedBy(w, name, n);
    }
  }

  /** Deleting: the finalizer goes and with it, being marked, the request; a refused write is reported. */
  lemma FinishMeans(w: World, name: string, dropped: bool, msg: string, save: Save)
    requires Enabled(w, PassFinish(name, dropped, msg, save))
    ensures var r, w' := w.requests[name], Next(w, PassFinish(name, dropped, msg, save));
      && w'.resources == w.resources && w'.pending == w.pending && w'.inflight == w.inflight
      && (dropped && r.deleting ==> w'.requests == w.requests - {name})
      && (dropped && !r.deleting ==> w'.requests == w.requests[name := r.(finalizer := false)])
      && (!dropped ==> Records(w, w', name, Reporting(msg, save), DeletingRequest, msg, r.resources, r.scalar))
  {
    hide Records;
    FailRecords(w, name, w.requests[name], msg, save);
    assert !dropped ==> OnlyStatus(w, Fail(w, name, w.requests[name], msg, save), name) by {
      FailEffect(w, name, w.requests[name], msg, save);
    }
  }

  // How far the writes of an Updating pass get.

  /** How many of the names are not among `done`. */
  function Left(names: seq<string>, done: set<string>): nat
    decreases |names|
  {
    if names == [] then 0 else (if names[0] in done then 0 else 1) + Left(names[1..], done)
  }

  lemma {:induction false} DeletionsSucceedIff(resources: map<string, Resource>, names: seq<string>, keep: set<string>,
                                               budget: nat)
    ensures var out := DeleteEach(resources, names, keep, budget);
      (out.ok <==> budget >= Left(names, keep)) && (out.ok ==> out.budget == budget - Left(names, keep))
    decreases |names|
  {
    if names != [] {
      if names[0] in keep {
        DeletionsSucceedIff(resources, names[1..], keep, budget);
      } else if budget > 0 {
        DeletionsSucceedIff(DeleteOne(resources, names[0]), names[1..], keep, budget - 1);
      }
    }
  }

  /** A name that is to be created exists already. */
  ghost predicate Taken(resources: map<string, Resource>, names: seq<string>, done: set<string>) {
    exists n :: n in names && n !in done && n in resources
  }

  lemma {:induction false} CreationsSucceedIff(resources: map<string, Resource>, owner: string, d: Details,
                                               tracked: map<string, Tracked>, names: seq<string>, done: set<string>,
                                               budget: nat, now: int)
    requires forall n :: n in names ==> n in tracked
    requires forall i, j :: 0 <= i < j < |names| ==> names[i] != names[j]
    ensures CreateEach(resources, owner, d, tracked, names, done, budget, now).ok
        <==> budget >= Left(names, done) && !Taken(resources, names, done)
    decreases |names|
  {
    if names != [] {
      var head, rest := names[0], names[1..];
      assert forall i :: 0 <= i < |rest| ==> rest[i] == names[i + 1];
      assert names == [head] + rest;
      assert head !in rest;
      if head in done {
        CreationsSucceedIff(resources, owner, d, tracked, rest, done, budget, now);
        assert Taken(resources, names, done) <==> Taken(resources, rest, done);
      } else if budget > 0 && head !in resources {
        var more := resources[head := NewResource(owner, d, tracked[head].nodeName, now)];
        CreationsSucceedIff(more, owner, d, tracked, rest, done, budget - 1, now);
        assert Taken(resources, names, done) <==> Taken(more, rest, done);
      }
    }
  }

  lemma {:induction false} LeftIsSame(names: seq<string>, done: set<string>, done': set<string>)
    requires forall n :: n in names ==> (n in done <==> n in done')
    ensures Left(names, done) == Left(names, done')
    decreases |names|
  {
    if names != [] { LeftIsSame(names[1..], done, done'); }
  }

  /** The writes an Updating pass needs: a deletion per untracked resource, a creation per missing one. */
  function Needed(r: Request, wr: Writing): nat {
    Left(wr.listing, r.resources.Keys) + Left(wr.order, set n | n in wr.listing)
  }

  /** A missing resource has its name taken by one the request does not manage. */
  ghost predicate NameTaken(w: World, wr: Writing) {
    exists n :: n in wr.order && n !in wr.listing && n in w.resources
  }

  /** Exactly when an Updating pass gets all its writes done. */
  lemma UpdatingGetsThroughIff(w: World, name: string, wr: Writing)
    requires name in w.requests && Lists(w, name, wr.listing) && Ranges(w, name, wr.order)
    ensures var r := w.requests[name];
      var deleted := DeleteEach(w.resources, wr.listing, r.resources.Keys, wr.budget);
      var existing := set n | n in wr.listing && n in r.resources;
      wr.budget >= Needed(r, wr) && !NameTaken(w, wr) <==>
        && deleted.ok
        && CreateEach(deleted.resources, name, r.spec, r.resources, wr.order, existing, deleted.budget, wr.now).ok
  {
    hide DeleteEach, CreateEach;
    var r := w.requests[name];
    var deleted := DeleteEach(w.resources, wr.listing, r.resources.Keys, wr.budget);
    var existing := set n | n in wr.listing && n in r.resources;
    DeletionsSucceedIff(w.resources, wr.listing, r.resources.Keys, wr.budget);
    DeleteEachEffect(w.resources, wr.listing, r.resources.Keys, wr.budget);
    LeftIsSame(wr.order, existing, set n | n in wr.listing);
    if deleted.ok {
      CreationsSucceedIff(deleted.resources, name, r.spec, r.resources, wr.order, existing, deleted.budget, wr.now);
      assert Taken(deleted.resources, wr.order, existing) <==> NameTaken(w, wr);
    }
  }

  /**
   Updating, for a request that is neither marked nor edited: with enough writes and no name taken it is recorded as
   Running if every entry is Online, and left alone otherwise; without, that is reported.
   */
  lemma UpdatingMeans(w: World, name: string, wr: Writing, save: Save)
    requires Enabled(w, PassUpdate(name, wr, save))
    requires !w.requests[name].deleting && w.requests[name].scalar == w.requests[name].spec
    ensures var r, w' := w.requests[name], Next(w, PassUpdate(name, wr, save));
      if wr.budget >= Needed(r, wr) && !NameTaken(w, wr) then
        if forall k :: k in r.resources ==> r.resources[k].state == Online
        then Records(w, w', name, save, Running, "", r.resources, r.spec)
        else w'.requests == w.requests
      else Records(w, w', name, Reporting(wr.msg, save), Updating, wr.msg, r.resources, r.scalar)
  {
    hide Records, DeleteEach, CreateEach, Needed, NameTaken;
    var r := w.requests[name];
    UpdatingGetsThroughIff(w, name, wr);
    var deleted := DeleteEach(w.resources, wr.listing, r.resources.Keys, wr.budget);
    var existing := set n | n in wr.listing && n in r.resources;
    var created := CreateEach(deleted.resources, name, r.spec, r.resources, wr.order, existing, deleted.budget, wr.now);
    var w1 := w.(resources := if deleted.ok then created.resources else deleted.resources);
    var w' := UpdatePass(w, name, wr, save);
    if deleted.ok && created.ok {
      SaveRecords(w1, name, r.(state := Running, error := "", scalar := r.spec), save);
      if AllOnline(r.resources) { RecordsAfterWrites(w, w1, w', name, save, Running, "", r.resources, r.spec); }
    } else {
      FailRecords(w1, name, r, wr.msg, save);
      RecordsAfterWrites(w, w1, w', name, Reporting(wr.msg, save), Updating, wr.msg, r.resources, r.scalar);
    }
  }

  // Which moves there are.

  /** The moves of a request's state, each with what it takes. */
  ghost predicate Moves(w: World, m: string, r: Request, r': Request) {
    || r'.state == r.state
    || (r.state == NoState && r'.state == NodeAllocating && r'.finalizer && r'.scalar == r.spec)
    || (r.state == NodeAllocating && r'.state == Updating && !r.deleting && r'.scalar == r.spec)
    || ((r.state == Updating || r.state == Running) && r'.state == NodeAllocating && !r.deleting
        && r.scalar != r.spec && r'.scalar == r.spec && r'.resources == r.resources)
    || (r.state == Updating && r'.state == Running && !r.deleting && r.scalar == r.spec && r'.resources == r.resources
        && forall k :: k in r.resources ==> r.resources[k].state == Online)
    || ((r.state == NodeAllocating || r.state == Updating || r.state == Running) && r'.state == Cleaning && r.deleting
        && r'.resources == r.resources)
    || (r.state == Cleaning && r'.state == DeletingRequest && r'.resources == r.resources
        && forall n :: n in w.resources ==> w.resources[n].managedBy != m)
  }

  /** Spec and deletion mark change only by an edit and a deletion, the finalizer comes first and goes last. */
  ghost predicate KeepsRest(e: Event, m: string, r: Request, r': Request) {
    && r'.spec == (if e.EditRequest? && e.name == m then e.spec else r.spec)
    && (r'.deleting <==> r.deleting || e == DeleteRequest(m))
    && (r'.finalizer && !r.finalizer ==> r.state == NoState)
    && (r.finalizer && !r'.finalizer ==> r.state == DeletingRequest)
  }

  lemma StatusMoves(w: World, w': World, name: string, e: Event, m: string)
    requires OnlyStatus(w, w', name) && m in w.requests && !e.EditRequest? && !e.DeleteRequest?
    requires Moves(w, name, w.requests[name], w'.requests[name])
    ensures m in w'.requests && Moves(w, m, w.requests[m], w'.requests[m])
      && KeepsRest(e, m, w.requests[m], w'.requests[m])
  {
  }

  lemma PassMoves(w: World, e: Event, m: string)
    requires Enabled(w, e) && m in w.requests
    requires e.PassAllocate? || e.PassUpdate? || e.PassRun? || e.PassClean? || e.PassError?
    ensures var w' := Next(w, e);
      m in w'.requests && Moves(w, m, w.requests[m], w'.requests[m]) && KeepsRest(e, m, w.requests[m], w'.requests[m])
  {
    hide RightVictims, InUse, Decision, AllocatePass, UpdatePass, RunPass, CleanPass, KeepsRest, Synced;
    match e
    case PassAllocate(name, look, save) =>
      AllocateEffect(w, name, look, save);
      StatusMoves(w, AllocatePass(w, name, look, save), name, e, m);
    case PassUpdate(name, wr, save) =>
      UpdateEffect(w, name, wr, save);
      StatusMoves(w, UpdatePass(w, name, wr, save), name, e, m);
    case PassRun(name, save) =>
      RunEffect(w, name, save);
      StatusMoves(w, RunPass(w, name, save), name, e, m);
    case PassClean(name, wr, save) =>
      CleanEffect(w, name, wr, save);
      NothingListed(w, name, wr.listing);
      StatusMoves(w, CleanPass(w, name, wr, save), name, e, m);
    case PassError(name, msg) =>
      FailEffect(w, name, w.requests[name], msg, Saved);
      StatusMoves(w, Fail(w, name, w.requests[name], msg, Saved), name, e, m);
  }

  /** Every event, whoever makes it: a request that stays in the store moves along the diagram or not at all. */
  lemma StepMoves(w: World, e: Event, m: string)
    requires Enabled(w, e) && m in w.requests && m in Next(w, e).requests
    ensures Moves(w, m, w.requests[m], Next(w, e).requests[m])
    ensures KeepsRest(e, m, w.requests[m], Next(w, e).requests[m])
  {
    if e.PassAllocate? || e.PassUpdate? || e.PassRun? || e.PassClean? || e.PassError? {
      hide *;
      PassMoves(w, e, m);
    } else if e.PassNone? || e.PassFinish? {
      hide *;
      EndMoves(w, e, m);
    } else {
      hide LooksUp, RightVictims, Lists, Ranges, Moves;
      assert e.CreateRequest? ==> InUse(w, m);
      assert SameStatus(w.requests[m], Next(w, e).requests[m]);
      StaysPut(w, m, w.requests[m], Next(w, e).requests[m]);
    }
  }

  ghost predicate SameStatus(r: Request, r': Request) {
    r'.state == r.state && r'.finalizer == r.finalizer
  }

  lemma StaysPut(w: World, m: string, r: Request, r': Request)
    requires r'.state == r.state
    ensures Moves(w, m, r, r')
  {
  }

  lemma EndMoves(w: World, e: Event, m: string)
    requires Enabled(w, e) && m in w.requests && m in Next(w, e).requests && (e.PassNone? || e.PassFinish?)
    ensures Moves(w, m, w.requests[m], Next(w, e).requests[m])
    ensures KeepsRest(e, m, w.requests[m], Next(w, e).requests[m])
  {
    hide InUse, LooksUp, RightVictims, Lists, Ranges;
  }

  /** A request comes into the store as it was asked for, and leaves it unheld or at the end of its diagram. */
  lemma StepComesAndGoes(w: World, e: Event, m: string)
    requires Enabled(w, e)
    ensures m in Next(w, e).requests && m !in w.requests ==>
      var r := Next(w, e).requests[m];
      e == CreateRequest(m, r.spec) && r.state == NoState && r.resources == map[] && !r.finalizer && !r.deleting
    ensures m in w.requests && m !in Next(w, e).requests ==>
      var r := w.requests[m];
      || (e == DeleteRequest(m) && !r.finalizer)
      || (e.PassFinish? && e.name == m && r.state == DeletingRequest && r.deleting)
  {
    if e.PassAllocate? || e.PassUpdate? || e.PassRun? || e.PassClean? || e.PassError? {
      PassKeepsNames(w, e);
    } else {
      hide InUse;
    }
  }

  lemma PassKeepsNames(w: World, e: Event)
    requires Enabled(w, e)
    requires e.PassAllocate? || e.PassUpdate? || e.PassRun? || e.PassClean? || e.PassError?
    ensures Next(w, e).requests.Keys == w.requests.Keys
  {
    hide RightVictims, InUse, Decision, AllocatePass, UpdatePass, RunPass, CleanPass, Synced;
    match e
    case PassAllocate(name, look, save) => AllocateEffect(w, name, look, save);
    case PassUpdate(name, wr, save) => UpdateEffect(w, name, wr, save);
    case PassRun(name, save) => RunEffect(w, name, save);
    case PassClean(name, wr, save) => CleanEffect(w, name, wr, save);
    case PassError(name, msg) => FailEffect(w, name, w.requests[name], msg, Saved);
  }
}
