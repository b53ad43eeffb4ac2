/** What one pass of each handler may change, in the terms the run invariants need. */
module Effects {
  import opened Api
  import opened Allocation
  import opened Cluster

  /** The live listed items are exactly the managed resources that are not on their way out. */
  lemma ListedLive(w: World, m: string, listing: seq<string>)
    requires Lists(w, m, listing)
    ensures var items := Live(ItemsOf(w.resources, listing));
      && DistinctNames(items)
      && (forall i :: 0 <= i < |items| ==>
            ManagedBy(w, m, items[i].name) && items[i].res == w.resources[items[i].name] && IsLive(items[i].res))
      && (forall k :: ManagedBy(w, m, k) && IsLive(w.resources[k]) ==> k in Names(items))
  {
    var all := ItemsOf(w.resources, listing);
    var items := Live(all);
    LiveMembers(all);
    assert DistinctNames(all);
    forall i | 0 <= i < |items|
      ensures ManagedBy(w, m, items[i].name) && items[i].res == w.resources[items[i].name] && IsLive(items[i].res)
    {
      assert items[i] in items;
      var j :| 0 <= j < |all| && all[j] == items[i];
      assert listing[j] in listing;
    }
    forall k | ManagedBy(w, m, k) && IsLive(w.resources[k]) ensures k in Names(items) {
      var j :| 0 <= j < |listing| && listing[j] == k;
      assert all[j] in all;
      assert all[j] in items;
      var i :| 0 <= i < |items| && items[i] == all[j];
    }
  }

  /** Only request `name` differs, and only in its status. */
  ghost predicate OnlyStatus(w: World, w': World, name: string) {
    && name in w.requests && name in w'.requests
    && w'.requests == w.requests[name := w'.requests[name]]
    && w'.requests[name] == WithStatus(w.requests[name], w'.requests[name])
    && w'.pending == w.pending && w'.inflight == w.inflight
  }

  /** The state, entries and applied spec of a request; the rest of its status is error text. */
  ghost predicate StatusIs(r: Request, s: RequestState, entries: map<string, Tracked>, scalar: Details) {
    r.state == s && r.resources == entries && r.scalar == scalar
  }

  lemma SaveEffect(w: World, name: string, mem: Request, save: Save)
    requires name in w.requests
    ensures var w' := SaveStatus(w, name, mem, save);
      && OnlyStatus(w, w', name) && w'.resources == w.resources
      && (w' == w || StatusIs(w'.requests[name], mem.state, mem.resources, mem.scalar))
      && (!save.Lost? ==> StatusIs(w'.requests[name], mem.state, mem.resources, mem.scalar))
  {
    assert w.requests == w.requests[name := w.requests[name]];
  }

  lemma FailEffect(w: World, name: string, mem: Request, msg: string, save: Save)
    requires name in w.requests
    ensures var w' := Fail(w, name, mem, msg, save);
      && OnlyStatus(w, w', name) && w'.resources == w.resources
      && (w' == w || StatusIs(w'.requests[name], mem.state, mem.resources, mem.scalar))
  {
    SaveEffect(w, name, mem, if save.Lost? then Lost else SavedWithError(msg));
  }

  lemma NoneEffect(w: World, name: string, added: bool, msg: string, save: Save)
    requires name in w.requests
    ensures var w' := NonePass(w, name, added, msg, save);
      var r := w.requests[name];
      && name in w'.requests && w'.requests == w.requests[name := w'.requests[name]]
      && w'.resources == w.resources && w'.pending == w.pending && w'.inflight == w.inflight
      && w'.requests[name].spec == r.spec && w'.requests[name].deleting == r.deleting
      && (|| (StatusIs(w'.requests[name], r.state, r.resources, r.scalar) && (r.finalizer ==>
            w'.requests[name].finalizer))
          || (StatusIs(w'.requests[name], NodeAllocating, r.resources, r.spec) && w'.requests[name].finalizer))
  {
    var r := w.requests[name];
    if !r.finalizer && !added {
      FailEffect(w, name, r, msg, save);
    } else {
      var w1 := w.(requests := w.requests[name := r.(finalizer := true)]);
      SaveEffect(w1, name, r.(state := NodeAllocating, error := "", scalar := r.spec), save);
    }
  }

  /** What the allocator made of the request's entries in this pass. */
  ghost function Decision(w: World, name: string, look: Lookups): Outcome
    requires name in w.requests
    requires forall n :: n in look.peers ==> n in w.requests
    requires forall n :: n in look.listing ==> n in w.resources
  {
    var r := w.requests[name];
    Allocate(r.spec, Live(ItemsOf(w.resources, look.listing)), r.resources, SurveyOf(w, name, look), look.victims,
             look.spare)
  }

  lemma AllocateEffect(w: World, name: string, look: Lookups, save: Save)
    requires name in w.requests
    requires forall n :: n in look.peers ==> n in w.requests
    requires forall n :: n in look.listing ==> n in w.resources
    ensures var w' := AllocatePass(w, name, look, save);
      var r := w.requests[name];
      && OnlyStatus(w, w', name) && w'.resources == w.resources
      && (|| StatusIs(w'.requests[name], r.state, r.resources, r.scalar)
          || (r.deleting && StatusIs(w'.requests[name], Cleaning, r.resources, r.scalar))
          || (!r.deleting && Decision(w, name, look).Failed?
              && StatusIs(w'.requests[name], r.state, Decision(w, name, look).tracked, r.scalar))
          || (!r.deleting && Decision(w, name, look).Allocated?
              && StatusIs(w'.requests[name], Updating, Decision(w, name, look).tracked, r.spec)))
  {
    var r := w.requests[name];
    if r.deleting {
      SaveEffect(w, name, r.(state := Cleaning), save);
    } else {
      match Decision(w, name, look)
      case Failed(msg, left) => FailEffect(w, name, r.(resources := left), msg, save);
      case Allocated(tracked) => SaveEffect(w, name, r.(resources := tracked, state := Updating, error := "",
                                                        scalar := r.spec), save);
    }
  }

  lemma RunEffect(w: World, name: string, save: Save)
    requires name in w.requests
    ensures var w' := RunPass(w, name, save);
      var r := w.requests[name];
      && OnlyStatus(w, w', name) && w'.resources == w.resources
      && (|| StatusIs(w'.requests[name], r.state, r.resources, r.scalar)
          || (r.deleting && StatusIs(w'.requests[name], Cleaning, r.resources, r.scalar))
          || (!r.deleting && r.scalar != r.spec && StatusIs(w'.requests[name], NodeAllocating, r.resources, r.spec)))
  {
    var r := w.requests[name];
    if r.deleting {
      SaveEffect(w, name, r.(state := Cleaning), save);
    } else if r.scalar != r.spec {
      SaveEffect(w, name, r.(state := NodeAllocating, scalar := r.spec), save);
    } else {
      SaveEffect(w, name, r.(error := ""), save);
    }
  }

  /** Resources lose only untracked listed names and gain only objects made from the request's entries. */
  ghost predicate Synced(before: map<string, Resource>, after: map<string, Resource>, name: string, r: Request,
                         listing: seq<string>, now: int) {
    && (forall n :: n in before && n !in after ==> n in listing && n !in r.resources)
    && (forall n :: n in before && n in after ==>
          after[n] == before[n]
            || (n in listing && n !in r.resources && before[n].finalizer && after[n] == before[n].(deleting := true)))
    && (forall n :: n in after && n !in before ==>
          n in r.resources && n !in listing && after[n] == NewResource(name, r.spec, r.resources[n].nodeName, now))
  }

  lemma SyncEffect(before: map<string, Resource>, name: string, r: Request, wr: Writing)
    requires forall n :: n in wr.order ==> n in r.resources
    requires forall n :: n in wr.listing ==> n in before
    ensures var deleted := DeleteEach(before, wr.listing, r.resources.Keys, wr.budget);
      var existing := set n | n in wr.listing && n in r.resources;
      var created := CreateEach(deleted.resources, name, r.spec, r.resources, wr.order, existing, deleted.budget,
                                wr.now);
      && Synced(before, deleted.resources, name, r, wr.listing, wr.now)
      && Synced(before, created.resources, name, r, wr.listing, wr.now)
  {
    DeleteEachEffect(before, wr.listing, r.resources.Keys, wr.budget);
    var deleted := DeleteEach(before, wr.listing, r.resources.Keys, wr.budget);
    var existing := set n | n in wr.listing && n in r.resources;
    CreateEachEffect(deleted.resources, name, r.spec, r.resources, wr.order, existing, deleted.budget, wr.now);
  }

  /** A pass in Updating that gets to move the request to Running found every entry Online. */
  lemma UpdateEffect(w: World, name: string, wr: Writing, save: Save)
    requires name in w.requests
    requires forall n :: n in wr.order ==> n in w.requests[name].resources
    requires forall n :: n in wr.listing ==> n in w.resources
    ensures var w' := UpdatePass(w, name, wr, save);
      var r := w.requests[name];
      && OnlyStatus(w, w', name)
      && Synced(w.resources, w'.resources, name, r, wr.listing, wr.now)
      && (r.deleting || r.scalar != r.spec ==> w'.resources == w.resources)
      && (|| StatusIs(w'.requests[name], r.state, r.resources, r.scalar)
          || (r.deleting && StatusIs(w'.requests[name], Cleaning, r.resources, r.scalar))
          || (!r.deleting && r.scalar != r.spec && StatusIs(w'.requests[name], NodeAllocating, r.resources, r.spec))
          || (!r.deleting && r.scalar == r.spec && AllOnline(r.resources)
              && StatusIs(w'.requests[name], Running, r.resources, r.spec)))
  {
    var r := w.requests[name];
    if r.deleting {
      SaveEffect(w, name, r.(state := Cleaning), save);
    } else if r.scalar != r.spec {
      SaveEffect(w, name, r.(state := NodeAllocating, scalar := r.spec), save);
    } else {
      SyncEffect(w.resources, name, r, wr);
      var deleted := DeleteEach(w.resources, wr.listing, r.resources.Keys, wr.budget);
      if !deleted.ok {
        FailEffect(w.(resources := deleted.resources), name, r, wr.msg, save);
      } else {
        var existing := set n | n in wr.listing && n in r.resources;
        var created := CreateEach(deleted.resources, name, r.spec, r.resources, wr.order, existing, deleted.budget,
                                  wr.now);
        var w1 := w.(resources := created.resources);
        if !created.ok {
          FailEffect(w1, name, r, wr.msg, save);
        } else if AllOnline(r.resources) {
          SaveEffect(w1, name, r.(state := Running, error := "", scalar := r.spec), save);
        } else {
          assert w.requests == w.requests[name := r];
        }
      }
    }
  }

  lemma CleanEffect(w: World, name: string, wr: Writing, save: Save)
    requires name in w.requests
    ensures var w' := CleanPass(w, name, wr, save);
      var r := w.requests[name];
      && OnlyStatus(w, w', name)
      && w'.resources.Keys <= w.resources.Keys
      && (forall n :: n in w.resources && n !in wr.listing ==> n in w'.resources)
      && (forall n :: n in w'.resources ==>
            || w'.resources[n] == w.resources[n]
            || (n in wr.listing && w.resources[n].finalizer && w'.resources[n] == w.resources[n].(deleting := true)))
      && (|| StatusIs(w'.requests[name], r.state, r.resources, r.scalar)
          || (wr.listing == [] && StatusIs(w'.requests[name], DeletingRequest, r.resources, r.scalar)))
  {
    var r := w.requests[name];
    if wr.listing == [] {
      SaveEffect(w, name, r.(state := DeletingRequest), save);
    } else {
      DeleteEachEffect(w.resources, wr.listing, {}, wr.budget);
      var deleted := DeleteEach(w.resources, wr.listing, {}, wr.budget);
      var w1 := w.(resources := deleted.resources);
      if deleted.ok {
        SaveEffect(w1, name, r.(error := ""), save);
      } else {
        FailEffect(w1, name, r, wr.msg, save);
      }
    }
  }
}
