/** What a whole allocation pass leaves of a request's entries, told from the listed resources. */
module AllocationMeaning {
  import opened Api
  import opened Matching
  import opened MatchMeaning
  import opened Placement
  import opened Allocation

  /** The entries when places are to be found: all but the rejected ones and, where some are surplus, the victims. */
  ghost function Remaining(d: Details, caps: Capacities, items: seq<Item>, tracked: map<string, Tracked>,
                           victims: set<string>): map<string, Tracked> {
    var kept := tracked - Rejected(d, caps, items, |items|);
    if Surplus(d, caps, items, |items|) > 0 then kept - victims else kept
  }

  /** The pass gives up at the first listed resource whose node cannot be told; what it rejected before is forgotten. */
  ghost predicate GivenUp(d: Details, caps: Capacities, items: seq<Item>, tracked: map<string, Tracked>, out: Outcome) {
    out.Failed? &&
      exists a ::
        && GivesUpAt(d, caps, items, tracked, a, out.msg, out.tracked)
        && forall i :: 0 <= i < a ==> !Unknown(d, caps, items, i)
  }

  /** Places are sought for what the entries left and picked fall short of; failing that leaves just these entries. */
  ghost predicate SeeksPlaces(d: Details, items: seq<Item>, sv: Survey, left: map<string, Tracked>, spare: seq<string>,
                              p: Progress, out: Outcome) {
    var picks := Picks(d, sv.caps, items, |items|);
    && p.tracked == left && p.toAllocate == (if picks < d.size then d.size - picks else 0)
    && match Place(d, sv, p)
       case NoPlace(msg) => out == Failed(msg, left)
       case Placed(nodes) => out == Allocated(AddEntries(left, spare, nodes))
  }

  /**
   What a pass makes of the entries. Giving up at a lookup, it has forgotten what it rejected before; otherwise it seeks
   places for what is missing, having forgotten all it rejected and the victims of its removal.
   */
  lemma PassLeaves(d: Details, items: seq<Item>, tracked: map<string, Tracked>, sv: Survey, victims: set<string>,
                   spare: seq<string>)
    ensures var out := Allocate(d, items, tracked, sv, victims, spare);
      if exists a :: Unknown(d, sv.caps, items, a) then GivenUp(d, sv.caps, items, tracked, out)
      else exists p :: SeeksPlaces(d, items, sv, Remaining(d, sv.caps, items, tracked, victims), spare, p, out)
  {
    hide MatchFrom, Place, Unknown, Rejected, Surplus, AddEntries, Picks;
    MatchAbortsIff(d, sv.caps, items, tracked);
    var r, out := MatchFrom(d, sv.caps, Start(d, tracked), items), Allocate(d, items, tracked, sv, victims, spare);
    if r.Matched? {
      MatchLeaves(d, sv.caps, items, tracked);
      var left := Remaining(d, sv.caps, items, tracked, victims);
      assert SeeksPlaces(d, items, sv, left, spare, AfterRemoval(r.progress, victims), out);
    } else {
      var a: nat :|
        && a < |items| && Unknown(d, sv.caps, items, a) && (forall i :: 0 <= i < a ==> !Unknown(d, sv.caps, items, i))
        && sv.caps.Look(items[a].res.spec.targetNode) == LookupError(r.msg)
        && r.tracked == tracked - Rejected(d, sv.caps, items, a);
      assert GivesUpAt(d, sv.caps, items, tracked, a, out.msg, out.tracked);
    }
  }
}
