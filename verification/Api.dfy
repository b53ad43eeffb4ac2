/** The objects of the two custom resources, as the controllers read and write them. */
module Api {

  datatype Option<+T> = None | Some(value: T) {
    function GetOr(default: T): T {
      if Some? then value else default
    }
  }

  /** The two values the allocation_policy enumeration admits. */
  datatype Policy = SameNode | DifferentNode

  datatype NodeSpec = NodeSpec(milliCpu: nat, memory: nat, ephemeralStorage: nat, allowedPodNumber: nat)

  /** ScalarResourceDetails: what a ComposabilityRequest asks for. */
  datatype Details = Details(
    kind: string,
    model: string,
    size: nat,
    forceDetach: bool,
    policy: Policy,
    targetNode: string,
    otherSpec: Option<NodeSpec>)

  /** State of a ComposableResource. `Blank` is the empty text; `Named` any text the controllers never write. */
  datatype State = Blank | Attaching | Online | Detaching | Deleting | Named(text: string)

  datatype ResourceSpec = ResourceSpec(kind: string, model: string, targetNode: string, forceDetach: bool)

  datatype ResourceStatus = ResourceStatus(state: State, error: string, deviceID: string, cdiDeviceID: string)

  const NO_STATUS := ResourceStatus(Blank, "", "", "")

  /** A ComposableResource. An absent label and an empty one are the same to every reader, so both are "". */
  datatype Resource = Resource(
    spec: ResourceSpec,
    status: ResourceStatus,
    managedBy: string,
    detachID: string,
    detachCdiID: string,
    deleting: bool,
    finalizer: bool,
    lastUsed: Option<int>,
    created: int,
    deleteMark: bool)

  /** One listed ComposableResource. */
  datatype Item = Item(name: string, res: Resource)

  /** ScalarResourceStatus: the entry a request keeps for one of its resources. */
  datatype Tracked = Tracked(state: State, error: string, deviceID: string, cdiDeviceID: string, nodeName: string)

  /** An entry as the allocator first writes it. */
  function NewEntry(node: string): Tracked {
    Tracked(Blank, "", "", "", node)
  }

  datatype RequestState = NoState | NodeAllocating | Updating | Running | Cleaning | DeletingRequest

  /** A ComposabilityRequest. */
  datatype Request = Request(
    spec: Details,
    state: RequestState,
    error: string,
    resources: map<string, Tracked>,
    scalar: Details,
    deleting: bool,
    finalizer: bool)

  /** Answer of the capacity lookup for one node and the request's other_spec. */
  datatype CapacityReply = LookupError(msg: string) | Capacity(enough: bool)

  /** The capacity lookups of one pass; a node that cannot be fetched is an error. */
  datatype Capacities = Capacities(replies: map<string, CapacityReply>) {
    function Look(node: string): CapacityReply {
      if node in replies then replies[node] else LookupError("node not found")
    }
  }

  function Names(items: seq<Item>): set<string> {
    set i | 0 <= i < |items| :: items[i].name
  }

  ghost predicate DistinctNames(items: seq<Item>) {
    forall i, j :: 0 <= i < j < |items| ==> items[i].name != items[j].name
  }

  lemma NamesCount(items: seq<Item>)
    requires DistinctNames(items)
    ensures |Names(items)| == |items|
  {
    if items == [] {
    } else {
      var last := |items| - 1;
      NamesCount(items[..last]);
      assert Names(items) == Names(items[..last]) + {items[last].name};
    }
  }

  /** The names of a set, each once. */
  lemma {:induction false} Enumerate(names: set<string>) returns (order: seq<string>)
    ensures forall n :: n in order <==> n in names
    ensures |order| == |names| && forall i, j :: 0 <= i < j < |order| ==> order[i] != order[j]
  {
    order := [];
    if names != {} {
      var n :| n in names;
      var rest := Enumerate(names - {n});
      order := [n] + rest;
    }
  }
}
