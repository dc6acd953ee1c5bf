/** The crate root: a node keeps the indices of its neighbours, and iterating over its
    neighbours maps those indices, in order, onto a vector of nodes (`NodeIterator`);
    and the blanket `Activeable` implementation for every node. */
module Nodes {
  import opened Outcomes
  import opened Saveable

  /** How a node is reached: as the plain struct, or through its shared
      `Rc<RefCell<…>>` handle. The two forms implement some accessors differently. */
  datatype Handle = Owned | Shared

  /** The first stored index that is out of range for a vector of length `len`. */
  ghost predicate FirstOutOfRange(indices: seq<nat>, len: nat, k: int)
  {
    0 <= k < |indices| && indices[k] >= len && forall j | 0 <= j < k :: indices[j] < len
  }

  /** What iterating `indices` over `nodes` produces: one node per stored index, in
      index order, or the panic of the first index past the end of `nodes`. */
  function Gather<T>(indices: seq<nat>, nodes: seq<T>): (r: Result<seq<T>, Panic>)
    ensures r.Success? <==> forall k | 0 <= k < |indices| :: indices[k] < |nodes|
    ensures r.Success? ==>
              |r.value| == |indices| && forall k | 0 <= k < |indices| :: r.value[k] == nodes[indices[k]]
    ensures r.Failure? ==>
              exists k :: FirstOutOfRange(indices, |nodes|, k) && r.error == IndexOutOfBounds(indices[k], |nodes|)
  {
    if indices == [] then Success([])
    else
      var last := indices[|indices| - 1];
      match Gather(indices[..|indices| - 1], nodes)
      case Failure(e) => Failure(e)
      case Success(items) =>
        if last < |nodes| then Success(items + [nodes[last]])
        else Failure(IndexOutOfBounds(last, |nodes|))
  }

  /** `NodeIterator`: a slice iterator over the stored indices and the vector they
      index into. */
  class NodeIterator<T> {
    /** What the slice iterator has not handed out yet. */
    var indices: seq<nat>
    const allNodes: seq<T>

    /** `NodeIterator::new`. */
    constructor (indices: seq<nat>, allNodes: seq<T>)
      ensures this.indices == indices && this.allNodes == allNodes
    {
      this.indices := indices;
      this.allNodes := allNodes;
    }

    /** `Iterator::next`: take the next stored index and hand out the node it names;
        indexing past the end of the vector panics (after the index was taken). */
    method Next() returns (r: Result<Option<T>, Panic>)
      modifies this
      ensures old(indices) == [] ==> r == Success(None) && indices == []
      ensures old(indices) != [] ==>
                indices == old(indices)[1..] &&
                r == if old(indices)[0] < |allNodes| then Success(Some(allNodes[old(indices)[0]]))
                     else Failure(IndexOutOfBounds(old(indices)[0], |allNodes|))
    {
      if indices == [] {
        return Success(None);
      }
      var idx := indices[0];
      indices := indices[1..];
      if idx < |allNodes| {
        r := Success(Some(allNodes[idx]));
      } else {
        r := Failure(IndexOutOfBounds(idx, |allNodes|));
      }
    }
  }

  /** `Node::iter_neighbors`: an iterator over the node's neighbour indices. */
  method IterNeighbors<T>(idxNeighbors: seq<nat>, allNodes: seq<T>) returns (it: NodeIterator<T>)
    ensures fresh(it) && it.indices == idxNeighbors && it.allNodes == allNodes
  {
    it := new NodeIterator(idxNeighbors, allNodes);
  }

  /** Running a fresh `NodeIterator` to its end (`collect`): it yields exactly
      `Gather(indices, allNodes)`, then `None`. */
  method Collect<T>(indices: seq<nat>, allNodes: seq<T>) returns (r: Result<seq<T>, Panic>)
    ensures r == Gather(indices, allNodes)
  {
    var it := IterNeighbors(indices, allNodes);
    var items: seq<T> := [];
    var k := 0;
    while true
      invariant 0 <= k <= |indices| && it.indices == indices[k..] && it.allNodes == allNodes
      invariant Gather(indices[..k], allNodes) == Success(items)
      decreases |it.indices|
    {
      var next := it.Next();
      match next
      case Failure(e) =>
        assert indices[..k + 1][..k] == indices[..k];
        return Failure(e);
      case Success(None) =>
        assert indices[..k] == indices;
        return Success(items);
      case Success(Some(x)) =>
        assert indices[..k + 1][..k] == indices[..k];
        items := items + [x];
        k := k + 1;
    }
  }

  /** The blanket `is_active`: the activity held by the node's stored data, whose
      `Activeable` implementation reads its activity cell. */
  function IsActive(activity: SaveableData<bool>): (r: bool)
    reads activity
    ensures r == activity.Current()
  {
    activity.current
  }

  /** The blanket `set_activity` as written: `Cell::get` hands out a copy of the
      stored data, the copy's activity is set, and the copy is dropped. The node's
      own activity cell is left as it was. */
  method SetActivityAsWritten(activity: SaveableData<bool>, b: bool)
    ensures activity.State() == old(activity.State())
  {
    var copy := new SaveableData(activity.current, activity.saved);
    SetActivity(copy, b);
  }

  /** The evidently intended `set_activity`: the node's own activity becomes `b`;
      the committed value is untouched. */
  method SetActivity(activity: SaveableData<bool>, b: bool)
    modifies activity
    ensures IsActive(activity) == b && activity.saved == old(activity.saved)
  {
    activity.current := b;
  }

  /** `switch_activity` through the blanket `set_activity` as written: nothing changes. */
  method SwitchActivityAsWritten(activity: SaveableData<bool>)
    ensures IsActive(activity) == old(IsActive(activity))
    ensures activity.State() == old(activity.State())
  {
    SetActivityAsWritten(activity, !IsActive(activity));
  }

  /** `switch_activity` through the intended `set_activity`: the activity flips. */
  method SwitchActivity(activity: SaveableData<bool>)
    modifies activity
    ensures IsActive(activity) == !old(IsActive(activity))
    ensures activity.saved == old(activity.saved)
  {
    SetActivity(activity, !IsActive(activity));
  }

  /** The blanket `is_legal` is `todo!()`: it always panics. */
  function IsLegal(activity: SaveableData<bool>): (r: Result<bool, Panic>)
    ensures r.Failure? && r.error == NotYetImplemented
  {
    Failure(NotYetImplemented)
  }

  /** The default `is_illegal` over the blanket `is_legal`: the panic propagates. */
  function IsIllegal(activity: SaveableData<bool>): (r: Result<bool, Panic>)
    ensures r.Failure?
  {
    match IsLegal(activity)
    case Success(legal) => Success(!legal)
    case Failure(e) => Failure(e)
  }
}
