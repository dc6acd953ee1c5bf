/** The arena prototype: nodes keep their neighbours in an index vector, and two
    cursors walk that vector, checking each stored index against the target vector
    before handing out the node it names. */
module UnsafeRolemodel {
  import opened Outcomes
  import Nodes

  /** `IdxVec`: a vector of node indices. */
  class IdxVec {
    var vec: seq<nat>

    constructor (vec: seq<nat>)
      ensures this.vec == vec
    {
      this.vec := vec;
    }

    /** `pop`: removes and returns the last index; an empty vector is left as it is. */
    method Pop() returns (r: Option<nat>)
      modifies this
      ensures old(vec) == [] ==> r == None && vec == []
      ensures old(vec) != [] ==> r.Some? && old(vec) == vec + [r.value]
    {
      if vec == [] {
        return None;
      }
      r := Some(vec[|vec| - 1]);
      vec := vec[..|vec| - 1];
    }

    /** `get`: the index stored at position `idx`, if there is one. */
    function Get(idx: nat): (r: Option<nat>)
      reads this
      ensures r.Some? <==> idx < |vec|
      ensures r.Some? ==> r.value == vec[idx]
    {
      if idx < |vec| then Some(vec[idx]) else None
    }

    /** `iter_over`: a cursor over `target` starting at the first stored index. */
    method IterOver<D>(target: seq<D>) returns (it: IdxVecIter<D>)
      ensures fresh(it) && it.vec == this && it.target == target && it.currIdx == 0
    {
      it := new IdxVecIter(this, target);
    }
  }

  /** `IdxVecIter`: a cursor over the stored indices of `vec`, handing out the nodes of
      `target` they name. */
  class IdxVecIter<D> {
    const vec: IdxVec
    const target: seq<D>
    var currIdx: nat

    /** `IdxVecIter::new`: positioned at the first stored index. */
    constructor (vec: IdxVec, target: seq<D>)
      ensures this.vec == vec && this.target == target && currIdx == 0
    {
      this.vec := vec;
      this.target := target;
      this.currIdx := 0;
    }

    /** The cursor is never past the end of the index vector. */
    ghost predicate Valid()
      reads this, vec
    {
      currIdx <= |vec.vec|
    }

    /** `next`: past the last stored index, `None` and the cursor stays; a stored index
        inside `target` hands out that node and advances the cursor by one; a stored
        index outside `target` panics, the cursor unmoved. */
    method Next() returns (r: Result<Option<D>, Panic>)
      modifies this
      ensures old(currIdx) >= |vec.vec| ==> r == Success(None) && currIdx == old(currIdx)
      ensures old(currIdx) < |vec.vec| && vec.vec[old(currIdx)] < |target| ==>
                r == Success(Some(target[vec.vec[old(currIdx)]])) && currIdx == old(currIdx) + 1
      ensures old(currIdx) < |vec.vec| && vec.vec[old(currIdx)] >= |target| ==>
                r == Failure(AccessOutOfRange(|target|, vec.vec[old(currIdx)])) && currIdx == old(currIdx)
      ensures old(Valid()) ==> Valid()
    {
      match vec.Get(currIdx)
      case None =>
        return Success(None);
      case Some(nextIdx) =>
        if nextIdx < |target| {
          currIdx := currIdx + 1;
          return Success(Some(target[nextIdx]));
        } else {
          return Failure(AccessOutOfRange(|target|, nextIdx));
        }
    }
  }

  /** Running a fresh `IdxVecIter` to its end: it hands out `target[vec[0]]`,
      `target[vec[1]]`, … — one node per stored index — or panics at the first stored
      index outside `target`; the same outcome as the crate's `NodeIterator`, up to
      the panic's message. */
  method Collect<D>(vec: IdxVec, target: seq<D>) returns (r: Result<seq<D>, Panic>)
    ensures r.Success? <==> Nodes.Gather(vec.vec, target).Success?
    ensures r.Success? ==> r.value == Nodes.Gather(vec.vec, target).value
    ensures r.Failure? ==>
              exists k :: Nodes.FirstOutOfRange(vec.vec, |target|, k) &&
                          r.error == AccessOutOfRange(|target|, vec.vec[k])
  {
    var it := vec.IterOver(target);
    var items: seq<D> := [];
    while true
      invariant it.vec == vec && it.target == target && it.currIdx <= |vec.vec|
      invariant Nodes.Gather(vec.vec[..it.currIdx], target) == Success(items)
      decreases |vec.vec| - it.currIdx
    {
      ghost var k := it.currIdx;
      var next := it.Next();
      match next
      case Failure(e) =>
        assert vec.vec[..k + 1][..k] == vec.vec[..k];
        assert Nodes.FirstOutOfRange(vec.vec, |target|, k);
        return Failure(e);
      case Success(None) =>
        assert vec.vec[..k] == vec.vec;
        return Success(items);
      case Success(Some(x)) =>
        assert vec.vec[..k + 1][..k] == vec.vec[..k];
        items := items + [x];
    }
  }

  /** `IdxVecIterMut`: the same cursor over a target the caller may write through;
      each step hands out the position in `target` of the node it names. */
  class IdxVecIterMut<D> {
    const vec: IdxVec
    const target: array<D>
    var currIdx: nat

    /** `IdxVecIterMut::new`: positioned at the first stored index. */
    constructor (vec: IdxVec, target: array<D>)
      ensures this.vec == vec && this.target == target && currIdx == 0
    {
      this.vec := vec;
      this.target := target;
      this.currIdx := 0;
    }

    /** The cursor is never past the end of the index vector. */
    ghost predicate Valid()
      reads this, vec
    {
      currIdx <= |vec.vec|
    }

    /** `next`: the same rules as `IdxVecIter::next`; what is handed out is the slot
        `target[vec[currIdx]]`, given by its position. */
    method Next() returns (r: Result<Option<nat>, Panic>)
      modifies this
      ensures old(currIdx) >= |vec.vec| ==> r == Success(None) && currIdx == old(currIdx)
      ensures old(currIdx) < |vec.vec| && vec.vec[old(currIdx)] < target.Length ==>
                r == Success(Some(vec.vec[old(currIdx)])) && currIdx == old(currIdx) + 1
      ensures old(currIdx) < |vec.vec| && vec.vec[old(currIdx)] >= target.Length ==>
                r == Failure(AccessOutOfRange(target.Length, vec.vec[old(currIdx)])) && currIdx == old(currIdx)
      ensures r.Success? && r.value.Some? ==> r.value.value < target.Length
      ensures old(Valid()) ==> Valid()
    {
      match vec.Get(currIdx)
      case None =>
        return Success(None);
      case Some(nextIdx) =>
        if nextIdx < target.Length {
          currIdx := currIdx + 1;
          return Success(Some(nextIdx));
        } else {
          return Failure(AccessOutOfRange(target.Length, nextIdx));
        }
    }
  }

  /** `Node`: a payload and the indices of its neighbours. */
  class Node<D> {
    const data: D
    const neighbors: IdxVec

    constructor (data: D, neighbors: IdxVec)
      ensures this.data == data && this.neighbors == neighbors
    {
      this.data := data;
      this.neighbors := neighbors;
    }

    /** `iter_neighbors`: a cursor over this node's neighbour indices into `others`. */
    method IterNeighbors<E>(others: seq<Node<E>>) returns (it: IdxVecIter<Node<E>>)
      ensures fresh(it) && it.vec == neighbors && it.target == others && it.currIdx == 0
    {
      it := new IdxVecIter(neighbors, others);
    }

    /** `iter_neighbors_mut`: the same cursor over a vector the caller may write. */
    method IterNeighborsMut<E>(others: array<Node<E>>) returns (it: IdxVecIterMut<Node<E>>)
      ensures fresh(it) && it.vec == neighbors && it.target == others && it.currIdx == 0
    {
      it := new IdxVecIterMut(neighbors, others);
    }
  }

  /** `GeneOntGraph`: the term arena and the gene arena. */
  class GeneOntGraph<Td, Gd> {
    const terms: array<Node<Td>>
    const genes: array<Node<Gd>>

    constructor (terms: array<Node<Td>>, genes: array<Node<Gd>>)
      ensures this.terms == terms && this.genes == genes
    {
      this.terms := terms;
      this.genes := genes;
    }

    /** `iter_terms`: every term, in arena order. */
    function IterTerms(): (ts: seq<Node<Td>>)
      reads terms
      ensures ts == terms[..]
    {
      terms[..]
    }

    /** `iter_genes`: every gene, in arena order. */
    function IterGenes(): (gs: seq<Node<Gd>>)
      reads genes
      ensures gs == genes[..]
    {
      genes[..]
    }

    /** `iter_term_neighbors`: the genes of `term`, through a cursor over the gene arena. */
    method IterTermNeighbors(term: Node<Td>) returns (it: IdxVecIter<Node<Gd>>)
      ensures fresh(it) && it.vec == term.neighbors && it.target == genes[..] && it.currIdx == 0
    {
      it := term.IterNeighbors(genes[..]);
    }

    /** `iter_term_neighbors_mut`: the same, writable. */
    method IterTermNeighborsMut(term: Node<Td>) returns (it: IdxVecIterMut<Node<Gd>>)
      ensures fresh(it) && it.vec == term.neighbors && it.target == genes && it.currIdx == 0
    {
      it := term.IterNeighborsMut(genes);
    }

    /** `iter_gene_neighbors`: the terms of `gene`, through a cursor over the term arena. */
    method IterGeneNeighbors(gene: Node<Gd>) returns (it: IdxVecIter<Node<Td>>)
      ensures fresh(it) && it.vec == gene.neighbors && it.target == terms[..] && it.currIdx == 0
    {
      it := gene.IterNeighbors(terms[..]);
    }

    /** `iter_gene_neighbors_mut`: the same, writable. */
    method IterGeneNeighborsMut(gene: Node<Gd>) returns (it: IdxVecIterMut<Node<Td>>)
      ensures fresh(it) && it.vec == gene.neighbors && it.target == terms && it.currIdx == 0
    {
      it := gene.IterNeighborsMut(terms);
    }
  }
}
