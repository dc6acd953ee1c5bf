/** A term (a "whole", a gene set): its payload and the indices of its member genes. */
module Terms {
  import opened Outcomes
  import opened Saveable
  import opened Nodes

  /** The payload of a term: its checkpointed activity. */
  datatype TermData = TermData(activity: SaveableData<bool>)

  const DataInRefCell: string := "Cannot borrow data from inside a RefCell - use ref_data instead"
  const DataMutInRefCell: string := "Cannot borrow data from inside a RefCell - use ref_data_mut instead"
  const RefDataOutsideRefCell: string := "Never call ref_data on items not in a RefCell - call data instead"

  class Term {
    const data: TermData
    /** The member genes, by index into the ontology's genes. */
    var genes: seq<nat>

    /** `Term::new`: the payload and the gene list are stored as given. */
    constructor (data: TermData, genes: seq<nat>)
      ensures this.data == data && IterNeighbors() == genes
    {
      this.data := data;
      this.genes := genes;
    }

    /** `add_gene`: one more gene at the end; the earlier ones are unchanged. */
    method AddGene(gene: nat)
      modifies this
      ensures IterNeighbors() == old(IterNeighbors()) + [gene]
    {
      genes := genes + [gene];
    }

    /** `Node::iter_neighbors`, for both forms: the member genes in the order they were
        added. */
    function IterNeighbors(): (gs: seq<nat>)
      reads this
      ensures gs == genes
    {
      genes
    }

    /** `Whole::iter_parts`: the member genes, looked up in `allGenes`. */
    method IterParts<T>(allGenes: seq<T>) returns (it: NodeIterator<T>)
      ensures fresh(it) && it.indices == IterNeighbors() && it.allNodes == allGenes
    {
      it := Nodes.IterNeighbors(genes, allGenes);
    }

    /** `Node::data`: the payload of the plain form; the shared form panics. */
    function Data(h: Handle): (r: Result<TermData, Panic>)
      ensures r.Success? <==> h == Owned
      ensures r.Success? ==> r.value == data
      ensures r.Failure? ==> r.error == Explicit(DataInRefCell)
    {
      if h == Owned then Success(data) else Failure(Explicit(DataInRefCell))
    }

    /** `Node::data_mut`: like `data`, with its own panic message. */
    function DataMut(h: Handle): (r: Result<TermData, Panic>)
      ensures r.Success? <==> h == Owned
      ensures r.Success? ==> r.value == data
      ensures r.Failure? ==> r.error == Explicit(DataMutInRefCell)
    {
      if h == Owned then Success(data) else Failure(Explicit(DataMutInRefCell))
    }

    /** `Node::ref_data`: the payload of the shared form; the plain form panics. */
    function RefData(h: Handle): (r: Result<TermData, Panic>)
      ensures r.Success? <==> h == Shared
      ensures r.Success? ==> r.value == data
      ensures r.Failure? ==> r.error == Explicit(RefDataOutsideRefCell)
    {
      if h == Shared then Success(data) else Failure(Explicit(RefDataOutsideRefCell))
    }

    /** `Saveable::save`, for both forms: forwarded to the payload's activity. */
    method Save()
      modifies data.activity
      ensures data.activity.Saved() == old(data.activity.Current())
      ensures data.activity.Current() == old(data.activity.Current())
      ensures IterNeighbors() == old(IterNeighbors())
    {
      data.activity.Save();
    }

    /** `Saveable::restore`, for both forms: forwarded to the payload's activity. */
    method Restore()
      modifies data.activity
      ensures data.activity.Current() == old(data.activity.Saved())
      ensures data.activity.Saved() == old(data.activity.Saved())
      ensures IterNeighbors() == old(IterNeighbors())
    {
      data.activity.Restore();
    }

    /** `Saveable::current` as written: both forms call `data()`, which panics for the
        shared form. */
    function CurrentAsWritten(h: Handle): (r: Result<bool, Panic>)
      reads data.activity
      ensures r.Success? <==> h == Owned
      ensures r.Success? ==> r.value == data.activity.Current()
    {
      match Data(h)
      case Success(d) => Success(d.activity.current)
      case Failure(e) => Failure(e)
    }

    /** `Saveable::saved` as written: panics for the shared form, like `current`. */
    function SavedAsWritten(h: Handle): (r: Result<bool, Panic>)
      reads data.activity
      ensures r.Success? <==> h == Owned
      ensures r.Success? ==> r.value == data.activity.Saved()
    {
      match Data(h)
      case Success(d) => Success(d.activity.saved)
      case Failure(e) => Failure(e)
    }

    /** `Saveable::current` as evidently intended: the shared form goes through
        `ref_data`, so both forms return the payload's current activity. */
    function Current(h: Handle): (b: bool)
      reads data.activity
      ensures b == data.activity.Current()
    {
      match h
      case Owned => Data(h).value.activity.current
      case Shared => RefData(h).value.activity.current
    }

    /** `Saveable::saved` as evidently intended, for both forms. */
    function Saved(h: Handle): (b: bool)
      reads data.activity
      ensures b == data.activity.Saved()
    {
      match h
      case Owned => Data(h).value.activity.saved
      case Shared => RefData(h).value.activity.saved
    }
  }
}
