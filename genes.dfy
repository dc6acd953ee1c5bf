/** A gene (a "part"): its payload and the indices of the terms it belongs to. */
module Genes {
  import opened Outcomes
  import opened Saveable
  import opened Nodes

  /** The payload of a gene: the observed value, and the checkpointed activity that
      its `Saveable` and `Activeable` implementations act on. */
  datatype GeneData<O> = GeneData(observed: O, activity: SaveableData<bool>)

  class Gene<O> {
    const data: GeneData<O>
    /** The terms this gene belongs to, by index into the ontology's terms. */
    var terms: seq<nat>

    /** `Gene::new`: the payload and the term list are stored as given. */
    constructor (data: GeneData<O>, terms: seq<nat>)
      ensures this.data == data && Terms() == terms
    {
      this.data := data;
      this.terms := terms;
    }

    /** `terms()`. */
    function Terms(): (ts: seq<nat>)
      reads this
      ensures ts == terms
    {
      terms
    }

    /** `Part::wholes`: the same terms, in the order they were added; the plain and the
        shared form agree. */
    function Wholes(): (ts: seq<nat>)
      reads this
      ensures ts == Terms()
    {
      terms
    }

    /** `add_term`: one more term at the end; the earlier ones keep their order. */
    method AddTerm(term: nat)
      modifies this
      ensures Terms() == old(Terms()) + [term]
    {
      terms := terms + [term];
    }

    /** `Part::borrow_data`: the payload for the plain form, `None` for the shared one. */
    function BorrowData(h: Handle): (d: Option<GeneData<O>>)
      ensures d.Some? <==> h == Owned
      ensures d.Some? ==> d.value == data
    {
      if h == Owned then Some(data) else None
    }

    /** `Part::data`: the payload for the shared form, `None` for the plain one. */
    function Data(h: Handle): (d: Option<GeneData<O>>)
      ensures d.Some? <==> h == Shared
      ensures d.Some? ==> d.value == data
    {
      if h == Shared then Some(data) else None
    }

    /** `Part::iter_wholes`: the terms of this gene, looked up in `allTerms`. */
    method IterWholes<T>(allTerms: seq<T>) returns (it: NodeIterator<T>)
      ensures fresh(it) && it.indices == Terms() && it.allNodes == allTerms
    {
      it := IterNeighbors(terms, allTerms);
    }

    /** `Saveable::save`, for both forms: forwarded to the payload's activity. */
    method Save()
      modifies data.activity
      ensures data.activity.Saved() == old(data.activity.Current())
      ensures data.activity.Current() == old(data.activity.Current())
      ensures Terms() == old(Terms())
    {
      data.activity.Save();
    }

    /** `Saveable::restore`, for both forms: forwarded to the payload's activity. */
    method Restore()
      modifies data.activity
      ensures data.activity.Current() == old(data.activity.Saved())
      ensures data.activity.Saved() == old(data.activity.Saved())
      ensures Terms() == old(Terms())
    {
      data.activity.Restore();
    }

    /** `Saveable::current`, for both forms. */
    function Current(): (b: bool)
      reads data.activity
      ensures b == data.activity.Current()
    {
      data.activity.current
    }

    /** `Saveable::saved`, for both forms. */
    function Saved(): (b: bool)
      reads data.activity
      ensures b == data.activity.Saved()
    {
      data.activity.saved
    }
  }
}
