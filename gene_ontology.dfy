/** The bipartite annotation graph: an arena of genes and an arena of terms, each node
    listing its neighbours by index into the other arena; and the rolemodel that pairs
    a graph with the likelihood parameters. */
module GeneOntology {
  import opened Outcomes
  import opened Saveable
  import opened Nodes
  import opened Genes
  import opened Terms

  /** An incidence pair `(term index, gene index)`. */
  type Incidence = (nat, nat)

  /** The terms gene `g` lists once the pairs of `adj` are processed in order. */
  function TermsOfGene(adj: seq<Incidence>, g: nat): seq<nat>
  {
    if adj == [] then []
    else
      var p := adj[|adj| - 1];
      TermsOfGene(adj[..|adj| - 1], g) + if p.1 == g then [p.0] else []
  }

  /** The genes term `t` lists once the pairs of `adj` are processed in order. */
  function GenesOfTerm(adj: seq<Incidence>, t: nat): seq<nat>
  {
    if adj == [] then []
    else
      var p := adj[|adj| - 1];
      GenesOfTerm(adj[..|adj| - 1], t) + if p.0 == t then [p.1] else []
  }

  /** Every pair names an existing term and an existing gene. */
  ghost predicate InRange(adj: seq<Incidence>, nGenes: nat, nTerms: nat)
  {
    forall k | 0 <= k < |adj| :: adj[k].0 < nTerms && adj[k].1 < nGenes
  }

  /** Pair `k` is the first one that names a missing term or gene. */
  ghost predicate FirstBadPair(adj: seq<Incidence>, nGenes: nat, nTerms: nat, k: int)
  {
    0 <= k < |adj| && !(adj[k].0 < nTerms && adj[k].1 < nGenes) && InRange(adj[..k], nGenes, nTerms)
  }

  /** The panic of a bad pair: the term vector is indexed first, then the gene vector. */
  function PanicOf(p: Incidence, nGenes: nat, nTerms: nat): Panic
  {
    if p.0 >= nTerms then IndexOutOfBounds(p.0, nTerms) else IndexOutOfBounds(p.1, nGenes)
  }

  /** Membership is mutual, with multiplicity: gene `g` lists term `t` exactly as often
      as term `t` lists gene `g`, which is how often the pair `(t, g)` occurs in `adj`. */
  lemma {:induction false} MembershipIsMutual(adj: seq<Incidence>, t: nat, g: nat)
    ensures multiset(TermsOfGene(adj, g))[t] == multiset(adj)[(t, g)]
    ensures multiset(GenesOfTerm(adj, t))[g] == multiset(adj)[(t, g)]
  {
    if adj != [] {
      var prefix, p := adj[..|adj| - 1], adj[|adj| - 1];
      assert adj == prefix + [p];
      MembershipIsMutual(prefix, t, g);
    }
  }

  /** Every index a gene or a term lists comes from a pair of `adj`. */
  lemma ListedIndicesInRange(adj: seq<Incidence>, nGenes: nat, nTerms: nat, g: nat, t: nat)
    requires InRange(adj, nGenes, nTerms)
    ensures forall x | x in TermsOfGene(adj, g) :: x < nTerms
    ensures forall x | x in GenesOfTerm(adj, t) :: x < nGenes
  {
    forall x | x in TermsOfGene(adj, g)
      ensures x < nTerms
    {
      MembershipIsMutual(adj, x, g);
      assert (x, g) in multiset(adj);
    }
    forall x | x in GenesOfTerm(adj, t)
      ensures x < nGenes
    {
      MembershipIsMutual(adj, t, x);
      assert (t, x) in multiset(adj);
    }
  }

  /** The total length of the term lists of genes `0 .. n - 1`. */
  function GeneDegreeSum(adj: seq<Incidence>, n: nat): nat
  {
    if n == 0 then 0 else GeneDegreeSum(adj, n - 1) + |TermsOfGene(adj, n - 1)|
  }

  /** The total length of the gene lists of terms `0 .. n - 1`. */
  function TermDegreeSum(adj: seq<Incidence>, n: nat): nat
  {
    if n == 0 then 0 else TermDegreeSum(adj, n - 1) + |GenesOfTerm(adj, n - 1)|
  }

  /** One more pair adds one entry to the gene lists of genes `0 .. n - 1` if its gene
      is one of them, and none otherwise; likewise for terms. */
  lemma {:induction false} DegreeSumsStep(adj: seq<Incidence>, n: nat)
    requires adj != []
    ensures GeneDegreeSum(adj, n) ==
            GeneDegreeSum(adj[..|adj| - 1], n) + if adj[|adj| - 1].1 < n then 1 else 0
    ensures TermDegreeSum(adj, n) ==
            TermDegreeSum(adj[..|adj| - 1], n) + if adj[|adj| - 1].0 < n then 1 else 0
  {
    if n > 0 {
      DegreeSumsStep(adj, n - 1);
    }
  }

  /** Each pair adds exactly one entry on each side, duplicates included: the gene
      lists and the term lists both have `|adj|` entries in all. */
  lemma {:induction false} EdgeCounts(adj: seq<Incidence>, nGenes: nat, nTerms: nat)
    requires InRange(adj, nGenes, nTerms)
    ensures GeneDegreeSum(adj, nGenes) == |adj|
    ensures TermDegreeSum(adj, nTerms) == |adj|
  {
    if adj == [] {
      ZeroDegreeSums(nGenes, nTerms);
    } else {
      var prefix := adj[..|adj| - 1];
      assert InRange(prefix, nGenes, nTerms);
      EdgeCounts(prefix, nGenes, nTerms);
      DegreeSumsStep(adj, nGenes);
      DegreeSumsStep(adj, nTerms);
    }
  }

  /** With no pairs every list is empty. */
  lemma {:induction false} ZeroDegreeSums(nGenes: nat, nTerms: nat)
    ensures GeneDegreeSum([], nGenes) == 0 && TermDegreeSum([], nTerms) == 0
  {
    if nGenes > 0 {
      ZeroDegreeSums(nGenes - 1, nTerms);
    }
    if nTerms > 0 {
      ZeroDegreeSums(nGenes, nTerms - 1);
    }
  }

  /** Processing pair `k` appends its term to its gene's list and its gene to its
      term's list, and to no other list; an in-range pair keeps the prefix in range. */
  lemma ProcessPair(adj: seq<Incidence>, k: nat, nGenes: nat, nTerms: nat)
    requires k < |adj|
    ensures forall g :: TermsOfGene(adj[..k + 1], g) == TermsOfGene(adj[..k], g) + if adj[k].1 == g then [adj[k].0] else []
    ensures forall t :: GenesOfTerm(adj[..k + 1], t) == GenesOfTerm(adj[..k], t) + if adj[k].0 == t then [adj[k].1] else []
    ensures InRange(adj[..k], nGenes, nTerms) && adj[k].0 < nTerms && adj[k].1 < nGenes ==> InRange(adj[..k + 1], nGenes, nTerms)
  {
    assert adj[..k + 1][..k] == adj[..k];
  }

  /** The ten-gene, four-term incidence of the crate's `larger_gene_ont` test. */
  const LargerGeneOntAdjacency: seq<Incidence> :=
    [(0, 0), (0, 1), (0, 4), (1, 1), (1, 5), (1, 8), (1, 9), (2, 1), (3, 0), (3, 6)]

  /** Processing `a` and then `b` gives each term the genes of `a` followed by the
      genes of `b`. */
  lemma {:induction false} GenesOfTermConcat(a: seq<Incidence>, b: seq<Incidence>, t: nat)
    ensures GenesOfTerm(a + b, t) == GenesOfTerm(a, t) + GenesOfTerm(b, t)
    decreases |b|
  {
    if b != [] {
      var c := b[..|b| - 1];
      assert (a + b)[..|a + b| - 1] == a + c;
      GenesOfTermConcat(a, c, t);
    } else {
      assert a + b == a;
    }
  }

  /** The pairs that attach genes `gs`, in order, to term `t`. */
  function Block(t: nat, gs: seq<nat>): (b: seq<Incidence>)
    ensures |b| == |gs|
    ensures forall k | 0 <= k < |b| :: b[k] == (t, gs[k])
  {
    seq(|gs|, k requires 0 <= k < |gs| => (t, gs[k]))
  }

  /** A block gives its own term exactly its genes, in order, and every other term none. */
  lemma {:induction false} BlockGenes(t0: nat, gs: seq<nat>, t: nat)
    ensures GenesOfTerm(Block(t0, gs), t) == if t == t0 then gs else []
    decreases |gs|
  {
    if gs != [] {
      var b := Block(t0, gs);
      assert b[..|b| - 1] == Block(t0, gs[..|gs| - 1]);
      BlockGenes(t0, gs[..|gs| - 1], t);
      assert gs == gs[..|gs| - 1] + [gs[|gs| - 1]];
    }
  }

  /** The test's incidence is four blocks, one per term. */
  lemma LargerGeneOntBlocks()
    ensures LargerGeneOntAdjacency == Block(0, [0, 1, 4]) + Block(1, [1, 5, 8, 9]) + Block(2, [1]) + Block(3, [0, 6])
  {
  }

  /** Built from that incidence, term `t` lists the genes of its own block and no other. */
  lemma LargerGeneOntGenes(t: nat)
    ensures GenesOfTerm(LargerGeneOntAdjacency, t) ==
              (if t == 0 then [0, 1, 4] else []) + (if t == 1 then [1, 5, 8, 9] else []) +
              (if t == 2 then [1] else []) + (if t == 3 then [0, 6] else [])
  {
    var b0, b1, b2, b3 := Block(0, [0, 1, 4]), Block(1, [1, 5, 8, 9]), Block(2, [1]), Block(3, [0, 6]);
    LargerGeneOntBlocks();
    GenesOfTermConcat(b0 + b1 + b2, b3, t);
    GenesOfTermConcat(b0 + b1, b2, t);
    GenesOfTermConcat(b0, b1, t);
    BlockGenes(0, [0, 1, 4], t);
    BlockGenes(1, [1, 5, 8, 9], t);
    BlockGenes(2, [1], t);
    BlockGenes(3, [0, 6], t);
  }

  /** Built from that incidence, the terms list genes {0,1,4}, {1,5,8,9}, {1} and {0,6}:
      3, 4, 1 and 2 members. */
  lemma LargerGeneOntScenario()
    ensures InRange(LargerGeneOntAdjacency, 10, 4)
    ensures GenesOfTerm(LargerGeneOntAdjacency, 0) == [0, 1, 4]
    ensures GenesOfTerm(LargerGeneOntAdjacency, 1) == [1, 5, 8, 9]
    ensures GenesOfTerm(LargerGeneOntAdjacency, 2) == [1]
    ensures GenesOfTerm(LargerGeneOntAdjacency, 3) == [0, 6]
    ensures [|GenesOfTerm(LargerGeneOntAdjacency, 0)|, |GenesOfTerm(LargerGeneOntAdjacency, 1)|,
             |GenesOfTerm(LargerGeneOntAdjacency, 2)|, |GenesOfTerm(LargerGeneOntAdjacency, 3)|] == [3, 4, 1, 2]
  {
    LargerGeneOntGenes(0);
    LargerGeneOntGenes(1);
    LargerGeneOntGenes(2);
    LargerGeneOntGenes(3);
  }

  /** No two payloads share an activity cell. In the crate every node owns its payload
      by value, so each node's activity is its own. */
  ghost predicate OwnCells<O>(geneData: seq<GeneData<O>>, termData: seq<TermData>)
  {
    && (forall i, j | 0 <= i < j < |geneData| :: geneData[i].activity != geneData[j].activity)
    && (forall i, j | 0 <= i < j < |termData| :: termData[i].activity != termData[j].activity)
    && (forall i, j | 0 <= i < |geneData| && 0 <= j < |termData| :: geneData[i].activity != termData[j].activity)
  }

  class GeneOntology<O> {
    var genes: seq<Gene<O>>
    var terms: seq<Term>

    /** `GeneOntology::new`: the two arenas are stored as given. */
    constructor (genes: seq<Gene<O>>, terms: seq<Term>)
      ensures Genes() == genes && Terms() == terms
    {
      this.genes := genes;
      this.terms := terms;
    }

    /** `genes()`, and `GeneSet::iter_parts`. */
    function Genes(): (gs: seq<Gene<O>>)
      reads this
      ensures gs == genes
    {
      genes
    }

    /** `terms()` and `mut_terms()`, and `GeneSet::iter_wholes`. */
    function Terms(): (ts: seq<Term>)
      reads this
      ensures ts == terms
    {
      terms
    }

    /** Every node is its own object with its own activity cell, every listed index
        names an existing node, and membership is mutual with multiplicity. */
    ghost predicate Wellformed()
      reads this, genes, terms
    {
      DistinctNodes() && ListsInRange() && Mutual()
    }

    /** No node occurs twice, and no two nodes share an activity cell. */
    ghost predicate DistinctNodes()
      reads this
    {
      && (forall i, j | 0 <= i < j < |genes| :: genes[i] != genes[j])
      && (forall i, j | 0 <= i < j < |terms| :: terms[i] != terms[j])
      && (forall i, j | 0 <= i < j < |genes| :: genes[i].data.activity != genes[j].data.activity)
      && (forall i, j | 0 <= i < j < |terms| :: terms[i].data.activity != terms[j].data.activity)
      && (forall i, j | 0 <= i < |genes| && 0 <= j < |terms| :: genes[i].data.activity != terms[j].data.activity)
    }

    /** Every listed index names an existing node of the other arena. */
    ghost predicate ListsInRange()
      reads this, genes, terms
    {
      && (forall g, k | 0 <= g < |genes| && 0 <= k < |genes[g].terms| :: genes[g].terms[k] < |terms|)
      && (forall t, k | 0 <= t < |terms| && 0 <= k < |terms[t].genes| :: terms[t].genes[k] < |genes|)
    }

    /** Gene `g` lists term `t` exactly as often as term `t` lists gene `g`. */
    ghost predicate Mutual()
      reads this, genes, terms
    {
      forall g, t | 0 <= g < |genes| && 0 <= t < |terms| ::
        multiset(genes[g].terms)[t] == multiset(terms[t].genes)[g]
    }

    /** The nodes hold the given payloads, in input order, and the neighbour lists that
        processing `adj` in order produces. */
    ghost predicate BuiltFrom(geneData: seq<GeneData<O>>, termData: seq<TermData>, adj: seq<Incidence>)
      reads this, genes, terms
    {
      && |genes| == |geneData| && |terms| == |termData|
      && (forall g | 0 <= g < |genes| :: genes[g].data == geneData[g] && genes[g].terms == TermsOfGene(adj, g))
      && (forall t | 0 <= t < |terms| :: terms[t].data == termData[t] && terms[t].genes == GenesOfTerm(adj, t))
    }

    /** `GeneOntology::from_incidence`: one gene per gene payload and one term per term
        payload, with empty lists; then, for each pair `(t, g)` in order, term `t` is
        appended to gene `g`'s list and gene `g` to term `t`'s list. A pair naming a
        missing term or gene panics on indexing. */
    static method FromIncidence(geneData: seq<GeneData<O>>, termData: seq<TermData>, adj: seq<Incidence>)
      returns (r: Result<GeneOntology<O>, Panic>)
      requires OwnCells(geneData, termData)
      ensures r.Success? <==> InRange(adj, |geneData|, |termData|)
      ensures r.Failure? ==>
                exists k :: FirstBadPair(adj, |geneData|, |termData|, k) &&
                            r.error == PanicOf(adj[k], |geneData|, |termData|)
      ensures r.Success? ==> fresh(r.value) && r.value.BuiltFrom(geneData, termData, adj)
      ensures r.Success? ==> (forall g | g in r.value.genes :: fresh(g)) && (forall t | t in r.value.terms :: fresh(t))
      ensures r.Success? ==> r.value.Wellformed()
    {
      var genes := NewGenes(geneData);
      var terms := NewTerms(termData);
      var ontology := new GeneOntology(genes, terms);
      var linked := ontology.Link(adj);
      if linked.Failure? {
        return Failure(linked.error);
      }
      ontology.ProveWellformed(adj);
      return Success(ontology);
    }

    /** The incidence loop of `from_incidence`: for each pair `(t, g)` in order, term
        `t` is appended to gene `g`'s list and gene `g` to term `t`'s list. A pair
        naming a missing term or gene panics on indexing, the term vector first. */
    method Link(adj: seq<Incidence>) returns (r: Result<(), Panic>)
      requires forall i, j | 0 <= i < j < |genes| :: genes[i] != genes[j]
      requires forall i, j | 0 <= i < j < |terms| :: terms[i] != terms[j]
      requires forall g | 0 <= g < |genes| :: genes[g].terms == []
      requires forall t | 0 <= t < |terms| :: terms[t].genes == []
      modifies genes, terms
      ensures r.Success? <==> InRange(adj, |genes|, |terms|)
      ensures r.Failure? ==>
                exists k :: FirstBadPair(adj, |genes|, |terms|, k) && r.error == PanicOf(adj[k], |genes|, |terms|)
      ensures r.Success? ==> forall g | 0 <= g < |genes| :: genes[g].terms == TermsOfGene(adj, g)
      ensures r.Success? ==> forall t | 0 <= t < |terms| :: terms[t].genes == GenesOfTerm(adj, t)
    {
      assert adj[..0] == [];
      for k := 0 to |adj|
        invariant InRange(adj[..k], |genes|, |terms|)
        invariant forall g | 0 <= g < |genes| :: genes[g].terms == TermsOfGene(adj[..k], g)
        invariant forall t | 0 <= t < |terms| :: terms[t].genes == GenesOfTerm(adj[..k], t)
      {
        var (t, g) := adj[k];
        if t >= |terms| || g >= |genes| {
          assert FirstBadPair(adj, |genes|, |terms|, k);
          return Failure(PanicOf(adj[k], |genes|, |terms|));
        }
        ProcessPair(adj, k, |genes|, |terms|);
        genes[g].AddTerm(t);
        terms[t].AddGene(g);
      }
      assert adj[..|adj|] == adj;
      return Success(());
    }

    /** One fresh gene per payload, in order, each with an empty term list. */
    static method NewGenes(geneData: seq<GeneData<O>>) returns (genes: seq<Gene<O>>)
      ensures |genes| == |geneData|
      ensures forall j | 0 <= j < |genes| :: fresh(genes[j]) && genes[j].data == geneData[j] && genes[j].terms == []
      ensures forall j, k | 0 <= j < k < |genes| :: genes[j] != genes[k]
    {
      genes := [];
      for i := 0 to |geneData|
        invariant |genes| == i
        invariant forall j | 0 <= j < i :: fresh(genes[j]) && genes[j].data == geneData[j] && genes[j].terms == []
        invariant forall j, k | 0 <= j < k < i :: genes[j] != genes[k]
      {
        var gene := new Gene(geneData[i], []);
        genes := genes + [gene];
      }
    }

    /** One fresh term per payload, in order, each with an empty gene list. */
    static method NewTerms(termData: seq<TermData>) returns (terms: seq<Term>)
      ensures |terms| == |termData|
      ensures forall j | 0 <= j < |terms| :: fresh(terms[j]) && terms[j].data == termData[j] && terms[j].genes == []
      ensures forall j, k | 0 <= j < k < |terms| :: terms[j] != terms[k]
    {
      terms := [];
      for i := 0 to |termData|
        invariant |terms| == i
        invariant forall j | 0 <= j < i :: fresh(terms[j]) && terms[j].data == termData[j] && terms[j].genes == []
        invariant forall j, k | 0 <= j < k < i :: terms[j] != terms[k]
      {
        var term := new Term(termData[i], []);
        terms := terms + [term];
      }
    }

    /** What `from_incidence` builds is well formed. */
    lemma ProveWellformed(adj: seq<Incidence>)
      requires DistinctNodes()
      requires InRange(adj, |genes|, |terms|)
      requires forall g | 0 <= g < |genes| :: genes[g].terms == TermsOfGene(adj, g)
      requires forall t | 0 <= t < |terms| :: terms[t].genes == GenesOfTerm(adj, t)
      ensures Wellformed()
    {
      forall g, t | 0 <= g < |genes| && 0 <= t < |terms|
        ensures multiset(genes[g].terms)[t] == multiset(terms[t].genes)[g]
      {
        MembershipIsMutual(adj, t, g);
      }
      forall g, k | 0 <= g < |genes| && 0 <= k < |genes[g].terms|
        ensures genes[g].terms[k] < |terms|
      {
        ListedIndicesInRange(adj, |genes|, |terms|, g, 0);
        assert genes[g].terms[k] in TermsOfGene(adj, g);
      }
      forall t, k | 0 <= t < |terms| && 0 <= k < |terms[t].genes|
        ensures terms[t].genes[k] < |genes|
      {
        ListedIndicesInRange(adj, |genes|, |terms|, 0, t);
        assert terms[t].genes[k] in GenesOfTerm(adj, t);
      }
    }

    /** `Saveable::save`: every gene, then every term, commits its activity. The nodes,
        their order and their neighbour lists are left as they were. */
    method Save()
      modifies set g | g in genes :: g.data.activity, set t | t in terms :: t.data.activity
      ensures forall i | 0 <= i < |genes| ::
                genes[i].Saved() == old(genes[i].Current()) && genes[i].Current() == old(genes[i].Current())
      ensures forall i | 0 <= i < |terms| ::
                terms[i].Saved(Shared) == old(terms[i].Current(Shared)) &&
                terms[i].Current(Shared) == old(terms[i].Current(Shared))
      ensures genes == old(genes) && terms == old(terms)
      ensures forall i | 0 <= i < |genes| :: genes[i].terms == old(genes[i].terms)
      ensures forall i | 0 <= i < |terms| :: terms[i].genes == old(terms[i].genes)
    {
      SaveGenes();
      SaveTerms();
    }

    /** The gene half of `save`: every gene commits its live value. No live value
        changes. */
    method SaveGenes()
      modifies set g | g in genes :: g.data.activity
      ensures forall j | 0 <= j < |genes| :: genes[j].data.activity.saved == genes[j].data.activity.current
      ensures forall j | 0 <= j < |genes| :: genes[j].data.activity.current == old(genes[j].data.activity.current)
      ensures forall j | 0 <= j < |terms| :: terms[j].data.activity.current == old(terms[j].data.activity.current)
    {
      for i := 0 to |genes|
        invariant forall j | 0 <= j < |genes| :: genes[j].data.activity.current == old(genes[j].data.activity.current)
        invariant forall j | 0 <= j < |terms| :: terms[j].data.activity.current == old(terms[j].data.activity.current)
        invariant forall j | 0 <= j < i :: genes[j].data.activity.saved == genes[j].data.activity.current
      {
        genes[i].Save();
      }
    }

    /** The term half of `save`: every term commits its live value. No live value
        changes, and genes already committed stay committed. */
    method SaveTerms()
      requires forall j | 0 <= j < |genes| :: genes[j].data.activity.saved == genes[j].data.activity.current
      modifies set t | t in terms :: t.data.activity
      ensures forall j | 0 <= j < |genes| :: genes[j].data.activity.saved == genes[j].data.activity.current
      ensures forall j | 0 <= j < |terms| :: terms[j].data.activity.saved == terms[j].data.activity.current
      ensures forall j | 0 <= j < |genes| :: genes[j].data.activity.current == old(genes[j].data.activity.current)
      ensures forall j | 0 <= j < |terms| :: terms[j].data.activity.current == old(terms[j].data.activity.current)
    {
      for i := 0 to |terms|
        invariant forall j | 0 <= j < |genes| :: genes[j].data.activity.current == old(genes[j].data.activity.current)
        invariant forall j | 0 <= j < |terms| :: terms[j].data.activity.current == old(terms[j].data.activity.current)
        invariant forall j | 0 <= j < |genes| :: genes[j].data.activity.saved == genes[j].data.activity.current
        invariant forall j | 0 <= j < i :: terms[j].data.activity.saved == terms[j].data.activity.current
      {
        terms[i].Save();
      }
    }

    /** `Saveable::restore`: every gene, then every term, rolls its activity back. The
        nodes, their order and their neighbour lists are left as they were. */
    method Restore()
      modifies set g | g in genes :: g.data.activity, set t | t in terms :: t.data.activity
      ensures forall i | 0 <= i < |genes| ::
                genes[i].Current() == old(genes[i].Saved()) && genes[i].Saved() == old(genes[i].Saved())
      ensures forall i | 0 <= i < |terms| ::
                terms[i].Current(Shared) == old(terms[i].Saved(Shared)) &&
                terms[i].Saved(Shared) == old(terms[i].Saved(Shared))
      ensures genes == old(genes) && terms == old(terms)
      ensures forall i | 0 <= i < |genes| :: genes[i].terms == old(genes[i].terms)
      ensures forall i | 0 <= i < |terms| :: terms[i].genes == old(terms[i].genes)
    {
      RestoreGenes();
      RestoreTerms();
    }

    /** The gene half of `restore`: every gene rolls back to its committed value. No
        committed value changes. */
    method RestoreGenes()
      modifies set g | g in genes :: g.data.activity
      ensures forall j | 0 <= j < |genes| :: genes[j].data.activity.current == genes[j].data.activity.saved
      ensures forall j | 0 <= j < |genes| :: genes[j].data.activity.saved == old(genes[j].data.activity.saved)
      ensures forall j | 0 <= j < |terms| :: terms[j].data.activity.saved == old(terms[j].data.activity.saved)
    {
      for i := 0 to |genes|
        invariant forall j | 0 <= j < |genes| :: genes[j].data.activity.saved == old(genes[j].data.activity.saved)
        invariant forall j | 0 <= j < |terms| :: terms[j].data.activity.saved == old(terms[j].data.activity.saved)
        invariant forall j | 0 <= j < i :: genes[j].data.activity.current == genes[j].data.activity.saved
      {
        genes[i].Restore();
      }
    }

    /** The term half of `restore`: every term rolls back to its committed value. No
        committed value changes, and genes already rolled back stay so. */
    method RestoreTerms()
      requires forall j | 0 <= j < |genes| :: genes[j].data.activity.current == genes[j].data.activity.saved
      modifies set t | t in terms :: t.data.activity
      ensures forall j | 0 <= j < |genes| :: genes[j].data.activity.current == genes[j].data.activity.saved
      ensures forall j | 0 <= j < |terms| :: terms[j].data.activity.current == terms[j].data.activity.saved
      ensures forall j | 0 <= j < |genes| :: genes[j].data.activity.saved == old(genes[j].data.activity.saved)
      ensures forall j | 0 <= j < |terms| :: terms[j].data.activity.saved == old(terms[j].data.activity.saved)
    {
      for i := 0 to |terms|
        invariant forall j | 0 <= j < |genes| :: genes[j].data.activity.saved == old(genes[j].data.activity.saved)
        invariant forall j | 0 <= j < |terms| :: terms[j].data.activity.saved == old(terms[j].data.activity.saved)
        invariant forall j | 0 <= j < |genes| :: genes[j].data.activity.current == genes[j].data.activity.saved
        invariant forall j | 0 <= j < i :: terms[j].data.activity.current == terms[j].data.activity.saved
      {
        terms[i].Restore();
      }
    }
  }

  /** `GOGeneListRolemodel`: a graph and the parameters of a sampling run. */
  class GOGeneListRolemodel<O> {
    const geneOntology: GeneOntology<O>
    const burnIn: nat
    const nsamples: nat
    const thinning: nat
    const setActivityProbability: real
    const trueActiveGeneHitRate: real
    const falseInactiveGeneHitRate: real
    const illegalSetPenalty: real

    /** The struct literal: every field as given. */
    constructor (geneOntology: GeneOntology<O>, burnIn: nat, nsamples: nat, thinning: nat,
                 setActivityProbability: real, trueActiveGeneHitRate: real,
                 falseInactiveGeneHitRate: real, illegalSetPenalty: real)
      ensures this.geneOntology == geneOntology
      ensures BurnIn() == burnIn && Nsamples() == nsamples && Thinning() == thinning
      ensures SetActivityProbability() == setActivityProbability
      ensures TrueActiveGeneHitRate() == trueActiveGeneHitRate
      ensures FalseInactiveGeneHitRate() == falseInactiveGeneHitRate
      ensures IllegalSetPenalty() == illegalSetPenalty
    {
      this.geneOntology := geneOntology;
      this.burnIn := burnIn;
      this.nsamples := nsamples;
      this.thinning := thinning;
      this.setActivityProbability := setActivityProbability;
      this.trueActiveGeneHitRate := trueActiveGeneHitRate;
      this.falseInactiveGeneHitRate := falseInactiveGeneHitRate;
      this.illegalSetPenalty := illegalSetPenalty;
    }

    function SetActivityProbability(): (p: real)
      ensures p == setActivityProbability
    {
      setActivityProbability
    }

    function TrueActiveGeneHitRate(): (h: real)
      ensures h == trueActiveGeneHitRate
    {
      trueActiveGeneHitRate
    }

    function FalseInactiveGeneHitRate(): (f: real)
      ensures f == falseInactiveGeneHitRate
    {
      falseInactiveGeneHitRate
    }

    function IllegalSetPenalty(): (penalty: real)
      ensures penalty == illegalSetPenalty
    {
      illegalSetPenalty
    }

    function BurnIn(): (n: nat)
      ensures n == burnIn
    {
      burnIn
    }

    function Nsamples(): (n: nat)
      ensures n == nsamples
    {
      nsamples
    }

    function Thinning(): (n: nat)
      ensures n == thinning
    {
      thinning
    }
  }
}
