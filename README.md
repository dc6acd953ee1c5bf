# rolemodel-gsea in Dafny

A model of the core of `rolemodel-gsea`, a Rust crate for multiset gene set
enrichment. The crate stores a bipartite annotation graph: genes ("parts") and GO
terms ("wholes"). Each node carries a checkpointed activity, `SaveableData`, whose
`save` commits the live value and whose `restore` rolls it back. A gene-list
rolemodel scores an activity assignment by its data log-likelihood:
- every gene contributes the log-rate of its (activity, observed hit) class;
- every term contributes the log-rate of its activity;
- a penalty is charged once per illegal term.

The model is organised by the crate's files:

| module | file | form |
|---|---|---|
| `Outcomes` | — | `Option`, `Result`, and the crate's panics as values |
| `Saveable` | `rolemodel/saveable.rs` | the cell as a class, plus a trace semantics of save/restore/overwrite |
| `Activeable` | `rolemodel/activeable.rs` | the trait defaults over an implementor given as functions |
| `Nodes` | `lib.rs` | `NodeIterator` as a class, `Gather` as its specification, the blanket `Activeable` impl |
| `Genes`, `Terms` | `gene_ontology/genes.rs`, `terms.rs` | `Gene` and `Term` as classes |
| `GeneOntology` | `gene_ontology.rs` | the graph as a class over two node arenas, `from_incidence`, the ontology-wide save/restore |
| `GeneList` | `rolemodel/genelist.rs` | the likelihood decomposition |
| `UnsafeRolemodel` | `unsafe_rolemodel.rs` | the index-vector prototype and its two cursors |

Nodes refer to their neighbours by position in the other arena. A neighbour list is
a `seq<nat>`. Each node's payload holds a reference to its activity cell, so saving
a node writes through to the cell. This follows the `GeneData`/`TermData` payloads of
the crate's tests:
- a gene has an observed value and an activity cell;
- a term has an activity cell.

Some accessors behave differently for a plain node and for a node behind
`Rc<RefCell<…>>`. Those accessors take a `Handle` (`Owned` or `Shared`) that says
which form is meant.

The model takes as parameters what it cannot see:
- the natural logarithm `ln`;
- the payload type's `try_into_bool`/`from_bool` conversions;
- the per-term legality predicate.

Probabilities and log-likelihoods are `real`s.

## Model

| member | source | states |
|---|---|---|
| Saveable.SaveableData.constructor | rolemodel-gsea/src/rolemodel/saveable.rs:26-31 | `current()` and `saved()` of a new cell are the two values given |
| Saveable.SaveableData.FromBool | rolemodel-gsea/src/rolemodel/saveable.rs:58-60 | both values are `T::from_bool(b)` |
| Saveable.SaveableData.Current | rolemodel-gsea/src/rolemodel/saveable.rs:43-45 | returns the live value of the cell's state |
| Saveable.SaveableData.Saved | rolemodel-gsea/src/rolemodel/saveable.rs:46-48 | returns the committed value of the cell's state |
| Saveable.SaveableData.Save | rolemodel-gsea/src/rolemodel/saveable.rs:37-39 | saved becomes the old current, current is unchanged; the new state is one `SaveOp` step of the trace semantics |
| Saveable.SaveableData.Restore | rolemodel-gsea/src/rolemodel/saveable.rs:40-42 | current becomes the old saved, saved is unchanged; one `RestoreOp` step |
| Saveable.SaveableData.TryIntoBool | rolemodel-gsea/src/rolemodel/saveable.rs:55-57 | the conversion of the current value |
| Saveable.TryIntoBoolIgnoresSaved | rolemodel-gsea/src/rolemodel/saveable.rs:55-57 | two cells with the same current value convert alike, whatever they saved |
| Saveable.SaveRestoreLaws | rolemodel-gsea/src/rolemodel/saveable.rs:37-42 | save and restore are each idempotent; restore right after save changes nothing; save keeps current, restore keeps saved |
| Saveable.OnlySaveWritesSaved | rolemodel-gsea/src/rolemodel/saveable.rs:37-42 | any run of restores and overwrites without a save leaves the committed value as it was |
| Saveable.RestoreReturnsToLastSave | rolemodel-gsea/src/rolemodel/saveable.rs:37-42 | after a save, any save-free run, then a restore, both values equal the live value at the save |
| Activeable.IsInactive | rolemodel-gsea/src/rolemodel/activeable.rs:7 | true exactly when `is_active` is false |
| Activeable.IsIllegal | rolemodel-gsea/src/rolemodel/activeable.rs:10 | true exactly when `is_legal` is false |
| Activeable.SwitchActivity | rolemodel-gsea/src/rolemodel/activeable.rs:6 | the state `set_activity` leaves when given the negation of the activity read before the call |
| Activeable.SwitchFlips | rolemodel-gsea/src/rolemodel/activeable.rs:6-7 | if `set_activity(b)` makes `is_active` return `b`, a switch flips the activity and two switches restore it |
| Activeable.SwitchWithoutEffect | rolemodel-gsea/src/rolemodel/activeable.rs:6 | if `set_activity` leaves the state unchanged, a switch changes nothing |
| Nodes.Gather | rolemodel-gsea/src/lib.rs:47-52 | succeeds exactly when every stored index is in range; then one node per index, the k-th being `nodes[indices[k]]`; otherwise the index panic of the first index out of range |
| Nodes.NodeIterator.constructor | rolemodel-gsea/src/lib.rs:33-38 | the iterator starts with all the indices and the node vector |
| Nodes.NodeIterator.Next | rolemodel-gsea/src/lib.rs:47-52 | no index left gives `None`; otherwise the first index is consumed and its node returned, or an index panic if it is out of range |
| Nodes.IterNeighbors | rolemodel-gsea/src/lib.rs:65-76 | a fresh iterator over the node's neighbour indices and the given vector |
| Nodes.Collect | rolemodel-gsea/src/lib.rs:47-52 | running a fresh iterator to its end yields exactly `Gather(indices, nodes)` |
| Nodes.IsActive | rolemodel-gsea/src/lib.rs:83 | the current activity of the node's stored data |
| Nodes.SetActivityAsWritten | rolemodel-gsea/src/lib.rs:84 | the node's activity cell is left exactly as it was |
| Nodes.SetActivity | rolemodel-gsea/src/lib.rs:84 | corrected: afterwards `is_active` is `b`; the committed value is unchanged, on the assumption stated under Left out |
| Nodes.SwitchActivityAsWritten | rolemodel-gsea/src/lib.rs:84 | through the written `set_activity`, a switch leaves the activity unchanged |
| Nodes.SwitchActivity | rolemodel-gsea/src/lib.rs:84 | corrected: a switch flips `is_active` and keeps the committed value, on the same assumption |
| Nodes.IsLegal | rolemodel-gsea/src/lib.rs:86-88 | always the `todo!()` panic |
| Nodes.IsIllegal | rolemodel-gsea/src/lib.rs:86-88 | the `is_legal` panic propagates: never a value |
| Genes.Gene.constructor | rolemodel-gsea/src/gene_ontology/genes.rs:20-25 | stores the payload and the term list unchanged |
| Genes.Gene.Terms | rolemodel-gsea/src/gene_ontology/genes.rs:26 | the term list, entry for entry |
| Genes.Gene.AddTerm | rolemodel-gsea/src/gene_ontology/genes.rs:27 | the new list is the old list plus one entry at the end |
| Genes.Gene.Wholes | rolemodel-gsea/src/gene_ontology/genes.rs:40-42 | the same terms, in insertion order; the shared form (75-77) agrees |
| Genes.Gene.BorrowData | rolemodel-gsea/src/gene_ontology/genes.rs:34-36 | `Some(payload)` exactly for the plain form (69-71 gives `None` for the shared form) |
| Genes.Gene.Data | rolemodel-gsea/src/gene_ontology/genes.rs:72-74 | `Some(payload)` exactly for the shared form (37-39 gives `None` for the plain form) |
| Genes.Gene.IterWholes | rolemodel-gsea/src/lib.rs:99-101 | exactly `iter_neighbors` over the gene's term list and the given vector |
| Genes.Gene.Save | rolemodel-gsea/src/gene_ontology/genes.rs:51-53 | commits the payload's activity; the term list is unchanged (86-88 for the shared form) |
| Genes.Gene.Restore | rolemodel-gsea/src/gene_ontology/genes.rs:54-56 | rolls the payload's activity back; the term list is unchanged (89-91 for the shared form) |
| Genes.Gene.Current | rolemodel-gsea/src/gene_ontology/genes.rs:57-59 | the payload's current activity, for both forms (92-94) |
| Genes.Gene.Saved | rolemodel-gsea/src/gene_ontology/genes.rs:60-62 | the payload's saved activity, for both forms (95-97) |
| Terms.Term.constructor | rolemodel-gsea/src/gene_ontology/terms.rs:58-63 | stores the payload and the gene list unchanged |
| Terms.Term.AddGene | rolemodel-gsea/src/gene_ontology/terms.rs:64-66 | the new list is the old list plus one gene at the end |
| Terms.Term.IterNeighbors | rolemodel-gsea/src/gene_ontology/terms.rs:33-35 | the gene list in insertion order, for both forms (52-54) |
| Terms.Term.IterParts | rolemodel-gsea/src/lib.rs:109-111 | exactly `iter_neighbors` over the term's gene list and the given vector |
| Terms.Term.Data | rolemodel-gsea/src/gene_ontology/terms.rs:42-44 | the payload for the plain form (24-26); the shared form panics with its message |
| Terms.Term.DataMut | rolemodel-gsea/src/gene_ontology/terms.rs:45-47 | the payload for the plain form (27-29); the shared form panics with its message |
| Terms.Term.RefData | rolemodel-gsea/src/gene_ontology/terms.rs:48-50 | the payload for the shared form; the plain form panics (30-32) |
| Terms.Term.Save | rolemodel-gsea/src/gene_ontology/terms.rs:77-79 | commits the payload's activity; the gene list is unchanged (99-101 for the shared form) |
| Terms.Term.Restore | rolemodel-gsea/src/gene_ontology/terms.rs:80-82 | rolls the payload's activity back; the gene list is unchanged (102-104) |
| Terms.Term.CurrentAsWritten | rolemodel-gsea/src/gene_ontology/terms.rs:105-107 | as written, a value exactly for the plain form; the shared form panics |
| Terms.Term.SavedAsWritten | rolemodel-gsea/src/gene_ontology/terms.rs:108-110 | as written, a value exactly for the plain form; the shared form panics |
| Terms.Term.Current | rolemodel-gsea/src/gene_ontology/terms.rs:83-85 | corrected: the payload's current activity for both forms |
| Terms.Term.Saved | rolemodel-gsea/src/gene_ontology/terms.rs:86-88 | corrected: the payload's saved activity for both forms |
| GeneOntology.MembershipIsMutual | rolemodel-gsea/src/gene_ontology.rs:52-59 | gene `g` lists term `t` as often as term `t` lists gene `g`, and both equal the number of `(t, g)` pairs |
| GeneOntology.ListedIndicesInRange | rolemodel-gsea/src/gene_ontology.rs:52-59 | when all pairs are in range, every listed index names an existing node |
| GeneOntology.EdgeCounts | rolemodel-gsea/src/gene_ontology.rs:52-59 | the gene lists and the term lists each have `|adj|` entries in all; duplicates are kept |
| GeneOntology.ProcessPair | rolemodel-gsea/src/gene_ontology.rs:52-59 | processing pair `k` appends its term to its gene's list and its gene to its term's list, touches no other list, and keeps the range check |
| GeneOntology.GenesOfTermConcat | rolemodel-gsea/src/gene_ontology.rs:52-59 | processing `a` then `b` gives each term the genes `a` lists for it followed by those `b` lists |
| GeneOntology.LargerGeneOntGenes | rolemodel-gsea/tests/build-list-model.rs:26-57 | for the test incidence, term 0 lists [0,1,4], term 1 [1,5,8,9], term 2 [1], term 3 [0,6], any other term nothing |
| GeneOntology.LargerGeneOntScenario | rolemodel-gsea/tests/build-list-model.rs:26-57 | for the test incidence, terms list genes [0,1,4], [1,5,8,9], [1], [0,6]: counts [3,4,1,2] |
| GeneOntology.GeneOntology.constructor | rolemodel-gsea/src/gene_ontology.rs:26-34 | stores both arenas as given |
| GeneOntology.GeneOntology.Genes | rolemodel-gsea/src/gene_ontology.rs:36-38 | the gene arena, in order; also `iter_parts` (69-71) |
| GeneOntology.GeneOntology.Terms | rolemodel-gsea/src/gene_ontology.rs:39-41 | the term arena, in order; also `mut_terms` (42-44) and `iter_wholes` (72-74) |
| GeneOntology.GeneOntology.FromIncidence | rolemodel-gsea/src/gene_ontology.rs:46-62 | success exactly when every pair is in range; fresh nodes holding the payloads in input order and the lists of processing `adj` in order; the result is well formed (distinct nodes, each with its own activity cell, in-range lists, mutual membership); otherwise the panic of the first bad pair, term index checked first |
| GeneOntology.GeneOntology.NewGenes | rolemodel-gsea/src/gene_ontology.rs:48 | one fresh, distinct gene per payload, in input order, with an empty term list |
| GeneOntology.GeneOntology.NewTerms | rolemodel-gsea/src/gene_ontology.rs:49 | one fresh, distinct term per payload, in input order, with an empty gene list |
| GeneOntology.GeneOntology.Link | rolemodel-gsea/src/gene_ontology.rs:52-59 | success exactly when every pair is in range; then every gene lists the terms of its pairs and every term the genes of its pairs, in `adj` order; otherwise the panic of the first bad pair, term index checked first |
| GeneOntology.GeneOntology.ProveWellformed | rolemodel-gsea/src/gene_ontology.rs:52-59 | the lists `from_incidence` builds are in range and mutually consistent |
| GeneOntology.GeneOntology.Save | rolemodel-gsea/src/gene_ontology.rs:96-99 | every gene and every term has saved = old current, current unchanged; node order and neighbour lists unchanged |
| GeneOntology.GeneOntology.Restore | rolemodel-gsea/src/gene_ontology.rs:92-95 | every gene and every term has current = old saved, saved unchanged; node order and neighbour lists unchanged |
| GeneOntology.GeneOntology.SaveGenes | rolemodel-gsea/src/gene_ontology.rs:97 | every gene's saved equals its current; no current value changes |
| GeneOntology.GeneOntology.SaveTerms | rolemodel-gsea/src/gene_ontology.rs:98 | every term's saved equals its current; genes stay committed; no current value changes |
| GeneOntology.GeneOntology.RestoreGenes | rolemodel-gsea/src/gene_ontology.rs:93 | every gene's current equals its saved; no saved value changes |
| GeneOntology.GeneOntology.RestoreTerms | rolemodel-gsea/src/gene_ontology.rs:94 | every term's current equals its saved; genes stay rolled back; no saved value changes |
| GeneOntology.GOGeneListRolemodel.constructor | rolemodel-gsea/src/gene_ontology.rs:102-117 | every field is stored as given |
| GeneOntology.GOGeneListRolemodel.SetActivityProbability | rolemodel-gsea/src/gene_ontology.rs:142-144 | the stored field |
| GeneOntology.GOGeneListRolemodel.TrueActiveGeneHitRate | rolemodel-gsea/src/gene_ontology.rs:146-148 | the stored field |
| GeneOntology.GOGeneListRolemodel.FalseInactiveGeneHitRate | rolemodel-gsea/src/gene_ontology.rs:150-152 | the stored field |
| GeneOntology.GOGeneListRolemodel.IllegalSetPenalty | rolemodel-gsea/src/gene_ontology.rs:154-156 | the stored field |
| GeneOntology.GOGeneListRolemodel.BurnIn | rolemodel-gsea/src/gene_ontology.rs:158-160 | the stored field |
| GeneOntology.GOGeneListRolemodel.Nsamples | rolemodel-gsea/src/gene_ontology.rs:161-163 | the stored field |
| GeneOntology.GOGeneListRolemodel.Thinning | rolemodel-gsea/src/gene_ontology.rs:164-166 | the stored field |
| GeneList.PartsLl | rolemodel-gsea/src/rolemodel/genelist.rs:56-68 | panics with "Data should be binary 0/1" exactly when some observation is not binary; otherwise the count of each (activity, hit) class times that class's log-rate: ln h, ln(1-h), ln f, ln(1-f) |
| GeneList.PartsLlIgnoresOrder | rolemodel-gsea/src/rolemodel/genelist.rs:56-68 | reordering the parts changes neither the outcome nor the value |
| GeneList.PartsLlNonPositive | rolemodel-gsea/src/rolemodel/genelist.rs:56-68 | with rates strictly between 0 and 1, the parts log-likelihood is at most 0 |
| GeneList.WholesSumRepeats | rolemodel-gsea/src/rolemodel/genelist.rs:42-53 | the in-order sum of the wholes' log-rates adds up one ln p per active whole and one ln(1-p) per inactive whole |
| GeneList.WholesSumCounts | rolemodel-gsea/src/rolemodel/genelist.rs:42-53 | the in-order sum of the wholes' log-rates is the number of active wholes times ln p plus the number of inactive wholes times ln(1-p) |
| GeneList.SumWholes | rolemodel-gsea/src/rolemodel/genelist.rs:42-53 | one pass in order: the sum is the in-order sum of the wholes' log-rates and the counter is the number of illegal wholes |
| GeneList.WholesLlNonPositive | rolemodel-gsea/src/rolemodel/genelist.rs:40-55 | with p strictly between 0 and 1 and a non-negative penalty, the wholes log-likelihood is at most 0 |
| GeneList.PartViews | rolemodel-gsea/src/rolemodel/genelist.rs:59-60 | per gene, in arena order: its current activity and its observation converted to a bit |
| GeneList.WholeViews | rolemodel-gsea/src/rolemodel/genelist.rs:44-45 | per term, in arena order: the current activity of its cell and its legality under the legality parameter |
| GeneList.CalcLlikelihoodParts | rolemodel-gsea/src/rolemodel/genelist.rs:56-68 | panics exactly when some gene's observation does not convert; otherwise the class-weighted sum over the model's genes |
| GeneList.CalcLlikelihoodWholesAsWritten | rolemodel-gsea/src/rolemodel/genelist.rs:40-45 | as written: a value, 0, exactly when there are no terms; otherwise the `todo!()` panic of `is_legal` at the first term |
| GeneList.CalcLlikelihoodWholes | rolemodel-gsea/src/rolemodel/genelist.rs:40-55 | intended, under the legality parameter: the sum of the terms' log-rates less the penalty times the number of illegal terms |
| GeneList.DataLlikelihood | rolemodel-gsea/src/rolemodel/genelist.rs:105-110 | `calc_data_llikelihood` and `data_llikelihood`, with the intended wholes pass under the legality parameter: parts plus wholes, panicking exactly when the parts do |
| GeneList.PriorLlikelihood | rolemodel-gsea/src/rolemodel/genelist.rs:98-103 | always 0 |
| GeneList.CalcPosteriorLlikelihood | rolemodel-gsea/src/rolemodel/genelist.rs:91-93 | always 0 |
| UnsafeRolemodel.IdxVec.constructor | rolemodel-gsea/src/unsafe_rolemodel.rs:5-7 | holds the given indices |
| UnsafeRolemodel.IdxVec.Pop | rolemodel-gsea/src/unsafe_rolemodel.rs:9-11 | an empty vector gives `None` and stays empty; otherwise the old vector is the new one plus the returned index |
| UnsafeRolemodel.IdxVec.Get | rolemodel-gsea/src/unsafe_rolemodel.rs:12-14 | `Some` exactly when the position is below the length, holding the index stored there |
| UnsafeRolemodel.IdxVec.IterOver | rolemodel-gsea/src/unsafe_rolemodel.rs:96-98 | a fresh cursor over this vector and the target, at position 0 |
| UnsafeRolemodel.IdxVecIter.constructor | rolemodel-gsea/src/unsafe_rolemodel.rs:43-49 | positioned at 0 |
| UnsafeRolemodel.IdxVecIter.Next | rolemodel-gsea/src/unsafe_rolemodel.rs:27-38 | past the end, `None` with the cursor unmoved; an in-range stored index gives `target[index]` and advances by exactly 1; an out-of-range one panics with the cursor unmoved; the cursor never passes the index-vector length |
| UnsafeRolemodel.Collect | rolemodel-gsea/src/unsafe_rolemodel.rs:24-39 | a full run yields `target[vec[0]], target[vec[1]], …`, one item per stored index, the same as `Nodes.Gather`; or the cursor's panic at the first out-of-range index |
| UnsafeRolemodel.IdxVecIterMut.constructor | rolemodel-gsea/src/unsafe_rolemodel.rs:85-91 | positioned at 0 |
| UnsafeRolemodel.IdxVecIterMut.Next | rolemodel-gsea/src/unsafe_rolemodel.rs:61-80 | the same cursor and bounds rules; the slot handed out is always inside the target |
| UnsafeRolemodel.Node.constructor | rolemodel-gsea/src/unsafe_rolemodel.rs:103-106 | holds the payload and the neighbour indices |
| UnsafeRolemodel.Node.IterNeighbors | rolemodel-gsea/src/unsafe_rolemodel.rs:110-113 | a fresh cursor over the node's neighbour indices into the given vector |
| UnsafeRolemodel.Node.IterNeighborsMut | rolemodel-gsea/src/unsafe_rolemodel.rs:114-117 | the same, over a writable vector |
| UnsafeRolemodel.GeneOntGraph.constructor | rolemodel-gsea/src/unsafe_rolemodel.rs:122-125 | holds the two arenas |
| UnsafeRolemodel.GeneOntGraph.IterTerms | rolemodel-gsea/src/unsafe_rolemodel.rs:133-135 | every term, in arena order |
| UnsafeRolemodel.GeneOntGraph.IterGenes | rolemodel-gsea/src/unsafe_rolemodel.rs:146-148 | every gene, in arena order |
| UnsafeRolemodel.GeneOntGraph.IterTermNeighbors | rolemodel-gsea/src/unsafe_rolemodel.rs:139-141 | a cursor over the term's neighbour indices into the gene arena |
| UnsafeRolemodel.GeneOntGraph.IterTermNeighborsMut | rolemodel-gsea/src/unsafe_rolemodel.rs:142-144 | the same, over the writable gene arena |
| UnsafeRolemodel.GeneOntGraph.IterGeneNeighbors | rolemodel-gsea/src/unsafe_rolemodel.rs:152-154 | a cursor over the gene's neighbour indices into the term arena |
| UnsafeRolemodel.GeneOntGraph.IterGeneNeighborsMut | rolemodel-gsea/src/unsafe_rolemodel.rs:155-157 | the same, over the writable term arena |

## Left out

- `draw_samples` and `posterior_llikelihood` (`rolemodel/genelist.rs:82-89, 94-96`) are `todo!()` stubs. There is no sampling loop, random number generator, burn-in or thinning to model.
- The `Rolemodel` forwarding of `burn_in`, `nsamples` and `thinning` (`rolemodel/genelist.rs:112-122`) is not a separate member. It resolves to the `GeneListRolemodel` getters of the bound (`rolemodel/genelist.rs:29-31`), which are modelled as `GOGeneListRolemodel.BurnIn`, `Nsamples` and `Thinning`.
- `rolemodel.rs` only declares traits, so it has no behaviour to model.
- The crate's trait declarations disagree with their implementations, for example `Part::borrow_data` and `Node::ref_data`. The model follows the method bodies.
- Floating point is left out. Probabilities and log-likelihoods are reals, and `ln` is a parameter, so rounding and the logarithm itself are not modelled.
- Sharing through `Rc<RefCell<…>>` is modelled only in part:
  - A neighbour is referred to by its index in the other arena, not by a cloned `Rc`.
  - Runtime borrow panics are not modelled.
  - Where the two forms behave differently, a `Handle` parameter selects the form.
- Node payloads are reduced to the shape of the test crate's `GeneData`/`TermData`: an observed value (genes only) and an activity cell. Other payload types, and the generic `Saveable` forwarding through them, are not modelled.
- The per-term legality used by `calc_llikelihood_wholes` is a parameter. The crate's only implementation is the blanket `is_legal`, which is `todo!()` (`Nodes.IsLegal`).
- GeneList.CalcLlikelihoodWholes: models the intended pass, not the crate's. As written, `whole.is_illegal()` (`rolemodel/genelist.rs:44`) reaches the `todo!()` of `is_legal` (`lib.rs:86-88`), so the pass panics at the first term (`GeneList.CalcLlikelihoodWholesAsWritten`). `whole.is_active()` (`rolemodel/genelist.rs:45`) would also panic: it reads through `Node::data`, which always panics for the `Rc<RefCell<Term>>` form (`gene_ontology/terms.rs:42-44`) that the ontology holds. The model reads each term's activity from its cell, as `ref_data` would, and takes legality as a parameter.
- GeneList.WholeViews: reads each term's activity from its cell, not through the panicking `Node::data`; legality is the parameter.
- GeneList.DataLlikelihood: uses the intended wholes pass. As written, once the parts succeed, any ontology with a term panics in the wholes pass.
- Nodes.SetActivity: the `set_activity` of `SaveableData<bool>` that the test payloads call (`tests/build-list-model.rs:122, 156`) is not in the crate. The model assumes it writes the live value only and leaves the committed value alone, so that a proposal is saved, flipped, and rolled back by `restore`.
- Nodes.SwitchActivity: rests on the same assumption about the missing `set_activity` of `SaveableData<bool>`.
- GeneOntology.GeneOntology.FromIncidence: requires that no two payloads share an activity cell. In the crate each node owns its payload by value, so this always holds. In the model a payload holds a reference to its cell, so sharing has to be ruled out explicitly.
- The CSV loaders used by the integration tests, and the `code-tests/big-inv` benchmark, are not part of this model.
- Panic messages are kept only where the code writes them out. Index panics carry the index and the length.
- Activeable.SwitchActivity: the in-place update through `&mut self` is modelled as the state `set_activity` returns.
- GeneOntology.GeneOntology.Terms: also stands for `mut_terms`. Writing through the returned `&mut Vec` is not modelled.
- UnsafeRolemodel.IdxVecIterMut.Next: it hands out the position of the target slot, not a `&mut` reference. The raw-pointer aliasing it relies on is not modelled.
- UnsafeRolemodel.GeneOntGraph: `iter_terms_mut` and `iter_genes_mut` give mutable access to the arenas, which are the writable arrays `terms` and `genes` themselves. They have no members of their own.
- UnsafeRolemodel.IdxVecIter.Next: the bound `currIdx <= |vec|` holds only while the index vector does not shrink. The crate's shared borrow guarantees that; the model does not stop a caller from calling `Pop` under a live cursor.

## Findings

| source | as written | input that shows it | evidently intended | confidence | as-written member | corrected member |
|---|---|---|---|---|---|---|
| rolemodel-gsea/src/lib.rs:84 | the blanket `set_activity` calls `set_activity` on the copy that `Cell::get` returns, and the copy is then dropped | a node whose data is active: `set_activity(false)`, then `is_active()` is still true; `switch_activity` never changes anything | update the node's own data, e.g. write the updated copy back with `Cell::set` | high; not executed | Nodes.SwitchActivityAsWritten | Nodes.SwitchActivity |
| rolemodel-gsea/src/gene_ontology/terms.rs:105-110 | `current` and `saved` for `Rc<RefCell<Term>>` call `Node::data`, which always panics for that form (terms.rs:42-44) | any term held as `Rc<RefCell<Term>>`, which is how `GeneOntology` holds every term: `current()` panics | read through `ref_data`, as the `Rc<RefCell<Gene>>` impl reads through `data` | high; not executed | Terms.Term.CurrentAsWritten | Terms.Term.Current |
