/** The gene-list rolemodel's data log-likelihood. Each gene (part) contributes the
    log-rate of its (activity, observed hit) class; each term (whole) the log-rate of
    its activity; a penalty is charged once per illegal term. Log-rates are reals
    obtained through a logarithm `ln` that the model takes as a parameter. */
module GeneList {
  import opened Outcomes
  import opened Genes
  import opened Terms
  import opened GeneOntology
  import opened Nodes

  /** The message of the panic for an observation that is not binary. */
  const NotBinary: string := "Data should be binary 0/1"

  /** What the likelihood sees of a part: its activity and its observation converted
      to a bit, if it converts. */
  datatype PartView = PartView(active: bool, hit: Option<bool>)

  /** What the likelihood sees of a whole: its activity and its legality. */
  datatype WholeView = WholeView(active: bool, illegal: bool)

  /** The log-rate of one part with a binary observation: a hit on an active gene has
      probability `h` (the true-active hit rate), a hit on an inactive one `f` (the
      false-inactive hit rate). */
  function PartRate(active: bool, hit: bool, h: real, f: real, ln: real -> real): real
  {
    match (active, hit)
    case (true, true) => ln(h)
    case (true, false) => ln(1.0 - h)
    case (false, true) => ln(f)
    case (false, false) => ln(1.0 - f)
  }

  /** The log-rate of one whole: active with probability `p`. */
  function WholeRate(active: bool, p: real, ln: real -> real): real
  {
    if active then ln(p) else ln(1.0 - p)
  }

  /** The four classes of binary parts, each weighted by its number of members. */
  function ClassWeighted(m: multiset<PartView>, h: real, f: real, ln: real -> real): real
  {
    (m[PartView(true, Some(true))] as real) * ln(h)
    + (m[PartView(true, Some(false))] as real) * ln(1.0 - h)
    + (m[PartView(false, Some(true))] as real) * ln(f)
    + (m[PartView(false, Some(false))] as real) * ln(1.0 - f)
  }

  /** One more binary part adds its own class's log-rate. */
  lemma ClassWeightedAdd(m: multiset<PartView>, v: PartView, h: real, f: real, ln: real -> real)
    requires v.hit.Some?
    ensures ClassWeighted(m + multiset{v}, h, f, ln) == ClassWeighted(m, h, f, ln) + PartRate(v.active, v.hit.value, h, f, ln)
  {
  }

  /** The parts log-likelihood, summed in order: it panics at a part whose observation
      does not convert; otherwise it is the class-weighted sum, whatever the order. */
  function PartsLl(parts: seq<PartView>, h: real, f: real, ln: real -> real): (r: Result<real, Panic>)
    ensures r.Success? <==> forall k | 0 <= k < |parts| :: parts[k].hit.Some?
    ensures r.Failure? ==> r.error == Expect(NotBinary)
    ensures r.Success? ==> r.value == ClassWeighted(multiset(parts), h, f, ln)
  {
    if parts == [] then Success(0.0)
    else
      var prefix, last := parts[..|parts| - 1], parts[|parts| - 1];
      assert parts == prefix + [last];
      match PartsLl(prefix, h, f, ln)
      case Failure(e) => Failure(e)
      case Success(sum) =>
        match last.hit
        case None => Failure(Expect(NotBinary))
        case Some(hit) =>
          ClassWeightedAdd(multiset(prefix), last, h, f, ln);
          Success(sum + PartRate(last.active, hit, h, f, ln))
  }

  /** The parts log-likelihood depends on the parts only through how many fall in each
      class: reordering them changes neither the outcome nor the value. */
  lemma PartsLlIgnoresOrder(parts: seq<PartView>, reordered: seq<PartView>, h: real, f: real, ln: real -> real)
    requires multiset(parts) == multiset(reordered)
    ensures PartsLl(parts, h, f, ln) == PartsLl(reordered, h, f, ln)
  {
    if forall k | 0 <= k < |reordered| :: reordered[k].hit.Some? {
      AllBinaryIsPermutationInvariant(parts, reordered);
    }
    if forall k | 0 <= k < |parts| :: parts[k].hit.Some? {
      AllBinaryIsPermutationInvariant(reordered, parts);
    }
  }

  /** If a permutation of `parts` has only binary observations, so has `parts`. */
  lemma AllBinaryIsPermutationInvariant(parts: seq<PartView>, reordered: seq<PartView>)
    requires multiset(parts) == multiset(reordered)
    requires forall k | 0 <= k < |reordered| :: reordered[k].hit.Some?
    ensures forall k | 0 <= k < |parts| :: parts[k].hit.Some?
  {
    forall k | 0 <= k < |parts|
      ensures parts[k].hit.Some?
    {
      assert parts[k] in multiset(reordered);
      var j :| 0 <= j < |reordered| && reordered[j] == parts[k];
    }
  }

  /** How many of the wholes satisfy `P`. */
  function CountWhere(ws: seq<WholeView>, P: WholeView -> bool): nat
  {
    if ws == [] then 0
    else CountWhere(ws[..|ws| - 1], P) + if P(ws[|ws| - 1]) then 1 else 0
  }

  function ActiveCount(ws: seq<WholeView>): nat
  {
    CountWhere(ws, (w: WholeView) => w.active)
  }

  function InactiveCount(ws: seq<WholeView>): nat
  {
    CountWhere(ws, (w: WholeView) => !w.active)
  }

  function IllegalCount(ws: seq<WholeView>): nat
  {
    CountWhere(ws, (w: WholeView) => w.illegal)
  }

  /** The sum of the wholes' log-rates, in order: `active` per active whole and
      `inactive` per inactive one. */
  function WholesSum(ws: seq<WholeView>, active: real, inactive: real): real
  {
    if ws == [] then 0.0
    else WholesSum(ws[..|ws| - 1], active, inactive) + if ws[|ws| - 1].active then active else inactive
  }

  /** `n` copies of `x` added up. */
  function Repeat(n: nat, x: real): real
  {
    if n == 0 then 0.0 else Repeat(n - 1, x) + x
  }

  /** Adding up `n` copies of `x` gives `n` times `x`. */
  lemma {:induction false} RepeatIsProduct(n: nat, x: real)
    ensures Repeat(n, x) == (n as real) * x
  {
    if n > 0 {
      RepeatIsProduct(n - 1, x);
      assert (n as real) * x == ((n - 1) as real) * x + x;
    }
  }

  /** The in-order sum adds up one active rate per active whole and one inactive rate
      per inactive whole. */
  lemma {:induction false} WholesSumRepeats(ws: seq<WholeView>, active: real, inactive: real)
    ensures WholesSum(ws, active, inactive) == Repeat(ActiveCount(ws), active) + Repeat(InactiveCount(ws), inactive)
  {
    if ws != [] {
      var prefix := ws[..|ws| - 1];
      WholesSumRepeats(prefix, active, inactive);
      if ws[|ws| - 1].active {
        assert ActiveCount(ws) == ActiveCount(prefix) + 1;
        assert InactiveCount(ws) == InactiveCount(prefix);
      } else {
        assert InactiveCount(ws) == InactiveCount(prefix) + 1;
        assert ActiveCount(ws) == ActiveCount(prefix);
      }
    }
  }

  /** The in-order sum is the count-weighted sum: the number of active wholes times
      the active rate plus the number of inactive ones times the inactive rate. */
  lemma {:induction false} WholesSumCounts(ws: seq<WholeView>, active: real, inactive: real)
    ensures WholesSum(ws, active, inactive) == (ActiveCount(ws) as real) * active + (InactiveCount(ws) as real) * inactive
  {
    WholesSumRepeats(ws, active, inactive);
    RepeatIsProduct(ActiveCount(ws), active);
    RepeatIsProduct(InactiveCount(ws), inactive);
  }

  /** One more whole adds its own log-rate to the sum, and one to the illegal count
      if it is illegal. */
  lemma WholesStep(ws: seq<WholeView>, i: nat, active: real, inactive: real)
    requires i < |ws|
    ensures WholesSum(ws[..i + 1], active, inactive) == WholesSum(ws[..i], active, inactive) + if ws[i].active then active else inactive
    ensures IllegalCount(ws[..i + 1]) == IllegalCount(ws[..i]) + if ws[i].illegal then 1 else 0
  {
    assert ws[..i + 1][..i] == ws[..i];
  }

  /** The wholes log-likelihood: the sum of the log-rates, less the penalty once per
      illegal whole. */
  function WholesLl(ws: seq<WholeView>, p: real, penalty: real, ln: real -> real): real
  {
    WholesSum(ws, ln(p), ln(1.0 - p)) - penalty * (IllegalCount(ws) as real)
  }

  /** The finished pass's sum and illegal count give the wholes log-likelihood. */
  lemma WholesLlOf(ws: seq<WholeView>, p: real, penalty: real, ln: real -> real, sum: real, nIllegal: real)
    requires sum == WholesSum(ws, ln(p), ln(1.0 - p))
    requires nIllegal == IllegalCount(ws) as real
    ensures sum - penalty * nIllegal == WholesLl(ws, p, penalty, ln)
  {
  }

  /** With log-rates of probabilities strictly between 0 and 1, which are never
      positive, the parts log-likelihood is not positive. */
  lemma PartsLlNonPositive(parts: seq<PartView>, h: real, f: real, ln: real -> real)
    requires forall x: real :: 0.0 < x <= 1.0 ==> ln(x) <= 0.0
    requires 0.0 < h < 1.0 && 0.0 < f < 1.0
    ensures PartsLl(parts, h, f, ln).Success? ==> PartsLl(parts, h, f, ln).value <= 0.0
  {
    var m := multiset(parts);
    var lh, lnh, lf, lnf := ln(h), ln(1.0 - h), ln(f), ln(1.0 - f);
    ScaledNonPositive(m[PartView(true, Some(true))], lh);
    ScaledNonPositive(m[PartView(true, Some(false))], lnh);
    ScaledNonPositive(m[PartView(false, Some(true))], lf);
    ScaledNonPositive(m[PartView(false, Some(false))], lnf);
  }

  /** Likewise for the wholes, given a non-negative penalty. */
  lemma WholesLlNonPositive(ws: seq<WholeView>, p: real, penalty: real, ln: real -> real)
    requires forall x: real :: 0.0 < x <= 1.0 ==> ln(x) <= 0.0
    requires 0.0 < p < 1.0 && penalty >= 0.0
    ensures WholesLl(ws, p, penalty, ln) <= 0.0
  {
    var lp, lnp := ln(p), ln(1.0 - p);
    WholesSumCounts(ws, lp, lnp);
    ScaledNonPositive(ActiveCount(ws), lp);
    ScaledNonPositive(InactiveCount(ws), lnp);
    ScaledNonPositive(IllegalCount(ws), -penalty);
  }

  /** A count times a non-positive rate is not positive. */
  lemma ScaledNonPositive(n: nat, x: real)
    requires x <= 0.0
    ensures (n as real) * x <= 0.0
  {
  }

  /** The parts as the likelihood sees them: each gene's current activity and its
      observation converted to a bit, in arena order. */
  function PartViews<O>(genes: seq<Gene<O>>, tryIntoBool: O -> Option<bool>): (vs: seq<PartView>)
    reads set g | g in genes :: g.data.activity
    ensures |vs| == |genes|
    ensures forall i | 0 <= i < |genes| ::
              vs[i] == PartView(genes[i].data.activity.current, tryIntoBool(genes[i].data.observed))
  {
    if genes == [] then []
    else
      var last := genes[|genes| - 1];
      PartViews(genes[..|genes| - 1], tryIntoBool) + [PartView(last.data.activity.current, tryIntoBool(last.data.observed))]
  }

  /** The wholes as the likelihood sees them: each term's current activity and its
      legality, in arena order. Legality is a predicate on the term's index. */
  function WholeViews(terms: seq<Term>, isIllegal: nat -> bool): (vs: seq<WholeView>)
    reads set t | t in terms :: t.data.activity
    ensures |vs| == |terms|
    ensures forall i | 0 <= i < |terms| :: vs[i] == WholeView(terms[i].data.activity.current, isIllegal(i))
  {
    if terms == [] then []
    else
      var last := terms[|terms| - 1];
      WholeViews(terms[..|terms| - 1], isIllegal) + [WholeView(last.data.activity.current, isIllegal(|terms| - 1))]
  }

  /** `calc_llikelihood_parts`: the parts log-likelihood of the rolemodel's genes, under
      its true-active and false-inactive hit rates. It panics exactly when some gene's
      observation does not convert to a bit. */
  function CalcLlikelihoodParts<O>(model: GOGeneListRolemodel<O>, tryIntoBool: O -> Option<bool>, ln: real -> real)
    : (r: Result<real, Panic>)
    reads model.geneOntology, set g | g in model.geneOntology.genes :: g.data.activity
    ensures r.Success? <==>
              forall i | 0 <= i < |model.geneOntology.genes| :: tryIntoBool(model.geneOntology.genes[i].data.observed).Some?
    ensures r.Failure? ==> r.error == Expect(NotBinary)
    ensures r.Success? ==>
              r.value == ClassWeighted(multiset(PartViews(model.geneOntology.genes, tryIntoBool)),
                                       model.trueActiveGeneHitRate, model.falseInactiveGeneHitRate, ln)
  {
    PartsLl(PartViews(model.geneOntology.genes, tryIntoBool), model.trueActiveGeneHitRate,
            model.falseInactiveGeneHitRate, ln)
  }

  /** `calc_llikelihood_wholes` as the crate has it: the first thing asked of each
      term is `is_illegal`, which for the ontology's terms is the blanket `is_legal`, a
      `todo!()`. So the pass panics at the first term, and only an ontology without
      terms gets a value: the empty sum, 0. */
  function CalcLlikelihoodWholesAsWritten<O>(model: GOGeneListRolemodel<O>): (r: Result<real, Panic>)
    reads model.geneOntology
    ensures r.Success? <==> model.geneOntology.terms == []
    ensures r.Success? ==> r.value == 0.0
    ensures r.Failure? ==> r.error == NotYetImplemented
  {
    var terms := model.geneOntology.terms;
    if terms == [] then Success(0.0 - model.illegalSetPenalty * 0.0)
    else
      var illegal := IsIllegal(terms[0].data.activity);
      Failure(illegal.error)
  }

  /** One pass over the wholes, in order: adds up their log-rates and counts the
      illegal ones. */
  method SumWholes(views: seq<WholeView>, active: real, inactive: real) returns (sum: real, nIllegal: real)
    ensures sum == WholesSum(views, active, inactive)
    ensures nIllegal == IllegalCount(views) as real
  {
    sum := 0.0;
    nIllegal := 0.0;
    for i := 0 to |views|
      invariant sum == WholesSum(views[..i], active, inactive)
      invariant nIllegal == IllegalCount(views[..i]) as real
    {
      WholesStep(views, i, active, inactive);
      if views[i].illegal {
        nIllegal := nIllegal + 1.0;
      }
      sum := sum + if views[i].active then active else inactive;
    }
    assert views[..|views|] == views;
  }

  /** `calc_llikelihood_wholes`: one pass over the terms adds up the log-rates and
      counts the illegal terms; the penalty is charged per illegal term at the end. */
  method CalcLlikelihoodWholes<O>(model: GOGeneListRolemodel<O>, isIllegal: nat -> bool, ln: real -> real)
    returns (ll: real)
    ensures ll == WholesLl(WholeViews(model.geneOntology.terms, isIllegal), model.setActivityProbability,
                           model.illegalSetPenalty, ln)
  {
    var views := WholeViews(model.geneOntology.terms, isIllegal);
    var p := model.setActivityProbability;
    var sum, nIllegal := SumWholes(views, ln(p), ln(1.0 - p));
    ll := sum - model.illegalSetPenalty * nIllegal;
    WholesLlOf(views, p, model.illegalSetPenalty, ln, sum, nIllegal);
  }

  /** `calc_data_llikelihood` and `data_llikelihood`: the parts log-likelihood plus the
      wholes log-likelihood; the parts are evaluated first, so a non-binary
      observation panics before any term is visited. */
  method DataLlikelihood<O>(model: GOGeneListRolemodel<O>, tryIntoBool: O -> Option<bool>,
                            isIllegal: nat -> bool, ln: real -> real)
    returns (r: Result<real, Panic>)
    ensures r.Success? <==>
              forall i | 0 <= i < |model.geneOntology.genes| :: tryIntoBool(model.geneOntology.genes[i].data.observed).Some?
    ensures r.Failure? ==> r.error == Expect(NotBinary)
    ensures r.Success? ==>
              r.value == CalcLlikelihoodParts(model, tryIntoBool, ln).value +
                         WholesLl(WholeViews(model.geneOntology.terms, isIllegal), model.setActivityProbability,
                                  model.illegalSetPenalty, ln)
  {
    var parts := CalcLlikelihoodParts(model, tryIntoBool, ln);
    if parts.Failure? {
      return Failure(parts.error);
    }
    var wholes := CalcLlikelihoodWholes(model, isIllegal, ln);
    return Success(parts.value + wholes);
  }

  /** `calc_prior_llikelihood` and `prior_llikelihood`: no prior is modelled yet, so
      the prior log-likelihood is 0. */
  function PriorLlikelihood(): (ll: real)
    ensures ll == 0.0
  {
    0.0
  }

  /** `calc_posterior_llikelihood`: a stub that returns 0 whatever the state. */
  function CalcPosteriorLlikelihood<O>(model: GOGeneListRolemodel<O>): (ll: real)
    ensures ll == 0.0
  {
    0.0
  }
}
