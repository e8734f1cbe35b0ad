/**
 * Phenotype classification: a gene's total activity score is matched
 * against the gene's half-open intervals [lo, hi), in table order.
 */
module Phenotype {
  import opened Tables

  predicate InInterval(rule: PhenotypeRule, score: real) {
    rule.lo <= score < rule.hi
  }

  /** The index of the first interval containing the score, or of the last
      interval when none contains it. */
  function MatchIndex(rules: seq<PhenotypeRule>, score: real): (k: nat)
    requires |rules| > 0
    ensures k < |rules|
    ensures forall j | 0 <= j < k :: !InInterval(rules[j], score)
    ensures InInterval(rules[k], score) || k == |rules| - 1
  {
    if InInterval(rules[0], score) || |rules| == 1 then 0
    else 1 + MatchIndex(rules[1..], score)
  }

  /** _classify_phenotype. */
  function ClassifyPhenotype(gene: string, score: real): (r: string)
    ensures r == Indeterminate <==> gene !in GenePhenotypeRules
    ensures gene in GenePhenotypeRules ==>
      var rules := GenePhenotypeRules[gene];
      forall k | 0 <= k < |rules| && InInterval(rules[k], score) ::
        (forall j | 0 <= j < k :: !InInterval(rules[j], score)) ==> r == rules[k].phenotype
    ensures gene in GenePhenotypeRules ==>
      var rules := GenePhenotypeRules[gene];
      (forall j | 0 <= j < |rules| :: !InInterval(rules[j], score)) ==>
        r == rules[|rules| - 1].phenotype
  {
    if gene !in GenePhenotypeRules then Indeterminate
    else
      var rules := GenePhenotypeRules[gene];
      rules[MatchIndex(rules, score)].phenotype
  }

  /** The intervals are non-empty and each one starts where the previous one ends. */
  predicate Contiguous(rules: seq<PhenotypeRule>) {
    && (forall i | 0 <= i < |rules| :: rules[i].lo < rules[i].hi)
    && (forall i | 0 <= i < |rules| - 1 :: rules[i].hi == rules[i + 1].lo)
  }

  /** In a contiguous list, an earlier interval lies wholly below a later one. */
  lemma {:induction false} ContiguousOrdered(rules: seq<PhenotypeRule>, i: nat, j: nat)
    requires Contiguous(rules) && i < j < |rules|
    ensures rules[i].hi <= rules[j].lo
  {
    if j > i + 1 {
      ContiguousOrdered(rules, i, j - 1);
    }
  }

  /** A contiguous list covers every score from its first lower bound up to
      (not including) its last upper bound. */
  lemma {:induction false} ContiguousCovers(rules: seq<PhenotypeRule>, score: real)
    requires |rules| > 0 && Contiguous(rules)
    requires rules[0].lo <= score < rules[|rules| - 1].hi
    ensures exists k | 0 <= k < |rules| :: InInterval(rules[k], score)
  {
    if score >= rules[0].hi {
      assert Contiguous(rules[1..]) by {
        assert forall i | 0 <= i < |rules| - 1 :: rules[1..][i] == rules[i + 1];
      }
      ContiguousCovers(rules[1..], score);
      var k' :| 0 <= k' < |rules| - 1 && InInterval(rules[1..][k'], score);
      assert InInterval(rules[k' + 1], score);
    }
  }

  /** Every gene's thresholds start at 0.0, end at 99.0 and leave no gap. */
  lemma GenePhenotypeRulesContiguous(gene: string)
    requires gene in GenePhenotypeRules
    ensures Contiguous(GenePhenotypeRules[gene])
    ensures GenePhenotypeRules[gene][0].lo == 0.0
    ensures GenePhenotypeRules[gene][|GenePhenotypeRules[gene]| - 1].hi == 99.0
  {
  }

  /** For a gene with thresholds, every score in [0, 99) lies in some interval. */
  lemma ClassifyCovered(gene: string, score: real)
    requires gene in GenePhenotypeRules && 0.0 <= score < 99.0
    ensures exists k | 0 <= k < |GenePhenotypeRules[gene]| ::
      InInterval(GenePhenotypeRules[gene][k], score)
  {
    GenePhenotypeRulesContiguous(gene);
    ContiguousCovers(GenePhenotypeRules[gene], score);
  }

  /** The interval that contains a score is the only one that does, and the
      classification is its phenotype. */
  lemma ClassifyUniqueInterval(gene: string, score: real, k: nat)
    requires gene in GenePhenotypeRules && k < |GenePhenotypeRules[gene]|
    requires InInterval(GenePhenotypeRules[gene][k], score)
    ensures forall j | 0 <= j < |GenePhenotypeRules[gene]| && j != k ::
      !InInterval(GenePhenotypeRules[gene][j], score)
    ensures ClassifyPhenotype(gene, score) == GenePhenotypeRules[gene][k].phenotype
  {
    var rules := GenePhenotypeRules[gene];
    GenePhenotypeRulesContiguous(gene);
    forall j | 0 <= j < |rules| && j != k
      ensures !InInterval(rules[j], score)
    {
      if j < k { ContiguousOrdered(rules, j, k); } else { ContiguousOrdered(rules, k, j); }
    }
  }
}
