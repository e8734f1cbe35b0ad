/**
 * The public entry points: the single-drug prediction, which answers
 * "Unknown" at once for an unsupported drug, and the multi-drug
 * prediction, which analyses the six target genes once, predicts every
 * supported drug in request order and then appends a stub for every
 * unsupported one.
 */
module Pipeline {
  import opened Wrappers
  import opened Tables
  import opened Annotation
  import opened Phenotype
  import opened GeneAnalysis
  import opened RiskPrediction
  import opened DrugNames

  /** The dictionary predict_risk returns; fullResult is None for an unsupported drug. */
  datatype SingleDrugReport = SingleDrugReport(
    riskLabel: string, severity: string, confidence: real, fullResult: Option<DrugRiskResult>)

  /** The dictionary predict_multi_drug returns. */
  datatype MultiDrugReport = MultiDrugReport(
    geneProfiles: map<string, GeneResult>, drugResults: seq<DrugRiskResult>, skippedDrugs: seq<string>)

  /** A drug whose key is in the supported-drug list. */
  predicate IsSupported(drug: string) {
    Normalise(drug) in SupportedDrugs
  }

  /** The map from each listed key to its value under f. */
  function Tabulate(keys: seq<string>, f: string -> GeneResult): (m: map<string, GeneResult>)
    ensures forall k :: k in m <==> k in keys
    ensures forall k | k in m :: m[k] == f(k)
  {
    map k | k in keys :: f(k)
  }

  /** One more key adds its value and keeps the others. */
  lemma TabulateStep(keys: seq<string>, i: nat, f: string -> GeneResult)
    requires i < |keys|
    ensures Tabulate(keys[..i + 1], f) == Tabulate(keys[..i], f)[keys[i] := f(keys[i])]
  {
    assert keys[..i + 1] == keys[..i] + [keys[i]];
  }

  /** analyse_gene as a function from the gene name, for fixed records. */
  function AnalysisOf(db: AlleleTable, variants: seq<Variant>): string -> GeneResult {
    g => GeneProfile(db, g, variants)
  }

  /** The gene results of the given genes. */
  function Profiles(db: AlleleTable, genes: seq<string>, variants: seq<Variant>): (m: map<string, GeneResult>)
    ensures forall g :: g in m <==> g in genes
    ensures forall g | g in m :: m[g] == GeneProfile(db, g, variants)
  {
    Tabulate(genes, AnalysisOf(db, variants))
  }

  /** The gene results of all target genes. */
  function TargetProfiles(variants: seq<Variant>): map<string, GeneResult> {
    Profiles(RsidDatabase, TargetGenes, variants)
  }

  /** The gene-analysis loop: every listed gene is analysed once. */
  method AnalyseGenes(db: AlleleTable, genes: seq<string>, variants: seq<Variant>) returns (m: map<string, GeneResult>)
    ensures m == Profiles(db, genes, variants)
  {
    m := map[];
    assert m == Tabulate([], AnalysisOf(db, variants));
    for i := 0 to |genes|
      invariant m == Tabulate(genes[..i], AnalysisOf(db, variants))
    {
      var gene := genes[i];
      var result := AnalyseGene(db, gene, variants);
      TabulateStep(genes, i, AnalysisOf(db, variants));
      m := m[gene := result];
    }
    assert genes[..|genes|] == genes;
  }

  /** The answer of predict_risk, given the gene results: "Unknown" at once for an unsupported drug, otherwise the
      drug's prediction and its three headline fields. */
  function Answer(drug: string, table: RuleTable, geneResults: map<string, GeneResult>)
    : (rep: SingleDrugReport)
    ensures !IsSupported(drug) ==>
      rep.riskLabel == "Unknown" && rep.severity == "unknown" && rep.confidence == 0.0 && rep.fullResult.None?
    ensures IsSupported(drug) ==>
      rep.fullResult == Some(TableRisk(table, drug, geneResults))
      && rep.riskLabel == rep.fullResult.value.riskLabel
      && rep.severity == rep.fullResult.value.severity
      && rep.confidence == rep.fullResult.value.confidenceScore
    ensures 0.0 <= rep.confidence <= 1.0
  {
    if !IsSupported(drug) then SingleDrugReport("Unknown", "unknown", 0.0, None)
    else
      var r := TableRisk(table, drug, geneResults);
      SingleDrugReport(r.riskLabel, r.severity, r.confidenceScore, Some(r))
  }

  /** predict_risk, as a function of the records and the drug name. */
  function SingleDrug(variants: seq<Variant>, drug: string): SingleDrugReport {
    Answer(drug, DrugRules, TargetProfiles(variants))
  }

  /** predict_risk. */
  method PredictRisk(variants: seq<Variant>, drug: string) returns (rep: SingleDrugReport)
    ensures rep == SingleDrug(variants, drug)
  {
    var drugKey := Normalise(drug);
    if drugKey !in SupportedDrugs {
      return SingleDrugReport("Unknown", "unknown", 0.0, None);
    }
    var geneResults := AnalyseGenes(RsidDatabase, TargetGenes, variants);
    var result := PredictDrugRisk(DrugRules, drug, geneResults);
    rep := SingleDrugReport(result.riskLabel, result.severity, result.confidenceScore, Some(result));
    assert rep == Answer(drug, DrugRules, geneResults);
  }

  /** The requested drugs that keep accepts (want true) or rejects (want
      false), in request order. */
  function Filter(drugs: seq<string>, keep: string -> bool, want: bool): seq<string> {
    if drugs == [] then []
    else
      var last := drugs[|drugs| - 1];
      Filter(drugs[..|drugs| - 1], keep, want) + (if keep(last) == want then [last] else [])
  }

  /** A drug survives the filter exactly when it was requested and keep gives it the wanted answer. */
  lemma {:induction false} FilterMembers(drugs: seq<string>, keep: string -> bool, want: bool, d: string)
    ensures d in Filter(drugs, keep, want) <==> d in drugs && keep(d) == want
  {
    if drugs != [] {
      var init := drugs[..|drugs| - 1];
      FilterMembers(init, keep, want, d);
      assert drugs == init + [drugs[|drugs| - 1]];
    }
  }

  /** The stub result of an unsupported drug. */
  function SkippedResult(drug: string): DrugRiskResult {
    DrugRiskResult(drug, "N/A", Indeterminate, "Unknown", "unknown", 0.0,
      "'" + drug + "' is not in the supported drug list.", "N/A", [], "none")
  }

  /** The predictions of the given drugs, in order. */
  function Predictions(drugs: seq<string>, table: RuleTable, geneResults: map<string, GeneResult>)
    : (rs: seq<DrugRiskResult>)
    ensures |rs| == |drugs|
    ensures forall i | 0 <= i < |drugs| :: rs[i] == TableRisk(table, drugs[i], geneResults)
  {
    seq(|drugs|, i requires 0 <= i < |drugs| => TableRisk(table, drugs[i], geneResults))
  }

  lemma PredictionsSnoc(drugs: seq<string>, table: RuleTable, geneResults: map<string, GeneResult>)
    requires drugs != []
    ensures Predictions(drugs, table, geneResults)
         == Predictions(drugs[..|drugs| - 1], table, geneResults) + [TableRisk(table, drugs[|drugs| - 1], geneResults)]
  {
  }

  /** The stubs of the given drugs, in order. */
  function Stubs(drugs: seq<string>): (rs: seq<DrugRiskResult>)
    ensures |rs| == |drugs|
    ensures forall i | 0 <= i < |drugs| :: rs[i] == SkippedResult(drugs[i])
  {
    seq(|drugs|, i requires 0 <= i < |drugs| => SkippedResult(drugs[i]))
  }

  /** The report for the requested drugs, given the gene results: the
      accepted drugs' predictions in request order, then a stub for each
      rejected drug. */
  function Report(drugs: seq<string>, keep: string -> bool, table: RuleTable,
                  geneResults: map<string, GeneResult>)
    : (rep: MultiDrugReport)
    ensures rep.geneProfiles == geneResults
    ensures rep.skippedDrugs == Filter(drugs, keep, false)
    ensures |rep.drugResults| == |Filter(drugs, keep, true)| + |rep.skippedDrugs|
    ensures forall i | 0 <= i < |Filter(drugs, keep, true)| ::
      rep.drugResults[i] == TableRisk(table, Filter(drugs, keep, true)[i], geneResults)
    ensures forall i | 0 <= i < |rep.skippedDrugs| ::
      rep.drugResults[|Filter(drugs, keep, true)| + i] == SkippedResult(rep.skippedDrugs[i])
  {
    var accepted := Filter(drugs, keep, true);
    var skipped := Filter(drugs, keep, false);
    var predicted := Predictions(accepted, table, geneResults);
    var stubs := Stubs(skipped);
    var all := predicted + stubs;
    forall i | 0 <= i < |accepted|
      ensures all[i] == TableRisk(table, accepted[i], geneResults)
    {
      assert all[i] == predicted[i];
    }
    forall i | 0 <= i < |skipped|
      ensures all[|accepted| + i] == SkippedResult(skipped[i])
    {
      assert all[|predicted| + i] == stubs[i];
    }
    MultiDrugReport(geneResults, all, skipped)
  }

  /** predict_multi_drug, as a function of the records and the requested drugs. */
  function MultiDrug(variants: seq<Variant>, drugs: seq<string>): MultiDrugReport {
    Report(drugs, IsSupported, DrugRules, TargetProfiles(variants))
  }

  /** predict_multi_drug. */
  method PredictMultiDrug(variants: seq<Variant>, drugs: seq<string>) returns (rep: MultiDrugReport)
    ensures rep == MultiDrug(variants, drugs)
  {
    var validated, skipped := SplitRequest(drugs, IsSupported);
    // Analyse all genes once.
    var geneResults := AnalyseGenes(RsidDatabase, TargetGenes, variants);
    var results := PredictAll(validated, skipped, DrugRules, geneResults);
    rep := MultiDrugReport(geneResults, results, skipped);
  }

  /** The validation loop of predict_multi_drug: split the request into the
      drugs keep accepts and the rest, keeping the request order. */
  method SplitRequest(drugs: seq<string>, keep: string -> bool)
    returns (validated: seq<string>, skipped: seq<string>)
    ensures validated == Filter(drugs, keep, true)
    ensures skipped == Filter(drugs, keep, false)
  {
    validated := [];
    skipped := [];
    for i := 0 to |drugs|
      invariant validated == Filter(drugs[..i], keep, true)
      invariant skipped == Filter(drugs[..i], keep, false)
    {
      assert drugs[..i + 1][..i] == drugs[..i];
      if keep(drugs[i]) {
        validated := validated + [drugs[i]];
      } else {
        skipped := skipped + [drugs[i]];
      }
    }
    assert drugs[..|drugs|] == drugs;
  }

  /** The prediction loops of predict_multi_drug: each supported drug in
      order, then a stub for each skipped one. */
  method PredictAll(validated: seq<string>, skipped: seq<string>, table: RuleTable,
                    geneResults: map<string, GeneResult>)
    returns (results: seq<DrugRiskResult>)
    ensures results == Predictions(validated, table, geneResults) + Stubs(skipped)
  {
    var predicted := [];
    for i := 0 to |validated|
      invariant predicted == Predictions(validated[..i], table, geneResults)
    {
      var risk := PredictDrugRisk(table, validated[i], geneResults);
      PredictionsSnoc(validated[..i + 1], table, geneResults);
      assert validated[..i + 1][..i] == validated[..i];
      predicted := predicted + [risk];
    }
    assert validated[..|validated|] == validated;
    var stubs := [];
    for i := 0 to |skipped|
      invariant |stubs| == i
      invariant forall j | 0 <= j < i :: stubs[j] == SkippedResult(skipped[j])
    {
      stubs := stubs + [SkippedResult(skipped[i])];
    }
    assert stubs == Stubs(skipped);
    results := predicted + stubs;
  }

  /** A filter and its complement split the request: together they are the
      request, as a multiset. */
  lemma {:induction false} PartitionPermutation(drugs: seq<string>, keep: string -> bool)
    ensures multiset(Filter(drugs, keep, true)) + multiset(Filter(drugs, keep, false)) == multiset(drugs)
  {
    if drugs != [] {
      var init := drugs[..|drugs| - 1];
      var last := drugs[|drugs| - 1];
      PartitionPermutation(init, keep);
      assert drugs == init + [last];
      var kept, dropped := Filter(init, keep, true), Filter(init, keep, false);
      if keep(last) {
        assert Filter(drugs, keep, true) == kept + [last];
        assert Filter(drugs, keep, false) == dropped;
      } else {
        assert Filter(drugs, keep, true) == kept;
        assert Filter(drugs, keep, false) == dropped + [last];
      }
      assert multiset(drugs) == multiset(init) + multiset{last};
    }
  }

  /** Filtering keeps the request order: a split request filters to the
      concatenation of its filtered parts. */
  lemma {:induction false} FilterAppend(a: seq<string>, b: seq<string>, keep: string -> bool, want: bool)
    ensures Filter(a + b, keep, want) == Filter(a, keep, want) + Filter(b, keep, want)
  {
    if b != [] {
      var init := b[..|b| - 1];
      FilterAppend(a, init, keep, want);
      assert (a + b)[..|a + b| - 1] == a + init;
      assert (a + b)[|a + b| - 1] == b[|b| - 1];
    } else {
      assert a + b == a;
    }
  }

  /** Every requested drug gets exactly one result, and the supported and
      skipped drugs together are the request. */
  lemma MultiDrugOneResultEach(variants: seq<Variant>, drugs: seq<string>)
    ensures |MultiDrug(variants, drugs).drugResults| == |drugs|
    ensures multiset(Filter(drugs, IsSupported, true)) + multiset(MultiDrug(variants, drugs).skippedDrugs)
         == multiset(drugs)
  {
    PartitionPermutation(drugs, IsSupported);
    assert |multiset(Filter(drugs, IsSupported, true))| + |multiset(Filter(drugs, IsSupported, false))| == |multiset(drugs)|;
  }

  /** Every target gene has phenotype thresholds, so its result is never Indeterminate. */
  lemma TargetGenesClassified(g: string)
    requires g in TargetGenes
    ensures g in GenePhenotypeRules
  {
  }

  /** Every supported drug has rules, and the first gene they list is a target gene. */
  lemma SupportedDrugHasRules(key: string)
    requires key in SupportedDrugs
    ensures IsKnownDrug(DrugRules, key) && DrugRules[key][0].gene in TargetGenes
  {
  }

  /** When the drug's first listed gene has a classified result, the answer
      for a supported drug is that gene's prediction and is never "Unknown". */
  lemma AnswerFirstGene(drug: string, table: RuleTable, geneResults: map<string, GeneResult>)
    requires IsSupported(drug) && IsKnownDrug(table, Normalise(drug))
    requires Qualifies(table[Normalise(drug)][0].gene, geneResults)
    ensures var rules := table[Normalise(drug)][0];
      && Answer(drug, table, geneResults).fullResult
         == Some(GeneRisk(drug, rules, geneResults[rules.gene]))
      && Answer(drug, table, geneResults).riskLabel != "Unknown"
  {
    FirstQualifyingIs(table[Normalise(drug)], geneResults, 0);
    TableRiskOutcome(table, drug, geneResults);
  }

  /** For a supported drug, the single-drug prediction is decided by the
      first gene the drug's rules list: it is always analysed and never
      Indeterminate, so the answer is never "Unknown". */
  lemma SingleDrugUsesFirstGene(variants: seq<Variant>, drug: string)
    requires IsSupported(drug)
    ensures IsKnownDrug(DrugRules, Normalise(drug))
    ensures var rules := DrugRules[Normalise(drug)];
      && rules[0].gene in TargetProfiles(variants)
      && SingleDrug(variants, drug).fullResult ==
         Some(GeneRisk(drug, rules[0], TargetProfiles(variants)[rules[0].gene]))
      && SingleDrug(variants, drug).riskLabel != "Unknown"
  {
    var key := Normalise(drug);
    SupportedDrugHasRules(key);
    var gene := DrugRules[key][0].gene;
    var profiles := TargetProfiles(variants);
    TargetGenesClassified(gene);
    assert Qualifies(gene, profiles);
    AnswerFirstGene(drug, DrugRules, profiles);
  }
}
