/**
 * Drug risk prediction: a drug's genes are tried in table order, and the
 * first gene with a result that is not Indeterminate decides the drug's
 * risk label, severity and clinical action. The confidence comes from the
 * rule's base confidence, the number of supporting alleles and their
 * evidence.
 */
module RiskPrediction {
  import opened Wrappers
  import opened Tables
  import opened Annotation
  import opened GeneAnalysis
  import opened Confidence
  import opened DrugNames

  /** DrugRiskResult, without the free-text reasoning. */
  datatype DrugRiskResult = DrugRiskResult(
    drug: string, geneUsed: string, phenotype: string, riskLabel: string,
    severity: string, confidenceScore: real, clinicalAction: string,
    cpicGuideline: string, supportingVariants: seq<string>, evidenceStrength: string)

  /** The result for a drug the rule table does not know. */
  function UnknownDrugResult(drugName: string): DrugRiskResult {
    DrugRiskResult(drugName, "N/A", Indeterminate, "Unknown", "unknown", 0.0,
      "No pharmacogenomic data available for '" + drugName + "'. Proceed per standard clinical guidelines.",
      "N/A", [], "none")
  }

  /** The result for a known drug none of whose genes has a usable phenotype. */
  function InsufficientDataResult(drugName: string): DrugRiskResult {
    DrugRiskResult(drugName, "N/A", Indeterminate, "Unknown", "unknown", 0.40,
      "Insufficient genomic data to assess " + drugName
        + " risk. No variants detected in relevant genes. Proceed with standard care.",
      "N/A", [], "none")
  }

  /** The rule used when the drug has no entry for the gene's phenotype. */
  function DefaultRule(drugName: string, phenotype: string, gene: string): ClinicalRule {
    ClinicalRule("Safe", "none", 0.70, "No specific CPIC guidance",
      "No specific " + drugName + " recommendation for " + phenotype + " " + gene
        + " phenotype. Use standard dosing with caution.")
  }

  /** A drug the rule table has at least one gene for. */
  predicate IsKnownDrug(table: RuleTable, key: string) {
    key in table && table[key] != []
  }

  /** A gene with a result whose phenotype is not Indeterminate. */
  predicate Qualifies(gene: string, geneResults: map<string, GeneResult>) {
    gene in geneResults && geneResults[gene].phenotype != Indeterminate
  }

  /** The index of the first of the drug's genes that qualifies, if any. */
  function FirstQualifying(rules: seq<GeneRules>, geneResults: map<string, GeneResult>): (k: Option<nat>)
    ensures k.None? <==> forall i | 0 <= i < |rules| :: !Qualifies(rules[i].gene, geneResults)
    ensures k.Some? ==> k.value < |rules| && Qualifies(rules[k.value].gene, geneResults)
    ensures k.Some? ==> forall j | 0 <= j < k.value :: !Qualifies(rules[j].gene, geneResults)
  {
    if rules == [] then None
    else if Qualifies(rules[0].gene, geneResults) then Some(0)
    else match FirstQualifying(rules[1..], geneResults)
      case None => None
      case Some(k) => Some(k + 1)
  }

  /** The recommendation for a phenotype: the table entry, or the default rule. */
  function RuleFor(drugName: string, rules: GeneRules, phenotype: string): (rule: ClinicalRule)
    ensures phenotype in rules.byPhenotype ==> rule == rules.byPhenotype[phenotype]
    ensures phenotype !in rules.byPhenotype ==>
      && rule.riskLabel == "Safe" && rule.severity == "none" && rule.confidenceBase == 0.70
      && rule.guideline == "No specific CPIC guidance"
  {
    if phenotype in rules.byPhenotype then rules.byPhenotype[phenotype]
    else DefaultRule(drugName, phenotype, rules.gene)
  }

  /** No recommendation carries the labels reserved for "no rule applied". */
  lemma RuleIsKnownLabel(rule: ClinicalRule)
    ensures rule.riskLabel != "Unknown" && rule.severity != "unknown"
  {
    assert |rule.riskLabel| != 7 && |rule.severity| != 7;
  }

  /** The result a qualifying gene yields for a drug. */
  function GeneRisk(drugName: string, rules: GeneRules, g: GeneResult): (r: DrugRiskResult)
    ensures r.drug == drugName && r.geneUsed == rules.gene && r.phenotype == g.phenotype
    ensures r.supportingVariants == g.detectedRsids
    ensures r.evidenceStrength == ReportedEvidence(g.annotatedVariants)
    ensures g.phenotype in rules.byPhenotype ==>
      var rule := rules.byPhenotype[g.phenotype];
      r.riskLabel == rule.riskLabel && r.severity == rule.severity
      && r.cpicGuideline == rule.guideline && r.clinicalAction == rule.clinicalAction
    ensures g.phenotype !in rules.byPhenotype ==>
      r.riskLabel == "Safe" && r.severity == "none" && r.cpicGuideline == "No specific CPIC guidance"
    ensures r.riskLabel != "Unknown" && r.severity != "unknown"
    ensures 0.0 <= r.confidenceScore <= 1.0
    ensures g.annotatedVariants == [] ==>
      r.confidenceScore <= RuleFor(drugName, rules, g.phenotype).confidenceBase * 0.85 + 0.0005
  {
    var rule := RuleFor(drugName, rules, g.phenotype);
    var n := |g.annotatedVariants|;
    var factor := EvidenceFactor(g.annotatedVariants);
    var confidence := ComputeConfidence(rule.confidenceBase, g.totalActivityScore, n, factor, n > 0);
    InferredPenalty(rule.confidenceBase, n, factor);
    RuleIsKnownLabel(rule);
    DrugRiskResult(drugName, rules.gene, g.phenotype, rule.riskLabel, rule.severity, confidence,
      rule.clinicalAction, rule.guideline, g.detectedRsids, ReportedEvidence(g.annotatedVariants))
  }

  /** The confidence of a gene's result comes from the rule's base, the
      number of supporting alleles and the weakest evidence among them. */
  lemma GeneRiskConfidence(drugName: string, rules: GeneRules, g: GeneResult)
    ensures GeneRisk(drugName, rules, g).confidenceScore
         == ComputeConfidence(RuleFor(drugName, rules, g.phenotype).confidenceBase, g.totalActivityScore,
                              |g.annotatedVariants|, EvidenceFactor(g.annotatedVariants), g.annotatedVariants != [])
  {
  }

  /** The result for a known drug with the given gene rules: the first
      qualifying gene decides, and with none the data are insufficient. */
  function RiskFromRules(drugName: string, rules: seq<GeneRules>, geneResults: map<string, GeneResult>)
    : (r: DrugRiskResult)
    ensures r.drug == drugName
    ensures 0.0 <= r.confidenceScore <= 1.0
    ensures (forall i | 0 <= i < |rules| :: !Qualifies(rules[i].gene, geneResults)) ==>
      r == InsufficientDataResult(drugName)
    ensures forall k | 0 <= k < |rules| && Qualifies(rules[k].gene, geneResults) ::
      (forall j | 0 <= j < k :: !Qualifies(rules[j].gene, geneResults)) ==>
        r == GeneRisk(drugName, rules[k], geneResults[rules[k].gene])
  {
    forall k | 0 <= k < |rules| && Qualifies(rules[k].gene, geneResults)
               && (forall j | 0 <= j < k :: !Qualifies(rules[j].gene, geneResults))
      ensures FirstQualifying(rules, geneResults) == Some(k)
    {
      FirstQualifyingIs(rules, geneResults, k);
    }
    match FirstQualifying(rules, geneResults)
    case None => InsufficientDataResult(drugName)
    case Some(k) => GeneRisk(drugName, rules[k], geneResults[rules[k].gene])
  }

  /** None of the drug's genes has a usable phenotype. */
  predicate NoneQualifies(rules: seq<GeneRules>, geneResults: map<string, GeneResult>) {
    forall i | 0 <= i < |rules| :: !Qualifies(rules[i].gene, geneResults)
  }

  /** The label is "Unknown", and the severity "unknown", exactly when none of the drug's genes qualifies. */
  lemma RiskFromRulesUnknown(drugName: string, rules: seq<GeneRules>, geneResults: map<string, GeneResult>)
    ensures RiskFromRules(drugName, rules, geneResults).riskLabel == "Unknown" <==> NoneQualifies(rules, geneResults)
    ensures RiskFromRules(drugName, rules, geneResults).severity == "unknown" <==> NoneQualifies(rules, geneResults)
  {
    if FirstQualifying(rules, geneResults).Some? {
      var k := FirstQualifying(rules, geneResults).value;
      assert Qualifies(rules[k].gene, geneResults);
    }
  }

  /** A qualifying gene with no qualifying gene before it is the first qualifying one. */
  lemma FirstQualifyingIs(rules: seq<GeneRules>, geneResults: map<string, GeneResult>, k: nat)
    requires k < |rules| && Qualifies(rules[k].gene, geneResults)
    requires forall j | 0 <= j < k :: !Qualifies(rules[j].gene, geneResults)
    ensures FirstQualifying(rules, geneResults) == Some(k)
  {
    var f := FirstQualifying(rules, geneResults);
    assert f.Some?;
    assert !(f.value < k) && !(k < f.value);
  }

  /** No rule of the table applies: the drug is unknown, or none of its genes qualifies. */
  predicate NoApplicableRule(table: RuleTable, drugName: string, geneResults: map<string, GeneResult>) {
    var key := Normalise(drugName);
    !IsKnownDrug(table, key) || forall i | 0 <= i < |table[key]| :: !Qualifies(table[key][i].gene, geneResults)
  }

  /** predict_drug_risk over a given rule table: the unknown-drug answer, or
      the scan of the drug's rules. */
  function TableRisk(table: RuleTable, drugName: string, geneResults: map<string, GeneResult>)
    : (r: DrugRiskResult)
    ensures r.drug == drugName
    ensures 0.0 <= r.confidenceScore <= 1.0
  {
    var key := Normalise(drugName);
    if !IsKnownDrug(table, key) then UnknownDrugResult(drugName)
    else RiskFromRules(drugName, table[key], geneResults)
  }

  /** The outcome of predict_drug_risk: "Unknown" exactly when no rule of
      the table applies, and otherwise the scan of the drug's rules. */
  lemma TableRiskOutcome(table: RuleTable, drugName: string, geneResults: map<string, GeneResult>)
    ensures var r := TableRisk(table, drugName, geneResults);
      && (r.riskLabel == "Unknown" <==> NoApplicableRule(table, drugName, geneResults))
      && (r.severity == "unknown" <==> NoApplicableRule(table, drugName, geneResults))
      && (IsKnownDrug(table, Normalise(drugName)) ==>
            r == RiskFromRules(drugName, table[Normalise(drugName)], geneResults))
  {
    var key := Normalise(drugName);
    if IsKnownDrug(table, key) {
      RiskFromRulesUnknown(drugName, table[key], geneResults);
    }
  }

  /** When no rule applies, the answer has the fixed fields of the
      unknown-drug or insufficient-data result. */
  lemma TableRiskNoRule(table: RuleTable, drugName: string, geneResults: map<string, GeneResult>)
    requires NoApplicableRule(table, drugName, geneResults)
    ensures var r := TableRisk(table, drugName, geneResults);
      && r.geneUsed == "N/A" && r.phenotype == Indeterminate && r.cpicGuideline == "N/A"
      && r.supportingVariants == [] && r.evidenceStrength == "none"
      && r.confidenceScore == (if IsKnownDrug(table, Normalise(drugName)) then 0.40 else 0.0)
  {
  }

  /** predict_drug_risk: the unknown-drug check, then the scan of the drug's genes. */
  method PredictDrugRisk(table: RuleTable, drugName: string, geneResults: map<string, GeneResult>)
    returns (r: DrugRiskResult)
    ensures r == TableRisk(table, drugName, geneResults)
  {
    var drugKey := Normalise(drugName);
    if drugKey !in table || table[drugKey] == [] {
      return UnknownDrugResult(drugName);
    }
    r := ScanGeneRules(drugName, table[drugKey], geneResults);
  }

  /** The loop of predict_drug_risk: skip the genes without a usable result
      and return on the first that has one. */
  method ScanGeneRules(drugName: string, rules: seq<GeneRules>, geneResults: map<string, GeneResult>)
    returns (r: DrugRiskResult)
    ensures r == RiskFromRules(drugName, rules, geneResults)
  {
    for i := 0 to |rules|
      invariant forall j | 0 <= j < i :: !Qualifies(rules[j].gene, geneResults)
    {
      var gene := rules[i].gene;
      if gene !in geneResults {
        continue;
      }
      var g := geneResults[gene];
      var phenotype := g.phenotype;
      if phenotype == Indeterminate {
        continue;
      }
      var rule: ClinicalRule;
      if phenotype in rules[i].byPhenotype {
        rule := rules[i].byPhenotype[phenotype];
      } else {
        rule := DefaultRule(drugName, phenotype, gene);
      }
      var hasVariants := |g.annotatedVariants| > 0;
      var evFactor := EvidenceFactor(g.annotatedVariants);
      var confidence := ComputeConfidence(rule.confidenceBase, g.totalActivityScore,
                                          |g.annotatedVariants|, evFactor, hasVariants);
      var evStrength := ReportedEvidence(g.annotatedVariants);
      FirstQualifyingIs(rules, geneResults, i);
      return DrugRiskResult(drugName, gene, phenotype, rule.riskLabel, rule.severity, confidence,
                            rule.clinicalAction, rule.guideline, g.detectedRsids, evStrength);
    }
    return InsufficientDataResult(drugName);
  }

  /** Two gene-result maps that agree on the listed genes pick the same first qualifying gene. */
  lemma {:induction false} FirstQualifyingAgree(rules: seq<GeneRules>,
                                                a: map<string, GeneResult>, b: map<string, GeneResult>)
    requires forall i | 0 <= i < |rules| ::
      (rules[i].gene in a <==> rules[i].gene in b)
      && (rules[i].gene in a ==> a[rules[i].gene] == b[rules[i].gene])
    ensures FirstQualifying(rules, a) == FirstQualifying(rules, b)
  {
    if rules != [] {
      FirstQualifyingAgree(rules[1..], a, b);
    }
  }

  /** When the gene at k qualifies, the first qualifying gene is found within rules[..k + 1]. */
  lemma {:induction false} PrefixQualifying(rules: seq<GeneRules>, k: nat, m: map<string, GeneResult>)
    requires k < |rules| && Qualifies(rules[k].gene, m)
    ensures FirstQualifying(rules, m) == FirstQualifying(rules[..k + 1], m)
  {
    if !Qualifies(rules[0].gene, m) {
      assert rules[..k + 1][1..] == rules[1..][..k];
      PrefixQualifying(rules[1..], k - 1, m);
    }
  }

  /** Results for genes the rules do not mention do not change the prediction. */
  lemma RiskIgnoresOtherGenes(drugName: string, rules: seq<GeneRules>,
                              a: map<string, GeneResult>, b: map<string, GeneResult>)
    requires forall i | 0 <= i < |rules| ::
      (rules[i].gene in a <==> rules[i].gene in b)
      && (rules[i].gene in a ==> a[rules[i].gene] == b[rules[i].gene])
    ensures RiskFromRules(drugName, rules, a) == RiskFromRules(drugName, rules, b)
  {
    FirstQualifyingAgree(rules, a, b);
  }

  /** Once the gene at k qualifies, the genes listed after it are never
      consulted: any other results for them leave the prediction unchanged. */
  lemma RiskLaterGenesIgnored(drugName: string, rules: seq<GeneRules>, k: nat,
                              a: map<string, GeneResult>, b: map<string, GeneResult>)
    requires k < |rules| && Qualifies(rules[k].gene, a)
    requires forall i | 0 <= i <= k ::
      (rules[i].gene in a <==> rules[i].gene in b)
      && (rules[i].gene in a ==> a[rules[i].gene] == b[rules[i].gene])
    ensures RiskFromRules(drugName, rules, a) == RiskFromRules(drugName, rules, b)
  {
    assert forall i | 0 <= i < k + 1 :: rules[..k + 1][i] == rules[i];
    FirstQualifyingAgree(rules[..k + 1], a, b);
    PrefixQualifying(rules, k, a);
    PrefixQualifying(rules, k, b);
  }

  /** The drug name only enters the free-text fields: two names give the
      same label, severity, gene, phenotype, confidence, supporting
      variants and evidence. */
  lemma RiskNameIndependent(a: string, b: string, rules: seq<GeneRules>, geneResults: map<string, GeneResult>)
    ensures var ra := RiskFromRules(a, rules, geneResults); var rb := RiskFromRules(b, rules, geneResults);
      && ra.riskLabel == rb.riskLabel && ra.severity == rb.severity
      && ra.geneUsed == rb.geneUsed && ra.phenotype == rb.phenotype
      && ra.confidenceScore == rb.confidenceScore
      && ra.supportingVariants == rb.supportingVariants
      && ra.evidenceStrength == rb.evidenceStrength
  {
    match FirstQualifying(rules, geneResults)
    case None =>
    case Some(k) =>
      var g := geneResults[rules[k].gene];
      var ruleA := RuleFor(a, rules[k], g.phenotype);
      var ruleB := RuleFor(b, rules[k], g.phenotype);
      assert ruleA.riskLabel == ruleB.riskLabel && ruleA.severity == ruleB.severity;
      assert ruleA.confidenceBase == ruleB.confidenceBase;
  }

  /** Spellings with the same key give the same label, severity, gene,
      phenotype, confidence, supporting variants and evidence. */
  lemma TableRiskSameKey(table: RuleTable, a: string, b: string, geneResults: map<string, GeneResult>)
    requires Normalise(a) == Normalise(b)
    ensures var ra := TableRisk(table, a, geneResults); var rb := TableRisk(table, b, geneResults);
      && ra.riskLabel == rb.riskLabel && ra.severity == rb.severity
      && ra.geneUsed == rb.geneUsed && ra.phenotype == rb.phenotype
      && ra.confidenceScore == rb.confidenceScore
      && ra.supportingVariants == rb.supportingVariants
      && ra.evidenceStrength == rb.evidenceStrength
  {
    var key := Normalise(a);
    if IsKnownDrug(table, key) {
      RiskNameIndependent(a, b, table[key], geneResults);
    }
  }

}
