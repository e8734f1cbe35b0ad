/**
 * Worked cases of the whole pipeline, each following one record set and
 * one drug through annotation, gene analysis, phenotype lookup, the rule
 * table and the confidence rule. Each case is proved for any rule table
 * whose entry for the drug is the drug's rules, and for any rsID database
 * holding the record's allele; the last lemma of each case instantiates
 * both with the tables predict_risk uses.
 */
module Scenarios {
  import opened Wrappers
  import opened Tables
  import opened Annotation
  import opened Phenotype
  import opened Diplotype
  import opened GeneAnalysis
  import opened RiskPrediction
  import opened Confidence
  import opened DrugNames
  import opened Pipeline

  /** The database maps the identifier to the record. */
  predicate HasEntry(db: AlleleTable, id: string, e: AlleleRecord) {
    id in db && db[id] == e
  }

  /** For a supported drug whose table entry is the given rules, the
      single-drug answer is the first listed gene's prediction on the
      records' result for that gene. */
  lemma DecidedByFirstGene(table: RuleTable, variants: seq<Variant>, drug: string, rules: seq<GeneRules>)
    requires IsSupported(drug)
    requires Normalise(drug) in table && table[Normalise(drug)] == rules
    requires rules != [] && rules[0].gene in TargetGenes
    ensures Answer(drug, table, TargetProfiles(variants)).fullResult
         == Some(GeneRisk(drug, rules[0], GeneProfile(RsidDatabase, rules[0].gene, variants)))
  {
    var profiles := TargetProfiles(variants);
    TargetGenesClassified(rules[0].gene);
    assert Qualifies(rules[0].gene, profiles);
    AnswerFirstGene(drug, table, profiles);
  }

  /** A gene result with one or two supporting alleles, all of high
      evidence, whose phenotype has a table rule: the result carries the
      rule's label and severity, reports "high" evidence, and scores the
      rule's base plus 0.02 per allele (when that is a whole number of
      thousandths, at most 1). */
  lemma HighEvidenceRisk(drugName: string, rules: GeneRules, g: GeneResult, milli: int)
    requires g.phenotype in rules.byPhenotype
    requires 1 <= |g.annotatedVariants| <= 2
    requires forall i | 0 <= i < |g.annotatedVariants| :: g.annotatedVariants[i].evidenceStrength == "high"
    requires 0 <= milli <= 1000
    requires rules.byPhenotype[g.phenotype].confidenceBase + |g.annotatedVariants| as real * 0.02
          == milli as real / 1000.0
    ensures var r := GeneRisk(drugName, rules, g);
      && r.riskLabel == rules.byPhenotype[g.phenotype].riskLabel
      && r.severity == rules.byPhenotype[g.phenotype].severity
      && r.confidenceScore == milli as real / 1000.0 && r.evidenceStrength == "high"
  {
    var annotated := g.annotatedVariants;
    GeneRiskConfidence(drugName, rules, g);
    assert EvidenceFactor(annotated) == 1.0;
    ReportedEvidenceHigh(annotated, 0);
    assert (milli as real / 1000.0 * 1000.0 + 0.5).Floor == milli;
  }

  // Warfarin without variant records.

  /** The warfarin entry of the rule table. */
  lemma WarfarinEntry()
    ensures "warfarin" in DrugRules && DrugRules["warfarin"] == WarfarinRules
  {
  }

  /** The first warfarin rule: CYP2C9, and standard dosing for a normal
      metabolizer. */
  lemma WarfarinRule()
    ensures WarfarinRules != []
    ensures var rules := WarfarinRules[0];
      && rules.gene == "CYP2C9" && NormalMetabolizer in rules.byPhenotype
      && rules.byPhenotype[NormalMetabolizer].riskLabel == "Safe"
      && rules.byPhenotype[NormalMetabolizer].severity == "none"
      && rules.byPhenotype[NormalMetabolizer].confidenceBase == 0.9
  {
  }

  /** Without records, CYP2C9 is the reference diplotype with activity 2.0,
      a normal metabolizer. */
  lemma ReferenceCYP2C9(db: AlleleTable)
    ensures var g := GeneProfile(db, "CYP2C9", []);
      && g.annotatedVariants == [] && g.detectedRsids == []
      && g.totalActivityScore == 2.0 && g.phenotype == NormalMetabolizer
  {
    GeneProfileReference(db, "CYP2C9", []);
    ClassifyUniqueInterval("CYP2C9", 2.0, 2);
  }

  /** The warfarin rule applied to the reference CYP2C9 result: standard
      dosing, with the inferred-call confidence round(0.9 * 0.6 * 0.85, 3). */
  lemma WarfarinReferenceRisk(db: AlleleTable)
    ensures WarfarinRules != []
    ensures var r := GeneRisk("warfarin", WarfarinRules[0], GeneProfile(db, "CYP2C9", []));
      && r.riskLabel == "Safe" && r.severity == "none" && r.confidenceScore == 0.459
      && r.geneUsed == "CYP2C9" && r.phenotype == NormalMetabolizer
      && r.supportingVariants == [] && r.evidenceStrength == "inferred"
  {
    WarfarinRule();
    ReferenceCYP2C9(db);
    var g := GeneProfile(db, "CYP2C9", []);
    GeneRiskConfidence("warfarin", WarfarinRules[0], g);
    assert (0.459 * 1000.0 + 0.5).Floor == 459;
  }

  /** "warfarin" is its own lookup key, and a supported drug. */
  lemma WarfarinKey()
    ensures Normalise("warfarin") == "warfarin"
    ensures IsSupported("warfarin")
  {
    NormaliseWarfarin();
  }

  /** With no variant records, warfarin is assessed on the reference CYP2C9
      diplotype: standard dosing, with the inferred-call confidence. */
  lemma WarfarinWithoutVariants(table: RuleTable)
    requires "warfarin" in table && table["warfarin"] == WarfarinRules
    ensures var rep := Answer("warfarin", table, TargetProfiles([]));
      && rep.riskLabel == "Safe" && rep.severity == "none" && rep.confidence == 0.459
      && rep.fullResult.Some?
      && rep.fullResult.value.geneUsed == "CYP2C9"
      && rep.fullResult.value.phenotype == NormalMetabolizer
      && rep.fullResult.value.supportingVariants == []
      && rep.fullResult.value.evidenceStrength == "inferred"
  {
    WarfarinRule();
    WarfarinKey();
    WarfarinReferenceRisk(RsidDatabase);
    DecidedByFirstGene(table, [], "warfarin", WarfarinRules);
  }

  /** The same, for the rule table and database predict_risk uses. */
  lemma WarfarinWithoutVariantsReport()
    ensures var rep := SingleDrug([], "warfarin");
      && rep.riskLabel == "Safe" && rep.severity == "none" && rep.confidence == 0.459
  {
    WarfarinEntry();
    WarfarinWithoutVariants(DrugRules);
  }

  // Codeine for a CYP2D6*4 homozygote.

  /** The codeine entry of the rule table. */
  lemma CodeineEntry()
    ensures "codeine" in DrugRules && DrugRules["codeine"] == CodeineRules
  {
  }

  /** The first codeine rule: CYP2D6, and no analgesia for a poor metabolizer. */
  lemma CodeineRule()
    ensures CodeineRules != []
    ensures var rules := CodeineRules[0];
      && rules.gene == "CYP2D6" && PoorMetabolizer in rules.byPhenotype
      && rules.byPhenotype[PoorMetabolizer].riskLabel == "Ineffective"
      && rules.byPhenotype[PoorMetabolizer].severity == "high"
      && rules.byPhenotype[PoorMetabolizer].confidenceBase == 0.95
  {
  }

  /** The database entry of rs3892097: CYP2D6*4, no function, high evidence. */
  lemma StarFourEntry()
    ensures HasEntry(RsidDatabase, "rs3892097", AlleleRecord("CYP2D6", "*4", "LOF", 0.0, "high"))
  {
  }

  /** A homozygous call of rs3892097, the loss-of-function allele CYP2D6*4. */
  function StarFourHomozygous(): Variant {
    Variant("CYP2D6", "chr22", 42128945, RsidText("rs3892097"), "C", ["T"], Some("1/1"))
  }

  /** The record annotates to CYP2D6*4 with activity 0.0 and high evidence,
      and its genotype is homozygous. */
  lemma StarFourAnnotation(db: AlleleTable)
    requires HasEntry(db, "rs3892097", AlleleRecord("CYP2D6", "*4", "LOF", 0.0, "high"))
    ensures Annotate(db, StarFourHomozygous())
         == Some(VariantAnnotation("rs3892097", "CYP2D6", "*4", "LOF", 0.0, "high",
                                   "chr22", 42128945, "C", ["T"]))
    ensures IsHomozygous(Genotype(StarFourHomozygous()))
    ensures Doses(db, "CYP2D6", StarFourHomozygous()) != []
  {
    assert FirstKnown(db, ["rs3892097"]) == Some(0);
    assert HasSubstring("1/1", "1/1");
  }

  /** Two copies of CYP2D6*4 give a *4 homozygous diplotype with activity 0.0, a
      poor metabolizer, supported twice by the same high-evidence rsID. */
  lemma StarFourProfile(db: AlleleTable)
    requires HasEntry(db, "rs3892097", AlleleRecord("CYP2D6", "*4", "LOF", 0.0, "high"))
    ensures var g := GeneProfile(db, "CYP2D6", [StarFourHomozygous()]);
      && g.diplotype == "CYP2D6:*4/*4" && g.totalActivityScore == 0.0
      && g.phenotype == PoorMetabolizer
      && g.detectedRsids == ["rs3892097", "rs3892097"]
      && |g.annotatedVariants| == 2
      && g.annotatedVariants[0].evidenceStrength == "high"
      && g.annotatedVariants[1].evidenceStrength == "high"
  {
    var v := StarFourHomozygous();
    StarFourAnnotation(db);
    GeneProfileHomozygous(db, "CYP2D6", v);
    var a := Annotate(db, v).value;
    assert Label("CYP2D6", a.starAllele, a.starAllele) == "CYP2D6:*4/*4";
    ClassifyUniqueInterval("CYP2D6", 0.0, 0);
  }

  /** The codeine rule applied to the CYP2D6*4 homozygote's gene result. */
  lemma CodeineStarFourRisk(db: AlleleTable)
    requires HasEntry(db, "rs3892097", AlleleRecord("CYP2D6", "*4", "LOF", 0.0, "high"))
    ensures CodeineRules != []
    ensures var r := GeneRisk("codeine", CodeineRules[0], GeneProfile(db, "CYP2D6", [StarFourHomozygous()]));
      && r.riskLabel == "Ineffective" && r.severity == "high" && r.confidenceScore == 0.99
      && r.geneUsed == "CYP2D6" && r.phenotype == PoorMetabolizer
      && r.supportingVariants == ["rs3892097", "rs3892097"] && r.evidenceStrength == "high"
  {
    CodeineRule();
    StarFourProfile(db);
    HighEvidenceRisk("codeine", CodeineRules[0], GeneProfile(db, "CYP2D6", [StarFourHomozygous()]), 990);
  }

  /** "codeine" is its own lookup key, and a supported drug. */
  lemma CodeineKey()
    ensures Normalise("codeine") == "codeine"
    ensures IsSupported("codeine")
  {
    NormaliseFixedPoint("codeine");
  }

  /** Codeine for a CYP2D6*4 homozygote: ineffective, high severity, with
      confidence round((0.95 + 2 * 0.02) * 1.0, 3) and high evidence. */
  lemma CodeineStarFourHomozygous(table: RuleTable)
    requires "codeine" in table && table["codeine"] == CodeineRules
    ensures var rep := Answer("codeine", table, TargetProfiles([StarFourHomozygous()]));
      && rep.riskLabel == "Ineffective" && rep.severity == "high" && rep.confidence == 0.99
      && rep.fullResult.Some?
      && rep.fullResult.value.geneUsed == "CYP2D6"
      && rep.fullResult.value.phenotype == PoorMetabolizer
      && rep.fullResult.value.supportingVariants == ["rs3892097", "rs3892097"]
      && rep.fullResult.value.evidenceStrength == "high"
  {
    CodeineRule();
    CodeineKey();
    StarFourEntry();
    CodeineStarFourRisk(RsidDatabase);
    DecidedByFirstGene(table, [StarFourHomozygous()], "codeine", CodeineRules);
  }

  /** The same, for the rule table and database predict_risk uses. */
  lemma CodeineStarFourHomozygousReport()
    ensures var rep := SingleDrug([StarFourHomozygous()], "codeine");
      && rep.riskLabel == "Ineffective" && rep.severity == "high" && rep.confidence == 0.99
  {
    CodeineEntry();
    CodeineStarFourHomozygous(DrugRules);
  }

  // Simvastatin for a heterozygous SLCO1B1*5 carrier.

  /** The simvastatin entry of the rule table. */
  lemma SimvastatinEntry()
    ensures "simvastatin" in DrugRules && DrugRules["simvastatin"] == SimvastatinRules
  {
  }

  /** The first simvastatin rule: SLCO1B1, and a dose cap for decreased function. */
  lemma SimvastatinRule()
    ensures SimvastatinRules != []
    ensures var rules := SimvastatinRules[0];
      && rules.gene == "SLCO1B1" && "Decreased Function" in rules.byPhenotype
      && rules.byPhenotype["Decreased Function"].riskLabel == "Adjust Dosage"
      && rules.byPhenotype["Decreased Function"].severity == "moderate"
      && rules.byPhenotype["Decreased Function"].confidenceBase == 0.85
  {
  }

  /** The database entry of rs4149056: SLCO1B1*5, no function, high evidence. */
  lemma StarFiveEntry()
    ensures HasEntry(RsidDatabase, "rs4149056", AlleleRecord("SLCO1B1", "*5", "LOF", 0.0, "high"))
  {
  }

  /** A heterozygous call of rs4149056, the loss-of-function allele SLCO1B1*5. */
  function StarFiveHeterozygous(): Variant {
    Variant("SLCO1B1", "chr12", 21178615, RsidText("rs4149056"), "T", ["C"], Some("0/1"))
  }

  /** The record annotates to SLCO1B1*5 with activity 0.0 and high evidence,
      and its genotype is heterozygous. */
  lemma StarFiveAnnotation(db: AlleleTable)
    requires HasEntry(db, "rs4149056", AlleleRecord("SLCO1B1", "*5", "LOF", 0.0, "high"))
    ensures Annotate(db, StarFiveHeterozygous())
         == Some(VariantAnnotation("rs4149056", "SLCO1B1", "*5", "LOF", 0.0, "high",
                                   "chr12", 21178615, "T", ["C"]))
    ensures !IsHomozygous(Genotype(StarFiveHeterozygous()))
    ensures Doses(db, "SLCO1B1", StarFiveHeterozygous()) != []
  {
    assert FirstKnown(db, ["rs4149056"]) == Some(0);
    var gt := "0/1";
    assert |gt[1..]| < 3;
    assert gt[..3][0] != "1/1"[0] && gt[..3][0] != "1|1"[0] && gt[..3][0] != "2/2"[0];
  }

  /** A reference SLCO1B1 allele has activity 1.0, half the default 2.0. */
  lemma ReferenceSLCO1B1()
    ensures ReferenceActivity("SLCO1B1") == 1.0
  {
    assert DefaultActivityScores["SLCO1B1"] == 2.0;
  }

  /** One copy of SLCO1B1*5 beside a reference allele of activity 1.0 gives
      activity 1.0: decreased function. */
  lemma StarFiveProfile(db: AlleleTable)
    requires HasEntry(db, "rs4149056", AlleleRecord("SLCO1B1", "*5", "LOF", 0.0, "high"))
    ensures var g := GeneProfile(db, "SLCO1B1", [StarFiveHeterozygous()]);
      && g.diplotype == "SLCO1B1:*5/*1" && g.totalActivityScore == 1.0
      && g.phenotype == "Decreased Function"
      && g.detectedRsids == ["rs4149056"]
      && |g.annotatedVariants| == 1
      && g.annotatedVariants[0].evidenceStrength == "high"
  {
    StarFiveAnnotation(db);
    GeneProfileHeterozygous(db, "SLCO1B1", StarFiveHeterozygous());
    ReferenceSLCO1B1();
    ClassifyUniqueInterval("SLCO1B1", 1.0, 1);
  }

  /** The simvastatin rule applied to the SLCO1B1*5 carrier's gene result. */
  lemma SimvastatinStarFiveRisk(db: AlleleTable)
    requires HasEntry(db, "rs4149056", AlleleRecord("SLCO1B1", "*5", "LOF", 0.0, "high"))
    ensures SimvastatinRules != []
    ensures var r := GeneRisk("simvastatin", SimvastatinRules[0],
                              GeneProfile(db, "SLCO1B1", [StarFiveHeterozygous()]));
      && r.riskLabel == "Adjust Dosage" && r.severity == "moderate" && r.confidenceScore == 0.87
      && r.geneUsed == "SLCO1B1" && r.supportingVariants == ["rs4149056"] && r.evidenceStrength == "high"
  {
    SimvastatinRule();
    StarFiveProfile(db);
    var rules := SimvastatinRules[0];
    var g := GeneProfile(db, "SLCO1B1", [StarFiveHeterozygous()]);
    assert g.phenotype in rules.byPhenotype && rules.byPhenotype[g.phenotype].confidenceBase == 0.85;
    HighEvidenceRisk("simvastatin", rules, g, 870);
  }

  /** "simvastatin" is its own lookup key, and a supported drug. */
  lemma SimvastatinKey()
    ensures Normalise("simvastatin") == "simvastatin"
    ensures IsSupported("simvastatin")
  {
    NormaliseFixedPoint("simvastatin");
  }

  /** Simvastatin for a heterozygous SLCO1B1*5 carrier: adjust the dose, with
      confidence round((0.85 + 0.02) * 1.0, 3). */
  lemma SimvastatinStarFiveHeterozygous(table: RuleTable)
    requires "simvastatin" in table && table["simvastatin"] == SimvastatinRules
    ensures var rep := Answer("simvastatin", table, TargetProfiles([StarFiveHeterozygous()]));
      && rep.riskLabel == "Adjust Dosage" && rep.severity == "moderate" && rep.confidence == 0.87
      && rep.fullResult.Some?
      && rep.fullResult.value.geneUsed == "SLCO1B1"
      && rep.fullResult.value.supportingVariants == ["rs4149056"]
  {
    SimvastatinRule();
    SimvastatinKey();
    StarFiveEntry();
    SimvastatinStarFiveRisk(RsidDatabase);
    DecidedByFirstGene(table, [StarFiveHeterozygous()], "simvastatin", SimvastatinRules);
  }

  /** The same, for the rule table and database predict_risk uses. */
  lemma SimvastatinStarFiveHeterozygousReport()
    ensures var rep := SingleDrug([StarFiveHeterozygous()], "simvastatin");
      && rep.riskLabel == "Adjust Dosage" && rep.severity == "moderate" && rep.confidence == 0.87
  {
    SimvastatinEntry();
    SimvastatinStarFiveHeterozygous(DrugRules);
  }
}
