/** Option type used for the lookups that can miss. */
module Wrappers {
  datatype Option<+T> = None | Some(value: T)
}

/**
 * The fixed reference data of the risk engine: phenotype labels, per-gene
 * default activity totals, the rsID annotation database, the activity-score
 * thresholds per gene, the drug rule tables, the target genes and the
 * supported drugs. All of it is immutable.
 */
module Tables {

  const PoorMetabolizer := "Poor Metabolizer"
  const IntermediateMetabolizer := "Intermediate Metabolizer"
  const NormalMetabolizer := "Normal Metabolizer"
  const RapidMetabolizer := "Rapid Metabolizer"
  const UltrarapidMetabolizer := "Ultrarapid Metabolizer"
  const Indeterminate := "Indeterminate"

  /** A phenotype label that a threshold rule can assign: never "Indeterminate". */
  type Phenotype = p: string | p != "Indeterminate" witness "Normal Metabolizer"

  /** A rule confidence: a value in [0, 1]. */
  type Probability = x: real | 0.0 <= x <= 1.0

  /** The activity one allele contributes: between loss of function (0.0)
      and increased function (2.0). */
  type AlleleActivity = x: real | 0.0 <= x <= 2.0

  /** A diploid activity total: the sum of two allele contributions. */
  type DiploidActivity = x: real | 0.0 <= x <= 4.0

  /** One entry of the rsID database. */
  datatype AlleleRecord = AlleleRecord(
    gene: string, star: string, functionClass: string, activity: AlleleActivity, evidence: string)

  /** A half-open activity-score interval [lo, hi) and the phenotype it assigns. */
  datatype PhenotypeRule = PhenotypeRule(lo: real, hi: real, phenotype: Phenotype)

  /** The threshold rules of one gene, in the order they are tried; never empty. */
  type RuleList = s: seq<PhenotypeRule> | |s| > 0
    witness [PhenotypeRule(0.0, 1.0, "Normal Metabolizer")]

  /** The risk labels a recommendation can carry. */
  type RiskLabel = s: string | s == "Safe" || s == "Adjust Dosage" || s == "Toxic" || s == "Ineffective"
    witness "Safe"

  /** The severities a recommendation can carry. */
  type Severity = s: string | s == "none" || s == "low" || s == "moderate" || s == "high"
    witness "none"

  /** A drug-phenotype recommendation. */
  datatype ClinicalRule = ClinicalRule(
    riskLabel: RiskLabel, severity: Severity, confidenceBase: Probability,
    guideline: string, clinicalAction: string)

  /** The rules one drug has for one gene, keyed by phenotype. */
  datatype GeneRules = GeneRules(gene: string, byPhenotype: map<string, ClinicalRule>)

  /** A drug rule table: for each drug key, its genes and their rules. */
  type RuleTable = map<string, seq<GeneRules>>

  /** An rsID database: identifier to allele record. */
  type AlleleTable = map<string, AlleleRecord>

  const RsidDatabase: AlleleTable := map[
    "rs3892097" := AlleleRecord("CYP2D6", "*4", "LOF", 0.0, "high"),
    "rs35742686" := AlleleRecord("CYP2D6", "*3", "LOF", 0.0, "high"),
    "rs5030655" := AlleleRecord("CYP2D6", "*6", "LOF", 0.0, "high"),
    "rs28371725" := AlleleRecord("CYP2D6", "*41", "DEF", 0.5, "high"),
    "rs1065852" := AlleleRecord("CYP2D6", "*10", "DEF", 0.5, "high"),
    "rs16947" := AlleleRecord("CYP2D6", "*2", "NF", 1.0, "high"),
    "rs1135840" := AlleleRecord("CYP2D6", "*2", "NF", 1.0, "moderate"),
    "rs5030865" := AlleleRecord("CYP2D6", "*8", "LOF", 0.0, "moderate"),
    "rs4244285" := AlleleRecord("CYP2C19", "*2", "LOF", 0.0, "high"),
    "rs4986893" := AlleleRecord("CYP2C19", "*3", "LOF", 0.0, "high"),
    "rs28399504" := AlleleRecord("CYP2C19", "*4", "LOF", 0.0, "moderate"),
    "rs56337013" := AlleleRecord("CYP2C19", "*5", "LOF", 0.0, "moderate"),
    "rs12248560" := AlleleRecord("CYP2C19", "*17", "INF", 1.0, "high"),
    "rs41291556" := AlleleRecord("CYP2C19", "*17", "INF", 1.0, "moderate"),
    "rs1799853" := AlleleRecord("CYP2C9", "*2", "DEF", 0.5, "high"),
    "rs1057910" := AlleleRecord("CYP2C9", "*3", "LOF", 0.0, "high"),
    "rs28371686" := AlleleRecord("CYP2C9", "*5", "LOF", 0.0, "moderate"),
    "rs9332131" := AlleleRecord("CYP2C9", "*6", "LOF", 0.0, "moderate"),
    "rs7900194" := AlleleRecord("CYP2C9", "*8", "DEF", 0.5, "moderate"),
    "rs9923231" := AlleleRecord("VKORC1", "-1639G>A", "BS", 0.0, "high"),
    "rs4149056" := AlleleRecord("SLCO1B1", "*5", "LOF", 0.0, "high"),
    "rs2306283" := AlleleRecord("SLCO1B1", "*1B", "NF", 1.0, "moderate"),
    "rs11045819" := AlleleRecord("SLCO1B1", "*15", "LOF", 0.0, "moderate"),
    "rs4363657" := AlleleRecord("SLCO1B1", "*5", "LOF", 0.0, "high"),
    "rs1142345" := AlleleRecord("TPMT", "*3C", "LOF", 0.0, "high"),
    "rs1800460" := AlleleRecord("TPMT", "*3B", "LOF", 0.0, "high"),
    "rs1800462" := AlleleRecord("TPMT", "*2", "LOF", 0.0, "high"),
    "rs1800584" := AlleleRecord("TPMT", "*4", "LOF", 0.0, "moderate"),
    "rs3918290" := AlleleRecord("DPYD", "*2A", "LOF", 0.0, "high"),
    "rs55886062" := AlleleRecord("DPYD", "*13", "LOF", 0.0, "high"),
    "rs67376798" := AlleleRecord("DPYD", "HapB3", "DEF", 0.5, "high"),
    "rs75017182" := AlleleRecord("DPYD", "HapB3", "DEF", 0.5, "moderate")
  ]

  const GenePhenotypeRules: map<string, RuleList> := map[
    "CYP2D6" := [
      PhenotypeRule(0.0, 0.01, PoorMetabolizer),
      PhenotypeRule(0.01, 1.25, IntermediateMetabolizer),
      PhenotypeRule(1.25, 2.25, NormalMetabolizer),
      PhenotypeRule(2.25, 99.0, UltrarapidMetabolizer)
    ],
    "CYP2C19" := [
      PhenotypeRule(0.0, 0.01, PoorMetabolizer),
      PhenotypeRule(0.01, 0.9, IntermediateMetabolizer),
      PhenotypeRule(0.9, 1.25, NormalMetabolizer),
      PhenotypeRule(1.25, 1.75, RapidMetabolizer),
      PhenotypeRule(1.75, 99.0, UltrarapidMetabolizer)
    ],
    "CYP2C9" := [
      PhenotypeRule(0.0, 0.01, PoorMetabolizer),
      PhenotypeRule(0.01, 1.5, IntermediateMetabolizer),
      PhenotypeRule(1.5, 99.0, NormalMetabolizer)
    ],
    "SLCO1B1" := [
      PhenotypeRule(0.0, 0.5, "Poor Function"),
      PhenotypeRule(0.5, 1.5, "Decreased Function"),
      PhenotypeRule(1.5, 99.0, "Normal Function")
    ],
    "TPMT" := [
      PhenotypeRule(0.0, 0.5, PoorMetabolizer),
      PhenotypeRule(0.5, 1.5, IntermediateMetabolizer),
      PhenotypeRule(1.5, 99.0, NormalMetabolizer)
    ],
    "DPYD" := [
      PhenotypeRule(0.0, 0.5, PoorMetabolizer),
      PhenotypeRule(0.5, 1.75, IntermediateMetabolizer),
      PhenotypeRule(1.75, 99.0, NormalMetabolizer)
    ]
  ]

  /** The rules of each drug, in the order its genes are tried. */
  const CodeineRules: seq<GeneRules> := [
    GeneRules("CYP2D6", map[
      PoorMetabolizer := ClinicalRule("Ineffective", "high", 0.95, "CPIC Codeine (2021)", "Avoid codeine. Risk of no analgesia. Use non-opioid or non-CYP2D6 opioid."),
      IntermediateMetabolizer := ClinicalRule("Adjust Dosage", "moderate", 0.85, "CPIC Codeine (2021)", "Use lowest effective dose with caution. Monitor for reduced efficacy."),
      NormalMetabolizer := ClinicalRule("Safe", "none", 0.9, "CPIC Codeine (2021)", "Standard dosing."),
      RapidMetabolizer := ClinicalRule("Safe", "low", 0.85, "CPIC Codeine (2021)", "Standard dosing. Monitor side effects."),
      UltrarapidMetabolizer := ClinicalRule("Toxic", "high", 0.95, "CPIC Codeine (2021)", "Avoid. Risk of life-threatening toxicity (excess morphine).")
    ])
  ]

  const TramadolRules: seq<GeneRules> := [
    GeneRules("CYP2D6", map[
      PoorMetabolizer := ClinicalRule("Ineffective", "high", 0.95, "CPIC Tramadol (2021)", "Avoid. Use alternative analgesic."),
      IntermediateMetabolizer := ClinicalRule("Adjust Dosage", "moderate", 0.8, "CPIC Tramadol (2021)", "Use with caution; reduced efficacy possible."),
      NormalMetabolizer := ClinicalRule("Safe", "none", 0.9, "CPIC Tramadol (2021)", "Standard dosing."),
      UltrarapidMetabolizer := ClinicalRule("Toxic", "high", 0.95, "CPIC Tramadol (2021)", "Avoid. Risk of serious adverse events.")
    ])
  ]

  const AmitriptylineRules: seq<GeneRules> := [
    GeneRules("CYP2D6", map[
      PoorMetabolizer := ClinicalRule("Toxic", "high", 0.9, "CPIC TCA Guideline", "Avoid TCA or reduce dose by 50%. Consider alternative."),
      IntermediateMetabolizer := ClinicalRule("Adjust Dosage", "moderate", 0.8, "CPIC TCA Guideline", "Consider 25% dose reduction. Monitor drug levels."),
      NormalMetabolizer := ClinicalRule("Safe", "none", 0.9, "CPIC TCA Guideline", "Standard dosing."),
      UltrarapidMetabolizer := ClinicalRule("Ineffective", "moderate", 0.85, "CPIC TCA Guideline", "Avoid TCA or increase dose with monitoring.")
    ]),
    GeneRules("CYP2C19", map[
      PoorMetabolizer := ClinicalRule("Toxic", "high", 0.9, "CPIC TCA Guideline", "Avoid or reduce dose by 50%. Monitor levels."),
      IntermediateMetabolizer := ClinicalRule("Adjust Dosage", "moderate", 0.8, "CPIC TCA Guideline", "Reduce starting dose by 25%. Monitor."),
      NormalMetabolizer := ClinicalRule("Safe", "none", 0.9, "CPIC TCA Guideline", "Standard dosing."),
      RapidMetabolizer := ClinicalRule("Ineffective", "low", 0.8, "CPIC TCA Guideline", "Consider dose titration. Monitor for reduced efficacy."),
      UltrarapidMetabolizer := ClinicalRule("Ineffective", "moderate", 0.85, "CPIC TCA Guideline", "Consider dose titration. Monitor for reduced efficacy.")
    ])
  ]

  const NortriptylineRules: seq<GeneRules> := [
    GeneRules("CYP2D6", map[
      PoorMetabolizer := ClinicalRule("Toxic", "high", 0.9, "CPIC TCA Guideline", "Avoid TCA or reduce dose by 50%. Consider alternative."),
      IntermediateMetabolizer := ClinicalRule("Adjust Dosage", "moderate", 0.8, "CPIC TCA Guideline", "Consider 25% dose reduction. Monitor drug levels."),
      NormalMetabolizer := ClinicalRule("Safe", "none", 0.9, "CPIC TCA Guideline", "Standard dosing."),
      UltrarapidMetabolizer := ClinicalRule("Ineffective", "moderate", 0.85, "CPIC TCA Guideline", "Avoid TCA or increase dose with monitoring.")
    ])
  ]

  const OndansetronRules: seq<GeneRules> := [
    GeneRules("CYP2D6", map[
      PoorMetabolizer := ClinicalRule("Ineffective", "moderate", 0.85, "CPIC Antiemetics", "Use alternative antiemetic (e.g., granisetron). Standard dose may be ineffective."),
      IntermediateMetabolizer := ClinicalRule("Adjust Dosage", "low", 0.75, "CPIC Antiemetics", "Use with caution; may have reduced efficacy."),
      NormalMetabolizer := ClinicalRule("Safe", "none", 0.9, "CPIC Antiemetics", "Standard dosing."),
      UltrarapidMetabolizer := ClinicalRule("Safe", "none", 0.8, "CPIC Antiemetics", "Standard dosing.")
    ])
  ]

  const TamoxifenRules: seq<GeneRules> := [
    GeneRules("CYP2D6", map[
      PoorMetabolizer := ClinicalRule("Ineffective", "high", 0.95, "CPIC Tamoxifen", "Avoid if possible. Inadequate active metabolite. Recommend alternative (e.g. aromatase inhibitor)."),
      IntermediateMetabolizer := ClinicalRule("Adjust Dosage", "moderate", 0.85, "CPIC Tamoxifen", "Consider higher dose (40mg/day) or alternative. Monitor endoxifen."),
      NormalMetabolizer := ClinicalRule("Safe", "none", 0.9, "CPIC Tamoxifen", "Standard 20 mg/day dosing."),
      UltrarapidMetabolizer := ClinicalRule("Safe", "none", 0.85, "CPIC Tamoxifen", "Standard 20 mg/day dosing.")
    ])
  ]

  const AtomoxetineRules: seq<GeneRules> := [
    GeneRules("CYP2D6", map[
      PoorMetabolizer := ClinicalRule("Toxic", "moderate", 0.9, "CPIC Atomoxetine", "Initiate at 50% of normal dose; titrate slowly. Increased exposure risk."),
      IntermediateMetabolizer := ClinicalRule("Adjust Dosage", "low", 0.8, "CPIC Atomoxetine", "Standard starting dose with close monitoring."),
      NormalMetabolizer := ClinicalRule("Safe", "none", 0.9, "CPIC Atomoxetine", "Standard dosing."),
      UltrarapidMetabolizer := ClinicalRule("Ineffective", "low", 0.75, "CPIC Atomoxetine", "Standard dosing (limited data).")
    ])
  ]

  const HaloperidolRules: seq<GeneRules> := [
    GeneRules("CYP2D6", map[
      PoorMetabolizer := ClinicalRule("Toxic", "high", 0.85, "CPIC Antipsychotics (Level B)", "Use lowest effective dose; high risk of ADRs. Consider alternatives."),
      IntermediateMetabolizer := ClinicalRule("Adjust Dosage", "moderate", 0.75, "CPIC Antipsychotics", "Monitor carefully; consider dose reduction."),
      NormalMetabolizer := ClinicalRule("Safe", "none", 0.9, "CPIC Antipsychotics", "Standard dosing."),
      UltrarapidMetabolizer := ClinicalRule("Ineffective", "moderate", 0.8, "CPIC Antipsychotics", "May need higher doses; monitor for reduced efficacy.")
    ])
  ]

  const ClopidogrelRules: seq<GeneRules> := [
    GeneRules("CYP2C19", map[
      PoorMetabolizer := ClinicalRule("Ineffective", "high", 0.95, "CPIC Clopidogrel", "Avoid. Minimal antiplatelet effect. Use prasugrel or ticagrelor."),
      IntermediateMetabolizer := ClinicalRule("Ineffective", "moderate", 0.85, "CPIC Clopidogrel", "Use with caution; consider alternative. If used, consider higher dose."),
      NormalMetabolizer := ClinicalRule("Safe", "none", 0.9, "CPIC Clopidogrel", "Standard 75 mg/day."),
      RapidMetabolizer := ClinicalRule("Safe", "none", 0.85, "CPIC Clopidogrel", "Standard dosing."),
      UltrarapidMetabolizer := ClinicalRule("Safe", "none", 0.85, "CPIC Clopidogrel", "Standard dosing.")
    ])
  ]

  const VoriconazoleRules: seq<GeneRules> := [
    GeneRules("CYP2C19", map[
      PoorMetabolizer := ClinicalRule("Toxic", "high", 0.9, "CPIC Voriconazole", "High exposure; reduce dose and monitor levels. Risk of ADRs."),
      IntermediateMetabolizer := ClinicalRule("Adjust Dosage", "moderate", 0.8, "CPIC Voriconazole", "Monitor trough levels; may need dose reduction."),
      NormalMetabolizer := ClinicalRule("Safe", "none", 0.9, "CPIC Voriconazole", "Standard dosing with TDM."),
      RapidMetabolizer := ClinicalRule("Ineffective", "high", 0.9, "CPIC Voriconazole", "Significantly reduced exposure; ineffective. Use alternative antifungal."),
      UltrarapidMetabolizer := ClinicalRule("Ineffective", "high", 0.95, "CPIC Voriconazole", "Significantly reduced exposure; ineffective. Use alternative antifungal.")
    ])
  ]

  const CitalopramRules: seq<GeneRules> := [
    GeneRules("CYP2C19", map[
      PoorMetabolizer := ClinicalRule("Toxic", "moderate", 0.9, "CPIC SSRIs", "Reduce dose by 50% (max 20mg/day). Increased QT risk."),
      IntermediateMetabolizer := ClinicalRule("Adjust Dosage", "low", 0.8, "CPIC SSRIs", "Use lowest effective dose; monitor QT."),
      NormalMetabolizer := ClinicalRule("Safe", "none", 0.9, "CPIC SSRIs", "Standard dosing."),
      RapidMetabolizer := ClinicalRule("Ineffective", "low", 0.8, "CPIC SSRIs", "Standard dosing (consider alternative if no response)."),
      UltrarapidMetabolizer := ClinicalRule("Ineffective", "low", 0.8, "CPIC SSRIs", "Standard dosing (consider alternative if no response).")
    ])
  ]

  const EscitalopramRules: seq<GeneRules> := [
    GeneRules("CYP2C19", map[
      PoorMetabolizer := ClinicalRule("Toxic", "moderate", 0.9, "CPIC SSRIs", "Reduce dose by 50% (max 10mg/day). Increased QT risk."),
      IntermediateMetabolizer := ClinicalRule("Adjust Dosage", "low", 0.8, "CPIC SSRIs", "Use lowest effective dose; monitor QT."),
      NormalMetabolizer := ClinicalRule("Safe", "none", 0.9, "CPIC SSRIs", "Standard dosing."),
      RapidMetabolizer := ClinicalRule("Ineffective", "low", 0.8, "CPIC SSRIs", "Standard dosing (consider alternative if no response)."),
      UltrarapidMetabolizer := ClinicalRule("Ineffective", "low", 0.8, "CPIC SSRIs", "Standard dosing (consider alternative if no response).")
    ])
  ]

  const OmeprazoleRules: seq<GeneRules> := [
    GeneRules("CYP2C19", map[
      PoorMetabolizer := ClinicalRule("Toxic", "moderate", 0.85, "CPIC PPIs", "Initiate at 50% of standard dose. Monitor for ADRs (increased exposure)."),
      IntermediateMetabolizer := ClinicalRule("Adjust Dosage", "low", 0.8, "CPIC PPIs", "Consider dose reduction; start at lower end."),
      NormalMetabolizer := ClinicalRule("Safe", "none", 0.9, "CPIC PPIs", "Standard dosing."),
      RapidMetabolizer := ClinicalRule("Ineffective", "moderate", 0.85, "CPIC PPIs", "Consider doubling dose for H. pylori or erosive esophagitis."),
      UltrarapidMetabolizer := ClinicalRule("Ineffective", "moderate", 0.85, "CPIC PPIs", "Consider doubling dose for H. pylori or erosive esophagitis.")
    ])
  ]

  const WarfarinRules: seq<GeneRules> := [
    GeneRules("CYP2C9", map[
      PoorMetabolizer := ClinicalRule("Toxic", "high", 0.95, "CPIC Warfarin", "Start at significantly reduced dose (~5-6 mg/week). Very slow titration. High bleeding risk. Check VKORC1."),
      IntermediateMetabolizer := ClinicalRule("Adjust Dosage", "moderate", 0.88, "CPIC Warfarin", "Reduce starting dose by 25-50%. Close INR monitoring. Check VKORC1 status."),
      NormalMetabolizer := ClinicalRule("Safe", "none", 0.9, "CPIC Warfarin", "Standard dosing. Consider VKORC1 genotype for fine-tuning.")
    ])
  ]

  const CelecoxibRules: seq<GeneRules> := [
    GeneRules("CYP2C9", map[
      PoorMetabolizer := ClinicalRule("Toxic", "moderate", 0.9, "CPIC NSAIDs", "Reduce starting dose by 25-50%. Use lowest effective dose."),
      IntermediateMetabolizer := ClinicalRule("Adjust Dosage", "low", 0.8, "CPIC NSAIDs", "Consider 25% dose reduction. Monitor."),
      NormalMetabolizer := ClinicalRule("Safe", "none", 0.9, "CPIC NSAIDs", "Standard dosing.")
    ])
  ]

  const PhenytoinRules: seq<GeneRules> := [
    GeneRules("CYP2C9", map[
      PoorMetabolizer := ClinicalRule("Toxic", "high", 0.95, "CPIC Phenytoin", "Reduce dose by 25-50%. Monitor levels. Risk of toxicity."),
      IntermediateMetabolizer := ClinicalRule("Adjust Dosage", "moderate", 0.85, "CPIC Phenytoin", "Consider 25% reduction. Monitor."),
      NormalMetabolizer := ClinicalRule("Safe", "none", 0.9, "CPIC Phenytoin", "Standard dosing.")
    ])
  ]

  const SiponimodRules: seq<GeneRules> := [
    GeneRules("CYP2C9", map[
      PoorMetabolizer := ClinicalRule("Toxic", "high", 0.95, "CPIC Siponimod", "Contraindicated; avoid use."),
      IntermediateMetabolizer := ClinicalRule("Adjust Dosage", "moderate", 0.9, "CPIC Siponimod", "Use 1 mg/day maintenance (vs 2 mg)."),
      NormalMetabolizer := ClinicalRule("Safe", "none", 0.95, "CPIC Siponimod", "Standard 2 mg/day.")
    ])
  ]

  const SimvastatinRules: seq<GeneRules> := [
    GeneRules("SLCO1B1", map[
      "Poor Function" := ClinicalRule("Toxic", "high", 0.95, "CPIC Statins", "Avoid. High myopathy risk. Use alternative (rosuvastatin, pravastatin)."),
      "Decreased Function" := ClinicalRule("Adjust Dosage", "moderate", 0.85, "CPIC Statins", "Use max 20 mg/day. If higher needed, use alternative."),
      "Normal Function" := ClinicalRule("Safe", "none", 0.95, "CPIC Statins", "Standard dosing (max 40 mg/day).")
    ])
  ]

  const AtorvastatinRules: seq<GeneRules> := [
    GeneRules("SLCO1B1", map[
      "Poor Function" := ClinicalRule("Adjust Dosage", "moderate", 0.85, "CPIC Statins", "Avoid or use lowest possible dose. Use alternative."),
      "Decreased Function" := ClinicalRule("Safe", "low", 0.8, "CPIC Statins", "Use max 40 mg/day. Monitor for myopathy."),
      "Normal Function" := ClinicalRule("Safe", "none", 0.9, "CPIC Statins", "Standard dosing.")
    ])
  ]

  const RosuvastatinRules: seq<GeneRules> := [
    GeneRules("SLCO1B1", map[
      "Poor Function" := ClinicalRule("Adjust Dosage", "moderate", 0.85, "CPIC Statins", "Avoid or use max 20 mg/day. Use alternative."),
      "Decreased Function" := ClinicalRule("Safe", "low", 0.8, "CPIC Statins", "Use max 20 mg/day."),
      "Normal Function" := ClinicalRule("Safe", "none", 0.9, "CPIC Statins", "Standard dosing.")
    ])
  ]

  const AzathioprineRules: seq<GeneRules> := [
    GeneRules("TPMT", map[
      PoorMetabolizer := ClinicalRule("Toxic", "high", 0.98, "CPIC Thiopurines", "Reduce dose 10-fold or avoid. Risk of life-threatening myelosuppression."),
      IntermediateMetabolizer := ClinicalRule("Adjust Dosage", "moderate", 0.9, "CPIC Thiopurines", "Start at 30-70% full dose. Titrate based on toxicity/efficacy. Monitor CBC."),
      NormalMetabolizer := ClinicalRule("Safe", "none", 0.95, "CPIC Thiopurines", "Standard dosing (2-3 mg/kg/day).")
    ])
  ]

  const MercaptopurineRules: seq<GeneRules> := [
    GeneRules("TPMT", map[
      PoorMetabolizer := ClinicalRule("Toxic", "high", 0.98, "CPIC Thiopurines", "Reduce dose to 10% of normal. Titrate cautiously."),
      IntermediateMetabolizer := ClinicalRule("Adjust Dosage", "moderate", 0.9, "CPIC Thiopurines", "Start at 30-80% standard dose. Monitor CBC."),
      NormalMetabolizer := ClinicalRule("Safe", "none", 0.95, "CPIC Thiopurines", "Standard dosing.")
    ])
  ]

  const ThioguanineRules: seq<GeneRules> := [
    GeneRules("TPMT", map[
      PoorMetabolizer := ClinicalRule("Toxic", "high", 0.98, "CPIC Thiopurines", "Reduce dose to 10% of standard. Risk of fatal myelosuppression."),
      IntermediateMetabolizer := ClinicalRule("Adjust Dosage", "moderate", 0.9, "CPIC Thiopurines", "Start at 30-50% of normal dose."),
      NormalMetabolizer := ClinicalRule("Safe", "none", 0.95, "CPIC Thiopurines", "Standard dosing.")
    ])
  ]

  const FluorouracilRules: seq<GeneRules> := [
    GeneRules("DPYD", map[
      PoorMetabolizer := ClinicalRule("Toxic", "high", 0.98, "CPIC Fluoropyrimidines", "Avoid. Fatal toxicity risk. If no alt, use extreme caution."),
      IntermediateMetabolizer := ClinicalRule("Adjust Dosage", "high", 0.9, "CPIC Fluoropyrimidines", "Reduce starting dose by 50%. Monitor closely."),
      NormalMetabolizer := ClinicalRule("Safe", "none", 0.9, "CPIC Fluoropyrimidines", "Standard dosing.")
    ])
  ]

  const CapecitabineRules: seq<GeneRules> := [
    GeneRules("DPYD", map[
      PoorMetabolizer := ClinicalRule("Toxic", "high", 0.98, "CPIC Fluoropyrimidines", "Avoid. Fatal toxicity risk."),
      IntermediateMetabolizer := ClinicalRule("Adjust Dosage", "high", 0.9, "CPIC Fluoropyrimidines", "Reduce starting dose by 50%. Monitor closely."),
      NormalMetabolizer := ClinicalRule("Safe", "none", 0.9, "CPIC Fluoropyrimidines", "Standard dosing.")
    ])
  ]

  /** The drug rule table, keyed by normalised drug name. */
  const DrugRules: RuleTable := map[
    "codeine" := CodeineRules,
    "tramadol" := TramadolRules,
    "amitriptyline" := AmitriptylineRules,
    "nortriptyline" := NortriptylineRules,
    "ondansetron" := OndansetronRules,
    "tamoxifen" := TamoxifenRules,
    "atomoxetine" := AtomoxetineRules,
    "haloperidol" := HaloperidolRules,
    "clopidogrel" := ClopidogrelRules,
    "voriconazole" := VoriconazoleRules,
    "citalopram" := CitalopramRules,
    "escitalopram" := EscitalopramRules,
    "omeprazole" := OmeprazoleRules,
    "warfarin" := WarfarinRules,
    "celecoxib" := CelecoxibRules,
    "phenytoin" := PhenytoinRules,
    "siponimod" := SiponimodRules,
    "simvastatin" := SimvastatinRules,
    "atorvastatin" := AtorvastatinRules,
    "rosuvastatin" := RosuvastatinRules,
    "azathioprine" := AzathioprineRules,
    "mercaptopurine" := MercaptopurineRules,
    "thioguanine" := ThioguanineRules,
    "fluorouracil" := FluorouracilRules,
    "capecitabine" := CapecitabineRules
  ]

  const DefaultActivityScores: map<string, DiploidActivity> := map["CYP2D6" := 2.0, "CYP2C19" := 1.0, "CYP2C9" := 2.0, "SLCO1B1" := 2.0, "TPMT" := 2.0, "DPYD" := 2.0]

  const TargetGenes: seq<string> := ["CYP2D6", "CYP2C19", "CYP2C9", "SLCO1B1", "TPMT", "DPYD"]

  const SupportedDrugs: seq<string> := [
    "codeine",
    "tramadol",
    "amitriptyline",
    "nortriptyline",
    "ondansetron",
    "tamoxifen",
    "atomoxetine",
    "haloperidol",
    "clopidogrel",
    "voriconazole",
    "citalopram",
    "escitalopram",
    "omeprazole",
    "warfarin",
    "celecoxib",
    "phenytoin",
    "siponimod",
    "simvastatin",
    "atorvastatin",
    "rosuvastatin",
    "azathioprine",
    "mercaptopurine",
    "thioguanine",
    "fluorouracil",
    "capecitabine"
  ]

}
