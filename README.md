# PharmaGuard risk engine, modelled in Dafny

This project models the pharmacogenomic risk pipeline of PharmaGuard
(`backend/risk_engine.py`) and proves properties of it. The pipeline has
these stages:

- **Annotation.** Variant records, as the VCF parser produces them, are
  looked up in the rsID database by the first listed identifier the
  database knows.
- **Diploid gene analysis.** Each target gene gets two allele slots, filled
  from the first two allele doses found. A homozygous call counts twice,
  and empty slots take the reference allele. The total activity score is
  classified into a metabolizer phenotype against half-open intervals.
- **Drug-name normalisation.**
- **Drug risk resolution.** The drug's genes are walked in the rule
  table's order, and the first gene with a usable phenotype decides the
  risk label, severity, clinical action and confidence.
- **The public entry points.**
  - `predict_risk` handles a single drug. It answers "Unknown" at once for
    an unsupported drug.
  - `predict_multi_drug` checks the requested drugs against the supported
    list, analyses the six target genes once, predicts each supported drug
    in request order and appends a stub for each skipped drug.

Modules, one per stage:

| module | content |
|---|---|
| `Tables` | The constant tables: phenotype labels, `DEFAULT_ACTIVITY_SCORES`, `RSID_DATABASE`, `GENE_PHENOTYPE_RULES`, `DRUG_RULES` (all 25 drugs with every rule's base confidence, guideline and clinical-action text), `TARGET_GENES`, `SUPPORTED_DRUGS`. |
| `DrugNames` | `_normalise_drug`: `str.strip()` (the full `str.isspace` set), lower-casing, then removing hyphens and then spaces. |
| `Annotation` | The variant record, the `VariantAnnotation` record, and `_annotate_variant`, both as a function and as the source's first-hit loop. |
| `Phenotype` | `_classify_phenotype` and the shape of the threshold table. |
| `Diplotype` | `_build_diplotype_label`, with Python's string order for `sorted(set(...))`. |
| `Confidence` | `_evidence_strength_factor`, `_compute_confidence` with `round(x, 3)`, and the evidence strength a drug result reports. |
| `GeneAnalysis` | `GeneResult` and `analyse_gene`: the collecting loop, the two slot-filling loops and the diplotype override, proved against the function `GeneProfile`. |
| `RiskPrediction` | `DrugRiskResult` and `predict_drug_risk`: the unknown-drug answer, the gene loop with `continue` and early `return`, the synthesised default rule, and the insufficient-data answer. |
| `Pipeline` | `predict_risk` and `predict_multi_drug`: the validation loop, the gene-analysis loop and the two result loops, each proved against a function. |
| `Scenarios` | Worked cases through the whole pipeline. Warfarin without variants gives "Safe" with confidence 0.459. Codeine for a CYP2D6*4 homozygote gives "Ineffective" with 0.99. Simvastatin for a heterozygous SLCO1B1*5 carrier gives "Adjust Dosage" with 0.87. |

The loops of the source are methods with loop invariants, each proved equal
to a specification function:

- `AnnotateVariant` to `Annotate`;
- `CollectDoses`, `FillSlots`, `Summarise` and `AnalyseGene` to
  `GeneProfile`;
- `ScanGeneRules` and `PredictDrugRisk` to `RiskFromRules` and
  `TableRisk`;
- `AnalyseGenes`, `SplitRequest`, `PredictAll`, `PredictRisk` and
  `PredictMultiDrug` to `Profiles`, `Filter`, `Predictions`/`Stubs`,
  `SingleDrug` and `MultiDrug`.

The lemmas state the properties of those functions.

Most of the proofs take the two big tables as parameters:

- `table`, a `RuleTable`, stands for `DRUG_RULES`;
- `db`, an `AlleleTable`, stands for `RSID_DATABASE`.

The entry points `PredictRisk`, `PredictMultiDrug`, `SingleDrug` and
`MultiDrug` pass the real tables, and the `Scenarios` lemmas ending in
`Report` instantiate the general results with them.

Three behaviours of the code that are easy to misread, and that the model
keeps:

- `SUPPORTED_DRUGS` (lines 773-787) lists 25 drugs.
- Any genotype that is not homozygous contributes one dose, and a missing
  genotype is read as "0/1". A reference call such as "0/0" therefore also
  contributes one dose (lines 560-566).
- The reported `evidence_strength` is the evidence of the strongest kept
  allele, the first of least rank (lines 715-719). The confidence factor
  uses the weakest (lines 482-490).

## Model

| member | source | states |
|---|---|---|
| DrugNames.Strip | backend/risk_engine.py:423 | The stripped name is the slice of the name between a leading and a trailing run of whitespace, and it neither starts nor ends with whitespace. |
| DrugNames.TrimLeadingSuffix | backend/risk_engine.py:423 | Leading stripping keeps a suffix not starting with whitespace and drops only whitespace. |
| DrugNames.TrimTrailingPrefix | backend/risk_engine.py:423 | Trailing stripping keeps a prefix not ending with whitespace and drops only whitespace. |
| DrugNames.LowerChar | backend/risk_engine.py:423 | An upper-case ASCII letter becomes the letter 32 code points up, a lower-case letter; every other character is unchanged. |
| DrugNames.Lower | backend/risk_engine.py:423 | Lower-casing keeps the length and lowers each character in place. |
| DrugNames.RemoveAll | backend/risk_engine.py:423 | Removing a character leaves none of it, adds no character, and changes nothing when it is absent. |
| DrugNames.RemoveAllMultiset | backend/risk_engine.py:423 | Removal drops every copy of the character and keeps every other character as often as it occurs. |
| DrugNames.RemoveAllAppend | backend/risk_engine.py:423 | Removal keeps the order of what remains: removing from a concatenation concatenates the removals. |
| DrugNames.Normalise | backend/risk_engine.py:421-423 | The key has no space, no hyphen and no upper-case letter. |
| DrugNames.NormaliseFixedPoint | backend/risk_engine.py:421-423 | A name that is already a clean key normalises to itself. |
| DrugNames.NormaliseIdempotent | backend/risk_engine.py:421-423 | Normalising twice equals normalising once, for names whose only whitespace is the space. |
| DrugNames.NormaliseHyphenTab | backend/risk_engine.py:423 | "-\t" + k normalises to "\t" + k: the hyphen shields the tab from stripping. |
| DrugNames.NormaliseTab | backend/risk_engine.py:423 | "\t" + k normalises to k. |
| DrugNames.NormaliseNotIdempotent | backend/risk_engine.py:421-423 | For every clean key k, the first pass on "-\t" + k gives "\t" + k, which differs from k, and the second pass gives k. |
| DrugNames.NormaliseWarfarin | backend/risk_engine.py:421-423 | "Warfarin " and "warfarin" have the same key, "warfarin". |
| Annotation.FirstKnown | backend/risk_engine.py:437-438 | None exactly when no listed identifier is non-empty and in the database; otherwise the index of the first that is. |
| Annotation.Annotate | backend/risk_engine.py:426-452 | None exactly when the rsid field is falsy or no listed identifier is known; otherwise the annotation of the first known identifier, carrying that database entry's gene, star, function, activity and evidence unchanged and the record's position. |
| Annotation.AnnotateVariant | backend/risk_engine.py:426-452 | The first-hit loop with early return computes Annotate. |
| Phenotype.MatchIndex | backend/risk_engine.py:461-466 | The index of the first interval containing the score, or the last index when none does. |
| Phenotype.ClassifyPhenotype | backend/risk_engine.py:455-466 | "Indeterminate" exactly when the gene has no thresholds; otherwise the phenotype of the first interval with lo <= score < hi, and the last rule's phenotype when none contains the score. |
| Phenotype.ContiguousOrdered | backend/risk_engine.py:120-154 | In a contiguous threshold list an earlier interval lies wholly below a later one. |
| Phenotype.ContiguousCovers | backend/risk_engine.py:120-154 | A contiguous threshold list covers every score between its first lower and last upper bound. |
| Phenotype.GenePhenotypeRulesContiguous | backend/risk_engine.py:120-154 | Every gene's thresholds are contiguous, start at 0.0 and end at 99.0. |
| Phenotype.ClassifyCovered | backend/risk_engine.py:455-466 | For a gene with thresholds, every score in [0, 99) lies in some interval, so the fallback is never used there. |
| Phenotype.ClassifyUniqueInterval | backend/risk_engine.py:455-466 | The interval containing a score is the only one that does, and the classification is its phenotype. |
| Diplotype.StrLessIrreflexive | backend/risk_engine.py:474 | Python string order is irreflexive. |
| Diplotype.StrLessAsymmetric | backend/risk_engine.py:474 | Python string order is asymmetric. |
| Diplotype.StrLessTotal | backend/risk_engine.py:474 | Python string order is total on distinct strings. |
| Diplotype.StrLessTransitive | backend/risk_engine.py:474 | Python string order is transitive. |
| Diplotype.MinStr | backend/risk_engine.py:474 | The least element of a non-empty list, below all others. |
| Diplotype.StrLessTotalOrEqual | backend/risk_engine.py:474 | A string not above another is equal to it or below it. |
| Diplotype.Without | backend/risk_engine.py:474 | The list with every copy of one string removed and nothing else. |
| Diplotype.Stars | backend/risk_engine.py:474 | The star-allele names of the alleles, in order. |
| Diplotype.BuildDiplotypeLabel | backend/risk_engine.py:469-479 | No alleles give the "(reference assumed)" label; one allele gives gene:s/s; two alleles give gene:s/s when their stars are equal and gene:min/max otherwise. |
| Diplotype.TwoStars | backend/risk_engine.py:474-479 | For two stars, the sorted distinct list is [min, max], or the single star when they are equal. |
| Diplotype.BuildDiplotypeLabelSymmetric | backend/risk_engine.py:469-479 | The label of two alleles does not depend on their order. |
| Confidence.EvidenceWeight | backend/risk_engine.py:489-490 | high weighs 1.0, moderate 0.85, and anything else 0.65. |
| Confidence.MinWeight | backend/risk_engine.py:490 | The weight of some listed allele and no more than any listed allele's weight. |
| Confidence.EvidenceFactor | backend/risk_engine.py:482-490 | 0.6 with no alleles; otherwise the least evidence weight among them, one of 0.65, 0.85 and 1.0. |
| Confidence.Thousandths | backend/risk_engine.py:535 | Definition, no contract: n / 1000. |
| Confidence.Round3 | backend/risk_engine.py:535 | round(x, 3) is a whole number of thousandths within half a thousandth of x. |
| Confidence.Round3Thousandths | backend/risk_engine.py:535 | The rounded value times 1000 is a whole number: no digit beyond the third decimal. |
| Confidence.Round3Monotone | backend/risk_engine.py:535 | Rounding to thousandths is monotone. |
| Confidence.Round3UnitInterval | backend/risk_engine.py:539 | Rounding keeps a value of [0, 1] in [0, 1]. |
| Confidence.VariantBonus | backend/risk_engine.py:537 | The count bonus lies in [0, 0.05] and is n * 0.02 for at most two alleles. |
| Confidence.ComputeConfidence | backend/risk_engine.py:517-539 | The confidence is at most 1.0, and at least 0.0 when the base and factor are non-negative. |
| Confidence.RoundedConfidenceBounds | backend/risk_engine.py:533-539 | The rounded, capped value lies in [0, 1] for a non-negative base and factor, and is at most 1 always. |
| Confidence.InferredPenalty | backend/risk_engine.py:533-535 | In the no-variant branch the value before rounding is at most base * 0.85, and the result at most base * 0.85 + 0.0005. |
| Confidence.InferredBelowObserved | backend/risk_engine.py:533-539 | An inferred call never scores above an observed one with the same base and evidence factor. |
| Confidence.EvidenceRank | backend/risk_engine.py:716-717 | high ranks 0, moderate 1, low 2 (each exactly), and any other strength 3. |
| Confidence.StrongestIndex | backend/risk_engine.py:715-719 | The position min(..., key=rank) picks: of least rank, and before it only alleles of greater rank. |
| Confidence.ReportedEvidence | backend/risk_engine.py:715-719 | "inferred" with no alleles; otherwise the evidence of the first allele of least rank. |
| Confidence.ReportedEvidenceHigh | backend/risk_engine.py:715-719 | One high-evidence allele makes the reported evidence "high", whatever the others are. |
| GeneAnalysis.IsHomozygous | backend/risk_engine.py:561 | Definition, no contract: the genotype contains "1/1", "2/2", or "1/1" written with a bar for the slash. |
| GeneAnalysis.Genotype | backend/risk_engine.py:560 | Definition, no contract: the record's genotype, or "0/1" when it has none. |
| GeneAnalysis.Doses | backend/risk_engine.py:556-566 | A record adds no dose unless it is tagged with the gene and annotates to an allele of that gene; then two copies of its annotation when the genotype is homozygous and one otherwise. |
| GeneAnalysis.DetectedDoses | backend/risk_engine.py:553-566 | Every detected dose belongs to the gene. |
| GeneAnalysis.DetectedFromRecord | backend/risk_engine.py:553-566 | Every detected dose is the annotation of some record tagged with the gene. |
| GeneAnalysis.DetectedDosesSnoc | backend/risk_engine.py:556-566 | Scanning one more record appends exactly its doses. |
| GeneAnalysis.DetectedDosesAppend | backend/risk_engine.py:553-566 | The doses of concatenated record lists are the concatenated doses, in order. |
| GeneAnalysis.DetectedDosesNone | backend/risk_engine.py:553-566 | No record tagged with the gene gives no dose. |
| GeneAnalysis.CollectDoses | backend/risk_engine.py:553-566 | The collecting loop computes DetectedDoses. |
| GeneAnalysis.Kept | backend/risk_engine.py:615 | The kept alleles are a prefix of the detected doses: all of them when fewer than two, else the first two. |
| GeneAnalysis.DiplotypeFor | backend/risk_engine.py:625-632 | Definition, no contract: gene:*1/*1 with no kept allele, gene:s/*1 with one, the built label with two. |
| GeneAnalysis.FillSlots | backend/risk_engine.py:615-623 | The first two doses fill the slots, and the activity is their sum plus one reference allele per empty slot. |
| GeneAnalysis.SlotsSum | backend/risk_engine.py:615-623 | Summing the kept alleles and padding with reference alleles is adding the two slots' activities. |
| GeneAnalysis.ResultFor | backend/risk_engine.py:625-646 | The result holds the kept alleles and their rsIDs in order, the summed slots as total, its classification as phenotype, and the overridden diplotype. |
| GeneAnalysis.Summarise | backend/risk_engine.py:625-646 | Classifying, labelling, overriding the diplotype and listing rsIDs computes ResultFor. |
| GeneAnalysis.GeneProfile | backend/risk_engine.py:546-646 | At most two alleles are kept, they are the first detected doses (all of them when fewer than two), the rsIDs are theirs, the diplotype is DiplotypeFor of them, and the total is the sum of the two slots' activities, an empty slot holding DEFAULT_ACTIVITY_SCORES.get(gene, 2.0) / 2. |
| GeneAnalysis.AnalyseGene | backend/risk_engine.py:546-646 | analyse_gene computes GeneProfile. |
| GeneAnalysis.GeneProfileReference | backend/risk_engine.py:575-630 | With no detected dose (no record for the gene, or none whose rsID the database knows for it), the total is the gene's default total, the diplotype gene:*1/*1, and no rsID is reported. |
| GeneAnalysis.KeptExtraIgnored | backend/risk_engine.py:615-618 | Once two doses are detected, later records do not change the kept alleles. |
| GeneAnalysis.GeneProfileExtraIgnored | backend/risk_engine.py:615-646 | Once two doses are detected, later records do not change the gene result. |
| GeneAnalysis.KeptSingle | backend/risk_engine.py:556-566 | The kept alleles of a single record are its doses. |
| GeneAnalysis.GeneProfileHomozygous | backend/risk_engine.py:556-632 | A single homozygous record of a known allele fills both slots with it: twice its activity, the gene:s/s diplotype and its rsID twice. |
| GeneAnalysis.GeneProfileHeterozygous | backend/risk_engine.py:556-632 | A single heterozygous record fills one slot: its activity plus a reference allele, the gene:s/*1 diplotype and its rsID once. |
| GeneAnalysis.DetectedActivityInRange | backend/risk_engine.py:65-114 | Every detected allele carries its database activity, which lies in [0, 2]. |
| GeneAnalysis.GeneProfileScoreRange | backend/risk_engine.py:615-623 | The total activity of a gene lies in [0, 4]. |
| GeneAnalysis.DiplotypeForSymmetric | backend/risk_engine.py:625-632 | The diplotype of two kept alleles does not depend on which was found first. |
| RiskPrediction.FirstQualifying | backend/risk_engine.py:680-689 | None exactly when no rule gene has a result with a phenotype other than Indeterminate; otherwise the first gene that does. |
| RiskPrediction.FirstQualifyingIs | backend/risk_engine.py:680-689 | A qualifying gene with none qualifying before it is the one found. |
| RiskPrediction.UnknownDrugResult | backend/risk_engine.py:660-677 | Definition, no contract: "Unknown", "unknown", gene and guideline "N/A", Indeterminate, confidence 0.0, no rsIDs, evidence "none". |
| RiskPrediction.InsufficientDataResult | backend/risk_engine.py:746-765 | Definition, no contract: "Unknown", "unknown", gene and guideline "N/A", Indeterminate, confidence 0.40, no rsIDs, evidence "none". |
| RiskPrediction.DefaultRule | backend/risk_engine.py:692-703 | Definition, no contract: the synthesised "Safe"/"none" rule with base 0.70 and no specific CPIC guidance. |
| RiskPrediction.RuleFor | backend/risk_engine.py:691-703 | A phenotype the gene's rules list gets its rule; any other gets a "Safe", "none" rule with base 0.70 and guideline "No specific CPIC guidance". |
| RiskPrediction.RuleIsKnownLabel | backend/risk_engine.py:159-372 | No recommendation of the rule table carries the "Unknown" label or "unknown" severity. |
| RiskPrediction.GeneRisk | backend/risk_engine.py:691-743 | The qualifying gene's result: the phenotype's rule, or the synthesised "Safe"/"none" rule with no CPIC guidance; the gene's rsIDs; the strongest evidence; a confidence in [0, 1], and at most base * 0.85 (plus rounding) for an inferred call. |
| RiskPrediction.GeneRiskConfidence | backend/risk_engine.py:706-713 | The confidence is _compute_confidence of the rule's base, the allele count and the weakest evidence weight. |
| RiskPrediction.RiskFromRules | backend/risk_engine.py:680-765 | With no qualifying gene, the insufficient-data result with confidence 0.40; otherwise the first qualifying gene's result. |
| RiskPrediction.RiskFromRulesUnknown | backend/risk_engine.py:680-765 | The label is "Unknown", and the severity "unknown", exactly when no gene qualifies. |
| RiskPrediction.TableRisk | backend/risk_engine.py:649-765 | The drug name is kept and the confidence lies in [0, 1]. |
| RiskPrediction.TableRiskOutcome | backend/risk_engine.py:656-765 | Label "Unknown" and severity "unknown" exactly when the drug's key is not in the table or none of its genes qualifies; for a known drug, the gene scan. |
| RiskPrediction.TableRiskNoRule | backend/risk_engine.py:660-765 | When no rule applies: gene "N/A", phenotype Indeterminate, guideline "N/A", no rsIDs, evidence "none", and confidence 0.0 for an unknown drug but 0.40 for a known one. |
| RiskPrediction.PredictDrugRisk | backend/risk_engine.py:649-765 | predict_drug_risk computes TableRisk. |
| RiskPrediction.ScanGeneRules | backend/risk_engine.py:680-765 | The gene loop with continue and early return computes RiskFromRules. |
| RiskPrediction.FirstQualifyingAgree | backend/risk_engine.py:680-689 | Gene-result maps that agree on the rule genes pick the same gene. |
| RiskPrediction.PrefixQualifying | backend/risk_engine.py:680-743 | When the gene at k qualifies, the rules after k play no part in the choice. |
| RiskPrediction.RiskIgnoresOtherGenes | backend/risk_engine.py:680-743 | Results for genes the drug's rules do not list do not change the prediction. |
| RiskPrediction.RiskLaterGenesIgnored | backend/risk_engine.py:680-743 | Once a gene qualifies, the genes listed after it are never consulted. |
| RiskPrediction.RiskNameIndependent | backend/risk_engine.py:691-743 | The drug's spelling only enters free text: label, severity, gene, phenotype, confidence, rsIDs and evidence do not depend on it. |
| RiskPrediction.TableRiskSameKey | backend/risk_engine.py:656-659 | Two spellings with the same key give the same label, severity, gene, phenotype, confidence, rsIDs and evidence. |
| Pipeline.Tabulate | backend/risk_engine.py:851-853 | The map has exactly the listed keys, each mapped to its value. |
| Pipeline.TabulateStep | backend/risk_engine.py:851-853 | One more key adds its value and keeps the others. |
| Pipeline.Profiles | backend/risk_engine.py:851-853 | One entry per listed gene, exactly, each the gene's analysis. |
| Pipeline.AnalyseGenes | backend/risk_engine.py:851-853 | The gene loop computes Profiles. |
| Pipeline.IsSupported | backend/risk_engine.py:801-802 | Definition, no contract: the normalised name is in SUPPORTED_DRUGS. |
| Pipeline.Answer | backend/risk_engine.py:801-820 | An unsupported drug gives "Unknown", "unknown", 0.0 and no full result; a supported one gives its prediction and that prediction's label, severity and confidence, which lies in [0, 1]. |
| Pipeline.SingleDrug | backend/risk_engine.py:790-820 | Definition, no contract: Answer on the real rule table and the target genes' analysis. |
| Pipeline.PredictRisk | backend/risk_engine.py:790-820 | predict_risk computes SingleDrug, returning before any gene analysis for an unsupported drug. |
| Pipeline.FilterMembers | backend/risk_engine.py:840-848 | A drug lands in a list exactly when it was requested and the support test gives that list's answer. |
| Pipeline.SplitRequest | backend/risk_engine.py:840-848 | The validation loop computes the supported and the skipped drugs, in request order. |
| Pipeline.PartitionPermutation | backend/risk_engine.py:840-848 | The supported and the skipped drugs together are the request, as a multiset. |
| Pipeline.FilterAppend | backend/risk_engine.py:840-848 | Filtering keeps request order: a split request filters to the concatenation of its filtered parts. |
| Pipeline.Predictions | backend/risk_engine.py:855-859 | One prediction per drug, in order. |
| Pipeline.PredictionsSnoc | backend/risk_engine.py:855-859 | One more drug appends its prediction. |
| Pipeline.SkippedResult | backend/risk_engine.py:861-875 | Definition, no contract: the stub of an unsupported drug, "Unknown", "unknown", confidence 0.0, no rsIDs, evidence "none". |
| Pipeline.Stubs | backend/risk_engine.py:861-875 | One stub per skipped drug, in order. |
| Pipeline.PredictAll | backend/risk_engine.py:855-875 | The two result loops compute the predictions followed by the stubs. |
| Pipeline.Report | backend/risk_engine.py:823-883 | The gene profiles are the gene results; the results are the supported drugs' predictions in request order followed by one stub per skipped drug; the skipped list is the rejected drugs in request order. |
| Pipeline.MultiDrug | backend/risk_engine.py:823-883 | Definition, no contract: Report on the request, the support test, the real rule table and the target genes' analysis. |
| Pipeline.PredictMultiDrug | backend/risk_engine.py:823-883 | predict_multi_drug computes MultiDrug. |
| Pipeline.MultiDrugOneResultEach | backend/risk_engine.py:840-875 | There is one result per requested drug, and supported plus skipped drugs are the request as a multiset. |
| Pipeline.TargetGenesClassified | backend/risk_engine.py:120-154 | Every target gene has phenotype thresholds. |
| Pipeline.SupportedDrugHasRules | backend/risk_engine.py:773-787 | Every supported drug has rules, and its first listed gene is a target gene. |
| Pipeline.AnswerFirstGene | backend/risk_engine.py:801-820 | When a supported drug's first listed gene has a classified result, that gene decides the answer, which is not "Unknown". |
| Pipeline.SingleDrugUsesFirstGene | backend/risk_engine.py:790-820 | For every supported drug and record set, predict_risk is the prediction of the drug's first listed gene and is never "Unknown". |
| Scenarios.DecidedByFirstGene | backend/risk_engine.py:801-820 | For a supported drug, the answer is the first listed gene's prediction on that gene's analysis of the records. |
| Scenarios.HighEvidenceRisk | backend/risk_engine.py:706-718 | With one or two high-evidence alleles and a table rule, the result has the rule's label and severity, "high" evidence, and confidence base + 0.02 per allele. |
| Scenarios.WarfarinEntry | backend/risk_engine.py:282-288 | The warfarin entry of the rule table. |
| Scenarios.WarfarinRule | backend/risk_engine.py:282-288 | Warfarin is decided by CYP2C9, and a normal metabolizer gets "Safe", "none", base 0.90. |
| Scenarios.ReferenceCYP2C9 | backend/risk_engine.py:134-138 | Without records CYP2C9 has activity 2.0, a normal metabolizer with no alleles. |
| Scenarios.WarfarinReferenceRisk | backend/risk_engine.py:533-535 | The warfarin rule on reference CYP2C9 gives "Safe" with the inferred confidence 0.459 and "inferred" evidence. |
| Scenarios.WarfarinKey | backend/risk_engine.py:773-787 | "warfarin" is its own key and supported. |
| Scenarios.WarfarinWithoutVariants | backend/risk_engine.py:790-820 | With no records, warfarin gives "Safe", "none", 0.459, from reference CYP2C9 with no rsIDs. |
| Scenarios.WarfarinWithoutVariantsReport | backend/risk_engine.py:790-820 | The same, for the real tables. |
| Scenarios.CodeineEntry | backend/risk_engine.py:161-169 | The codeine entry of the rule table. |
| Scenarios.CodeineRule | backend/risk_engine.py:161-169 | Codeine is decided by CYP2D6, and a poor metabolizer gets "Ineffective", "high", base 0.95. |
| Scenarios.StarFourEntry | backend/risk_engine.py:67 | rs3892097 is CYP2D6*4, loss of function, activity 0.0, high evidence. |
| Scenarios.StarFourAnnotation | backend/risk_engine.py:426-452 | The homozygous rs3892097 record annotates to CYP2D6*4 and is homozygous. |
| Scenarios.StarFourProfile | backend/risk_engine.py:546-646 | Two copies of *4 give CYP2D6:*4/*4, activity 0.0, a poor metabolizer, and the rsID twice. |
| Scenarios.CodeineStarFourRisk | backend/risk_engine.py:691-743 | The codeine rule on that result gives "Ineffective", "high", confidence 0.99, "high" evidence. |
| Scenarios.CodeineKey | backend/risk_engine.py:773-787 | "codeine" is its own key and supported. |
| Scenarios.CodeineStarFourHomozygous | backend/risk_engine.py:790-820 | Codeine for a CYP2D6*4 homozygote: "Ineffective", "high", 0.99, decided by CYP2D6. |
| Scenarios.CodeineStarFourHomozygousReport | backend/risk_engine.py:790-820 | The same, for the real tables. |
| Scenarios.SimvastatinEntry | backend/risk_engine.py:312-318 | The simvastatin entry of the rule table. |
| Scenarios.SimvastatinRule | backend/risk_engine.py:312-318 | Simvastatin is decided by SLCO1B1, and decreased function gets "Adjust Dosage", "moderate", base 0.85. |
| Scenarios.StarFiveEntry | backend/risk_engine.py:98 | rs4149056 is SLCO1B1*5, loss of function, activity 0.0, high evidence. |
| Scenarios.StarFiveAnnotation | backend/risk_engine.py:426-452 | The heterozygous rs4149056 record annotates to SLCO1B1*5 and is not homozygous. |
| Scenarios.ReferenceSLCO1B1 | backend/risk_engine.py:50-57 | A reference SLCO1B1 allele has activity 1.0. |
| Scenarios.StarFiveProfile | backend/risk_engine.py:546-646 | One *5 beside a reference allele gives SLCO1B1:*5/*1, activity 1.0, decreased function. |
| Scenarios.SimvastatinStarFiveRisk | backend/risk_engine.py:691-743 | The simvastatin rule on that result gives "Adjust Dosage", "moderate", confidence 0.87, "high" evidence. |
| Scenarios.SimvastatinKey | backend/risk_engine.py:773-787 | "simvastatin" is its own key and supported. |
| Scenarios.SimvastatinStarFiveHeterozygous | backend/risk_engine.py:790-820 | Simvastatin for a heterozygous SLCO1B1*5 carrier: "Adjust Dosage", "moderate", 0.87, decided by SLCO1B1. |
| Scenarios.SimvastatinStarFiveHeterozygousReport | backend/risk_engine.py:790-820 | The same, for the real tables. |

## Left out

- The free-text reasoning strings are omitted. These are
  `_phenotype_reasoning`, `_risk_reasoning` and the `reasoning` fields,
  which use `:.2f` formatting and `capitalize()`. No decision depends
  on them.
- Logging is left out, and so is `asdict`. `asdict` is serialisation: the
  model returns the records themselves.
- The dictionaries returned by `predict_risk` and `predict_multi_drug` are
  modelled as datatypes. Their keys become fields, and `full_result` becomes
  an `Option`. A skipped drug's stub dictionary is a `DrugRiskResult` with
  the same fields.
- Floating point is not modelled: activities, scores and confidences are
  exact reals. For activities this changes nothing, because every allele
  activity is 0.0, 0.5 or 1.0 and every default total a whole number, so
  the program's sums and threshold comparisons are exact as well.
- Round3: rounds the exact real half up to thousandths. The program rounds
  a binary double, and when the exact value ends in 5 at the fourth
  decimal the double product can lie just below it, so the program rounds
  down. The model's confidence is then 0.001 above the program's. A drug's
  result always comes from the first gene it lists, because every such
  gene is a target gene with phenotype thresholds. Through that gene, the
  shipped tables give these differences (base, kept alleles, evidence
  factor):
  - (0.75, 1, 0.85): 0.655 against 0.654;
  - (0.75, 2, 0.85): 0.672 against 0.671;
  - (0.85, 1, 0.85): 0.740 against 0.739;
  - (0.85, 2, 0.85): 0.757 against 0.756;
  - (0.95, 0, 0.6): 0.485 against 0.484.

  Some other combinations would differ too, but no input reaches them:
  - (0.75, 0, 0.6) and (0.85, 0, 0.6). With no kept allele the gene has its
    default total, a normal phenotype whose rule has base 0.90 or 0.95.
  - (0.95, 1, 0.65) and (0.95, 2, 0.65). A factor of 0.65 needs an allele
    whose evidence is neither "high" nor "moderate", and `RSID_DATABASE`
    has none.

  All other reachable combinations agree.
- `str.lower()` is modelled on the ASCII letters only. Other characters are
  kept unchanged, with no Unicode case mapping.
- `str.strip()` removes the full `str.isspace` set.
- DrugNames.NormaliseIdempotent: proved only for names whose only
  whitespace is the plain space. For other names idempotence fails, because
  stripping runs before hyphen removal: "-\t" + k normalises to "\t" + k
  and then to k (`DrugNames.NormaliseNotIdempotent`).
- The unused `ACTIVITY_SCORE` table (lines 40-47) is left out, because
  nothing reads it.
- The `final_alleles` copy in `analyse_gene` is left out, because nothing
  reads it.
- In `analyse_gene`, the list comprehension that selects the gene's records
  and the annotation loop that follows are folded into one loop,
  `CollectDoses`. The loop tests the record's gene before annotating, which
  gives the same doses in the same order.
- Variant records are typed values, so some dynamic cases are not covered:
  - A record whose `gt` key is present but `None` makes the source raise a
    TypeError. The model reads a missing genotype as "0/1", as `.get`
    does.
  - Missing `chrom`, `pos`, `ref` or `alt` fields, and the `str()`/`int()`
    conversions of them, are not modelled. Those fields are carried as
    given.
  - An rsid value that is neither a string nor a list is not modelled.
- The rule table and the rsID database are parameters (`table`, `db`) of
  the proofs and of `PredictDrugRisk`, `AnalyseGene` and the analysis loop.
  The entry points pass `DrugRules` and `RsidDatabase`, the 25-drug
  `DRUG_RULES` and `RSID_DATABASE`.
- Pipeline.Profiles: the gene results are a `map`, which has no key order.
  The program's `gene_profiles` dict (lines 851-853) keeps `TARGET_GENES`
  order, but nothing in the pipeline depends on it.
- The validation loop, `SplitRequest`, takes the support test as a
  predicate parameter. `PredictMultiDrug` passes `IsSupported`, the test of
  lines 843-844.
- The warning logged by `predict_multi_drug` when both inputs are empty is
  left out, because it does not change the result.
- Out of scope:
  - `backend/explanation_engine.py`, which calls an external language
    model;
  - `backend/vcf_parser.py`, which is file I/O over an external VCF reader;
    its output is the model's input sequence of records;
  - `backend/main.py`, which is HTTP routing.
