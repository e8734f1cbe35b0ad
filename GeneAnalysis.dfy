/**
 * Per-gene analysis: the records tagged with a gene are annotated, each
 * annotated record contributes one allele dose (two when its genotype is
 * homozygous), the first two doses fill the two allele slots, empty slots
 * are filled with the reference allele, and the total activity score is
 * classified into a metabolizer phenotype.
 */
module GeneAnalysis {
  import opened Wrappers
  import opened Tables
  import opened Annotation
  import opened Phenotype
  import opened Diplotype

  /** GeneResult, without the free-text reasoning. */
  datatype GeneResult = GeneResult(
    gene: string, detectedRsids: seq<string>, annotatedVariants: seq<VariantAnnotation>,
    totalActivityScore: real, diplotype: string, phenotype: string)

  /** sub in s, for Python strings. */
  predicate HasSubstring(s: string, sub: string)
    decreases |s|
  {
    if |s| < |sub| then false
    else s[..|sub|] == sub || HasSubstring(s[1..], sub)
  }

  /** The zygosity test of analyse_gene: the genotype mentions "1/1", "1|1" or "2/2". */
  predicate IsHomozygous(gt: string) {
    HasSubstring(gt, "1/1") || HasSubstring(gt, "1|1") || HasSubstring(gt, "2/2")
  }

  /** The genotype of a record; a record without one is read as heterozygous "0/1". */
  function Genotype(v: Variant): string {
    match v.gt
    case None => "0/1"
    case Some(gt) => gt
  }

  /** The allele doses one record contributes to a gene: none unless it is
      tagged with the gene and annotates to an allele of that gene; two
      copies of its annotation when homozygous, one otherwise. */
  function Doses(db: AlleleTable, gene: string, v: Variant): (d: seq<VariantAnnotation>)
    ensures d == [] <==> v.gene != gene || Annotate(db, v).None? || Annotate(db, v).value.gene != gene
    ensures d != [] ==> |d| == (if IsHomozygous(Genotype(v)) then 2 else 1)
    ensures forall i | 0 <= i < |d| :: d[i] == Annotate(db, v).value && d[i].gene == gene
  {
    if v.gene != gene then []
    else match Annotate(db, v)
      case None => []
      case Some(a) =>
        if a.gene != gene then []
        else if IsHomozygous(Genotype(v)) then [a, a] else [a]
  }

  /** The detected allele doses of a gene, in record order. */
  function DetectedDoses(db: AlleleTable, gene: string, variants: seq<Variant>): (d: seq<VariantAnnotation>)
    ensures forall i | 0 <= i < |d| :: d[i].gene == gene
  {
    if variants == [] then []
    else DetectedDoses(db, gene, variants[..|variants| - 1]) + Doses(db, gene, variants[|variants| - 1])
  }

  /** Every detected dose is the annotation of a record tagged with the gene. */
  lemma {:induction false} DetectedFromRecord(db: AlleleTable, gene: string, variants: seq<Variant>, i: nat)
    requires i < |DetectedDoses(db, gene, variants)|
    ensures exists j | 0 <= j < |variants| ::
      variants[j].gene == gene && Annotate(db, variants[j]) == Some(DetectedDoses(db, gene, variants)[i])
  {
    var init := variants[..|variants| - 1];
    var last := variants[|variants| - 1];
    var front := DetectedDoses(db, gene, init);
    var d := DetectedDoses(db, gene, variants);
    if i < |front| {
      DetectedFromRecord(db, gene, init, i);
      var j :| 0 <= j < |init| && init[j].gene == gene && Annotate(db, init[j]) == Some(front[i]);
      assert variants[j] == init[j];
    } else {
      assert d[i] == Doses(db, gene, last)[i - |front|];
      assert variants[|variants| - 1] == last;
    }
  }

  /** The doses that fill the two allele slots: the first two detected. */
  function Kept(db: AlleleTable, gene: string, variants: seq<Variant>): (k: seq<VariantAnnotation>)
    ensures k <= DetectedDoses(db, gene, variants)
    ensures |k| == if |DetectedDoses(db, gene, variants)| < 2 then |DetectedDoses(db, gene, variants)| else 2
  {
    var d := DetectedDoses(db, gene, variants);
    if |d| <= 2 then d else d[..2]
  }

  function SumActivity(alleles: seq<VariantAnnotation>): real {
    if alleles == [] then 0.0
    else SumActivity(alleles[..|alleles| - 1]) + alleles[|alleles| - 1].activityScore
  }

  /** The activity total of a gene with two reference alleles: the table value, or 2.0 for a gene without one. */
  function DefaultTotal(gene: string): real {
    if gene in DefaultActivityScores then DefaultActivityScores[gene] else 2.0
  }

  /** The activity of one reference allele: half that total. */
  function ReferenceActivity(gene: string): real {
    DefaultTotal(gene) / 2.0
  }

  /** The activity of n reference alleles. */
  function Padding(n: nat, refAllele: real): real {
    if n == 0 then 0.0 else Padding(n - 1, refAllele) + refAllele
  }

  /** The activity in slot i (0 or 1): the kept allele there, or the reference allele. */
  function SlotActivity(gene: string, kept: seq<VariantAnnotation>, i: nat): real {
    if i < |kept| then kept[i].activityScore else ReferenceActivity(gene)
  }

  /** The diplotype analyse_gene reports: the reference label with no kept
      allele, the allele over the reference with one, the built label with two. */
  function DiplotypeFor(gene: string, kept: seq<VariantAnnotation>): string {
    if |kept| == 0 then gene + ":*1/*1"
    else if |kept| == 1 then gene + ":" + kept[0].starAllele + "/*1"
    else BuildDiplotypeLabel(kept, gene)
  }

  function Rsids(alleles: seq<VariantAnnotation>): (r: seq<string>)
    ensures |r| == |alleles|
    ensures forall i | 0 <= i < |r| :: r[i] == alleles[i].rsid
  {
    seq(|alleles|, i requires 0 <= i < |alleles| => alleles[i].rsid)
  }

  /** The result of analyse_gene once the kept alleles are known. */
  function ResultFor(gene: string, kept: seq<VariantAnnotation>): (r: GeneResult)
    requires |kept| <= 2
    ensures r.gene == gene && r.annotatedVariants == kept
    ensures r.detectedRsids == Rsids(kept)
    ensures r.totalActivityScore == SlotActivity(gene, kept, 0) + SlotActivity(gene, kept, 1)
    ensures r.phenotype == ClassifyPhenotype(gene, r.totalActivityScore)
    ensures r.diplotype == DiplotypeFor(gene, kept)
  {
    var total := SumActivity(kept) + Padding(2 - |kept|, ReferenceActivity(gene));
    SlotsSum(gene, kept);
    GeneResult(gene, Rsids(kept), kept, total, DiplotypeFor(gene, kept),
               ClassifyPhenotype(gene, total))
  }

  /** The result of analyse_gene, as a function of the gene and the records. */
  function GeneProfile(db: AlleleTable, gene: string, variants: seq<Variant>): (r: GeneResult)
    ensures r.gene == gene
    ensures |r.annotatedVariants| <= 2
    ensures r.annotatedVariants <= DetectedDoses(db, gene, variants)
    ensures |r.annotatedVariants| < 2 ==> r.annotatedVariants == DetectedDoses(db, gene, variants)
    ensures r.detectedRsids == Rsids(r.annotatedVariants)
    ensures r.totalActivityScore ==
      SlotActivity(gene, r.annotatedVariants, 0) + SlotActivity(gene, r.annotatedVariants, 1)
    ensures r.phenotype == ClassifyPhenotype(gene, r.totalActivityScore)
    ensures r.diplotype == DiplotypeFor(gene, r.annotatedVariants)
  {
    ResultFor(gene, Kept(db, gene, variants))
  }

  /** Summing the kept alleles and padding with reference alleles is adding the two slots. */
  lemma SlotsSum(gene: string, kept: seq<VariantAnnotation>)
    requires |kept| <= 2
    ensures SumActivity(kept) + Padding(2 - |kept|, ReferenceActivity(gene))
         == SlotActivity(gene, kept, 0) + SlotActivity(gene, kept, 1)
  {
    if |kept| == 2 {
      assert kept[..1][..0] == [];
    } else if |kept| == 1 {
      assert kept[..0] == [];
    }
  }

  /** The first loop of analyse_gene: annotate the records tagged with the
      gene and count allele doses. */
  method CollectDoses(db: AlleleTable, gene: string, variants: seq<Variant>) returns (detected: seq<VariantAnnotation>)
    ensures detected == DetectedDoses(db, gene, variants)
  {
    detected := [];
    for i := 0 to |variants|
      invariant detected == DetectedDoses(db, gene, variants[..i])
    {
      var v := variants[i];
      DetectedDosesSnoc(db, gene, variants, i);
      ghost var before := detected;
      if v.gene == gene {
        var ann := AnnotateVariant(db, v);
        if ann.Some? && ann.value.gene == gene {
          var gt := if v.gt.Some? then v.gt.value else "0/1";
          var isHom := HasSubstring(gt, "1/1") || HasSubstring(gt, "1|1") || HasSubstring(gt, "2/2");
          detected := detected + [ann.value];
          if isHom {
            detected := detected + [ann.value];
          }
          assert detected == before + (if isHom then [ann.value, ann.value] else [ann.value]);
        }
      }
      assert detected == before + Doses(db, gene, v);
    }
    assert variants[..|variants|] == variants;
  }

  /** Scanning one more record appends its doses. */
  lemma DetectedDosesSnoc(db: AlleleTable, gene: string, variants: seq<Variant>, i: nat)
    requires i < |variants|
    ensures DetectedDoses(db, gene, variants[..i + 1]) == DetectedDoses(db, gene, variants[..i]) + Doses(db, gene, variants[i])
  {
    assert variants[..i + 1][..i] == variants[..i];
  }

  /** analyse_gene. */
  method AnalyseGene(db: AlleleTable, gene: string, variants: seq<Variant>) returns (r: GeneResult)
    ensures r == GeneProfile(db, gene, variants)
  {
    var detected := CollectDoses(db, gene, variants);
    var refAllele := DefaultTotal(gene) / 2.0;
    var kept, activity := FillSlots(detected, refAllele);
    r := Summarise(gene, kept, activity);
  }

  /** The last steps of analyse_gene: classify the total, build the
      diplotype label and list the kept alleles' rsIDs. */
  method Summarise(gene: string, kept: seq<VariantAnnotation>, activity: real) returns (r: GeneResult)
    requires |kept| <= 2
    requires activity == SumActivity(kept) + Padding(2 - |kept|, ReferenceActivity(gene))
    ensures r == ResultFor(gene, kept)
  {
    var phenotype := ClassifyPhenotype(gene, activity);
    var diplotype := BuildDiplotypeLabel(kept, gene);
    if |kept| == 0 {
      diplotype := gene + ":*1/*1";
    } else if |kept| == 1 {
      diplotype := gene + ":" + kept[0].starAllele + "/*1";
    }
    var rsids: seq<string> := [];
    for i := 0 to |kept|
      invariant |rsids| == i
      invariant forall j | 0 <= j < i :: rsids[j] == kept[j].rsid
    {
      rsids := rsids + [kept[i].rsid];
    }
    assert rsids == Rsids(kept);
    assert diplotype == DiplotypeFor(gene, kept);
    var want := ResultFor(gene, kept);
    assert want.detectedRsids == rsids && want.totalActivityScore == activity;
    assert want.diplotype == diplotype && want.phenotype == phenotype;
    r := GeneResult(gene, rsids, kept, activity, diplotype, phenotype);
  }

  /** The slot-filling loops of analyse_gene: the first two doses take the
      two slots, and each slot left empty gets the reference allele. */
  method FillSlots(detected: seq<VariantAnnotation>, refAllele: real)
    returns (kept: seq<VariantAnnotation>, activity: real)
    ensures kept == if |detected| <= 2 then detected else detected[..2]
    ensures activity == SumActivity(kept) + Padding(2 - |kept|, refAllele)
  {
    // Fill the two slots with the first two doses.
    var firstTwo := if |detected| <= 2 then detected else detected[..2];
    activity := 0.0;
    var slots := 0;
    kept := [];
    for i := 0 to |firstTwo|
      invariant slots == i && kept == firstTwo[..i]
      invariant activity == SumActivity(kept)
    {
      assert firstTwo[..i + 1][..i] == firstTwo[..i];
      activity := activity + firstTwo[i].activityScore;
      slots := slots + 1;
      kept := kept + [firstTwo[i]];
    }
    assert kept == firstTwo;
    // Pad the remaining slots with the reference allele.
    while slots < 2
      invariant |kept| <= slots <= 2
      invariant activity == SumActivity(kept) + Padding(slots - |kept|, refAllele)
    {
      activity := activity + refAllele;
      slots := slots + 1;
    }
  }

  /** Doses of a concatenation are the doses of its parts, in order. */
  lemma {:induction false} DetectedDosesAppend(db: AlleleTable, gene: string, vs: seq<Variant>, more: seq<Variant>)
    ensures DetectedDoses(db, gene, vs + more) == DetectedDoses(db, gene, vs) + DetectedDoses(db, gene, more)
  {
    if more == [] {
      assert vs + more == vs;
    } else {
      var init := more[..|more| - 1];
      var last := more[|more| - 1];
      DetectedDosesAppend(db, gene, vs, init);
      calc {
        DetectedDoses(db, gene, vs + more);
        { assert (vs + more)[..|vs + more| - 1] == vs + init;
          assert (vs + more)[|vs + more| - 1] == last; }
        DetectedDoses(db, gene, vs + init) + Doses(db, gene, last);
        (DetectedDoses(db, gene, vs) + DetectedDoses(db, gene, init)) + Doses(db, gene, last);
        DetectedDoses(db, gene, vs) + (DetectedDoses(db, gene, init) + Doses(db, gene, last));
        DetectedDoses(db, gene, vs) + DetectedDoses(db, gene, more);
      }
    }
  }

  /** No record tagged with the gene means no detected dose. */
  lemma {:induction false} DetectedDosesNone(db: AlleleTable, gene: string, variants: seq<Variant>)
    requires forall j | 0 <= j < |variants| :: variants[j].gene != gene
    ensures DetectedDoses(db, gene, variants) == []
  {
    if variants != [] {
      var init := variants[..|variants| - 1];
      assert forall j | 0 <= j < |init| :: init[j] == variants[j];
      DetectedDosesNone(db, gene, init);
    }
  }

  /** With no detected dose (no record for the gene, or none whose rsID the
      database knows for this gene), both slots hold the reference allele:
      the total is the reference default and the diplotype is the reference one. */
  lemma GeneProfileReference(db: AlleleTable, gene: string, variants: seq<Variant>)
    requires DetectedDoses(db, gene, variants) == []
    ensures GeneProfile(db, gene, variants).totalActivityScore == DefaultTotal(gene)
    ensures GeneProfile(db, gene, variants).diplotype == gene + ":*1/*1"
    ensures GeneProfile(db, gene, variants).detectedRsids == []
  {
  }

  /** Once two doses are detected, later records change nothing. */
  lemma GeneProfileExtraIgnored(db: AlleleTable, gene: string, variants: seq<Variant>, more: seq<Variant>)
    requires |DetectedDoses(db, gene, variants)| >= 2
    ensures GeneProfile(db, gene, variants + more) == GeneProfile(db, gene, variants)
  {
    KeptExtraIgnored(db, gene, variants, more);
  }

  lemma KeptExtraIgnored(db: AlleleTable, gene: string, variants: seq<Variant>, more: seq<Variant>)
    requires |DetectedDoses(db, gene, variants)| >= 2
    ensures Kept(db, gene, variants + more) == Kept(db, gene, variants)
  {
    var d := DetectedDoses(db, gene, variants);
    DetectedDosesAppend(db, gene, variants, more);
    assert (d + DetectedDoses(db, gene, more))[..2] == d[..2];
  }

  /** The kept alleles of a single record are its doses. */
  lemma KeptSingle(db: AlleleTable, gene: string, v: Variant)
    ensures Kept(db, gene, [v]) == Doses(db, gene, v)
  {
    assert [v][..0] == [];
    assert DetectedDoses(db, gene, [v]) == Doses(db, gene, v);
  }

  /** A single homozygous record of a known allele fills both slots with
      that allele. */
  lemma GeneProfileHomozygous(db: AlleleTable, gene: string, v: Variant)
    requires Doses(db, gene, v) != [] && IsHomozygous(Genotype(v))
    ensures var a := Annotate(db, v).value;
      && GeneProfile(db, gene, [v]).totalActivityScore == 2.0 * a.activityScore
      && GeneProfile(db, gene, [v]).diplotype == Label(gene, a.starAllele, a.starAllele)
      && GeneProfile(db, gene, [v]).detectedRsids == [a.rsid, a.rsid]
      && GeneProfile(db, gene, [v]).annotatedVariants == [a, a]
  {
    KeptSingle(db, gene, v);
    var a := Annotate(db, v).value;
    assert Doses(db, gene, v) == [a, a];
    assert GeneProfile(db, gene, [v]) == ResultFor(gene, [a, a]);
  }

  /** A single heterozygous record of a known allele fills one slot; the
      other one holds the reference allele. */
  lemma GeneProfileHeterozygous(db: AlleleTable, gene: string, v: Variant)
    requires Doses(db, gene, v) != [] && !IsHomozygous(Genotype(v))
    ensures var a := Annotate(db, v).value;
      && GeneProfile(db, gene, [v]).totalActivityScore == a.activityScore + ReferenceActivity(gene)
      && GeneProfile(db, gene, [v]).diplotype == gene + ":" + a.starAllele + "/*1"
      && GeneProfile(db, gene, [v]).detectedRsids == [a.rsid]
      && GeneProfile(db, gene, [v]).annotatedVariants == [a]
  {
    KeptSingle(db, gene, v);
    var a := Annotate(db, v).value;
    assert Doses(db, gene, v) == [a];
    assert GeneProfile(db, gene, [v]) == ResultFor(gene, [a]);
  }

  /** Every annotated allele carries its database activity. */
  lemma DetectedActivityInRange(db: AlleleTable, gene: string, variants: seq<Variant>, i: nat)
    requires i < |DetectedDoses(db, gene, variants)|
    ensures 0.0 <= DetectedDoses(db, gene, variants)[i].activityScore <= 2.0
  {
    var d := DetectedDoses(db, gene, variants);
    DetectedFromRecord(db, gene, variants, i);
    var j :| 0 <= j < |variants| && variants[j].gene == gene && Annotate(db, variants[j]) == Some(d[i]);
    var ids := Candidates(variants[j].rsid);
    var k :| 0 <= k < |ids| && Known(db, ids[k]) && (forall m | 0 <= m < k :: !Known(db, ids[m]))
      && Carries(d[i], ids[k], db[ids[k]], variants[j]);
  }

  /** The total activity of a gene lies in [0, 4]. */
  lemma GeneProfileScoreRange(db: AlleleTable, gene: string, variants: seq<Variant>)
    ensures 0.0 <= GeneProfile(db, gene, variants).totalActivityScore <= 4.0
  {
    var r := GeneProfile(db, gene, variants);
    var kept := r.annotatedVariants;
    forall i | 0 <= i < |kept| ensures 0.0 <= kept[i].activityScore <= 2.0 {
      DetectedActivityInRange(db, gene, variants, i);
    }
  }

  /** The reported diplotype of two kept alleles does not depend on which was found first. */
  lemma DiplotypeForSymmetric(gene: string, a: VariantAnnotation, b: VariantAnnotation)
    ensures DiplotypeFor(gene, [a, b]) == DiplotypeFor(gene, [b, a])
  {
    BuildDiplotypeLabelSymmetric(a, b, gene);
  }
}
