/**
 * Confidence scoring: the evidence factor of the supporting variants, the
 * closed-form confidence rule, and the evidence strength a drug result
 * reports.
 */
module Confidence {
  import opened Annotation

  function Min(x: real, y: real): real {
    if x <= y then x else y
  }

  /** The weight table of _evidence_strength_factor; an unlisted strength weighs as "low". */
  function EvidenceWeight(strength: string): (w: real)
    ensures strength == "high" ==> w == 1.0
    ensures strength == "moderate" ==> w == 0.85
    ensures strength != "high" && strength != "moderate" ==> w == 0.65
  {
    if strength == "high" then 1.0 else if strength == "moderate" then 0.85 else 0.65
  }

  /** The least weight over a non-empty list of annotations. */
  function MinWeight(annotated: seq<VariantAnnotation>): (w: real)
    requires annotated != []
    ensures forall i | 0 <= i < |annotated| :: w <= EvidenceWeight(annotated[i].evidenceStrength)
    ensures exists i | 0 <= i < |annotated| :: w == EvidenceWeight(annotated[i].evidenceStrength)
  {
    if |annotated| == 1 then EvidenceWeight(annotated[0].evidenceStrength)
    else
      var rest := MinWeight(annotated[1..]);
      var w := Min(EvidenceWeight(annotated[0].evidenceStrength), rest);
      assert w != EvidenceWeight(annotated[0].evidenceStrength) ==>
        exists i | 1 <= i < |annotated| :: w == EvidenceWeight(annotated[i].evidenceStrength) by {
        if w != EvidenceWeight(annotated[0].evidenceStrength) {
          var i :| 0 <= i < |annotated[1..]| && rest == EvidenceWeight(annotated[1..][i].evidenceStrength);
          assert annotated[1..][i] == annotated[i + 1];
        }
      }
      w
  }

  /** _evidence_strength_factor: 0.6 with no supporting variants, otherwise
      the weight of the weakest evidence among them. */
  function EvidenceFactor(annotated: seq<VariantAnnotation>): (f: real)
    ensures annotated == [] ==> f == 0.6
    ensures annotated != [] ==>
      && (forall i | 0 <= i < |annotated| :: f <= EvidenceWeight(annotated[i].evidenceStrength))
      && (exists i | 0 <= i < |annotated| :: f == EvidenceWeight(annotated[i].evidenceStrength))
    ensures f == 0.6 || f == 0.65 || f == 0.85 || f == 1.0
  {
    if annotated == [] then 0.6 else MinWeight(annotated)
  }

  /** The real n / 1000: a whole number of thousandths. */
  function Thousandths(n: int): real {
    n as real / 1000.0
  }

  /** round(x, 3), modelled on exact reals as rounding half up to a multiple of 0.001. */
  function Round3(x: real): (r: real)
    ensures x - 0.0005 < r <= x + 0.0005
    ensures exists n: int :: r == Thousandths(n)
  {
    var n := (x * 1000.0 + 0.5).Floor;
    assert n as real / 1000.0 == Thousandths(n);
    n as real / 1000.0
  }

  /** The rounded value has no digits beyond the third decimal. */
  lemma Round3Thousandths(x: real)
    ensures (Round3(x) * 1000.0).Floor as real == Round3(x) * 1000.0
  {
    var n := (x * 1000.0 + 0.5).Floor;
    assert Round3(x) * 1000.0 == n as real;
  }

  lemma Round3Monotone(x: real, y: real)
    requires x <= y
    ensures Round3(x) <= Round3(y)
  {
    assert (x * 1000.0 + 0.5).Floor <= (y * 1000.0 + 0.5).Floor;
  }

  /** Rounding keeps a value in [0, 1] inside [0, 1]. */
  lemma Round3UnitInterval(x: real)
    requires 0.0 <= x <= 1.0
    ensures 0.0 <= Round3(x) <= 1.0
  {
    Round3Monotone(0.0, x);
    Round3Monotone(x, 1.0);
    assert Round3(0.0) == 0.0;
    assert Round3(1.0) == 1.0;
  }

  /** The variant-count bonus min(n * 0.02, 0.05). */
  function VariantBonus(nVariants: nat): (b: real)
    ensures 0.0 <= b <= 0.05
    ensures nVariants <= 2 ==> b == nVariants as real * 0.02
  {
    Min(nVariants as real * 0.02, 0.05)
  }

  /** The confidence before rounding, after the cap at 1.0. */
  function RawConfidence(base: real, nVariants: nat, evidenceFactor: real, hasVariants: bool): real {
    if !hasVariants then Min(base * evidenceFactor * 0.85, 1.0)
    else Min((base + VariantBonus(nVariants)) * evidenceFactor, 1.0)
  }

  /** _compute_confidence. The activity score is an argument the rule does not use. */
  function ComputeConfidence(base: real, activityScore: real, nVariants: nat,
                             evidenceFactor: real, hasVariants: bool): (c: real)
    ensures c <= 1.0
    ensures 0.0 <= base && 0.0 <= evidenceFactor ==> 0.0 <= c
  {
    var raw := RawConfidence(base, nVariants, evidenceFactor, hasVariants);
    RoundedConfidenceBounds(base, nVariants, evidenceFactor, hasVariants);
    Round3(raw)
  }

  lemma MulMonotone(a: real, b: real, c: real)
    requires a <= b && 0.0 <= c
    ensures a * c <= b * c
  {
  }

  lemma MulNonNegative(a: real, b: real)
    requires 0.0 <= a && 0.0 <= b
    ensures 0.0 <= a * b
  {
  }

  lemma RoundedConfidenceBounds(base: real, nVariants: nat, evidenceFactor: real, hasVariants: bool)
    ensures Round3(RawConfidence(base, nVariants, evidenceFactor, hasVariants)) <= 1.0
    ensures 0.0 <= base && 0.0 <= evidenceFactor ==>
      0.0 <= Round3(RawConfidence(base, nVariants, evidenceFactor, hasVariants))
  {
    var raw := RawConfidence(base, nVariants, evidenceFactor, hasVariants);
    Round3Monotone(raw, 1.0);
    assert Round3(1.0) == 1.0;
    if 0.0 <= base && 0.0 <= evidenceFactor {
      if hasVariants {
        MulNonNegative(base + VariantBonus(nVariants), evidenceFactor);
      } else {
        MulNonNegative(base, evidenceFactor);
        MulNonNegative(base * evidenceFactor, 0.85);
      }
      assert 0.0 <= raw;
      Round3Monotone(0.0, raw);
      assert Round3(0.0) == 0.0;
    }
  }

  /** With no supporting variants the value before rounding is at most
      base * 0.85: the inferred-call penalty. */
  lemma InferredPenalty(base: real, nVariants: nat, evidenceFactor: real)
    requires 0.0 <= base && 0.0 <= evidenceFactor <= 1.0
    ensures RawConfidence(base, nVariants, evidenceFactor, false) <= base * 0.85
    ensures ComputeConfidence(base, 0.0, nVariants, evidenceFactor, false) <= base * 0.85 + 0.0005
  {
    MulMonotone(evidenceFactor, 1.0, base);
    MulMonotone(base * evidenceFactor, base, 0.85);
  }

  /** An inferred call never scores above an observed one with the same base and evidence. */
  lemma InferredBelowObserved(base: real, activityScore: real, nVariants: nat, evidenceFactor: real)
    requires 0.0 <= base && 0.0 <= evidenceFactor
    ensures ComputeConfidence(base, activityScore, nVariants, evidenceFactor, false)
         <= ComputeConfidence(base, activityScore, nVariants, evidenceFactor, true)
  {
    var b := VariantBonus(nVariants);
    MulMonotone(0.0, base, evidenceFactor);
    MulMonotone(base, base + b, evidenceFactor);
    Round3Monotone(RawConfidence(base, nVariants, evidenceFactor, false),
                   RawConfidence(base, nVariants, evidenceFactor, true));
  }

  /** The rank used to pick the reported evidence strength: lower is stronger. */
  function EvidenceRank(strength: string): (k: nat)
    ensures strength == "high" <==> k == 0
    ensures strength == "moderate" <==> k == 1
    ensures strength == "low" <==> k == 2
    ensures strength != "high" && strength != "moderate" && strength != "low" ==> k == 3
  {
    if strength == "high" then 0 else if strength == "moderate" then 1
    else if strength == "low" then 2 else 3
  }

  /** The position Python's min(..., key=rank) picks: the first of least rank. */
  function StrongestIndex(annotated: seq<VariantAnnotation>): (k: nat)
    requires annotated != []
    ensures k < |annotated|
    ensures forall j | 0 <= j < |annotated| ::
      EvidenceRank(annotated[k].evidenceStrength) <= EvidenceRank(annotated[j].evidenceStrength)
    ensures forall j | 0 <= j < k ::
      EvidenceRank(annotated[k].evidenceStrength) < EvidenceRank(annotated[j].evidenceStrength)
  {
    if |annotated| == 1 then 0
    else
      var k := StrongestIndex(annotated[1..]) + 1;
      assert annotated[k] == annotated[1..][k - 1];
      if EvidenceRank(annotated[k].evidenceStrength) < EvidenceRank(annotated[0].evidenceStrength)
      then
        assert forall j | 1 <= j < |annotated| :: annotated[j] == annotated[1..][j - 1];
        k
      else
        assert forall j | 1 <= j < |annotated| :: annotated[j] == annotated[1..][j - 1];
        0
  }

  /** The evidence strength a drug result reports: the strongest present,
      or "inferred" when there are no supporting variants. */
  function ReportedEvidence(annotated: seq<VariantAnnotation>): (e: string)
    ensures annotated == [] ==> e == "inferred"
    ensures annotated != [] ==>
      exists k | 0 <= k < |annotated| ::
        && e == annotated[k].evidenceStrength
        && (forall j | 0 <= j < |annotated| :: EvidenceRank(e) <= EvidenceRank(annotated[j].evidenceStrength))
        && (forall j | 0 <= j < k :: EvidenceRank(e) < EvidenceRank(annotated[j].evidenceStrength))
  {
    if annotated == [] then "inferred" else annotated[StrongestIndex(annotated)].evidenceStrength
  }

  /** If any supporting variant has high evidence, "high" is reported, even
      when others are weaker. */
  lemma ReportedEvidenceHigh(annotated: seq<VariantAnnotation>, i: nat)
    requires i < |annotated| && annotated[i].evidenceStrength == "high"
    ensures ReportedEvidence(annotated) == "high"
  {
    var k := StrongestIndex(annotated);
    assert EvidenceRank(annotated[k].evidenceStrength) <= EvidenceRank(annotated[i].evidenceStrength);
  }
}
