/**
 * Variant annotation: a variant record, as produced by the variant
 * extractor, is matched against the rsID database by the first of its
 * listed identifiers that the database knows. Unknown variants are dropped.
 */
module Annotation {
  import opened Wrappers
  import opened Tables

  /** The "rsid" field of a variant record: missing, one identifier, or a list. */
  datatype RsidField = NoRsid | RsidText(id: string) | RsidList(ids: seq<string>)

  /** One variant record. A missing genotype is None. */
  datatype Variant = Variant(
    gene: string, chrom: string, pos: int, rsid: RsidField,
    ref: string, alt: seq<string>, gt: Option<string>)

  /** VariantAnnotation: the database entry's fields plus the record's position. */
  datatype VariantAnnotation = VariantAnnotation(
    rsid: string, gene: string, starAllele: string, functionClass: string,
    activityScore: real, evidenceStrength: string,
    chrom: string, pos: int, ref: string, alt: seq<string>)

  /** Python falsiness of the rsid field: missing, "" or []. */
  predicate IsFalsy(f: RsidField) {
    f.NoRsid? || f == RsidText("") || f == RsidList([])
  }

  /** The identifiers to try, in order: a lone identifier becomes a one-element list. */
  function Candidates(f: RsidField): seq<string> {
    match f
    case NoRsid => []
    case RsidText(id) => [id]
    case RsidList(ids) => ids
  }

  /** An identifier that is non-empty and present in the database. */
  predicate Known(db: AlleleTable, id: string) {
    id != "" && id in db
  }

  /** The index of the first known identifier, if any. */
  function FirstKnown(db: AlleleTable, ids: seq<string>): (k: Option<nat>)
    ensures k.None? <==> forall i | 0 <= i < |ids| :: !Known(db, ids[i])
    ensures k.Some? ==> k.value < |ids| && Known(db, ids[k.value])
    ensures k.Some? ==> forall j | 0 <= j < k.value :: !Known(db, ids[j])
  {
    if ids == [] then None
    else if Known(db, ids[0]) then Some(0)
    else match FirstKnown(db, ids[1..])
      case None => None
      case Some(k) => Some(k + 1)
  }

  /** The annotation carries the database entry unchanged and the record's position. */
  predicate Carries(a: VariantAnnotation, id: string, e: AlleleRecord, v: Variant) {
    && a.rsid == id && a.gene == e.gene && a.starAllele == e.star
    && a.functionClass == e.functionClass && a.activityScore == e.activity
    && a.evidenceStrength == e.evidence
    && a.chrom == v.chrom && a.pos == v.pos && a.ref == v.ref && a.alt == v.alt
  }

  /** _annotate_variant, as a function of the record and the database. */
  function Annotate(db: AlleleTable, v: Variant): (r: Option<VariantAnnotation>)
    ensures r.None? <==>
      IsFalsy(v.rsid) || forall i | 0 <= i < |Candidates(v.rsid)| :: !Known(db, Candidates(v.rsid)[i])
    ensures r.Some? ==>
      var ids := Candidates(v.rsid);
      exists i | 0 <= i < |ids| ::
        && Known(db, ids[i]) && (forall j | 0 <= j < i :: !Known(db, ids[j]))
        && Carries(r.value, ids[i], db[ids[i]], v)
  {
    if IsFalsy(v.rsid) then None
    else
      var ids := Candidates(v.rsid);
      match FirstKnown(db, ids)
      case None => None
      case Some(i) =>
        var e := db[ids[i]];
        Some(VariantAnnotation(ids[i], e.gene, e.star, e.functionClass, e.activity,
                               e.evidence, v.chrom, v.pos, v.ref, v.alt))
  }

  /** _annotate_variant: a first-hit scan of the listed identifiers. */
  method AnnotateVariant(db: AlleleTable, v: Variant) returns (r: Option<VariantAnnotation>)
    ensures r == Annotate(db, v)
  {
    if IsFalsy(v.rsid) {
      return None;
    }
    var ids := Candidates(v.rsid);
    for i := 0 to |ids|
      invariant forall j | 0 <= j < i :: !Known(db, ids[j])
    {
      var id := ids[i];
      if id != "" && id in db {
        var e := db[id];
        assert FirstKnown(db, ids) == Some(i);
        return Some(VariantAnnotation(id, e.gene, e.star, e.functionClass, e.activity,
                                      e.evidence, v.chrom, v.pos, v.ref, v.alt));
      }
    }
    return None;
  }
}
