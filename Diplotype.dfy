/**
 * Diplotype labels. _build_diplotype_label sorts the distinct star-allele
 * names of the kept alleles (Python string order: code point by code point,
 * a proper prefix first) and prints the first two.
 */
module Diplotype {
  import opened Annotation

  /** Python's a < b on strings. */
  predicate StrLess(a: string, b: string) {
    if a == [] then b != []
    else if b == [] then false
    else if a[0] != b[0] then a[0] < b[0]
    else StrLess(a[1..], b[1..])
  }

  lemma {:induction false} StrLessIrreflexive(a: string)
    ensures !StrLess(a, a)
  {
    if a != [] { StrLessIrreflexive(a[1..]); }
  }

  lemma {:induction false} StrLessAsymmetric(a: string, b: string)
    requires StrLess(a, b)
    ensures !StrLess(b, a)
  {
    if a != [] && b != [] && a[0] == b[0] { StrLessAsymmetric(a[1..], b[1..]); }
  }

  lemma {:induction false} StrLessTotal(a: string, b: string)
    requires a != b
    ensures StrLess(a, b) || StrLess(b, a)
  {
    if a != [] && b != [] && a[0] == b[0] {
      assert a == [a[0]] + a[1..] && b == [b[0]] + b[1..];
      StrLessTotal(a[1..], b[1..]);
    }
  }

  lemma {:induction false} StrLessTransitive(a: string, b: string, c: string)
    requires StrLess(a, b) && StrLess(b, c)
    ensures StrLess(a, c)
  {
    if a != [] && b != [] && c != [] && a[0] == b[0] == c[0] {
      StrLessTransitive(a[1..], b[1..], c[1..]);
    }
  }

  /** The least string of a non-empty list. */
  function MinStr(s: seq<string>): (m: string)
    requires |s| > 0
    ensures m in s
    ensures forall x | x in s :: x == m || StrLess(m, x)
  {
    if |s| == 1 then s[0]
    else
      var m := MinStr(s[1..]);
      if StrLess(m, s[0]) then m
      else
        StrLessTotalOrEqual(s[0], m);
        forall x | x in s[1..] && x != m ensures StrLess(s[0], x) {
          if s[0] != m { StrLessTransitive(s[0], m, x); }
        }
        s[0]
  }

  lemma StrLessTotalOrEqual(a: string, b: string)
    requires !StrLess(b, a)
    ensures a == b || StrLess(a, b)
  {
    if a != b { StrLessTotal(a, b); }
  }

  function Without(s: seq<string>, x: string): (r: seq<string>)
    ensures forall y | y in r :: y in s && y != x
    ensures forall y | y in s && y != x :: y in r
  {
    if s == [] then []
    else if s[0] == x then Without(s[1..], x)
    else [s[0]] + Without(s[1..], x)
  }

  function Stars(annotated: seq<VariantAnnotation>): (r: seq<string>)
    ensures |r| == |annotated|
    ensures forall i | 0 <= i < |r| :: r[i] == annotated[i].starAllele
  {
    seq(|annotated|, i requires 0 <= i < |annotated| => annotated[i].starAllele)
  }

  function Label(gene: string, first: string, second: string): string {
    gene + ":" + first + "/" + second
  }

  /** _build_diplotype_label: the two smallest distinct star names, or the
      single one twice; with no alleles, the reference-assumed label. */
  function BuildDiplotypeLabel(annotated: seq<VariantAnnotation>, gene: string): (r: string)
    ensures annotated == [] ==> r == gene + ":*1/*1 (reference assumed)"
    ensures |annotated| == 1 ==> r == Label(gene, annotated[0].starAllele, annotated[0].starAllele)
    ensures |annotated| == 2 ==>
      var a := annotated[0].starAllele;
      var b := annotated[1].starAllele;
      r == if a == b then Label(gene, a, a)
           else if StrLess(a, b) then Label(gene, a, b)
           else Label(gene, b, a)
  {
    var stars := Stars(annotated);
    if stars == [] then gene + ":*1/*1 (reference assumed)"
    else
      var first := MinStr(stars);
      var rest := Without(stars, first);
      var r := if rest == [] then Label(gene, first, first) else Label(gene, first, MinStr(rest));
      TwoStars(stars, first, rest);
      r
  }

  /** For two stars, the sorted distinct list is [min, max], or [s] when equal. */
  lemma TwoStars(stars: seq<string>, first: string, rest: seq<string>)
    requires |stars| > 0 && first == MinStr(stars) && rest == Without(stars, first)
    ensures |stars| == 2 && stars[0] == stars[1] ==> first == stars[0] && rest == []
    ensures |stars| == 2 && stars[0] != stars[1] ==>
      |rest| > 0 && if StrLess(stars[0], stars[1]) then first == stars[0] && MinStr(rest) == stars[1]
                   else first == stars[1] && MinStr(rest) == stars[0]
  {
    if |stars| == 2 {
      var s0, s1 := stars[0], stars[1];
      assert stars[1..] == [s1] && [s1][1..] == [];
      assert Without([s1], first) == if s1 == first then [] else [s1];
      assert rest == if s0 == first then Without([s1], first) else [s0] + Without([s1], first);
      if s0 == s1 {
        assert first == s0;
      } else {
        StrLessTotal(s0, s1);
        if StrLess(s0, s1) {
          StrLessAsymmetric(s0, s1);
          assert first == s0;
          assert rest == [s1];
        } else {
          assert first == s1;
          assert rest == [s0];
        }
      }
    }
  }

  /** The label of two alleles does not depend on the order they were found in. */
  lemma BuildDiplotypeLabelSymmetric(a: VariantAnnotation, b: VariantAnnotation, gene: string)
    ensures BuildDiplotypeLabel([a, b], gene) == BuildDiplotypeLabel([b, a], gene)
  {
    if a.starAllele != b.starAllele {
      StrLessTotal(a.starAllele, b.starAllele);
      if StrLess(a.starAllele, b.starAllele) {
        StrLessAsymmetric(a.starAllele, b.starAllele);
      } else {
        StrLessAsymmetric(b.starAllele, a.starAllele);
      }
    }
  }
}
