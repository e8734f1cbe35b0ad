/**
 * Drug-name normalisation: the key under which a drug is looked up in the
 * rule table and in the supported-drug list. The name is stripped of
 * surrounding whitespace, lower-cased, and then every hyphen and every space
 * is removed, in that order.
 */
module DrugNames {

  /** The characters Python's str.isspace() accepts, which str.strip() removes. */
  predicate IsWhitespace(c: char) {
    || c == ' '
    || ('\t' <= c <= '\r')
    || ('\U{1C}' <= c <= '\U{1F}')
    || c == '\U{85}' || c == '\U{A0}' || c == '\U{1680}'
    || ('\U{2000}' <= c <= '\U{200A}')
    || c == '\U{2028}' || c == '\U{2029}' || c == '\U{202F}'
    || c == '\U{205F}' || c == '\U{3000}'
  }

  predicate IsUpper(c: char) {
    'A' <= c <= 'Z'
  }

  /** Drops the whitespace at the front of s. */
  function TrimLeading(s: string): string {
    if s != [] && IsWhitespace(s[0]) then TrimLeading(s[1..]) else s
  }

  /** What TrimLeading drops is whitespace, and what it keeps is a suffix
      that does not start with whitespace. */
  lemma {:induction false} TrimLeadingSuffix(s: string)
    ensures var r := TrimLeading(s);
      && |r| <= |s| && r == s[|s| - |r|..]
      && (r == [] || !IsWhitespace(r[0]))
      && (forall i | 0 <= i < |s| - |r| :: IsWhitespace(s[i]))
  {
    if s != [] && IsWhitespace(s[0]) {
      TrimLeadingSuffix(s[1..]);
      var r := TrimLeading(s);
      forall i | 1 <= i < |s| - |r| ensures IsWhitespace(s[i]) {
        assert s[i] == s[1..][i - 1];
      }
    }
  }

  /** Drops the whitespace at the back of s. */
  function TrimTrailing(s: string): string {
    if s != [] && IsWhitespace(s[|s| - 1]) then TrimTrailing(s[..|s| - 1]) else s
  }

  /** What TrimTrailing drops is whitespace, and what it keeps is a prefix
      that does not end with whitespace. */
  lemma {:induction false} TrimTrailingPrefix(s: string)
    ensures var r := TrimTrailing(s);
      && |r| <= |s| && r == s[..|r|]
      && (r == [] || !IsWhitespace(r[|r| - 1]))
      && (forall i | |r| <= i < |s| :: IsWhitespace(s[i]))
  {
    if s != [] && IsWhitespace(s[|s| - 1]) {
      TrimTrailingPrefix(s[..|s| - 1]);
    }
  }

  /** str.strip() with no argument. */
  function Strip(s: string): (r: string)
    ensures r == [] || (!IsWhitespace(r[0]) && !IsWhitespace(r[|r| - 1]))
    ensures forall c | c in r :: c in s
    ensures exists i, j | 0 <= i <= j <= |s| ::
      && r == s[i..j]
      && (forall k | 0 <= k < i :: IsWhitespace(s[k]))
      && (forall k | j <= k < |s| :: IsWhitespace(s[k]))
  {
    TrimLeadingSuffix(s);
    var front := TrimLeading(s);
    TrimTrailingPrefix(front);
    var r := TrimTrailing(front);
    var i := |s| - |front|;
    var j := i + |r|;
    assert r == s[i..j];
    forall k | j <= k < |s| ensures IsWhitespace(s[k]) {
      assert s[k] == front[k - i];
    }
    assert forall c | c in r :: c in front;
    r
  }

  function LowerChar(c: char): (r: char)
    ensures !IsUpper(r)
    ensures IsUpper(c) ==> r as int == c as int + 32 && 'a' <= r <= 'z'
    ensures !IsUpper(c) ==> r == c
  {
    if IsUpper(c) then (c as int + 32) as char else c
  }

  /** str.lower() on the ASCII letters; other characters are unchanged. */
  function Lower(s: string): (r: string)
    ensures |r| == |s|
    ensures forall i | 0 <= i < |s| :: r[i] == LowerChar(s[i])
  {
    seq(|s|, i requires 0 <= i < |s| => LowerChar(s[i]))
  }

  /** s.replace(c, "") for a one-character c: s with every c removed, order kept. */
  function RemoveAll(s: string, c: char): (r: string)
    ensures c !in r
    ensures forall x | x in r :: x in s
    ensures c !in s ==> r == s
  {
    if s == [] then []
    else if s[0] == c then RemoveAll(s[1..], c)
    else [s[0]] + RemoveAll(s[1..], c)
  }

  /** Removal drops every copy of c and keeps every other character as often as it occurs. */
  lemma {:induction false} RemoveAllMultiset(s: string, c: char)
    ensures multiset(RemoveAll(s, c)) == multiset(s)[c := 0]
  {
    if s != [] {
      RemoveAllMultiset(s[1..], c);
      assert s == [s[0]] + s[1..];
    }
  }

  /** Removal keeps the order of what remains: it distributes over concatenation. */
  lemma {:induction false} RemoveAllAppend(a: string, b: string, c: char)
    ensures RemoveAll(a + b, c) == RemoveAll(a, c) + RemoveAll(b, c)
  {
    if a != [] {
      assert (a + b)[0] == a[0] && (a + b)[1..] == a[1..] + b;
      RemoveAllAppend(a[1..], b, c);
    } else {
      assert a + b == b;
    }
  }

  /** _normalise_drug: strip, lower-case, then remove hyphens, then remove spaces. */
  function Normalise(name: string): (key: string)
    ensures ' ' !in key && '-' !in key
    ensures forall c | c in key :: !IsUpper(c)
  {
    RemoveAll(RemoveAll(Lower(Strip(name)), '-'), ' ')
  }

  /** A name that is already a clean key (no space, hyphen or capital, not
      bordered by whitespace) normalises to itself. */
  lemma NormaliseFixedPoint(t: string)
    requires ' ' !in t && '-' !in t
    requires forall c | c in t :: !IsUpper(c)
    requires t == [] || (!IsWhitespace(t[0]) && !IsWhitespace(t[|t| - 1]))
    ensures Normalise(t) == t
  {
    assert TrimLeading(t) == t;
    assert TrimTrailing(t) == t;
    assert Lower(t) == t;
  }

  /** Normalising twice is normalising once, for every name whose only
      whitespace is the plain space. */
  lemma NormaliseIdempotent(name: string)
    requires forall c | c in name && IsWhitespace(c) :: c == ' '
    ensures Normalise(Normalise(name)) == Normalise(name)
  {
    var stripped := Strip(name);
    var lowered := Lower(stripped);
    forall c | c in lowered
      ensures !IsWhitespace(c) || c == ' '
    {
      var i :| 0 <= i < |lowered| && lowered[i] == c;
      assert stripped[i] in stripped;
    }
    var key := Normalise(name);
    assert forall c | c in key :: c in lowered;
    assert forall c | c in key :: !IsWhitespace(c);
    NormaliseFixedPoint(key);
  }

  /** A hyphen in front of a tab hides the tab from str.strip(): the
      hyphen is removed afterwards and the tab stays at the front. */
  lemma NormaliseHyphenTab(k: string)
    requires k != [] && ' ' !in k && '-' !in k
    requires forall c | c in k :: !IsUpper(c)
    requires !IsWhitespace(k[|k| - 1])
    ensures Normalise("-\t" + k) == "\t" + k
  {
    var name := "-\t" + k;
    assert name[0] == '-' && name[|name| - 1] == k[|k| - 1];
    assert TrimLeading(name) == name;
    assert TrimTrailing(name) == name;
    forall i | 0 <= i < |name| ensures !IsUpper(name[i]) {
      if i >= 2 { assert name[i] == k[i - 2]; }
    }
    assert Lower(name) == name;
    assert name == ['-'] + ("\t" + k);
    assert RemoveAll(name, '-') == "\t" + k;
  }

  /** A leading tab is stripped. */
  lemma NormaliseTab(k: string)
    requires k != [] && ' ' !in k && '-' !in k
    requires forall c | c in k :: !IsUpper(c)
    requires !IsWhitespace(k[0]) && !IsWhitespace(k[|k| - 1])
    ensures Normalise("\t" + k) == k
  {
    var name := "\t" + k;
    assert name[1..] == k;
    assert TrimLeading(k) == k;
    assert TrimLeading(name) == k;
    NormaliseFixedPoint(k);
  }

  /** Normalisation is not idempotent in general: str.strip() runs before the
      hyphen is removed, so a tab behind a leading hyphen survives the first
      pass and is stripped by the second. For every clean key k (such as
      "codeine"), "-\t" + k normalises to "\t" + k, and that to k. */
  lemma NormaliseNotIdempotent(k: string)
    requires k != [] && ' ' !in k && '-' !in k
    requires forall c | c in k :: !IsUpper(c)
    requires !IsWhitespace(k[0]) && !IsWhitespace(k[|k| - 1])
    ensures Normalise("-\t" + k) == "\t" + k != k
    ensures Normalise(Normalise("-\t" + k)) == k
  {
    NormaliseHyphenTab(k);
    NormaliseTab(k);
    assert |"\t" + k| != |k|;
  }

  /** A trailing space and a capital letter do not change the lookup key. */
  lemma NormaliseWarfarin()
    ensures Normalise("Warfarin ") == "warfarin"
    ensures Normalise("warfarin") == "warfarin"
  {
    assert TrimLeading("Warfarin ") == "Warfarin ";
    assert TrimTrailing("Warfarin ") == "Warfarin";
    assert Lower("Warfarin") == "warfarin";
    NormaliseFixedPoint("warfarin");
  }
}
