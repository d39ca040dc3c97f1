/** The IPA vowel catalogue of the analyzer and its nearest-vowel classifier.
    The square root is a parameter: the classifier's own results hold for any
    function in its place, and the properties that need a true root say so. */
module Vowels {
  import opened Common

  datatype ReferenceVowel = ReferenceVowel(symbol: string, f1: real, f2: real, name: string)

  /** The fourteen catalogue entries, in the order the classifier visits them. */
  const Catalogue: seq<ReferenceVowel> := [
    ReferenceVowel("i", 280.0, 2300.0, "close front"),
    ReferenceVowel("ɪ", 400.0, 2000.0, "near-close front"),
    ReferenceVowel("e", 400.0, 2100.0, "close-mid front"),
    ReferenceVowel("ɛ", 550.0, 1900.0, "open-mid front"),
    ReferenceVowel("æ", 700.0, 1700.0, "near-open front"),
    ReferenceVowel("a", 800.0, 1500.0, "open front"),
    ReferenceVowel("ɨ", 300.0, 1600.0, "close central"),
    ReferenceVowel("ə", 500.0, 1500.0, "mid central"),
    ReferenceVowel("ɐ", 700.0, 1400.0, "near-open central"),
    ReferenceVowel("u", 300.0, 900.0, "close back"),
    ReferenceVowel("ʊ", 400.0, 1000.0, "near-close back"),
    ReferenceVowel("o", 450.0, 900.0, "close-mid back"),
    ReferenceVowel("ɔ", 600.0, 1000.0, "open-mid back"),
    ReferenceVowel("ɑ", 750.0, 1100.0, "open back")
  ]

  const F1Weight: real := 1.2
  const F2Weight: real := 0.8
  /** The distance at which confidence reaches zero. */
  const ConfidenceScale: real := 400.0

  /** `x` squared, as `f1_diff**2` and `f2_diff**2` compute it. Dafny's
      arithmetic does not relate `x * x` to a product of two factors, so the
      second factor is written `Same(x)` and the sign lemmas below, stated
      for a product `a * b`, apply to it. */
  function Square(x: real): real { x * Same(x) }

  /** The identity on reals, naming the second factor of a square. */
  function Same(x: real): real { x }

  lemma ProductSign(a: real, b: real)
    ensures a > 0.0 && b > 0.0 ==> a * b > 0.0
    ensures a < 0.0 && b < 0.0 ==> a * b > 0.0
    ensures a == 0.0 ==> a * b == 0.0
  {
  }

  /** A square is non-negative, and zero only at zero. */
  lemma SquareSign(x: real)
    ensures Square(x) >= 0.0
    ensures x != 0.0 ==> Square(x) > 0.0
    ensures x == 0.0 ==> Square(x) == 0.0
  {
    ProductSign(x, Same(x));
  }

  /** Square of the weighted F1/F2 distance from (f1, f2) to `v`: never
      negative, and zero exactly at the entry itself. */
  function WeightedSq(f1: real, f2: real, v: ReferenceVowel): (sq: real)
    ensures sq >= 0.0
    ensures sq == 0.0 <==> f1 == v.f1 && f2 == v.f2
  {
    var d1 := (f1 - v.f1) * F1Weight;
    var d2 := (f2 - v.f2) * F2Weight;
    SquareSign(d1);
    SquareSign(d2);
    Square(d1) + Square(d2)
  }

  /** The distance the classifier compares: the square root (NumPy's, a
      parameter here) of the weighted squared distance. With a true root it is
      non-negative, squares to the weighted squared distance, and is zero
      exactly at the entry itself. */
  function Distance(f1: real, f2: real, v: ReferenceVowel, sqrt: real -> real): (d: real)
    ensures IsSqrt(sqrt) ==> d >= 0.0 && Square(d) == WeightedSq(f1, f2, v)
    ensures IsSqrt(sqrt) ==> (d == 0.0 <==> f1 == v.f1 && f2 == v.f2)
  {
    SqrtZero(sqrt, WeightedSq(f1, f2, v));
    sqrt(WeightedSq(f1, f2, v))
  }

  /** `k` is the first entry among the first `n` whose distance is least:
      no entry is nearer, and every earlier entry is strictly farther. */
  ghost predicate IsFirstNearestIn(f1: real, f2: real, sqrt: real -> real, n: nat, k: int)
    requires n <= |Catalogue|
  {
    && 0 <= k < n
    && (forall j :: 0 <= j < n ==> Distance(f1, f2, Catalogue[k], sqrt) <= Distance(f1, f2, Catalogue[j], sqrt))
    && (forall j :: 0 <= j < k ==> Distance(f1, f2, Catalogue[k], sqrt) < Distance(f1, f2, Catalogue[j], sqrt))
  }

  ghost predicate IsFirstNearest(f1: real, f2: real, sqrt: real -> real, k: int)
  {
    IsFirstNearestIn(f1, f2, sqrt, |Catalogue|, k)
  }

  /** The first minimum among the first `n` entries: a later entry replaces
      the current choice only when it is strictly nearer. */
  function NearestIn(f1: real, f2: real, sqrt: real -> real, n: nat): (k: nat)
    requires 1 <= n <= |Catalogue|
    ensures IsFirstNearestIn(f1, f2, sqrt, n, k)
  {
    if n == 1 then 0
    else
      var k := NearestIn(f1, f2, sqrt, n - 1);
      if Distance(f1, f2, Catalogue[n - 1], sqrt) < Distance(f1, f2, Catalogue[k], sqrt) then n - 1 else k
  }

  function NearestIndex(f1: real, f2: real, sqrt: real -> real): (k: nat)
    ensures IsFirstNearest(f1, f2, sqrt, k)
  {
    NearestIn(f1, f2, sqrt, |Catalogue|)
  }

  /** The first nearest entry is unique. */
  lemma FirstNearestUnique(f1: real, f2: real, sqrt: real -> real, n: nat, a: int, b: int)
    requires n <= |Catalogue|
    requires IsFirstNearestIn(f1, f2, sqrt, n, a) && IsFirstNearestIn(f1, f2, sqrt, n, b)
    ensures a == b
  {
    var da, db := Distance(f1, f2, Catalogue[a], sqrt), Distance(f1, f2, Catalogue[b], sqrt);
    assert da <= db && db <= da;
    assert a < b ==> db < da;
    assert b < a ==> da < db;
  }

  /** `max(0, 1 - d / 400)`: zero at and beyond 400 Hz, one exactly at distance zero. */
  function Confidence(d: real): (c: real)
    ensures c >= 0.0
    ensures d >= 0.0 ==> c <= 1.0
    ensures c == 1.0 <==> d == 0.0
    ensures d >= ConfidenceScale ==> c == 0.0
  {
    Max(0.0, 1.0 - d / ConfidenceScale)
  }

  /** A nearer match never has a lower confidence. */
  lemma ConfidenceMonotone(d: real, e: real)
    requires d <= e
    ensures Confidence(e) <= Confidence(d)
  {
  }

  /** The classifier: no vowel and zero confidence when either formant is
      missing (zero); otherwise the first nearest entry, with a confidence
      taken from its distance. */
  function Detect(f1: real, f2: real, sqrt: real -> real): (r: (Option<string>, real))
    ensures r.0.None? <==> f1 == 0.0 || f2 == 0.0
    ensures r.0.None? ==> r.1 == 0.0
    ensures r.1 >= 0.0
    ensures r.0.Some? ==>
      var k := NearestIndex(f1, f2, sqrt);
      && r.0.value == Catalogue[k].symbol
      && r.1 == Confidence(Distance(f1, f2, Catalogue[k], sqrt))
  {
    if f1 == 0.0 || f2 == 0.0 then (None, 0.0)
    else
      var k := NearestIndex(f1, f2, sqrt);
      (Some(Catalogue[k].symbol), Confidence(Distance(f1, f2, Catalogue[k], sqrt)))
  }

  /** `sqrt` is a square root on the non-negative reals. */
  ghost predicate IsSqrt(sqrt: real -> real)
  {
    forall x :: x >= 0.0 ==> sqrt(x) >= 0.0 && Square(sqrt(x)) == x
  }

  /** A true square root is zero exactly at zero. */
  lemma SqrtZero(sqrt: real -> real, x: real)
    ensures IsSqrt(sqrt) && x >= 0.0 ==> sqrt(x) >= 0.0 && Square(sqrt(x)) == x
    ensures IsSqrt(sqrt) && x >= 0.0 ==> (sqrt(x) == 0.0 <==> x == 0.0)
  {
    if IsSqrt(sqrt) && x >= 0.0 {
      var d := sqrt(x);
      assert d >= 0.0 && Square(d) == x;
      SquareSign(d);
    }
  }

  /** With a true square root, confidence lies in [0, 1] and is 1 exactly
      when the input coincides with the chosen entry. */
  lemma DetectConfidence(f1: real, f2: real, sqrt: real -> real)
    requires IsSqrt(sqrt)
    requires f1 != 0.0 && f2 != 0.0
    ensures var r := Detect(f1, f2, sqrt);
      && 0.0 <= r.1 <= 1.0
      && (r.1 == 1.0 <==> var v := Catalogue[NearestIndex(f1, f2, sqrt)]; f1 == v.f1 && f2 == v.f2)
  {
    SqrtZero(sqrt, WeightedSq(f1, f2, Catalogue[NearestIndex(f1, f2, sqrt)]));
  }

  /** Squaring is monotone on the non-negative reals. */
  lemma SquareMonotone(a: real, b: real)
    requires 0.0 <= a <= b
    ensures Square(a) <= Square(b)
  {
    ProductSign(b - a, Same(b + a));
    assert Square(b) - Square(a) == (b - a) * (b + a);
  }

  /** With a true square root, the chosen entry is also the first nearest by
      squared distance: comparing roots and comparing squares pick the same vowel. */
  lemma NearestBySquaredDistance(f1: real, f2: real, sqrt: real -> real, k: int)
    requires IsSqrt(sqrt) && IsFirstNearest(f1, f2, sqrt, k)
    ensures forall j :: 0 <= j < |Catalogue| ==> WeightedSq(f1, f2, Catalogue[k]) <= WeightedSq(f1, f2, Catalogue[j])
    ensures forall j :: 0 <= j < k ==> WeightedSq(f1, f2, Catalogue[k]) < WeightedSq(f1, f2, Catalogue[j])
  {
    forall j | 0 <= j < |Catalogue|
      ensures WeightedSq(f1, f2, Catalogue[k]) <= WeightedSq(f1, f2, Catalogue[j])
    {
      var x, y := WeightedSq(f1, f2, Catalogue[k]), WeightedSq(f1, f2, Catalogue[j]);
      assert sqrt(x) >= 0.0 && Square(sqrt(x)) == x;
      assert sqrt(y) >= 0.0 && Square(sqrt(y)) == y;
      SquareMonotone(sqrt(x), sqrt(y));
    }
  }

  /** Every index is one of the fourteen catalogue positions. */
  lemma CatalogueIndex(j: int)
    requires 0 <= j < |Catalogue|
    ensures j == 0 || j == 1 || j == 2 || j == 3 || j == 4 || j == 5 || j == 6
         || j == 7 || j == 8 || j == 9 || j == 10 || j == 11 || j == 12 || j == 13
  {
  }

  /** No two catalogue entries share their (F1, F2) pair. */
  lemma CatalogueDistinct(j: int, k: int)
    requires 0 <= j < |Catalogue| && 0 <= k < |Catalogue| && j != k
    ensures Catalogue[j].f1 != Catalogue[k].f1 || Catalogue[j].f2 != Catalogue[k].f2
  {
    CatalogueIndex(j);
    CatalogueIndex(k);
  }

  /** The catalogue is a dictionary keyed by symbol: no two entries share one. */
  lemma CatalogueKeysDistinct(j: int, k: int)
    requires 0 <= j < |Catalogue| && 0 <= k < |Catalogue| && j != k
    ensures Catalogue[j].symbol != Catalogue[k].symbol
  {
    CatalogueIndex(j);
    CatalogueIndex(k);
  }

  /** Feeding an entry's own formants back in yields that entry with full confidence. */
  lemma RoundTrip(k: int, sqrt: real -> real)
    requires 0 <= k < |Catalogue|
    requires IsSqrt(sqrt)
    ensures Detect(Catalogue[k].f1, Catalogue[k].f2, sqrt) == (Some(Catalogue[k].symbol), 1.0)
  {
    var v := Catalogue[k];
    SqrtZero(sqrt, WeightedSq(v.f1, v.f2, v));
    forall j | 0 <= j < |Catalogue| && j != k
      ensures Distance(v.f1, v.f2, Catalogue[j], sqrt) > 0.0
    {
      CatalogueDistinct(j, k);
      SqrtZero(sqrt, WeightedSq(v.f1, v.f2, Catalogue[j]));
    }
    assert IsFirstNearest(v.f1, v.f2, sqrt, k);
    FirstNearestUnique(v.f1, v.f2, sqrt, |Catalogue|, k, NearestIndex(v.f1, v.f2, sqrt));
  }

  /** The close front vowel: (280, 2300) is classified as "i" with confidence 1. */
  lemma CloseFrontExample(sqrt: real -> real)
    requires IsSqrt(sqrt)
    ensures Detect(280.0, 2300.0, sqrt) == (Some("i"), 1.0)
  {
    RoundTrip(0, sqrt);
  }

  /** The classifier loop: visits the catalogue in order and keeps the first
      strictly smaller distance (`min_distance` starts at infinity, modelled
      by `None`). */
  method DetectVowel(f1: real, f2: real, sqrt: real -> real) returns (vowel: Option<string>, confidence: real)
    ensures (vowel, confidence) == Detect(f1, f2, sqrt)
  {
    if f1 == 0.0 || f2 == 0.0 {
      return None, 0.0;
    }
    var minDistance: Option<real> := None;
    var nearest: nat := 0;
    var i := 0;
    while i < |Catalogue|
      invariant 0 <= i <= |Catalogue|
      invariant minDistance.None? <==> i == 0
      invariant i > 0 ==> IsFirstNearestIn(f1, f2, sqrt, i, nearest)
      invariant i > 0 ==> minDistance.value == Distance(f1, f2, Catalogue[nearest], sqrt)
    {
      var distance := sqrt(WeightedSq(f1, f2, Catalogue[i]));
      if minDistance.None? || distance < minDistance.value {
        minDistance := Some(distance);
        nearest := i;
      }
      i := i + 1;
    }
    FirstNearestUnique(f1, f2, sqrt, |Catalogue|, nearest, NearestIndex(f1, f2, sqrt));
    vowel := Some(Catalogue[nearest].symbol);
    confidence := Confidence(minDistance.value);
  }
}
