/**
 * The string and number utilities of src/utils/index.ts: Levenshtein distance,
 * case-insensitive similarity, unit-name normalisation and clamping.
 */
module Utils {
  import opened Ascii

  function Min(x: int, y: int): int { if x <= y then x else y }
  function Max(x: int, y: int): int { if x >= y then x else y }

  /** The standard edit distance: deleting from `a`, inserting into `a` and substituting a
      character each cost 1, keeping a matching character costs 0. It is zero exactly
      between equal strings. */
  function EditDistance(a: string, b: string): (d: nat)
    ensures d == 0 <==> a == b
    decreases |a| + |b|
  {
    if |a| == 0 then |b|
    else if |b| == 0 then |a|
    else
      var cost := if a[|a| - 1] == b[|b| - 1] then 0 else 1;
      Min(Min(EditDistance(a[..|a| - 1], b) + 1, EditDistance(a, b[..|b| - 1]) + 1),
          EditDistance(a[..|a| - 1], b[..|b| - 1]) + cost)
  }

  /** The distance differs from the difference of the lengths by nothing less. */
  lemma {:induction false} DistanceAtLeastLengthGap(a: string, b: string)
    ensures EditDistance(a, b) >= |a| - |b| && EditDistance(a, b) >= |b| - |a|
    decreases |a| + |b|
  {
    if |a| > 0 && |b| > 0 {
      DistanceAtLeastLengthGap(a[..|a| - 1], b);
      DistanceAtLeastLengthGap(a, b[..|b| - 1]);
      DistanceAtLeastLengthGap(a[..|a| - 1], b[..|b| - 1]);
    }
  }

  /** Dropping the last character of `b` lowers or raises the distance by at most one. */
  lemma {:induction false} DropLastOfSecond(a: string, b: string)
    requires |b| > 0
    ensures EditDistance(a, b[..|b| - 1]) <= EditDistance(a, b) + 1
    ensures EditDistance(a, b) <= EditDistance(a, b[..|b| - 1]) + 1
    decreases |a| + |b|
  {
    if |a| > 0 {
      if |b| == 1 {
        DistanceAtLeastLengthGap(a, b);
      } else {
        var a', b' := a[..|a| - 1], b[..|b| - 1];
        assert b'[..|b'| - 1] == b[..|b| - 2];
        DropLastOfSecond(a', b);
      }
    }
  }

  /** Dropping the last character of `a` lowers or raises the distance by at most one. */
  lemma {:induction false} DropLastOfFirst(a: string, b: string)
    requires |a| > 0
    ensures EditDistance(a[..|a| - 1], b) <= EditDistance(a, b) + 1
    ensures EditDistance(a, b) <= EditDistance(a[..|a| - 1], b) + 1
    decreases |a| + |b|
  {
    if |b| > 0 {
      if |a| == 1 {
        DistanceAtLeastLengthGap(a, b);
      } else {
        var a', b' := a[..|a| - 1], b[..|b| - 1];
        assert a'[..|a'| - 1] == a[..|a| - 2];
        DropLastOfFirst(a, b');
      }
    }
  }

  /** When the last characters match, the diagonal alone gives the distance: this is the
      shortcut the matrix fill in the source takes. */
  lemma MatchTakesDiagonal(a: string, b: string)
    requires |a| > 0 && |b| > 0 && a[|a| - 1] == b[|b| - 1]
    ensures EditDistance(a, b) == EditDistance(a[..|a| - 1], b[..|b| - 1])
  {
    DropLastOfSecond(a[..|a| - 1], b);
    DropLastOfFirst(a, b[..|b| - 1]);
  }

  /** The facts the source's comments and callers rely on: the distance to or from the
      empty string is the other length, a string is at distance 0 from itself, and no
      distance exceeds the longer length. */
  lemma {:induction false} DistanceBounds(a: string, b: string)
    ensures |a| == 0 ==> EditDistance(a, b) == |b|
    ensures |b| == 0 ==> EditDistance(a, b) == |a|
    ensures a == b ==> EditDistance(a, b) == 0
    ensures EditDistance(a, b) <= Max(|a|, |b|)
    decreases |a| + |b|
  {
    if |a| > 0 && |b| > 0 {
      DistanceBounds(a[..|a| - 1], b[..|b| - 1]);
    }
  }

  /** The distance does not depend on the order of its arguments. */
  lemma {:induction false} DistanceSymmetric(a: string, b: string)
    ensures EditDistance(a, b) == EditDistance(b, a)
    decreases |a| + |b|
  {
    if |a| > 0 && |b| > 0 {
      DistanceSymmetric(a[..|a| - 1], b);
      DistanceSymmetric(a, b[..|b| - 1]);
      DistanceSymmetric(a[..|a| - 1], b[..|b| - 1]);
    }
  }

  /** One cell of the matrix fill: a match copies the diagonal, anything else takes one
      more than the least of the diagonal, the left and the upper neighbour. */
  function Cell(same: bool, diagonal: nat, left: nat, up: nat): nat {
    if same then diagonal else Min(Min(diagonal + 1, left + 1), up + 1)
  }

  /** The cell for the first j characters of `a` and the first i of `b`, computed from its three
      neighbours, is their edit distance. */
  lemma CellIsDistance(a: string, b: string, i: nat, j: nat)
    requires 0 < i <= |b| && 0 < j <= |a|
    ensures Cell(b[i - 1] == a[j - 1], EditDistance(a[..j - 1], b[..i - 1]),
                 EditDistance(a[..j - 1], b[..i]), EditDistance(a[..j], b[..i - 1]))
            == EditDistance(a[..j], b[..i])
  {
    var a', b' := a[..j], b[..i];
    assert a'[..j - 1] == a[..j - 1] && b'[..i - 1] == b[..i - 1];
    if b[i - 1] == a[j - 1] {
      MatchTakesDiagonal(a', b');
    }
  }

  /** Fills row i (i >= 1) of the matrix from row i - 1. */
  method FillRow(matrix: array2<nat>, a: string, b: string, i: nat)
    requires matrix.Length0 == |b| + 1 && matrix.Length1 == |a| + 1 && 0 < i <= |b|
    requires matrix[i, 0] == i
    requires forall c :: 0 <= c <= |a| ==> matrix[i - 1, c] == EditDistance(a[..c], b[..i - 1])
    modifies matrix
    ensures forall c :: 0 <= c <= |a| ==> matrix[i, c] == EditDistance(a[..c], b[..i])
    ensures forall r, c :: 0 <= r < matrix.Length0 && 0 <= c < matrix.Length1 && r != i ==>
              matrix[r, c] == old(matrix[r, c])
  {
    assert EditDistance(a[..0], b[..i]) == i;
    for j := 1 to |a| + 1
      invariant forall c :: 0 <= c < j ==> matrix[i, c] == EditDistance(a[..c], b[..i])
      invariant forall c :: 0 <= c <= |a| ==> matrix[i - 1, c] == EditDistance(a[..c], b[..i - 1])
      invariant forall r, c :: 0 <= r < matrix.Length0 && 0 <= c < matrix.Length1 && r != i ==>
                  matrix[r, c] == old(matrix[r, c])
    {
      CellIsDistance(a, b, i, j);
      matrix[i, j] := Cell(b[i - 1] == a[j - 1], matrix[i - 1, j - 1], matrix[i, j - 1], matrix[i - 1, j]);
    }
  }

  /** levenshteinDistance: fills a (|b|+1) x (|a|+1) matrix whose cell [i, j] holds the
      distance between the first j characters of `a` and the first i characters of `b`. */
  method LevenshteinDistance(a: string, b: string) returns (d: nat)
    ensures d == EditDistance(a, b)
  {
    var matrix := new nat[|b| + 1, |a| + 1];
    for i := 0 to |b| + 1
      invariant forall r :: 0 <= r < i ==> matrix[r, 0] == r
    {
      matrix[i, 0] := i;
    }
    for j := 0 to |a| + 1
      invariant forall r :: 0 < r <= |b| ==> matrix[r, 0] == r
      invariant forall c :: 0 <= c < j ==> matrix[0, c] == c
    {
      matrix[0, j] := j;
    }
    assert forall c :: 0 <= c <= |a| ==> matrix[0, c] == EditDistance(a[..c], b[..0]);
    for i := 1 to |b| + 1
      invariant forall c :: 0 <= c <= |a| ==> matrix[i - 1, c] == EditDistance(a[..c], b[..i - 1])
      invariant forall r :: i <= r <= |b| ==> matrix[r, 0] == r
    {
      FillRow(matrix, a, b, i);
    }
    assert a[..|a|] == a && b[..|b|] == b;
    d := matrix[|b|, |a|];
  }

  /** `Math.round(num / den)` for a non-negative quotient: halves round up. */
  function RoundHalfUp(num: nat, den: nat): nat
    requires den > 0
  {
    (2 * num + den) / (2 * den)
  }

  lemma RoundedPercentAtMost100(k: nat, m: nat)
    requires 0 < m && k <= m
    ensures RoundHalfUp(k * 100, m) <= 100
    ensures k == m ==> RoundHalfUp(k * 100, m) == 100
  {
    var n, d := 2 * (k * 100) + m, 2 * m;
    assert n <= 201 * m < 101 * d;
    QuotientBelow(n, d, 101);
    if k == m {
      assert n == 100 * d + m;
      QuotientOf(100, m, d);
    }
  }

  lemma QuotientBelow(n: nat, d: nat, q: nat)
    requires 0 < d && n < q * d
    ensures n / d < q
  {
    var t := n / d;
    assert d * t <= n;
    if t >= q {
      MulMonotone(d, q, t);
      assert false;
    }
  }

  lemma QuotientOf(q: nat, r: nat, d: nat)
    requires r < d
    ensures (q * d + r) / d == q
  {
    var n := q * d + r;
    assert n < (q + 1) * d;
    QuotientBelow(n, d, q + 1);
    var t := n / d;
    if t < q {
      MulMonotone(d, t + 1, q);
      assert false;
    }
  }

  lemma MulMonotone(d: nat, a: nat, b: nat)
    requires a <= b
    ensures d * a <= d * b
  {
    assert d * b == d * a + d * (b - a);
  }

  /** stringSimilarity: the share of the longer length not spent on edits between the
      lower-cased strings, as a whole percentage. */
  function StringSimilarity(a: string, b: string): (r: nat)
    ensures r <= 100
    ensures |a| == 0 && |b| == 0 ==> r == 100
    ensures ToLower(a) == ToLower(b) ==> r == 100
  {
    var la, lb := ToLower(a), ToLower(b);
    var maxLength := Max(|a|, |b|);
    if maxLength == 0 then 100
    else
      DistanceBounds(la, lb);
      var distance := EditDistance(la, lb);
      RoundedPercentAtMost100(maxLength - distance, maxLength);
      RoundHalfUp((maxLength - distance) * 100, maxLength)
  }

  /** The 13 abbreviations normalizeUnit knows, and their full names. */
  const UnitNames: map<string, string> := map[
    "tbsp" := "tablespoon",
    "tsp" := "teaspoon",
    "oz" := "ounce",
    "lb" := "pound",
    "lbs" := "pound",
    "g" := "gram",
    "kg" := "kilogram",
    "ml" := "milliliter",
    "l" := "liter",
    "c" := "cup",
    "pt" := "pint",
    "qt" := "quart",
    "gal" := "gallon"
  ]

  /** normalizeUnit: lower-case and trim, then replace a known abbreviation by its name. The
      result is lower-case, has no whitespace at either end and is never an abbreviation. */
  function NormalizeUnit(unit: string): (r: string)
    ensures NoUpper(r)
    ensures r == [] || (!IsWhitespace(r[0]) && !IsWhitespace(r[|r| - 1]))
    ensures r !in UnitNames
  {
    ToLowerNoUpper(unit);
    TrimKeepsNoUpper(ToLower(unit));
    var normalized := Trim(ToLower(unit));
    if normalized in UnitNames then
      FullNamesAreNormal(normalized);
      FullNamesAreNotAbbreviations(normalized);
      UnitNames[normalized]
    else normalized
  }

  /** No full name is itself an abbreviation. */
  lemma FullNamesAreNotAbbreviations(k: string)
    requires k in UnitNames
    ensures UnitNames[k] !in UnitNames
  {
  }

  /** Every full name is lower-case and neither starts nor ends with whitespace. */
  lemma FullNamesAreNormal(k: string)
    requires k in UnitNames
    ensures NoUpper(UnitNames[k])
    ensures !IsWhitespace(UnitNames[k][0]) && !IsWhitespace(UnitNames[k][|UnitNames[k]| - 1])
  {
  }

  lemma NormalizeTbspExample()
    ensures NormalizeUnit(" TBSP ") == "tablespoon"
  {
    LowerTbsp();
    TrimTbsp();
  }

  lemma LowerTbsp()
    ensures ToLower(" TBSP ") == " tbsp "
  {
  }

  lemma TrimTbsp()
    ensures Trim(" tbsp ") == "tbsp"
  {
    var s, t, u := " tbsp ", "tbsp ", "tbsp";
    assert IsWhitespace(s[0]) && s[1..] == t;
    assert !IsWhitespace(t[0]);
    assert TrimStart(s) == t;
    assert IsWhitespace(t[|t| - 1]) && t[..|t| - 1] == u;
    assert !IsWhitespace(u[|u| - 1]);
    assert TrimEnd(t) == u;
  }

  lemma NormalizePoundExamples()
    ensures NormalizeUnit("lb") == "pound" && NormalizeUnit("lbs") == "pound"
  {
    NormalizeLb();
    NormalizeLbs();
  }

  lemma NormalizeLb()
    ensures NormalizeUnit("lb") == "pound"
  {
    var lb := "lb";
    assert lb in UnitNames && UnitNames[lb] == "pound";
    assert NoUpper(lb) && !IsWhitespace(lb[0]) && !IsWhitespace(lb[|lb| - 1]);
    NormalizeAbbreviation(lb);
  }

  lemma NormalizeLbs()
    ensures NormalizeUnit("lbs") == "pound"
  {
    var lbs := "lbs";
    assert lbs in UnitNames && UnitNames[lbs] == "pound";
    assert NoUpper(lbs) && !IsWhitespace(lbs[0]) && !IsWhitespace(lbs[|lbs| - 1]);
    NormalizeAbbreviation(lbs);
  }

  /** An abbreviation written in lower case without surrounding spaces maps to its name. */
  lemma NormalizeAbbreviation(s: string)
    requires s in UnitNames && NoUpper(s) && s != [] && !IsWhitespace(s[0]) && !IsWhitespace(s[|s| - 1])
    ensures NormalizeUnit(s) == UnitNames[s]
  {
    ToLowerFixesLower(s);
    TrimTrimmed(s);
  }

  /** A unit outside the table comes back lower-cased and trimmed. */
  lemma NormalizeUnlisted(unit: string)
    requires Trim(ToLower(unit)) !in UnitNames
    ensures var r := NormalizeUnit(unit);
            r == Trim(ToLower(unit)) && NoUpper(r) &&
            (r == [] || (!IsWhitespace(r[0]) && !IsWhitespace(r[|r| - 1])))
  {
  }

  /** Normalising a normalised unit changes nothing. */
  lemma NormalizeUnitIdempotent(unit: string)
    ensures NormalizeUnit(NormalizeUnit(unit)) == NormalizeUnit(unit)
  {
    var r := NormalizeUnit(unit);
    ToLowerFixesLower(r);
    TrimTrimmed(r);
    assert Trim(ToLower(r)) == r;
  }

  /** clamp: Math.min(Math.max(value, min), max). */
  function Clamp(value: int, min: int, max: int): (r: int)
    ensures min <= max ==> min <= r <= max
    ensures min <= value <= max ==> r == value
    ensures min > max ==> r == max
  {
    Min(Max(value, min), max)
  }
}
