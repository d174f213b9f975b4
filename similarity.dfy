/**
 * The speech-answer matcher of the pronunciation exercise: normalisation of the target and
 * the transcript, the Levenshtein distance filled in a (m+1) x (n+1) matrix, and the 0.85
 * similarity threshold, stated exactly over integers.
 */
module Similarity {
  import opened Wrappers

  /** The Foundation facilities the normaliser uses: `lowercased()` and two character sets. */
  datatype TextOps = TextOps(
    lower: string -> string,
    isWhitespaceOrNewline: char -> bool,
    isPunctuation: char -> bool)

  // ---------------------------------------------------------------- trimming

  function TrimStart(s: string, p: char -> bool): (r: string)
    ensures |r| <= |s| && r == s[|s| - |r|..]
    ensures forall i :: 0 <= i < |s| - |r| ==> p(s[i])
    ensures r != [] ==> !p(r[0])
  {
    if s != [] && p(s[0]) then TrimStart(s[1..], p) else s
  }

  function TrimEnd(s: string, p: char -> bool): (r: string)
    ensures |r| <= |s| && r == s[..|r|]
    ensures forall i :: |r| <= i < |s| ==> p(s[i])
    ensures r != [] ==> !p(r[|r| - 1])
  {
    if s != [] && p(s[|s| - 1]) then TrimEnd(s[..|s| - 1], p) else s
  }

  /** `trimmingCharacters(in:)`: drop the longest prefix and the longest suffix made of characters in `p`. */
  function Trim(s: string, p: char -> bool): (r: string)
    ensures r != [] ==> !p(r[0]) && !p(r[|r| - 1])
  {
    TrimEnd(TrimStart(s, p), p)
  }

  /** TrimStart stops at the first character outside `p`. */
  lemma {:induction false} TrimStartAt(s: string, p: char -> bool, a: nat)
    requires a <= |s|
    requires forall i :: 0 <= i < a ==> p(s[i])
    requires a < |s| ==> !p(s[a])
    ensures TrimStart(s, p) == s[a..]
  {
    if a > 0 {
      assert p(s[0]);
      assert s[1..][a - 1..] == s[a..];
      TrimStartAt(s[1..], p, a - 1);
    }
  }

  /** TrimEnd stops after the last character outside `p`. */
  lemma {:induction false} TrimEndAt(s: string, p: char -> bool, b: nat)
    requires b <= |s|
    requires forall i :: b <= i < |s| ==> p(s[i])
    requires b > 0 ==> !p(s[b - 1])
    ensures TrimEnd(s, p) == s[..b]
  {
    if b < |s| {
      assert p(s[|s| - 1]);
      var init := s[..|s| - 1];
      assert init[..b] == s[..b];
      TrimEndAt(init, p, b);
    }
  }

  /**
   * Trim is characterised by the cut points: whenever s[..a] and s[b..] consist of `p`
   * characters only and s[a..b] neither starts nor ends with one, Trim gives exactly
   * s[a..b]. Interior characters are never touched.
   */
  lemma TrimIsSlice(s: string, p: char -> bool, a: nat, b: nat)
    requires a <= b <= |s|
    requires forall i :: 0 <= i < a ==> p(s[i])
    requires forall i :: b <= i < |s| ==> p(s[i])
    requires a < b ==> !p(s[a]) && !p(s[b - 1])
    ensures Trim(s, p) == s[a..b]
  {
    if a < b {
      TrimStartAt(s, p, a);
      TrimEndOfSuffix(s, p, a, b);
    } else {
      TrimStartAt(s, p, |s|);
      TrimEndAt(s[|s|..], p, 0);
    }
  }

  lemma TrimEndOfSuffix(s: string, p: char -> bool, a: nat, b: nat)
    requires a < b <= |s|
    requires forall i :: b <= i < |s| ==> p(s[i])
    requires !p(s[b - 1])
    ensures TrimEnd(s[a..], p) == s[a..b]
  {
    var t := s[a..];
    assert forall i :: b - a <= i < |t| ==> p(t[i]) by {
      forall i | b - a <= i < |t| ensures p(t[i]) { assert t[i] == s[a + i]; }
    }
    TrimEndAt(t, p, b - a);
    assert t[..b - a] == s[a..b];
  }

  /** Trimming twice changes nothing further. */
  lemma TrimIdempotent(s: string, p: char -> bool)
    ensures Trim(Trim(s, p), p) == Trim(s, p)
  {
    var r := Trim(s, p);
    TrimIsSlice(r, p, 0, |r|);
  }

  /**
   * The normalisation applied identically to the target text and to the transcript:
   * lower-case, then trim whitespace and newlines, then trim punctuation.
   */
  function Normalize(ops: TextOps, s: string): (r: string)
    ensures r != [] ==> !ops.isPunctuation(r[0]) && !ops.isPunctuation(r[|r| - 1])
  {
    Trim(Trim(ops.lower(s), ops.isWhitespaceOrNewline), ops.isPunctuation)
  }

  // ---------------------------------------------------------------- edit distance

  /** Swift's three-argument `min`. */
  function Min3(a: int, b: int, c: int): (r: int)
    ensures r <= a && r <= b && r <= c
    ensures r == a || r == b || r == c
  {
    if a <= b && a <= c then a else if b <= c then b else c
  }

  /**
   * The value of `matrix[i][j]` in the dynamic programme: the edit distance between the
   * prefixes s[..i] and t[..j]. Row 0 and column 0 are the borders; equal characters copy
   * the diagonal, otherwise the cell is 1 + the minimum of its three neighbours.
   */
  function Cell(s: string, t: string, i: nat, j: nat): nat
    requires i <= |s| && j <= |t|
    decreases i + j
  {
    if i == 0 then j
    else if j == 0 then i
    else if s[i - 1] == t[j - 1] then Cell(s, t, i - 1, j - 1)
    else Min3(Cell(s, t, i - 1, j) + 1, Cell(s, t, i, j - 1) + 1, Cell(s, t, i - 1, j - 1) + 1)
  }

  function EditDistance(s: string, t: string): nat {
    Cell(s, t, |s|, |t|)
  }

  lemma {:induction false} CellSymmetric(s: string, t: string, i: nat, j: nat)
    requires i <= |s| && j <= |t|
    ensures Cell(s, t, i, j) == Cell(t, s, j, i)
    decreases i + j
  {
    if i > 0 && j > 0 {
      CellSymmetric(s, t, i - 1, j - 1);
      if s[i - 1] != t[j - 1] {
        CellSymmetric(s, t, i - 1, j);
        CellSymmetric(s, t, i, j - 1);
      }
    }
  }

  lemma {:induction false} CellDiagonalZero(s: string, i: nat)
    requires i <= |s|
    ensures Cell(s, s, i, i) == 0
  {
    if i > 0 { CellDiagonalZero(s, i - 1); }
  }

  lemma {:induction false} CellUpperBound(s: string, t: string, i: nat, j: nat)
    requires i <= |s| && j <= |t|
    ensures Cell(s, t, i, j) <= if i < j then j else i
    decreases i + j
  {
    if i > 0 && j > 0 { CellUpperBound(s, t, i - 1, j - 1); }
  }

  lemma {:induction false} CellLowerBound(s: string, t: string, i: nat, j: nat)
    requires i <= |s| && j <= |t|
    ensures Cell(s, t, i, j) >= if i < j then j - i else i - j
    decreases i + j
  {
    if i > 0 && j > 0 {
      CellLowerBound(s, t, i - 1, j - 1);
      if s[i - 1] != t[j - 1] {
        CellLowerBound(s, t, i - 1, j);
        CellLowerBound(s, t, i, j - 1);
      }
    }
  }

  lemma {:induction false} CellZeroOnlyOnEqualPrefixes(s: string, t: string, i: nat, j: nat)
    requires i <= |s| && j <= |t|
    requires Cell(s, t, i, j) == 0
    ensures i == j && s[..i] == t[..j]
    decreases i + j
  {
    if i > 0 && j > 0 {
      CellZeroOnlyOnEqualPrefixes(s, t, i - 1, j - 1);
      assert s[..i] == s[..i - 1] + [s[i - 1]];
      assert t[..j] == t[..j - 1] + [t[j - 1]];
    }
  }

  /** The distance is zero exactly on equal strings. */
  lemma EditDistanceZeroIffEqual(s: string, t: string)
    ensures EditDistance(s, t) == 0 <==> s == t
  {
    if s == t { CellDiagonalZero(s, |s|); }
    if EditDistance(s, t) == 0 {
      CellZeroOnlyOnEqualPrefixes(s, t, |s|, |t|);
      assert s == s[..|s|] && t == t[..|t|];
    }
  }

  lemma EditDistanceSymmetric(s: string, t: string)
    ensures EditDistance(s, t) == EditDistance(t, s)
  {
    CellSymmetric(s, t, |s|, |t|);
  }

  /** ||s| - |t|| <= d <= max(|s|, |t|) */
  lemma EditDistanceBounds(s: string, t: string)
    ensures EditDistance(s, t) <= MaxLength(s, t)
    ensures EditDistance(s, t) >= if |s| < |t| then |t| - |s| else |s| - |t|
  {
    CellUpperBound(s, t, |s|, |t|);
    CellLowerBound(s, t, |s|, |t|);
  }

  /**
   * `levenshteinDistance`: fills the matrix row by row. The loops run over the half-open
   * ranges 1 ..< m+1 and 1 ..< n+1, so an empty string leaves them empty instead of trapping.
   */
  method LevenshteinDistance(s1: string, s2: string) returns (d: nat)
    ensures d == EditDistance(s1, s2)
  {
    var m, n := |s1|, |s2|;
    var matrix := new nat[m + 1, n + 1];
    for i := 0 to m + 1
      invariant forall i' :: 0 <= i' < i ==> matrix[i', 0] == i'
    {
      matrix[i, 0] := i;
    }
    for j := 0 to n + 1
      invariant forall i' :: 0 < i' <= m ==> matrix[i', 0] == i'
      invariant forall j' :: 0 <= j' < j ==> matrix[0, j'] == j'
    {
      matrix[0, j] := j;
    }
    assert forall j' {:trigger matrix[0, j']} :: 0 <= j' <= n ==> matrix[0, j'] == Cell(s1, s2, 0, j');
    for i := 1 to m + 1
      invariant forall i', j' {:trigger matrix[i', j']} :: 0 <= i' < i && 0 <= j' <= n ==> matrix[i', j'] == Cell(s1, s2, i', j')
      invariant forall i' :: i <= i' <= m ==> matrix[i', 0] == i'
    {
      FillRow(matrix, s1, s2, i);
    }
    d := matrix[m, n];
  }

  /** The inner loop of `levenshteinDistance`: fills row i from row i - 1 and the cell to the left. */
  method FillRow(matrix: array2<nat>, s1: string, s2: string, i: nat)
    requires matrix.Length0 == |s1| + 1 && matrix.Length1 == |s2| + 1
    requires 0 < i <= |s1| && matrix[i, 0] == i
    requires forall j' {:trigger matrix[i - 1, j']} :: 0 <= j' <= |s2| ==> matrix[i - 1, j'] == Cell(s1, s2, i - 1, j')
    modifies matrix
    ensures forall j' {:trigger matrix[i, j']} :: 0 <= j' <= |s2| ==> matrix[i, j'] == Cell(s1, s2, i, j')
    ensures forall i', j' :: 0 <= i' < matrix.Length0 && 0 <= j' < matrix.Length1 && i' != i ==>
      matrix[i', j'] == old(matrix[i', j'])
  {
    assert matrix[i, 0] == Cell(s1, s2, i, 0);
    for j := 1 to |s2| + 1
      invariant forall j' {:trigger matrix[i - 1, j']} :: 0 <= j' <= |s2| ==> matrix[i - 1, j'] == Cell(s1, s2, i - 1, j')
      invariant forall j' {:trigger matrix[i, j']} :: 0 <= j' < j ==> matrix[i, j'] == Cell(s1, s2, i, j')
      invariant forall i', j' :: 0 <= i' < matrix.Length0 && 0 <= j' < matrix.Length1 && i' != i ==>
        matrix[i', j'] == old(matrix[i', j'])
    {
      var up, left, diag := matrix[i - 1, j], matrix[i, j - 1], matrix[i - 1, j - 1];
      var v := if s1[i - 1] == s2[j - 1] then diag else Min3(up + 1, left + 1, diag + 1);
      CellStep(s1, s2, i, j);
      matrix[i, j] := v;
    }
  }

  /** One cell of the recurrence, for use where the definition is not unfolded. */
  lemma CellStep(s: string, t: string, i: nat, j: nat)
    requires 0 < i <= |s| && 0 < j <= |t|
    ensures Cell(s, t, i, j) == if s[i - 1] == t[j - 1] then Cell(s, t, i - 1, j - 1)
      else Min3(Cell(s, t, i - 1, j) + 1, Cell(s, t, i, j - 1) + 1, Cell(s, t, i - 1, j - 1) + 1)
  {
  }

  // ---------------------------------------------------------------- the threshold

  function MaxLength(s: string, t: string): nat {
    if |s| < |t| then |t| else |s|
  }

  /**
   * `1 - d / maxLength >= 0.85` in exact arithmetic: d/max <= 3/20. When both strings are
   * empty the Double quotient 0/0 is NaN and the comparison is false.
   */
  predicate Similar(s: string, t: string) {
    var mx := MaxLength(s, t);
    mx > 0 && 20 * EditDistance(s, t) <= 3 * mx
  }

  /** `areStringsSimilar`, with the loops of `levenshteinDistance` written as half-open ranges. */
  method AreStringsSimilar(str1: string, str2: string) returns (r: bool)
    ensures r == Similar(str1, str2)
    ensures r ==> (str1 != [] && str2 != [])
    ensures str1 == str2 ==> r == (str1 != [])
  {
    var distance := LevenshteinDistance(str1, str2);
    var maxLength := if |str1| < |str2| then |str2| else |str1|;
    r := maxLength > 0 && 20 * distance <= 3 * maxLength;
    if r { EditDistanceBounds(str1, str2); }
    if str1 == str2 { EditDistanceZeroIffEqual(str1, str2); }
  }

  lemma SimilarSymmetric(s: string, t: string)
    ensures Similar(s, t) == Similar(t, s)
  {
    EditDistanceSymmetric(s, t);
  }

  /** A non-empty string always matches itself (similarity 1.0). */
  lemma SimilarReflexive(s: string)
    requires s != []
    ensures Similar(s, s)
  {
    EditDistanceZeroIffEqual(s, s);
  }

  /** An empty transcript never matches; an empty target never matches. */
  lemma EmptyNeverSimilar(s: string)
    ensures !Similar(s, []) && !Similar([], s)
  {
    EditDistanceBounds(s, []);
    EditDistanceBounds([], s);
  }

  /** The threshold is inclusive: with 20 characters, three edits still match and four do not. */
  lemma ThresholdInclusive(s: string, t: string)
    requires MaxLength(s, t) == 20
    ensures EditDistance(s, t) == 3 ==> Similar(s, t)
    ensures EditDistance(s, t) == 4 ==> !Similar(s, t)
  {
  }

  // ---------------------------------------------------------------- the source as written

  /**
   * `levenshteinDistance` as written iterates `for i in 1...m` and `for j in 1...n`; a closed
   * range whose upper bound is below its lower bound traps, so it is defined only when both
   * strings are non-empty. None stands for the trap.
   */
  function AreStringsSimilarAsWritten(str1: string, str2: string): (r: Option<bool>)
    ensures r.Some? <==> str1 != [] && str2 != []
  {
    if str1 == [] || str2 == [] then None
    else Some(Similar(str1, str2))
  }

  /** An empty transcript (recognition stopped before any words) traps in the source. */
  lemma AsWrittenTrapsOnEmptyTranscript()
    ensures AreStringsSimilarAsWritten("cat", "") == None
  {
  }

  /** Wherever the source does not trap, the corrected matcher gives the same verdict. */
  lemma CorrectedAgreesWithAsWritten(str1: string, str2: string)
    requires AreStringsSimilarAsWritten(str1, str2).Some?
    ensures AreStringsSimilarAsWritten(str1, str2) == Some(Similar(str1, str2))
  {
  }

  // ---------------------------------------------------------------- scenarios

  lemma ScenarioSameWord()
    ensures Similar("cat", "cat")
  {
    SimilarReflexive("cat");
  }

  /** "hello there" against "helo there": one deletion out of 11 characters. */
  lemma ScenarioOneTypo()
    ensures Similar("hello there", "helo there")
  {
    ScenarioOneTypoDistance();
  }

  lemma ScenarioOneTypoDistance()
    ensures EditDistance("hello there", "helo there") == 1
  {
    var s, t := "hello there", "helo there";
    // the common suffix "lo there" is copied along the diagonal
    assert s[3..11] == t[2..10];
    CellCommonSuffix(s, t, 11, 10, 8);
    // "hel" against "he": one deletion after the equal prefix "he"
    assert s[..2] == t[..2];
    CellPrefixEqual(s, t, 2);
    CellLowerBound(s, t, 3, 2);
    assert s[2] != t[1];
  }

  /** A common suffix of length k is skipped along the diagonal. */
  lemma {:induction false} CellCommonSuffix(s: string, t: string, i: nat, j: nat, k: nat)
    requires k <= i <= |s| && k <= j <= |t|
    requires s[i - k..i] == t[j - k..j]
    ensures Cell(s, t, i, j) == Cell(s, t, i - k, j - k)
  {
    if k > 0 {
      assert s[i - 1] == s[i - k..i][k - 1] == t[j - k..j][k - 1] == t[j - 1];
      assert s[i - k..i - 1] == s[i - k..i][..k - 1];
      assert t[j - k..j - 1] == t[j - k..j][..k - 1];
      CellCommonSuffix(s, t, i - 1, j - 1, k - 1);
    }
  }

  /** Equal prefixes give a zero diagonal cell. */
  lemma {:induction false} CellPrefixEqual(s: string, t: string, i: nat)
    requires i <= |s| && i <= |t| && s[..i] == t[..i]
    ensures Cell(s, t, i, i) == 0
  {
    if i > 0 {
      assert s[i - 1] == s[..i][i - 1] == t[..i][i - 1] == t[i - 1];
      assert s[..i - 1] == s[..i][..i - 1];
      assert t[..i - 1] == t[..i][..i - 1];
      CellPrefixEqual(s, t, i - 1);
    }
  }

  /** "good morning" against "good": at least eight edits out of twelve. */
  lemma ScenarioTruncatedAnswer()
    ensures EditDistance("good morning", "good") >= 8
    ensures !Similar("good morning", "good")
  {
    EditDistanceBounds("good morning", "good");
  }
}
