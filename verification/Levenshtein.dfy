/** internal/detect/levenshtein.go: the bounded two-row edit distance, on rune sequences. */
module Levenshtein {

  function Min(a: int, b: int): int {
    if a < b then a else b
  }

  function Cost(x: char, y: char): int {
    if x == y then 0 else 1
  }

  /** The edit distance of the first `i` runes of `a` to the first `j` runes of `b`. */
  function Distance(a: string, b: string, i: nat, j: nat): (d: nat)
    requires i <= |a| && j <= |b|
  {
    if i == 0 then j
    else if j == 0 then i
    else Min(Min(Distance(a, b, i, j-1) + 1, Distance(a, b, i-1, j) + 1),
             Distance(a, b, i-1, j-1) + Cost(a[i-1], b[j-1]))
  }

  function EditDistance(a: string, b: string): nat {
    Distance(a, b, |a|, |b|)
  }

  // What the distance means: the cheapest way to turn one string into the other.

  datatype Edit = Keep(rune: char) | Replace(removed: char, added: char) | Delete(removed: char) | Insert(added: char)

  function Before(edits: seq<Edit>): string {
    if edits == [] then ""
    else Before(edits[..|edits|-1]) + match edits[|edits|-1] {
      case Keep(c) => [c]
      case Replace(c, _) => [c]
      case Delete(c) => [c]
      case Insert(_) => []
    }
  }

  function After(edits: seq<Edit>): string {
    if edits == [] then ""
    else After(edits[..|edits|-1]) + match edits[|edits|-1] {
      case Keep(c) => [c]
      case Replace(_, d) => [d]
      case Delete(_) => []
      case Insert(d) => [d]
    }
  }

  function Price(edits: seq<Edit>): nat {
    if edits == [] then 0
    else Price(edits[..|edits|-1]) + (if edits[|edits|-1].Keep? then 0 else 1)
  }

  /** The distance depends on the two prefixes only. */
  lemma {:induction false} OnPrefixes(a: string, b: string, i: nat, j: nat)
    requires i <= |a| && j <= |b|
    ensures Distance(a, b, i, j) == EditDistance(a[..i], b[..j])
    decreases i + j
  {
    SamePrefixes(a, b, a[..i], b[..j], i, j);
  }

  lemma {:induction false} SamePrefixes(a: string, b: string, a': string, b': string, i: nat, j: nat)
    requires i <= |a| && j <= |b| && i <= |a'| && j <= |b'| && a[..i] == a'[..i] && b[..j] == b'[..j]
    ensures Distance(a, b, i, j) == Distance(a', b', i, j)
    decreases i + j
  {
    if i > 0 && j > 0 {
      assert a[i-1] == a[..i][i-1] == a'[i-1] && b[j-1] == b[..j][j-1] == b'[j-1];
      assert a[..i-1] == a[..i][..i-1] == a'[..i-1] && b[..j-1] == b[..j][..j-1] == b'[..j-1];
      SamePrefixes(a, b, a', b', i, j-1);
      SamePrefixes(a, b, a', b', i-1, j);
      SamePrefixes(a, b, a', b', i-1, j-1);
    }
  }

  /** No sequence of edits is cheaper than the distance. */
  lemma {:induction false} NoCheaperEdits(edits: seq<Edit>)
    ensures EditDistance(Before(edits), After(edits)) <= Price(edits)
  {
    if edits != [] {
      var rest := edits[..|edits|-1];
      NoCheaperEdits(rest);
      var a, b := Before(edits), After(edits);
      var a', b' := Before(rest), After(rest);
      OnPrefixes(a, b, |a'|, |b'|);
      assert a[..|a'|] == a' && b[..|b'|] == b';
      if |a| == |a'| + 1 && |b| == |b'| {
        OneMoreBefore(a, b);
      } else if |a| == |a'| && |b| == |b'| + 1 {
        OneMoreAfter(a, b);
      }
    }
  }

  lemma OneMoreBefore(a: string, b: string)
    requires |a| > 0
    ensures EditDistance(a, b) <= Distance(a, b, |a|-1, |b|) + 1
  {
  }

  lemma OneMoreAfter(a: string, b: string)
    requires |b| > 0
    ensures EditDistance(a, b) <= Distance(a, b, |a|, |b|-1) + 1
  {
  }

  /** The last edit of a cheapest sequence. */
  lemma LastEdit(a: string, b: string) returns (last: Edit)
    requires a != "" || b != ""
    ensures !last.Insert? ==> a != "" && a[|a|-1] == (if last.Keep? then last.rune else last.removed)
    ensures !last.Delete? ==> b != "" && b[|b|-1] == (if last.Keep? then last.rune else last.added)
    ensures EditDistance(a, b) == (if last.Keep? then 0 else 1)
              + Distance(a, b, if last.Insert? then |a| else |a|-1, if last.Delete? then |b| else |b|-1)
  {
    if a == "" || (b != "" && EditDistance(a, b) == Distance(a, b, |a|, |b|-1) + 1) {
      last := Insert(b[|b|-1]);
    } else if b == "" || EditDistance(a, b) == Distance(a, b, |a|-1, |b|) + 1 {
      last := Delete(a[|a|-1]);
    } else {
      last := if a[|a|-1] == b[|b|-1] then Keep(a[|a|-1]) else Replace(a[|a|-1], b[|b|-1]);
    }
  }

  /** Some sequence of edits costs exactly the distance. */
  lemma {:induction false} CheapestEdits(a: string, b: string) returns (edits: seq<Edit>)
    ensures Before(edits) == a && After(edits) == b && Price(edits) == EditDistance(a, b)
    decreases |a| + |b|
  {
    if a == "" && b == "" {
      return [];
    }
    var last := LastEdit(a, b);
    var m := if last.Insert? then |a| else |a| - 1;
    var n := if last.Delete? then |b| else |b| - 1;
    OnPrefixes(a, b, m, n);
    var rest := CheapestEdits(a[..m], b[..n]);
    edits := rest + [last];
    assert edits[..|edits|-1] == rest;
  }

  // What the shortcuts rest on.

  lemma {:induction false} Symmetric(a: string, b: string, i: nat, j: nat)
    requires i <= |a| && j <= |b|
    ensures Distance(a, b, i, j) == Distance(b, a, j, i)
    decreases i + j
  {
    if i > 0 && j > 0 {
      Symmetric(a, b, i, j-1);
      Symmetric(a, b, i-1, j);
      Symmetric(a, b, i-1, j-1);
    }
  }

  lemma {:induction false} AtLeastLengthDifference(a: string, b: string, i: nat, j: nat)
    requires i <= |a| && j <= |b|
    ensures i - j <= Distance(a, b, i, j) && j - i <= Distance(a, b, i, j)
    decreases i + j
  {
    if i > 0 && j > 0 {
      AtLeastLengthDifference(a, b, i, j-1);
      AtLeastLengthDifference(a, b, i-1, j);
      AtLeastLengthDifference(a, b, i-1, j-1);
    }
  }

  /** Every row holds a value no greater than a later distance. */
  lemma {:induction false} RowMinimum(a: string, b: string, i: nat, j: nat, row: nat) returns (k: nat)
    requires i <= |a| && j <= |b| && row <= j
    ensures k <= i && Distance(a, b, k, row) <= Distance(a, b, i, j)
    decreases i + j
  {
    if row == j {
      return i;
    }
    if i == 0 {
      return 0;
    }
    var d := Distance(a, b, i, j);
    if d == Distance(a, b, i, j-1) + 1 {
      k := RowMinimum(a, b, i, j-1, row);
    } else if d == Distance(a, b, i-1, j) + 1 {
      k := RowMinimum(a, b, i-1, j, row);
    } else {
      k := RowMinimum(a, b, i-1, j-1, row);
    }
  }

  method LevenshteinWithin(a: string, b: string, max: int) returns (within: bool)
    ensures within <==> EditDistance(a, b) <= max
  {
    AtLeastLengthDifference(a, b, |a|, |b|);
    var ar, br := a, b;
    var lenDiff := |ar| - |br|;
    if lenDiff < 0 {
      lenDiff := -lenDiff;
    }
    if lenDiff > max {
      return false;
    }
    Symmetric(a, b, |a|, |b|);
    if |ar| > |br| {
      ar, br := br, ar;
    }
    if |ar| == 0 {
      return |br| <= max;
    }
    within := TwoRows(ar, br, max);
  }

  /** The dynamic program: two rows over the shorter string, one row per rune of the longer. */
  method TwoRows(ar: string, br: string, max: int) returns (within: bool)
    ensures within <==> EditDistance(ar, br) <= max
  {
    var prev := new int[|ar| + 1];
    var curr := new int[|ar| + 1];
    for i := 0 to |ar| + 1
      invariant forall k :: 0 <= k < i ==> prev[k] == k
    {
      prev[i] := i;
    }
    var j := 1;
    while j <= |br|
      invariant 1 <= j <= |br| + 1
      invariant prev != curr && prev.Length == curr.Length == |ar| + 1
      invariant fresh(prev) && fresh(curr)
      invariant IsRow(prev[..], ar, br, j-1)
    {
      var minInRow := FillRow(ar, br, j, prev, curr);
      if minInRow > max {
        var k := RowMinimum(ar, br, |ar|, |br|, j);
        return false;
      }
      prev, curr := curr, prev;
      j := j + 1;
    }
    return prev[|ar|] <= max;
  }

  /** `row` is the beginning of row `j` of the table. */
  ghost predicate IsRow(row: seq<int>, a: string, b: string, j: nat) {
    |row| <= |a| + 1 && j <= |b| && forall k :: 0 <= k < |row| ==> row[k] == Distance(a, b, k, j)
  }

  lemma NextCell(row: seq<int>, above: seq<int>, a: string, b: string, j: nat)
    requires 1 <= j <= |b| && IsRow(above, a, b, j-1) && |above| == |a| + 1
    requires 1 <= |row| <= |a| && IsRow(row, a, b, j)
    ensures var i := |row|;
            IsRow(row + [Min(Min(above[i] + 1, row[i-1] + 1), above[i-1] + Cost(a[i-1], b[j-1]))], a, b, j)
  {
  }

  /** One row of the table from the row before, and its minimum. */
  method FillRow(ar: string, br: string, j: nat, prev: array<int>, curr: array<int>) returns (minInRow: int)
    requires 1 <= j <= |br| && prev != curr && prev.Length == curr.Length == |ar| + 1
    requires IsRow(prev[..], ar, br, j-1)
    modifies curr
    ensures IsRow(curr[..], ar, br, j)
    ensures minInRow in curr[..] && forall k :: 0 <= k <= |ar| ==> minInRow <= curr[k]
  {
    curr[0] := j;
    minInRow := j;
    assert curr[..1] == [j];
    for i := 1 to |ar| + 1
      invariant IsRow(curr[..i], ar, br, j)
      invariant minInRow in curr[..i] && forall k :: 0 <= k < i ==> minInRow <= curr[k]
    {
      NextCell(curr[..i], prev[..], ar, br, j);
      var cost := if ar[i-1] == br[j-1] then 0 else 1;
      ghost var filled := curr[..i];
      curr[i] := Min(Min(prev[i] + 1, curr[i-1] + 1), prev[i-1] + cost);
      assert curr[..i+1] == filled + [curr[i]];
      if curr[i] < minInRow {
        minInRow := curr[i];
      }
    }
    assert curr[..|ar| + 1] == curr[..];
  }
}
