/**
 The bounded Damerau-Levenshtein distance of the ranker (optimal string
 alignment: an adjacent transposition counts one, and no unit is edited twice).

 The reference is the cheapest edit script between the two strings. The
 recurrence `Osa` is proved to compute it, and the in-place table with its two
 early exits is proved to return it whenever it is within the bound.
 */
module EditDistance {
  import opened JsText

  // ---- Edit scripts: what the distance means ----

  datatype Edit =
    | Keep(c: CodeUnit)
    | Replace(c: CodeUnit, d: CodeUnit)
    | Delete(c: CodeUnit)
    | Insert(d: CodeUnit)
    | Transpose(c: CodeUnit, d: CodeUnit)
  {
    function Before(): Text {
      match this
      case Keep(c) => [c]
      case Replace(c, _) => [c]
      case Delete(c) => [c]
      case Insert(_) => []
      case Transpose(c, d) => [c, d]
    }

    function After(): Text {
      match this
      case Keep(c) => [c]
      case Replace(_, d) => [d]
      case Delete(_) => []
      case Insert(d) => [d]
      case Transpose(c, d) => [d, c]
    }

    function Cost(): nat {
      if Keep? then 0 else 1
    }
  }

  type Script = seq<Edit>

  /** The text a script starts from. */
  function Before(s: Script): Text {
    if s == [] then [] else Before(s[..|s| - 1]) + s[|s| - 1].Before()
  }

  /** The text a script produces. */
  function After(s: Script): Text {
    if s == [] then [] else After(s[..|s| - 1]) + s[|s| - 1].After()
  }

  function Cost(s: Script): nat {
    if s == [] then 0 else Cost(s[..|s| - 1]) + s[|s| - 1].Cost()
  }

  ghost predicate Edits(s: Script, a: Text, b: Text) {
    Before(s) == a && After(s) == b
  }

  // ---- The recurrence ----

  function Min(x: int, y: int): int {
    if x <= y then x else y
  }

  function Abs(x: int): nat {
    if x < 0 then -x else x
  }

  predicate Swapped(a: Text, b: Text, i: nat, j: nat)
    requires i <= |a| && j <= |b|
  {
    i > 1 && j > 1 && a[i - 1] == b[j - 2] && a[i - 2] == b[j - 1]
  }

  /** The distance between the first `i` units of `a` and the first `j` units of `b`. */
  function Osa(a: Text, b: Text, i: nat, j: nat): nat
    requires i <= |a| && j <= |b|
    decreases i + j
  {
    if i == 0 then j
    else if j == 0 then i
    else
      var cost := if a[i - 1] == b[j - 1] then 0 else 1;
      var d := Min(Min(Osa(a, b, i - 1, j) + 1, Osa(a, b, i, j - 1) + 1), Osa(a, b, i - 1, j - 1) + cost);
      if Swapped(a, b, i, j) then Min(d, Osa(a, b, i - 2, j - 2) + 1) else d
  }

  function Distance(a: Text, b: Text): nat {
    Osa(a, b, |a|, |b|)
  }

  // The proofs below unfold the recurrence only through these facts.

  lemma OsaOfEmpty(a: Text, b: Text, k: nat)
    ensures k <= |a| ==> Osa(a, b, k, 0) == k
    ensures k <= |b| ==> Osa(a, b, 0, k) == k
  {}

  lemma OsaOfCell(a: Text, b: Text, i: nat, j: nat)
    requires 1 <= i <= |a| && 1 <= j <= |b|
    ensures
      var cost := if a[i - 1] == b[j - 1] then 0 else 1;
      var d := Min(Min(Osa(a, b, i - 1, j) + 1, Osa(a, b, i, j - 1) + 1), Osa(a, b, i - 1, j - 1) + cost);
      Osa(a, b, i, j) == if Swapped(a, b, i, j) then Min(d, Osa(a, b, i - 2, j - 2) + 1) else d
  {
    hide Min;
  }

  lemma OsaOfDelete(a: Text, b: Text, i: nat, j: nat)
    requires 1 <= i <= |a| && j <= |b|
    ensures Osa(a, b, i, j) <= Osa(a, b, i - 1, j) + 1
  {
    hide Osa;
    OsaOfEmpty(a, b, i);
    OsaOfEmpty(a, b, i - 1);
    if j > 0 {
      OsaOfCell(a, b, i, j);
    }
  }

  lemma OsaOfInsert(a: Text, b: Text, i: nat, j: nat)
    requires i <= |a| && 1 <= j <= |b|
    ensures Osa(a, b, i, j) <= Osa(a, b, i, j - 1) + 1
  {
    hide Osa;
    OsaOfEmpty(a, b, j);
    OsaOfEmpty(a, b, j - 1);
    if i > 0 {
      OsaOfCell(a, b, i, j);
    }
  }

  /** Which cell a cell was computed from. */
  lemma Origin(a: Text, b: Text, i: nat, j: nat)
    requires i <= |a| && j <= |b| && i + j > 0
    ensures || (i > 0 && Osa(a, b, i, j) == Osa(a, b, i - 1, j) + 1)
            || (j > 0 && Osa(a, b, i, j) == Osa(a, b, i, j - 1) + 1)
            || (i > 0 && j > 0 && Osa(a, b, i, j) == Osa(a, b, i - 1, j - 1) + 1)
            || (i > 0 && j > 0 && a[i - 1] == b[j - 1] && Osa(a, b, i, j) == Osa(a, b, i - 1, j - 1))
            || (Swapped(a, b, i, j) && Osa(a, b, i, j) == Osa(a, b, i - 2, j - 2) + 1)
  {
    hide Osa;
    if j == 0 {
      OsaOfEmpty(a, b, i);
      OsaOfEmpty(a, b, i - 1);
    } else if i == 0 {
      OsaOfEmpty(a, b, j);
      OsaOfEmpty(a, b, j - 1);
    } else {
      OsaOfCell(a, b, i, j);
    }
  }

  /** `e` can be the last edit between the first `i` units of `a` and the first `j` of `b`. */
  predicate Fits(e: Edit, a: Text, b: Text, i: nat, j: nat) {
    && |e.Before()| <= i <= |a| && |e.After()| <= j <= |b|
    && match e
       case Keep(c) => a[i - 1] == c && b[j - 1] == c
       case Replace(c, d) => a[i - 1] == c && b[j - 1] == d
       case Delete(c) => a[i - 1] == c
       case Insert(d) => b[j - 1] == d
       case Transpose(c, d) => a[i - 2] == c == b[j - 1] && a[i - 1] == d == b[j - 2]
  }

  /** The two texts of `s + [e]` are prefixes exactly when those of `s` are and `e` fits after them. */
  lemma EditsOfAppend(s: Script, e: Edit, a: Text, b: Text, i: nat, j: nat)
    requires i <= |a| && j <= |b|
    ensures Edits(s + [e], a[..i], b[..j]) <==>
            Fits(e, a, b, i, j) && Edits(s, a[..i - |e.Before()|], b[..j - |e.After()|])
    ensures Cost(s + [e]) == Cost(s) + e.Cost()
  {
    assert (s + [e])[..|s|] == s;
    PrefixParts(Before(s), e.Before(), a, i);
    PrefixParts(After(s), e.After(), b, j);
  }

  lemma PrefixParts(x: Text, y: Text, a: Text, i: nat)
    requires i <= |a| && |y| <= 2
    ensures x + y == a[..i] <==>
            |y| <= i && x == a[..i - |y|] && (|y| > 0 ==> a[i - 1] == y[|y| - 1]) && (|y| > 1 ==> a[i - 2] == y[0])
  {
    if x + y == a[..i] {
      assert |x| == i - |y|;
      assert x == (x + y)[..|x|] && y == (x + y)[|x|..];
    }
  }

  /** No script is cheaper than the recurrence says. */
  lemma {:induction false} NoCheaperScript(s: Script, a: Text, b: Text, i: nat, j: nat)
    requires i <= |a| && j <= |b|
    requires Edits(s, a[..i], b[..j])
    ensures Osa(a, b, i, j) <= Cost(s)
    decreases |s|
  {
    hide Osa;
    OsaOfEmpty(a, b, 0);
    if s != [] {
      var p, e := s[..|s| - 1], s[|s| - 1];
      assert s == p + [e];
      EditsOfAppend(p, e, a, b, i, j);
      NoCheaperScript(p, a, b, i - |e.Before()|, j - |e.After()|);
      LastEdit(e, a, b, i, j);
    }
  }

  /** One more edit raises the recurrence by at most its cost. */
  lemma LastEdit(e: Edit, a: Text, b: Text, i: nat, j: nat)
    requires Fits(e, a, b, i, j)
    ensures Osa(a, b, i, j) <= Osa(a, b, i - |e.Before()|, j - |e.After()|) + e.Cost()
  {
    hide Osa;
    match e
    case Keep(_) => OsaOfCell(a, b, i, j);
    case Replace(_, _) => OsaOfCell(a, b, i, j);
    case Delete(_) => OsaOfDelete(a, b, i, j);
    case Insert(_) => OsaOfInsert(a, b, i, j);
    case Transpose(_, _) => OsaOfCell(a, b, i, j);
  }

  /** The last edit of a cheapest script. */
  lemma LastOf(a: Text, b: Text, i: nat, j: nat) returns (e: Edit)
    requires i <= |a| && j <= |b| && i + j > 0
    ensures Fits(e, a, b, i, j) && |e.Before()| + |e.After()| > 0
    ensures Osa(a, b, i, j) == Osa(a, b, i - |e.Before()|, j - |e.After()|) + e.Cost()
  {
    hide Osa;
    Origin(a, b, i, j);
    var d := Osa(a, b, i, j);
    if i > 0 && d == Osa(a, b, i - 1, j) + 1 {
      return Delete(a[i - 1]);
    } else if j > 0 && d == Osa(a, b, i, j - 1) + 1 {
      return Insert(b[j - 1]);
    } else if i > 0 && j > 0 && d == Osa(a, b, i - 1, j - 1) + 1 {
      return Replace(a[i - 1], b[j - 1]);
    } else if i > 0 && j > 0 && a[i - 1] == b[j - 1] && d == Osa(a, b, i - 1, j - 1) {
      return Keep(a[i - 1]);
    } else {
      return Transpose(a[i - 2], a[i - 1]);
    }
  }

  /** Some script costs exactly what the recurrence says. */
  lemma {:induction false} CheapestScript(a: Text, b: Text, i: nat, j: nat) returns (s: Script)
    requires i <= |a| && j <= |b|
    ensures Edits(s, a[..i], b[..j])
    ensures Cost(s) == Osa(a, b, i, j)
    decreases i + j
  {
    hide Osa;
    OsaOfEmpty(a, b, 0);
    if i + j == 0 {
      s := [];
    } else {
      var e := LastOf(a, b, i, j);
      var p := CheapestScript(a, b, i - |e.Before()|, j - |e.After()|);
      EditsOfAppend(p, e, a, b, i, j);
      s := p + [e];
    }
  }

  /** `Distance` is the cost of a cheapest edit script. */
  lemma DistanceIsCheapestScript(a: Text, b: Text)
    ensures exists s :: Edits(s, a, b) && Cost(s) == Distance(a, b)
    ensures forall s :: Edits(s, a, b) ==> Distance(a, b) <= Cost(s)
  {
    assert a[..|a|] == a && b[..|b|] == b;
    var cheapest := CheapestScript(a, b, |a|, |b|);
    assert Edits(cheapest, a, b);
    forall s | Edits(s, a, b) ensures Distance(a, b) <= Cost(s) {
      NoCheaperScript(s, a, b, |a|, |b|);
    }
  }

  // ---- The two early exits ----

  /** Every script has to make up for the difference in length. */
  lemma {:induction false} AtLeastLengthGap(a: Text, b: Text, i: nat, j: nat)
    requires i <= |a| && j <= |b|
    ensures i - Osa(a, b, i, j) <= j <= i + Osa(a, b, i, j)
    decreases i + j
  {
    hide Osa;
    OsaOfEmpty(a, b, 0);
    if i + j > 0 {
      Origin(a, b, i, j);
      if i > 0 {
        AtLeastLengthGap(a, b, i - 1, j);
      }
      if j > 0 {
        AtLeastLengthGap(a, b, i, j - 1);
      }
      if i > 0 && j > 0 {
        AtLeastLengthGap(a, b, i - 1, j - 1);
      }
      if Swapped(a, b, i, j) {
        AtLeastLengthGap(a, b, i - 2, j - 2);
      }
    }
  }

  ghost predicate CellAbove(a: Text, b: Text, i: nat, j: nat, max: int)
    requires i <= |a| && j <= |b|
  {
    Osa(a, b, i, j) > max
  }

  /** What the row minimum sees: columns 1 to |b|, never column 0. */
  ghost predicate RowAbove(a: Text, b: Text, i: nat, max: int)
    requires i <= |a|
  {
    forall j | 1 <= j <= |b| :: CellAbove(a, b, i, j, max)
  }

  /**
   A row above the bound stays above it in the next row. A transposition reaches
   over the row to the one before it, which can be lower by at most one.
   */
  lemma {:induction false} RowStaysAbove(a: Text, b: Text, i: nat, j: nat, max: int)
    requires 1 <= i < |a| && 1 <= j <= |b|
    requires RowAbove(a, b, i, max)
    ensures Osa(a, b, i + 1, j) > max
    decreases j
  {
    hide Osa;
    OsaOfCell(a, b, i, 1);  // so column 0 is above the bound, too
    assert CellAbove(a, b, i, 1, max) && CellAbove(a, b, i, j, max);
    OsaOfEmpty(a, b, i - 1);
    OsaOfEmpty(a, b, i);
    OsaOfCell(a, b, i + 1, j);
    OsaOfEmpty(a, b, i + 1);
    if j > 1 {
      assert CellAbove(a, b, i, j - 1, max) && (j > 2 ==> CellAbove(a, b, i, j - 2, max));
      RowStaysAbove(a, b, i, j - 1, max);
      OsaOfDelete(a, b, i, j - 2);
    }
  }

  lemma {:induction false} RowAboveIsFinal(a: Text, b: Text, i: nat, max: int)
    requires 1 <= i <= |a| && b != []
    requires RowAbove(a, b, i, max)
    ensures Distance(a, b) > max
    decreases |a| - i
  {
    if i < |a| {
      var next := i + 1;
      forall j | 1 <= j <= |b| ensures CellAbove(a, b, next, j, max) {
        RowStaysAbove(a, b, i, j, max);
      }
      RowAboveIsFinal(a, b, next, max);
    } else {
      assert CellAbove(a, b, i, |b|, max);
    }
  }

  // ---- The bounded distance ----

  /** The exact answer of the bounded computation. */
  ghost function Bounded(a: Text, b: Text, max: int): int {
    if Abs(|a| - |b|) > max || (exists i | 1 <= i <= |a| :: RowAbove(a, b, i, max)) then max + 1
    else Distance(a, b)
  }

  /**
   The bounded distance is the distance whenever that is within the bound,
   except for an empty `b` against a short non-empty `a`: no column is looked
   at, so the row minimum stays infinite. Above the bound it says "above".
   */
  lemma BoundedIsDistance(a: Text, b: Text, max: int)
    ensures (Distance(a, b) <= max ==> Bounded(a, b, max) == Distance(a, b))
            <==> (b != [] || a == [] || |a| > max)
    ensures Distance(a, b) > max ==> Bounded(a, b, max) > max
  {
    AtLeastLengthGap(a, b, |a|, |b|);
    if b == [] {
      if a != [] {
        assert RowAbove(a, b, 1, max);
      }
    } else {
      forall i | 1 <= i <= |a| && RowAbove(a, b, i, max) ensures Distance(a, b) > max {
        RowAboveIsFinal(a, b, i, max);
      }
    }
  }

  /** `rowMin`, which starts at Infinity. */
  datatype RowMin = Infinity | Finite(value: int) {
    function Lower(x: int): RowMin {
      if Infinity? then Finite(x) else Finite(Min(value, x))
    }

    predicate Above(max: int) {
      Infinity? || value > max
    }
  }

  ghost predicate Table(d: array2<int>, a: Text, b: Text)
  {
    d.Length0 == |a| + 1 && d.Length1 == |b| + 1
  }

  ghost predicate RowFilled(d: array2<int>, a: Text, b: Text, i: nat)
    requires Table(d, a, b) && i <= |a|
    reads d
  {
    forall q | 0 <= q <= |b| :: d[i, q] == Osa(a, b, i, q)
  }

  /** One cell, from the two rows above and the cell to the left. */
  method FillCell(a: Text, b: Text, d: array2<int>, i: nat, j: nat)
    requires Table(d, a, b) && 1 <= i <= |a| && 1 <= j <= |b|
    requires RowFilled(d, a, b, i - 1) && (i > 1 ==> RowFilled(d, a, b, i - 2))
    requires d[i, j - 1] == Osa(a, b, i, j - 1)
    modifies d
    ensures d[i, j] == Osa(a, b, i, j)
    ensures forall p, q | 0 <= p <= |a| && 0 <= q <= |b| && (p != i || q != j) :: d[p, q] == old(d[p, q])
  {
    hide Osa;
    OsaOfCell(a, b, i, j);
    var cost := if a[i - 1] == b[j - 1] then 0 else 1;
    var x := Min(Min(d[i - 1, j] + 1, d[i, j - 1] + 1), d[i - 1, j - 1] + cost);
    if Swapped(a, b, i, j) {
      x := Min(x, d[i - 2, j - 2] + 1);
    }
    d[i, j] := x;
  }

  /** The inner loop: fills row `i` and finds its minimum. */
  method FillRow(a: Text, b: Text, d: array2<int>, i: nat, ghost max: int) returns (rowMin: RowMin)
    requires Table(d, a, b) && 1 <= i <= |a|
    requires RowFilled(d, a, b, i - 1) && (i > 1 ==> RowFilled(d, a, b, i - 2))
    requires d[i, 0] == Osa(a, b, i, 0)
    modifies d
    ensures RowFilled(d, a, b, i)
    ensures forall p, q | 0 <= p <= |a| && 0 <= q <= |b| && p != i :: d[p, q] == old(d[p, q])
    ensures rowMin.Above(max) <==> RowAbove(a, b, i, max)
  {
    hide Osa;
    rowMin := Infinity;
    for j := 1 to |b| + 1
      invariant forall p, q | 0 <= p <= |a| && 0 <= q <= |b| && p != i :: d[p, q] == old(d[p, q])
      invariant forall q | 0 <= q < j :: d[i, q] == Osa(a, b, i, q)
      invariant rowMin.Above(max) <==> forall q | 1 <= q < j :: CellAbove(a, b, i, q, max)
    {
      FillCell(a, b, d, i, j);
      rowMin := rowMin.Lower(d[i, j]);
      assert CellAbove(a, b, i, j, max) <==> d[i, j] > max;
    }
  }

  method EditDistance(a: Text, b: Text, max: int) returns (r: int)
    ensures r == Bounded(a, b, max)
  {
    if Abs(|a| - |b|) > max {
      return max + 1;
    }
    var d := new int[|a| + 1, |b| + 1]((i, j) => if i == 0 then j else if j == 0 then i else 0);
    for i := 1 to |a| + 1
      invariant forall p | 0 <= p < i :: RowFilled(d, a, b, p)
      invariant forall p | i <= p <= |a| :: d[p, 0] == p
      invariant forall p | 1 <= p < i :: !RowAbove(a, b, p, max)
    {
      label before:
      var rowMin := FillRow(a, b, d, i, max);
      forall p | 0 <= p < i ensures RowFilled(d, a, b, p) {
        assert old@before(RowFilled(d, a, b, p));
      }
      if rowMin.Above(max) {
        return max + 1;
      }
    }
    assert RowFilled(d, a, b, |a|);
    return d[|a|, |b|];
  }
}
