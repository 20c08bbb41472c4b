/** JavaScript strings: sequences of UTF-16 code units, compared unit by unit. */
module JsText {

  type CodeUnit = n: nat | n < 0x1_0000

  type Text = seq<CodeUnit>

  /** The `<` of JavaScript on strings: lexicographic on code units. */
  predicate Less(a: Text, b: Text) {
    b != [] && (a == [] || a[0] < b[0] || (a[0] == b[0] && Less(a[1..], b[1..])))
  }

  lemma {:induction false} LessIsTotal(a: Text, b: Text)
    ensures a == b || Less(a, b) || Less(b, a)
  {
    if a != [] && b != [] && a[0] == b[0] {
      LessIsTotal(a[1..], b[1..]);
      assert a == [a[0]] + a[1..] && b == [b[0]] + b[1..];
    }
  }

  lemma {:induction false} LessIsIrreflexive(a: Text)
    ensures !Less(a, a)
  {
    if a != [] {
      LessIsIrreflexive(a[1..]);
    }
  }

  lemma {:induction false} LessIsTransitive(a: Text, b: Text, c: Text)
    requires Less(a, b) && Less(b, c)
    ensures Less(a, c)
  {
    if a != [] && a[0] == b[0] && b[0] == c[0] {
      LessIsTransitive(a[1..], b[1..], c[1..]);
    }
  }

  /** `part` occurs in `whole` at position `i`. */
  predicate OccursAt(whole: Text, part: Text, i: int) {
    0 <= i <= |whole| - |part| && whole[i..i + |part|] == part
  }

  ghost predicate Contains(whole: Text, part: Text) {
    exists i :: OccursAt(whole, part, i)
  }
}
