/** The order-independent digest that an approval names a set of tool hashes by. */
module HashSet {
  import opened JsText
  import opened Json
  import ToolHash
  import Masking

  const NEWLINE: CodeUnit := 10

  function Insert(t: Text, sorted: seq<Text>): seq<Text> {
    if sorted == [] || Less(t, sorted[0]) then [t] + sorted
    else [sorted[0]] + Insert(t, sorted[1..])
  }

  function Sort(ts: seq<Text>): seq<Text> {
    if ts == [] then [] else Insert(ts[0], Sort(ts[1..]))
  }

  /** `ts.join('\n')`: joining nothing gives the empty string. */
  function Joined(ts: seq<Text>): Text {
    if ts == [] then [] else Masking.Join(ts, [NEWLINE])
  }

  function Digest(hashes: seq<Text>): ToolHash.Digest {
    ToolHash.Sha256(Str(Joined(Sort(hashes))))
  }

  // ---- Sorting forgets the order and nothing else ----

  ghost predicate Sorted(ts: seq<Text>) {
    forall i, j | 0 <= i < j < |ts| :: !Less(ts[j], ts[i])
  }

  lemma {:induction false} InsertSorts(t: Text, sorted: seq<Text>)
    requires Sorted(sorted)
    ensures Sorted(Insert(t, sorted))
    ensures multiset(Insert(t, sorted)) == multiset{t} + multiset(sorted)
  {
    if sorted == [] {
    } else if Less(t, sorted[0]) {
      forall i | 0 <= i < |sorted| ensures !Less(sorted[i], t) {
        AtMost(t, sorted, i);
      }
    } else {
      InsertSorts(t, sorted[1..]);
      assert sorted == [sorted[0]] + sorted[1..];
      var r := Insert(t, sorted[1..]);
      forall i | 0 <= i < |r| ensures !Less(r[i], sorted[0]) {
        assert r[i] in multiset(r);
        assert r[i] == t || r[i] in sorted[1..];
      }
    }
  }

  lemma AtMost(t: Text, sorted: seq<Text>, i: nat)
    requires Sorted(sorted) && i < |sorted| && Less(t, sorted[0])
    ensures !Less(sorted[i], t)
  {
    if Less(sorted[i], t) {
      LessIsTransitive(sorted[i], t, sorted[0]);
      if i == 0 {
        LessIsIrreflexive(sorted[0]);
      }
    }
  }

  lemma {:induction false} SortSorts(ts: seq<Text>)
    ensures Sorted(Sort(ts))
    ensures multiset(Sort(ts)) == multiset(ts)
  {
    if ts != [] {
      SortSorts(ts[1..]);
      InsertSorts(ts[0], Sort(ts[1..]));
      assert ts == [ts[0]] + ts[1..];
    }
  }

  lemma SameFirst(s: seq<Text>, t: seq<Text>)
    requires Sorted(s) && Sorted(t) && multiset(s) == multiset(t) && s != []
    ensures t != [] && s[0] == t[0]
  {
    assert s[0] in multiset(t);
    var i :| 0 <= i < |t| && t[i] == s[0];
    assert t[0] in multiset(s);
    var j :| 0 <= j < |s| && s[j] == t[0];
    LessIsTotal(s[0], t[0]);
  }

  lemma TailOf(s: seq<Text>)
    requires s != []
    ensures multiset(s[1..]) == multiset(s) - multiset{s[0]}
  {
    assert s == [s[0]] + s[1..];
  }

  lemma {:induction false} SortedIsUnique(s: seq<Text>, t: seq<Text>)
    requires Sorted(s) && Sorted(t) && multiset(s) == multiset(t)
    ensures s == t
  {
    if s == [] {
      assert |multiset(t)| == 0;
    } else {
      SameFirst(s, t);
      TailOf(s);
      TailOf(t);
      SortedIsUnique(s[1..], t[1..]);
      assert s == [s[0]] + s[1..] && t == [t[0]] + t[1..];
    }
    hide Less;
  }

  // ---- Lines of text can be told apart again ----

  /** What every hexadecimal digest is: not empty and on one line. */
  ghost predicate OneLine(t: Text) {
    t != [] && NEWLINE !in t
  }

  ghost predicate OneLineEach(ts: seq<Text>) {
    forall i | 0 <= i < |ts| :: OneLine(ts[i])
  }

  /** Hashes are joined by line feeds. */
  lemma TwoAreJoined(a: Text, b: Text)
    ensures Joined([a, b]) == a + ['\n' as int] + b
  {
    assert [a, b][1..] == [b];
    assert Masking.Join([b], [NEWLINE]) == b;
    assert Masking.Join([a, b], [NEWLINE]) == a + [NEWLINE] + Masking.Join([a, b][1..], [NEWLINE]);
  }

  lemma FirstLine(a: Text, x: Text, b: Text, y: Text)
    requires NEWLINE !in a && NEWLINE !in b
    requires a + [NEWLINE] + x == b + [NEWLINE] + y
    ensures a == b && x == y
  {
    var whole := a + [NEWLINE] + x;
    assert whole[|a|] == NEWLINE && whole[|b|] == NEWLINE;
    assert forall i | 0 <= i < |a| :: whole[i] == a[i];
    assert forall i | 0 <= i < |b| :: whole[i] == b[i];
    assert a == whole[..|a|] && b == whole[..|b|];
    assert x == whole[|a| + 1..] && y == whole[|b| + 1..];
  }

  lemma JoinOf(ts: seq<Text>)
    requires ts != [] && OneLineEach(ts)
    ensures |ts| == 1 ==> Joined(ts) == ts[0] && NEWLINE !in Joined(ts)
    ensures |ts| > 1 ==> Joined(ts) == ts[0] + [NEWLINE] + Joined(ts[1..]) && NEWLINE in Joined(ts)
    ensures Joined(ts) != []
  {
    assert OneLine(ts[0]);
    if |ts| > 1 {
      assert Joined(ts)[|ts[0]|] == NEWLINE;
    }
  }

  lemma {:induction false} JoinedIsInjective(s: seq<Text>, t: seq<Text>)
    requires OneLineEach(s) && OneLineEach(t) && Joined(s) == Joined(t)
    ensures s == t
  {
    if s != [] {
      JoinOf(s);
    }
    if t != [] {
      JoinOf(t);
    }
    if |s| > 1 && |t| > 1 {
      assert OneLine(s[0]) && OneLine(t[0]);
      FirstLine(s[0], Joined(s[1..]), t[0], Joined(t[1..]));
      JoinedIsInjective(s[1..], t[1..]);
      assert s == [s[0]] + s[1..] && t == [t[0]] + t[1..];
    }
  }

  /** An approval's digest matches exactly when it echoes the current hashes, each as often, in any order. */
  lemma DigestIsOfTheSet(echoed: seq<Text>, current: seq<Text>)
    requires OneLineEach(echoed) && OneLineEach(current)
    ensures Digest(echoed) == Digest(current) <==> multiset(echoed) == multiset(current)
  {
    SortSorts(echoed);
    SortSorts(current);
    SortKeepsLines(echoed);
    SortKeepsLines(current);
    if Digest(echoed) == Digest(current) {
      JoinedIsInjective(Sort(echoed), Sort(current));
    }
    if multiset(echoed) == multiset(current) {
      SortedIsUnique(Sort(echoed), Sort(current));
    }
  }

  lemma SortKeepsLines(ts: seq<Text>)
    requires OneLineEach(ts)
    ensures OneLineEach(Sort(ts))
  {
    SortSorts(ts);
    forall i | 0 <= i < |Sort(ts)| ensures OneLine(Sort(ts)[i]) {
      assert Sort(ts)[i] in multiset(ts);
    }
  }

  /** The lines of a text; the empty text has none. */
  function Lines(t: Text): seq<Text> {
    if t == [] then [] else Masking.Split(t, [NEWLINE])
  }

  lemma {:induction false} JoinOfSplit(t: Text)
    ensures Masking.Join(Masking.Split(t, [NEWLINE]), [NEWLINE]) == t
  {
    if t != [] {
      JoinOfSplit(t[1..]);
      var rest := Masking.Split(t[1..], [NEWLINE]);
      if [NEWLINE] <= t {
        Masking.JoinStep([], rest, [NEWLINE]);
        assert t == [NEWLINE] + t[1..];
      } else {
        Masking.JoinFirst(t[0], rest, [NEWLINE]);
      }
    }
  }

  /** A line that is followed by something, and a line that ends the text. */
  lemma {:induction false} SplitAfterLine(line: Text, rest: Text)
    requires NEWLINE !in line
    ensures Masking.Split(line + [NEWLINE] + rest, [NEWLINE]) == [line] + Masking.Split(rest, [NEWLINE])
    ensures Masking.Split(line, [NEWLINE]) == [line]
    decreases line
  {
    var t := line + [NEWLINE] + rest;
    if line == [] {
      assert t == [NEWLINE] + rest && [NEWLINE] <= t && t[1..] == rest;
    } else {
      var shorter := line[1..];
      SplitAfterLine(shorter, rest);
      assert t[0] == line[0] != NEWLINE && t[1..] == shorter + [NEWLINE] + rest;
      assert [line[0]] + shorter == line;
    }
  }

  lemma {:induction false} LinesOfJoined(ts: seq<Text>)
    requires OneLineEach(ts)
    ensures Lines(Joined(ts)) == ts
  {
    if ts != [] {
      JoinOf(ts);
      assert OneLine(ts[0]);
      if |ts| == 1 {
        SplitAfterLine(ts[0], []);
        assert ts == [ts[0]];
      } else {
        LinesOfJoined(ts[1..]);
        JoinOf(ts[1..]);
        SplitAfterLine(ts[0], Joined(ts[1..]));
        assert ts == [ts[0]] + ts[1..];
      }
    }
  }

  /**
   Whatever an approval echoes: its digest is that of the current hashes if and only if the lines of what it
   echoes, sorted entry by entry, are the current hashes in order.
   */
  lemma DigestMatchesExactly(echoed: seq<Text>, current: seq<Text>)
    requires OneLineEach(current)
    ensures Digest(echoed) == Digest(current) <==> Lines(Joined(Sort(echoed))) == Sort(current)
  {
    SortKeepsLines(current);
    LinesOfJoined(Sort(current));
    JoinOfSplit(Joined(Sort(echoed)));
    hide Masking.Split, Masking.Join;
    if Lines(Joined(Sort(echoed))) == Sort(current) {
      assert Joined(Sort(echoed)) == Joined(Sort(current));
    }
  }

  /** An echo of one empty hash digests like no hash at all. */
  lemma EmptyEchoDigestsAsNone(none: Text)
    requires none == []
    ensures Digest([none]) == Digest([]) && multiset([none]) != multiset([])
  {
    assert [none][1..] == [];
    assert Sort([none]) == [none];
    assert none in multiset([none]);
  }

  /** Why both sides have to be on one line each: two hashes glued by a newline digest like the two apart. */
  lemma GluedHashesDigestAlike(a: Text, b: Text)
    requires OneLine(a) && OneLine(b) && Less(a, b)
    ensures Digest([a + [NEWLINE] + b]) == Digest([a, b]) && multiset([a + [NEWLINE] + b]) != multiset([a, b])
  {
    assert Sort([a + [NEWLINE] + b]) == [a + [NEWLINE] + b];
    assert [a, b][1..] == [b] && [b][1..] == [];
    assert Sort([b]) == [b] && Sort([a, b]) == [a, b];
    Masking.JoinStep(a, [b], [NEWLINE]);
    assert [a] + [b] == [a, b];
    assert |multiset([a, b])| == 2 && |multiset([a + [NEWLINE] + b])| == 1;
  }
}
