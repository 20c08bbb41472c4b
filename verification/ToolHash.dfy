/** Canonical JSON and the hash of a tool definition. */
module ToolHash {
  import opened Common
  import opened JsText
  import opened Json

  /** Assigning a property of this name sets the object's prototype instead: no own property appears. */
  const PROTO: Text := [95, 95, 112, 114, 111, 116, 111, 95, 95]

  // ---- Canonical form ----

  function Insert(m: Member, sorted: seq<Member>): seq<Member> {
    if sorted == [] || Less(m.key, sorted[0].key) then [m] + sorted
    else [sorted[0]] + Insert(m, sorted[1..])
  }

  function SortByKey(ms: seq<Member>): seq<Member> {
    if ms == [] then [] else Insert(ms[0], SortByKey(ms[1..]))
  }

  function Canonical(value: Json): Json {
    match value
    case Arr(items) => Arr(seq(|items|, i requires 0 <= i < |items| => Canonical(items[i])))
    case Obj(ms) => Obj(SortByKey(CanonicalMembers(ms)))
    case _ => value
  }

  function CanonicalMembers(ms: seq<Member>): seq<Member> {
    if ms == [] then []
    else if ms[0].key == PROTO then CanonicalMembers(ms[1..])
    else [Member(ms[0].key, Canonical(ms[0].value))] + CanonicalMembers(ms[1..])
  }

  // ---- Equality up to key order ----

  /** No object repeats a key, at any depth. */
  ghost predicate DistinctKeys(value: Json) {
    match value
    case Arr(items) => forall i | 0 <= i < |items| :: DistinctKeys(items[i])
    case Obj(ms) => Distinct(ms) && forall i | 0 <= i < |ms| :: DistinctKeys(ms[i].value)
    case _ => true
  }

  ghost predicate Distinct(ms: seq<Member>) {
    forall i, j | 0 <= i < j < |ms| :: ms[i].key != ms[j].key
  }

  ghost predicate HasKey(ms: seq<Member>, key: Text) {
    exists i | 0 <= i < |ms| :: ms[i].key == key
  }

  /** Equal at every depth up to the order of keys, members called `__proto__` aside. */
  ghost predicate Same(x: Json, y: Json) {
    match x
    case Arr(items) => y.Arr? && |y.items| == |items| && forall i | 0 <= i < |items| :: Same(items[i], y.items[i])
    case Obj(ms) =>
      && y.Obj?
      && (forall j | 0 <= j < |y.members| && y.members[j].key != PROTO :: HasKey(ms, y.members[j].key))
      && (forall i | 0 <= i < |ms| && ms[i].key != PROTO ::
            exists j | 0 <= j < |y.members| :: y.members[j].key == ms[i].key && Same(ms[i].value, y.members[j].value))
    case _ => x == y
  }

  // ---- Sorting is determined by the members ----

  ghost predicate Sorted(ms: seq<Member>) {
    forall i, j | 0 <= i < j < |ms| :: Less(ms[i].key, ms[j].key)
  }

  lemma {:induction false} InsertSorts(m: Member, sorted: seq<Member>)
    requires Sorted(sorted) && !HasKey(sorted, m.key)
    ensures Sorted(Insert(m, sorted))
    ensures forall x :: x in Insert(m, sorted) <==> x == m || x in sorted
    decreases sorted
  {
    if sorted != [] {
      assert sorted == [sorted[0]] + sorted[1..];
      LessIsTotal(m.key, sorted[0].key);
      if Less(m.key, sorted[0].key) {
        forall j | 0 <= j < |sorted| ensures Less(m.key, sorted[j].key) {
          if j > 0 {
            LessIsTransitive(m.key, sorted[0].key, sorted[j].key);
          }
        }
      } else {
        var rest := Insert(m, sorted[1..]);
        forall k | HasKey(sorted[1..], k) ensures HasKey(sorted, k) {
          var i :| 0 <= i < |sorted[1..]| && sorted[1..][i].key == k;
          assert sorted[i + 1].key == k;
        }
        InsertSorts(m, sorted[1..]);
        forall j | 0 <= j < |rest| ensures Less(sorted[0].key, rest[j].key) {
          assert rest[j] in rest;
        }
      }
    }
  }

  lemma {:induction false} SortByKeySorts(ms: seq<Member>)
    requires Distinct(ms)
    ensures Sorted(SortByKey(ms))
    ensures forall x :: x in SortByKey(ms) <==> x in ms
  {
    if ms != [] {
      assert ms == [ms[0]] + ms[1..];
      SortByKeySorts(ms[1..]);
      var rest := SortByKey(ms[1..]);
      forall i | 0 <= i < |rest| ensures rest[i].key != ms[0].key {
        assert rest[i] in rest;
      }
      InsertSorts(ms[0], rest);
    }
  }

  /** Two sorted lists with the same members are the same list. */
  lemma {:induction false} SortedIsUnique(s: seq<Member>, t: seq<Member>)
    requires Sorted(s) && Sorted(t)
    requires forall x :: x in s <==> x in t
    ensures s == t
  {
    assert (s == []) == (t == []) by {
      if s != [] {
        assert s[0] in s;
      }
      if t != [] {
        assert t[0] in t;
      }
    }
    if s != [] {
      FirstIsLeast(s, t);
      FirstIsLeast(t, s);
      LessIsIrreflexive(s[0].key);
      NotBothLess(s[0].key, t[0].key);
      assert s[0] == t[0];
      assert s == [s[0]] + s[1..] && t == [t[0]] + t[1..];
      TailMembers(s);
      TailMembers(t);
      SortedIsUnique(s[1..], t[1..]);
    }
  }

  lemma NotBothLess(a: Text, b: Text)
    ensures !(Less(a, b) && Less(b, a))
  {
    if Less(a, b) && Less(b, a) {
      LessIsTransitive(a, b, a);
      LessIsIrreflexive(a);
    }
  }

  lemma FirstIsLeast(s: seq<Member>, t: seq<Member>)
    requires Sorted(s) && s != [] && t != [] && t[0] in s
    ensures t[0] == s[0] || Less(s[0].key, t[0].key)
  {}

  lemma TailMembers(s: seq<Member>)
    requires Sorted(s) && s != []
    ensures forall x :: x in s[1..] <==> x in s && x != s[0]
  {
    LessIsIrreflexive(s[0].key);
    assert s == [s[0]] + s[1..];
  }

  // ---- The members of a canonical object ----

  lemma {:induction false} CanonicalMembersAre(ms: seq<Member>, x: Member)
    ensures x in CanonicalMembers(ms) <==>
            x.key != PROTO && exists i | 0 <= i < |ms| :: ms[i].key == x.key && x.value == Canonical(ms[i].value)
  {
    if ms != [] {
      CanonicalMembersAre(ms[1..], x);
      assert forall i | 1 <= i < |ms| :: ms[i] == ms[1..][i - 1];
      assert forall i | 0 <= i < |ms| - 1 :: ms[1..][i] == ms[i + 1];
    }
  }

  lemma {:induction false} CanonicalMembersDistinct(ms: seq<Member>)
    requires Distinct(ms)
    ensures Distinct(CanonicalMembers(ms))
  {
    if ms != [] {
      CanonicalMembersDistinct(ms[1..]);
      var rest := CanonicalMembers(ms[1..]);
      forall j | 0 <= j < |rest| ensures rest[j].key != ms[0].key {
        assert rest[j] in rest;
        CanonicalMembersAre(ms[1..], rest[j]);
      }
    }
  }

  /** `x` is the canonical form of one of the members `ms` that are kept. */
  ghost predicate CanonicalOfOne(ms: seq<Member>, x: Member) {
    x.key != PROTO && exists i | 0 <= i < |ms| :: ms[i].key == x.key && x.value == Canonical(ms[i].value)
  }

  lemma CanonicalObject(ms: seq<Member>)
    requires Distinct(ms)
    ensures Sorted(Canonical(Obj(ms)).members)
    ensures forall x :: x in Canonical(Obj(ms)).members <==> CanonicalOfOne(ms, x)
  {
    CanonicalMembersDistinct(ms);
    SortByKeySorts(CanonicalMembers(ms));
    forall x ensures x in CanonicalMembers(ms) <==> CanonicalOfOne(ms, x) {
      CanonicalMembersAre(ms, x);
    }
  }

  // ---- Canonical form is a complete invariant ----

  /** Two values have the same canonical form exactly when they are equal up to key order at every depth. */
  lemma {:induction false} CanonicalIsComplete(x: Json, y: Json)
    requires DistinctKeys(x) && DistinctKeys(y)
    ensures Canonical(x) == Canonical(y) <==> Same(x, y)
    decreases x
  {
    match x
    case Arr(items) =>
      if y.Arr? && |y.items| == |items| {
        forall i | 0 <= i < |items| ensures SameAgrees(items[i], y.items[i]) {
          CanonicalIsComplete(items[i], y.items[i]);
        }
        ArraysByItem(items, y.items);
      } else if y.Arr? {
        assert |Canonical(x).items| == |items| && |Canonical(y).items| == |y.items|;
      }
    case Obj(ms) =>
      if y.Obj? {
        forall i, j | 0 <= i < |ms| && 0 <= j < |y.members|
          ensures SameAgrees(ms[i].value, y.members[j].value)
        {
          CanonicalIsComplete(ms[i].value, y.members[j].value);
        }
        ObjectsByMember(ms, y.members);
      }
    case _ =>
  }

  ghost predicate SameAgrees(x: Json, y: Json) {
    Canonical(x) == Canonical(y) <==> Same(x, y)
  }

  lemma ArraysByItem(xs: seq<Json>, ys: seq<Json>)
    requires |xs| == |ys|
    requires forall i | 0 <= i < |xs| :: SameAgrees(xs[i], ys[i])
    ensures SameAgrees(Arr(xs), Arr(ys))
  {
    if Canonical(Arr(xs)) == Canonical(Arr(ys)) {
      forall i | 0 <= i < |xs| ensures Same(xs[i], ys[i]) {
        assert Canonical(Arr(xs)).items[i] == Canonical(Arr(ys)).items[i];
        assert SameAgrees(xs[i], ys[i]);
      }
    } else if Same(Arr(xs), Arr(ys)) {
      forall i | 0 <= i < |xs| ensures Canonical(Arr(xs)).items[i] == Canonical(Arr(ys)).items[i] {
        assert SameAgrees(xs[i], ys[i]);
      }
    }
  }

  lemma ObjectsByMember(xs: seq<Member>, ys: seq<Member>)
    requires Distinct(xs) && Distinct(ys)
    requires forall i, j | 0 <= i < |xs| && 0 <= j < |ys| :: SameAgrees(xs[i].value, ys[j].value)
    ensures SameAgrees(Obj(xs), Obj(ys))
  {
    CanonicalObject(xs);
    CanonicalObject(ys);
    var x, y := Canonical(Obj(xs)), Canonical(Obj(ys));
    assert x.Obj? && y.Obj?;
    hide Canonical, CanonicalOfOne, Same, Sorted;
    if Same(Obj(xs), Obj(ys)) {
      forall m ensures m in x.members <==> m in y.members {
        SameGivesMember(xs, ys, m);
      }
      SortedIsUnique(x.members, y.members);
    }
    if x == y {
      forall m ensures CanonicalOfOne(xs, m) <==> CanonicalOfOne(ys, m) {
        assert m in x.members <==> m in y.members;
      }
      MembersGiveSame(xs, ys);
    }
  }

  lemma SameGivesMember(xs: seq<Member>, ys: seq<Member>, m: Member)
    requires Distinct(xs) && Distinct(ys) && Same(Obj(xs), Obj(ys))
    requires forall i, j | 0 <= i < |xs| && 0 <= j < |ys| :: SameAgrees(xs[i].value, ys[j].value)
    ensures CanonicalOfOne(xs, m) <==> CanonicalOfOne(ys, m)
  {
    hide Canonical;
    if CanonicalOfOne(xs, m) {
      var i :| 0 <= i < |xs| && xs[i].key == m.key && m.value == Canonical(xs[i].value);
      var j := Counterpart(xs, ys, i);
    }
    if CanonicalOfOne(ys, m) {
      var j :| 0 <= j < |ys| && ys[j].key == m.key && m.value == Canonical(ys[j].value);
      assert HasKey(xs, ys[j].key);
      var i :| 0 <= i < |xs| && xs[i].key == m.key;
      var k := Counterpart(xs, ys, i);
    }
  }

  lemma Counterpart(xs: seq<Member>, ys: seq<Member>, i: nat) returns (j: nat)
    requires Same(Obj(xs), Obj(ys)) && i < |xs| && xs[i].key != PROTO
    requires forall i, j | 0 <= i < |xs| && 0 <= j < |ys| :: SameAgrees(xs[i].value, ys[j].value)
    ensures j < |ys| && ys[j].key == xs[i].key && Canonical(xs[i].value) == Canonical(ys[j].value)
  {
    hide Canonical;
    j :| 0 <= j < |ys| && ys[j].key == xs[i].key && Same(xs[i].value, ys[j].value);
    assert SameAgrees(xs[i].value, ys[j].value);
  }

  lemma MembersGiveSame(xs: seq<Member>, ys: seq<Member>)
    requires forall m :: CanonicalOfOne(xs, m) <==> CanonicalOfOne(ys, m)
    requires forall i, j | 0 <= i < |xs| && 0 <= j < |ys| :: SameAgrees(xs[i].value, ys[j].value)
    ensures Same(Obj(xs), Obj(ys))
  {
    hide Canonical;
    forall j | 0 <= j < |ys| && ys[j].key != PROTO ensures HasKey(xs, ys[j].key) {
      assert CanonicalOfOne(ys, Member(ys[j].key, Canonical(ys[j].value)));
    }
    forall i | 0 <= i < |xs| && xs[i].key != PROTO
      ensures exists j | 0 <= j < |ys| :: ys[j].key == xs[i].key && Same(xs[i].value, ys[j].value)
    {
      var m := Member(xs[i].key, Canonical(xs[i].value));
      assert CanonicalOfOne(xs, m);
      var j :| 0 <= j < |ys| && ys[j].key == m.key && m.value == Canonical(ys[j].value);
      assert SameAgrees(xs[i].value, ys[j].value);
    }
  }

  /** The canonical form has no repeated key and is equal to the value up to key order. */
  lemma {:induction false} CanonicalKeepsMeaning(x: Json)
    requires DistinctKeys(x)
    ensures DistinctKeys(Canonical(x)) && Same(x, Canonical(x))
    decreases x
  {
    match x
    case Arr(items) =>
      forall i | 0 <= i < |items| ensures DistinctKeys(Canonical(items[i])) && Same(items[i], Canonical(items[i])) {
        CanonicalKeepsMeaning(items[i]);
      }
    case Obj(ms) =>
      forall i | 0 <= i < |ms| ensures DistinctKeys(Canonical(ms[i].value)) && Same(ms[i].value, Canonical(ms[i].value)) {
        CanonicalKeepsMeaning(ms[i].value);
      }
      CanonicalObject(ms);
      ObjectKeepsMeaning(ms, Canonical(x).members);
    case _ =>
  }

  lemma ObjectKeepsMeaning(ms: seq<Member>, cs: seq<Member>)
    requires Sorted(cs) && forall x :: x in cs <==> CanonicalOfOne(ms, x)
    requires forall i | 0 <= i < |ms| :: DistinctKeys(Canonical(ms[i].value)) && Same(ms[i].value, Canonical(ms[i].value))
    ensures DistinctKeys(Obj(cs)) && Same(Obj(ms), Obj(cs))
  {
    hide Canonical;
    forall i, j | 0 <= i < j < |cs| ensures cs[i].key != cs[j].key {
      LessIsIrreflexive(cs[i].key);
    }
    forall j | 0 <= j < |cs| ensures DistinctKeys(cs[j].value) && HasKey(ms, cs[j].key) {
      assert cs[j] in cs;
    }
    forall i | 0 <= i < |ms| && ms[i].key != PROTO
      ensures exists j | 0 <= j < |cs| :: cs[j].key == ms[i].key && Same(ms[i].value, cs[j].value)
    {
      var m := Member(ms[i].key, Canonical(ms[i].value));
      assert CanonicalOfOne(ms, m) && m in cs;
    }
  }

  lemma CanonicalIsIdempotent(x: Json)
    requires DistinctKeys(x)
    ensures Canonical(Canonical(x)) == Canonical(x)
  {
    CanonicalKeepsMeaning(x);
    CanonicalIsComplete(x, Canonical(x));
  }

  // ---- The tool hash ----

  /** A tool as `tools/list` reports it. */
  datatype Tool = Tool(
    name: Text,
    title: Option<Text>,
    description: Option<Text>,
    inputSchema: Option<Json>,
    outputSchema: Option<Json>,
    annotations: Option<Json>)

  /** SHA-256 taken as injective: a digest is as good as the text it was computed from. */
  datatype Digest = Sha256(text: Json)

  const NAME: Text := [110, 97, 109, 101]
  const DESCRIPTION: Text := [100, 101, 115, 99, 114, 105, 112, 116, 105, 111, 110]
  const INPUT_SCHEMA: Text := [105, 110, 112, 117, 116, 83, 99, 104, 101, 109, 97]
  const ANNOTATIONS: Text := [97, 110, 110, 111, 116, 97, 116, 105, 111, 110, 115]

  const KEYS: seq<Text> := [NAME, DESCRIPTION, INPUT_SCHEMA, ANNOTATIONS]

  lemma KeysAre()
    ensures NAME == ['n' as int, 'a' as int, 'm' as int, 'e' as int]
    ensures DESCRIPTION == ['d' as int, 'e' as int, 's' as int, 'c' as int, 'r' as int, 'i' as int, 'p' as int, 't' as int, 'i' as int, 'o' as int, 'n' as int]
    ensures INPUT_SCHEMA == ['i' as int, 'n' as int, 'p' as int, 'u' as int, 't' as int, 'S' as int, 'c' as int, 'h' as int, 'e' as int, 'm' as int, 'a' as int]
    ensures ANNOTATIONS == ['a' as int, 'n' as int, 'n' as int, 'o' as int, 't' as int, 'a' as int, 't' as int, 'i' as int, 'o' as int, 'n' as int, 's' as int]
  {
  }

  function Record(keys: seq<Text>, values: seq<Json>): Json
    requires |keys| == |values|
  {
    Obj(seq(|keys|, i requires 0 <= i < |keys| => Member(keys[i], values[i])))
  }

  /** The hashed part of a definition; title and output schema are not in it. */
  function Payload(tool: Tool): Json {
    Record(KEYS, Values(tool))
  }

  function HashOf(tool: Tool): Digest {
    Sha256(Canonical(Payload(tool)))
  }

  ghost predicate WellFormed(tool: Tool) {
    DistinctKeys(tool.inputSchema.GetOr(Obj([]))) && DistinctKeys(tool.annotations.GetOr(Null))
  }

  ghost predicate SameDefinition(s: Tool, t: Tool) {
    && s.name == t.name
    && s.description.GetOr([]) == t.description.GetOr([])
    && Same(s.inputSchema.GetOr(Obj([])), t.inputSchema.GetOr(Obj([])))
    && Same(s.annotations.GetOr(Null), t.annotations.GetOr(Null))
  }

  /** Equal hashes mean equal definitions up to key order, and the other way round. */
  lemma HashIsDefinition(s: Tool, t: Tool)
    requires WellFormed(s) && WellFormed(t)
    ensures HashOf(s) == HashOf(t) <==> SameDefinition(s, t)
  {
    KeysDiffer();
    RecordDistinct(s, KEYS);
    RecordDistinct(t, KEYS);
    CanonicalIsComplete(Payload(s), Payload(t));
    SameRecord(s, t, KEYS);
  }

  ghost predicate FourKeys(keys: seq<Text>) {
    |keys| == 4 && PROTO !in keys && forall i, j | 0 <= i < j < 4 :: keys[i] != keys[j]
  }

  function Values(tool: Tool): seq<Json> {
    [Str(tool.name), Str(tool.description.GetOr([])), tool.inputSchema.GetOr(Obj([])), tool.annotations.GetOr(Null)]
  }

  lemma RecordDistinct(t: Tool, keys: seq<Text>)
    requires WellFormed(t) && FourKeys(keys)
    ensures DistinctKeys(Record(keys, Values(t)))
  {
    var ms := Record(keys, Values(t)).members;
    forall i | 0 <= i < 4 ensures DistinctKeys(ms[i].value) {
      assert ms[i].value == Values(t)[i];
    }
  }

  lemma SameRecord(s: Tool, t: Tool, keys: seq<Text>)
    requires FourKeys(keys)
    ensures Same(Record(keys, Values(s)), Record(keys, Values(t))) <==> SameDefinition(s, t)
  {
    hide Same;
    var x, y := Record(keys, Values(s)).members, Record(keys, Values(t)).members;
    SameByKey(keys, x, y);
    SameStrings(s.name, t.name);
    SameStrings(s.description.GetOr([]), t.description.GetOr([]));
    ByValue(x, y, Values(s), Values(t));
  }

  lemma SameStrings(a: Text, b: Text)
    ensures Same(Str(a), Str(b)) <==> a == b
  {
  }

  lemma ByValue(xs: seq<Member>, ys: seq<Member>, vs: seq<Json>, ws: seq<Json>)
    requires |xs| == |ys| == |vs| == |ws| == 4
    requires forall i | 0 <= i < 4 :: xs[i].value == vs[i] && ys[i].value == ws[i]
    ensures (forall i | 0 <= i < |xs| :: Same(xs[i].value, ys[i].value)) <==>
            Same(vs[0], ws[0]) && Same(vs[1], ws[1]) && Same(vs[2], ws[2]) && Same(vs[3], ws[3])
  {
    hide Same;
    if forall i | 0 <= i < |xs| :: Same(xs[i].value, ys[i].value) {
      forall i | 0 <= i < 4 ensures Same(vs[i], ws[i]) {
        assert Same(xs[i].value, ys[i].value);
      }
    }
  }

  ghost predicate Matched(m: Member, ys: seq<Member>) {
    exists j | 0 <= j < |ys| :: ys[j].key == m.key && Same(m.value, ys[j].value)
  }

  lemma SameObjects(xs: seq<Member>, ys: seq<Member>)
    requires forall i | 0 <= i < |xs| :: xs[i].key != PROTO
    ensures Same(Obj(xs), Obj(ys)) <==>
            && (forall j | 0 <= j < |ys| && ys[j].key != PROTO :: HasKey(xs, ys[j].key))
            && forall i | 0 <= i < |xs| :: Matched(xs[i], ys)
  {
  }

  /** Objects with the same keys in the same order are the same when their values are. */
  lemma SameByKey(keys: seq<Text>, xs: seq<Member>, ys: seq<Member>)
    requires |xs| == |ys| == |keys|
    requires forall i | 0 <= i < |keys| :: xs[i].key == ys[i].key == keys[i] != PROTO
    requires forall i, j | 0 <= i < j < |keys| :: keys[i] != keys[j]
    ensures Same(Obj(xs), Obj(ys)) <==> forall i | 0 <= i < |xs| :: Same(xs[i].value, ys[i].value)
  {
    SameObjects(xs, ys);
    forall j | 0 <= j < |ys| ensures HasKey(xs, ys[j].key) {
      assert xs[j].key == ys[j].key;
    }
    forall i | 0 <= i < |xs| ensures Matched(xs[i], ys) <==> Same(xs[i].value, ys[i].value) {
      MatchedAt(keys, xs, ys, i);
    }
    hide Same, HasKey, Matched;
  }

  lemma MatchedAt(keys: seq<Text>, xs: seq<Member>, ys: seq<Member>, i: nat)
    requires |xs| == |ys| == |keys| && i < |xs|
    requires forall k | 0 <= k < |keys| :: xs[k].key == ys[k].key == keys[k]
    requires forall k, j | 0 <= k < j < |keys| :: keys[k] != keys[j]
    ensures Matched(xs[i], ys) <==> Same(xs[i].value, ys[i].value)
  {
    hide Same;
    if Matched(xs[i], ys) {
      var j :| 0 <= j < |ys| && ys[j].key == xs[i].key && Same(xs[i].value, ys[j].value);
      assert keys[j] == keys[i];
    }
  }

  lemma KeysDiffer()
    ensures FourKeys(KEYS)
  {
    assert |NAME| == 4 && |PROTO| == 9;
    assert DESCRIPTION[0] == 100 && INPUT_SCHEMA[0] == 105 && ANNOTATIONS[0] == 97;
    assert |DESCRIPTION| == 11 && |INPUT_SCHEMA| == 11 && |ANNOTATIONS| == 11;
  }

  // ---- What the hash does not see ----

  lemma CanonicalOfMore(m: Member, ms: seq<Member>)
    ensures CanonicalMembers([]) == []
    ensures CanonicalMembers([m] + ms) ==
            (if m.key == PROTO then [] else [Member(m.key, Canonical(m.value))]) + CanonicalMembers(ms)
  {
    assert ([m] + ms)[1..] == ms;
    assert [] + CanonicalMembers(ms) == CanonicalMembers(ms);
  }

  lemma {:induction false} CanonicalMembersConcat(xs: seq<Member>, ys: seq<Member>)
    ensures CanonicalMembers(xs + ys) == CanonicalMembers(xs) + CanonicalMembers(ys)
    decreases xs
  {
    hide CanonicalMembers, Canonical;
    if xs == [] {
      assert xs + ys == ys;
      CanonicalOfMore(Member([], Null), []);
    } else {
      var rest := xs[1..];
      CanonicalMembersConcat(rest, ys);
      CanonicalOfMore(xs[0], rest + ys);
      CanonicalOfMore(xs[0], rest);
      assert xs == [xs[0]] + rest && xs + ys == [xs[0]] + (rest + ys);
    }
  }

  /** A member called `__proto__` of an input schema does not count, whatever it holds. */
  lemma ProtoMemberIsNotHashed(tool: Tool, ms: seq<Member>, v: Json)
    ensures HashOf(tool.(inputSchema := Some(Obj(ms + [Member(PROTO, v)])))) == HashOf(tool.(inputSchema := Some(Obj(ms))))
  {
    var more := ms + [Member(PROTO, v)];
    CanonicalMembersConcat(ms, [Member(PROTO, v)]);
    CanonicalOfMore(Member(PROTO, v), []);
    assert [Member(PROTO, v)] + [] == [Member(PROTO, v)];
    assert CanonicalMembers(more) == CanonicalMembers(ms);
    assert Canonical(Obj(more)) == Canonical(Obj(ms));
    hide Canonical, CanonicalMembers;
    SameCanonicalSchema(tool, Obj(more), Obj(ms));
  }

  lemma SameCanonicalSchema(tool: Tool, x: Json, y: Json)
    requires Canonical(x) == Canonical(y)
    ensures HashOf(tool.(inputSchema := Some(x))) == HashOf(tool.(inputSchema := Some(y)))
  {
    var vs, ws := Values(tool.(inputSchema := Some(x))), Values(tool.(inputSchema := Some(y)));
    assert forall i | 0 <= i < 4 :: Canonical(vs[i]) == Canonical(ws[i]);
    RecordByValue(KEYS, vs, ws);
    hide Canonical;
  }

  lemma RecordByValue(keys: seq<Text>, vs: seq<Json>, ws: seq<Json>)
    requires |vs| == |ws| == |keys| && forall i | 0 <= i < |vs| :: Canonical(vs[i]) == Canonical(ws[i])
    ensures Canonical(Record(keys, vs)) == Canonical(Record(keys, ws))
  {
    MembersByValue(Record(keys, vs).members, Record(keys, ws).members);
  }

  lemma {:induction false} MembersByValue(xs: seq<Member>, ys: seq<Member>)
    requires |xs| == |ys|
    requires forall i | 0 <= i < |xs| :: xs[i].key == ys[i].key && Canonical(xs[i].value) == Canonical(ys[i].value)
    ensures CanonicalMembers(xs) == CanonicalMembers(ys)
    decreases xs
  {
    if xs != [] {
      MembersByValue(xs[1..], ys[1..]);
    }
  }

  /** Neither do title and output schema. */
  lemma TitleIsNotHashed(tool: Tool, title: Option<Text>, outputSchema: Option<Json>)
    ensures HashOf(tool.(title := title, outputSchema := outputSchema)) == HashOf(tool)
  {
    assert Values(tool.(title := title, outputSchema := outputSchema)) == Values(tool);
    hide Canonical;
  }
}
