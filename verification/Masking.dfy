/** Masking of recorded call arguments: secret-looking keys and known secret values. */
module Masking {
  import opened JsText
  import opened Json

  const STAR: CodeUnit := 42
  const MASK: Text := [STAR, STAR, STAR, STAR, STAR, STAR, STAR, STAR]

  lemma MaskIsEightStars()
    ensures |MASK| == 8 && forall i | 0 <= i < |MASK| :: MASK[i] == '*' as int
  {
  }

  // ---- split / join ----

  /** `t.split(sep)` for a non-empty separator. */
  function Split(t: Text, sep: Text): (parts: seq<Text>)
    requires sep != []
    ensures parts != []
  {
    if |t| < |sep| then [t]
    else if sep <= t then [[]] + Split(t[|sep|..], sep)
    else
      var rest := Split(t[1..], sep);
      [[t[0]] + rest[0]] + rest[1..]
  }

  function Join(parts: seq<Text>, glue: Text): Text
    requires parts != []
  {
    if |parts| == 1 then parts[0] else parts[0] + glue + Join(parts[1..], glue)
  }

  function Replace(t: Text, secret: Text): Text
    requires secret != []
  {
    Join(Split(t, secret), MASK)
  }

  lemma JoinStep(first: Text, rest: seq<Text>, glue: Text)
    requires rest != []
    ensures Join([first] + rest, glue) == first + glue + Join(rest, glue)
  {
    assert ([first] + rest)[1..] == rest;
  }

  lemma JoinFirst(c: CodeUnit, parts: seq<Text>, glue: Text)
    requires parts != []
    ensures Join([[c] + parts[0]] + parts[1..], glue) == [c] + Join(parts, glue)
  {
    if |parts| > 1 {
      JoinStep([c] + parts[0], parts[1..], glue);
      assert [c] + (parts[0] + glue + Join(parts[1..], glue)) == [c] + parts[0] + glue + Join(parts[1..], glue);
    }
  }

  /** Splitting and joining reads the text left to right, replacing as it goes. */
  lemma ReplaceStep(t: Text, s: Text)
    requires s != []
    ensures |t| < |s| ==> Replace(t, s) == t
    ensures |t| >= |s| && s <= t ==> Replace(t, s) == MASK + Replace(t[|s|..], s)
    ensures |t| >= |s| && !(s <= t) ==> Replace(t, s) == [t[0]] + Replace(t[1..], s)
  {
    if |t| >= |s| {
      if s <= t {
        JoinStep([], Split(t[|s|..], s), MASK);
      } else {
        JoinFirst(t[0], Split(t[1..], s), MASK);
      }
    }
    hide Join;
  }

  function MaskText(t: Text, secrets: seq<Text>): Text
    decreases secrets
  {
    if secrets == [] then t
    else MaskText(if |secrets[0]| >= 4 then Replace(t, secrets[0]) else t, secrets[1..])
  }

  /** The loop of `maskArgs` over the secrets. */
  method MaskString(value: Text, secrets: seq<Text>) returns (out: Text)
    ensures out == MaskText(value, secrets)
  {
    out := value;
    for k := 0 to |secrets|
      invariant MaskText(out, secrets[k..]) == MaskText(value, secrets)
    {
      assert secrets[k..][1..] == secrets[k + 1..];
      if |secrets[k]| >= 4 {
        out := Replace(out, secrets[k]);
      }
    }
  }

  // ---- No secret survives ----

  /** Nothing of a mask can end the text, and no mask is inside. */
  ghost predicate EndsFirm(u: Text) {
    (u != [] ==> u[|u| - 1] != STAR) && !Contains(u, MASK)
  }

  /** Stars stand only inside, and never eight in a row: no mask can be a part of the text or overlap it. */
  ghost predicate Firm(u: Text) {
    u != [] && u[0] != STAR && EndsFirm(u)
  }

  lemma TailEndsFirm(u: Text)
    requires u != [] && EndsFirm(u)
    ensures EndsFirm(u[1..])
  {
    if Contains(u[1..], MASK) {
      ContainsInTail(u, 1, MASK);
    }
  }

  lemma NoMaskAhead(u: Text, rest: Text)
    requires u != [] && EndsFirm(u)
    ensures !(u <= MASK + rest)
  {
    var whole := MASK + rest;
    assert forall k | 0 <= k < 8 :: whole[k] == STAR;
    assert |u| >= 8 && u <= whole ==> MASK <= u;
    OccursAtStart(u, MASK);
  }

  /** A beginning of the replaced text that ends firm was there before. */
  lemma {:induction false} FirmPrefix(t: Text, s: Text, u: Text)
    requires s != [] && EndsFirm(u) && u <= Replace(t, s)
    ensures u <= t
    decreases |t|
  {
    ReplaceStep(t, s);
    hide Replace, EndsFirm;
    if |t| >= |s| && u != [] {
      if s <= t {
        NoMaskAhead(u, Replace(t[|s|..], s));
      } else {
        assert u[0] == Replace(t, s)[0];
        assert u[1..] <= Replace(t[1..], s) by {
          assert u[1..] <= Replace(t, s)[1..] == Replace(t[1..], s);
        }
        TailEndsFirm(u);
        FirmPrefix(t[1..], s, u[1..]);
        assert u == [u[0]] + u[1..] && t == [t[0]] + t[1..];
      }
    }
  }

  /** Replacing one secret neither leaves it behind nor puts another firm text together. */
  lemma {:induction false} FirmOccurrence(t: Text, s: Text, u: Text, i: nat)
    requires s != [] && Firm(u) && OccursAt(Replace(t, s), u, i)
    ensures u != s && Contains(t, u)
    decreases |t|
  {
    ReplaceStep(t, s);
    hide Replace, OccursAt, Firm, Contains;
    if |t| < |s| {
      OccursIsContained(t, u, i);
    } else if s <= t {
      OccursPastMask(Replace(t[|s|..], s), u, i);
      FirmOccurrence(t[|s|..], s, u, i - |MASK|);
      ContainsInTail(t, |s|, u);
    } else if i > 0 {
      OccursAfter([t[0]], Replace(t[1..], s), u, i);
      FirmOccurrence(t[1..], s, u, i - 1);
      ContainsInTail(t, 1, u);
    } else {
      OccursAtStart(Replace(t, s), u);
      FirmPrefix(t, s, u);
      OccursAtStart(t, u);
      OccursIsContained(t, u, 0);
    }
  }

  lemma OccursIsContained(w: Text, u: Text, i: nat)
    ensures OccursAt(w, u, i) && u != [] ==> Contains(w, u) && |u| <= |w|
  {}

  lemma OccursAtStart(w: Text, u: Text)
    ensures OccursAt(w, u, 0) <==> u <= w
  {}

  lemma OccursPastMask(rest: Text, u: Text, i: nat)
    requires OccursAt(MASK + rest, u, i) && Firm(u)
    ensures i >= |MASK| && OccursAt(rest, u, i - |MASK|)
  {
    assert (MASK + rest)[i..i + |u|][0] == (MASK + rest)[i];
    OccursAfter(MASK, rest, u, i);
  }

  lemma OccursAfter(x: Text, rest: Text, u: Text, i: nat)
    requires OccursAt(x + rest, u, i) && |x| <= i
    ensures OccursAt(rest, u, i - |x|)
  {
    assert rest[i - |x|..i - |x| + |u|] == (x + rest)[i..i + |u|];
  }

  lemma ContainsInTail(t: Text, n: nat, u: Text)
    requires n <= |t| && Contains(t[n..], u)
    ensures Contains(t, u)
  {
    var i :| OccursAt(t[n..], u, i);
    assert t[n + i..n + i + |u|] == t[n..][i..i + |u|];
    assert OccursAt(t, u, n + i);
  }

  lemma {:induction false} AbsentStaysAbsent(t: Text, secrets: seq<Text>, u: Text)
    requires Firm(u) && !Contains(t, u)
    ensures !Contains(MaskText(t, secrets), u)
    decreases secrets
  {
    if secrets != [] {
      var next := if |secrets[0]| >= 4 then Replace(t, secrets[0]) else t;
      if i: nat :| OccursAt(next, u, i) {
        if |secrets[0]| >= 4 {
          FirmOccurrence(t, secrets[0], u, i);
        }
      }
      AbsentStaysAbsent(next, secrets[1..], u);
    }
  }

  lemma {:induction false} SecretIsGone(t: Text, secrets: seq<Text>, u: Text)
    requires u in secrets && |u| >= 4 && Firm(u)
    ensures !Contains(MaskText(t, secrets), u)
    decreases secrets
  {
    if u == secrets[0] {
      var next := Replace(t, u);
      if i: nat :| OccursAt(next, u, i) {
        FirmOccurrence(t, u, u, i);
      }
      AbsentStaysAbsent(next, secrets[1..], u);
    } else {
      assert secrets == [secrets[0]] + secrets[1..];
      SecretIsGone(if |secrets[0]| >= 4 then Replace(t, secrets[0]) else t, secrets[1..], u);
    }
  }

  // ---- The whole value ----

  /** `maskArgs`; `isSecret` is the pattern for secret-looking keys. */
  function MaskArgs(value: Json, secrets: seq<Text>, isSecret: Text -> bool, key: Text := []): Json
    decreases value
  {
    if key != [] && isSecret(key) then Str(MASK)
    else match value
      case Str(text) => Str(MaskText(text, secrets))
      case Arr(items) => Arr(seq(|items|, i requires 0 <= i < |items| => MaskArgs(items[i], secrets, isSecret)))
      case Obj(ms) => Obj(seq(|ms|, i requires 0 <= i < |ms| => Member(ms[i].key, MaskArgs(ms[i].value, secrets, isSecret, ms[i].key))))
      case _ => value
  }

  /** Some string value anywhere in the tree contains `u` (keys are not values). */
  ghost predicate SomeStringContains(value: Json, u: Text) {
    match value
    case Str(text) => Contains(text, u)
    case Arr(items) => exists i | 0 <= i < |items| :: SomeStringContains(items[i], u)
    case Obj(ms) => exists i | 0 <= i < |ms| :: SomeStringContains(ms[i].value, u)
    case _ => false
  }

  lemma MaskIsClean(u: Text)
    requires u != [] && Firm(u)
    ensures !Contains(MASK, u)
  {
    if i :| OccursAt(MASK, u, i) {
      assert MASK[i..i + |u|][0] == MASK[i];
    }
  }

  /** No given secret of four units or more that is firm is in any string of the masked value. */
  lemma {:induction false} NoSecretSurvives(value: Json, secrets: seq<Text>, isSecret: Text -> bool, key: Text, u: Text)
    requires u in secrets && |u| >= 4 && Firm(u)
    ensures !SomeStringContains(MaskArgs(value, secrets, isSecret, key), u)
    decreases value
  {
    MaskIsClean(u);
    if !(key != [] && isSecret(key)) {
      match value
      case Str(text) => SecretIsGone(text, secrets, u);
      case Arr(items) =>
        forall i | 0 <= i < |items| ensures !SomeStringContains(MaskArgs(items[i], secrets, isSecret), u) {
          NoSecretSurvives(items[i], secrets, isSecret, [], u);
        }
      case Obj(ms) =>
        forall i | 0 <= i < |ms| ensures !SomeStringContains(MaskArgs(ms[i].value, secrets, isSecret, ms[i].key), u) {
          NoSecretSurvives(ms[i].value, secrets, isSecret, ms[i].key, u);
        }
      case _ =>
    }
  }

  /** Same arrays, same keys in the same order; only strings change, and only whole members become the mask. */
  ghost predicate SameShape(v: Json, w: Json) {
    match v
    case Str(_) => w.Str?
    case Arr(items) => w.Arr? && |w.items| == |items| && forall i | 0 <= i < |items| :: SameShape(items[i], w.items[i])
    case Obj(ms) =>
      && w.Obj? && |w.members| == |ms|
      && (forall i | 0 <= i < |ms| :: w.members[i].key == ms[i].key)
      && (forall i | 0 <= i < |ms| :: w.members[i].value == Str(MASK) || SameShape(ms[i].value, w.members[i].value))
    case _ => v == w
  }

  lemma {:induction false} ShapeIsKept(value: Json, secrets: seq<Text>, isSecret: Text -> bool, key: Text)
    ensures key != [] && isSecret(key) ==> MaskArgs(value, secrets, isSecret, key) == Str(MASK)
    ensures !(key != [] && isSecret(key)) ==> SameShape(value, MaskArgs(value, secrets, isSecret, key))
    decreases value
  {
    match value
    case Arr(items) =>
      forall i | 0 <= i < |items| ensures SameShape(items[i], MaskArgs(items[i], secrets, isSecret)) {
        ShapeIsKept(items[i], secrets, isSecret, []);
      }
    case Obj(ms) =>
      forall i | 0 <= i < |ms| ensures var w := MaskArgs(ms[i].value, secrets, isSecret, ms[i].key); w == Str(MASK) || SameShape(ms[i].value, w) {
        ShapeIsKept(ms[i].value, secrets, isSecret, ms[i].key);
      }
    case _ =>
  }

  // ---- Masking twice ----

  /** Some firm secret of the list is part of `u`, which may be itself. */
  ghost predicate HoldsFirm(secrets: seq<Text>, u: Text) {
    exists v :: v in secrets && |v| >= 4 && Firm(v) && Contains(u, v)
  }

  /** The mask itself, and secrets that hold a firm one. */
  ghost predicate Settled(secrets: seq<Text>) {
    forall u | u in secrets && |u| >= 4 :: u == MASK || HoldsFirm(secrets, u)
  }

  lemma FirmIsSettled(secrets: seq<Text>)
    requires forall u | u in secrets && |u| >= 4 :: u == MASK || Firm(u)
    ensures Settled(secrets)
  {
    forall u | u in secrets && |u| >= 4 && Firm(u) ensures HoldsFirm(secrets, u) {
      assert u[0..|u|] == u;
      assert OccursAt(u, u, 0);
      assert Contains(u, u);
    }
    hide Firm;
  }

  lemma ContainsThrough(t: Text, u: Text, v: Text)
    requires Contains(t, u) && Contains(u, v)
    ensures Contains(t, v)
  {
    var i: nat :| OccursAt(t, u, i);
    var j: nat :| OccursAt(u, v, j);
    forall k | 0 <= k < |v| ensures t[i + j + k] == v[k] {
      OccursUnit(u, v, j, k);
      OccursUnit(t, u, i, j + k);
    }
    assert t[i + j..i + j + |v|] == v;
    assert OccursAt(t, v, i + j);
  }

  /** A secret that holds a firm one goes with it. */
  lemma HolderIsGone(t: Text, secrets: seq<Text>, u: Text)
    requires HoldsFirm(secrets, u)
    ensures !Contains(MaskText(t, secrets), u)
  {
    var v :| v in secrets && |v| >= 4 && Firm(v) && Contains(u, v);
    SecretIsGone(t, secrets, v);
    if Contains(MaskText(t, secrets), u) {
      ContainsThrough(MaskText(t, secrets), u, v);
      assert false;
    }
  }

  lemma {:induction false} ReplaceOfAbsent(t: Text, s: Text)
    requires s != [] && (s == MASK || !Contains(t, s))
    ensures Replace(t, s) == t
    decreases |t|
  {
    ReplaceStep(t, s);
    hide Replace;
    if |t| >= |s| {
      if s <= t {
        assert OccursAt(t, s, 0);
        ReplaceOfAbsent(t[|s|..], s);
      } else {
        if Contains(t[1..], s) {
          ContainsInTail(t, 1, s);
        }
        ReplaceOfAbsent(t[1..], s);
      }
    }
  }

  lemma {:induction false} CleanTextIsKept(t: Text, secrets: seq<Text>)
    requires forall u | u in secrets && |u| >= 4 :: u == MASK || !Contains(t, u)
    ensures MaskText(t, secrets) == t
    decreases secrets
  {
    if secrets != [] {
      assert secrets[0] in secrets && forall u | u in secrets[1..] :: u in secrets;
      if |secrets[0]| >= 4 {
        ReplaceOfAbsent(t, secrets[0]);
      }
      CleanTextIsKept(t, secrets[1..]);
    }
  }

  /** No string in the value contains a listed secret of four units or more, and no member has a secret-looking key. */
  ghost predicate Harmless(value: Json, secrets: seq<Text>, isSecret: Text -> bool) {
    match value
    case Str(text) => forall u | u in secrets && |u| >= 4 :: !Contains(text, u)
    case Arr(items) => forall i | 0 <= i < |items| :: Harmless(items[i], secrets, isSecret)
    case Obj(ms) => forall i | 0 <= i < |ms| :: (ms[i].key == [] || !isSecret(ms[i].key)) && Harmless(ms[i].value, secrets, isSecret)
    case _ => true
  }

  /** Such a value is recorded as it is. */
  lemma {:induction false} HarmlessIsKept(value: Json, secrets: seq<Text>, isSecret: Text -> bool, key: Text)
    requires Harmless(value, secrets, isSecret) && (key == [] || !isSecret(key))
    ensures MaskArgs(value, secrets, isSecret, key) == value
    decreases value
  {
    match value
    case Str(text) => CleanTextIsKept(text, secrets);
    case Arr(items) =>
      forall i | 0 <= i < |items| ensures MaskArgs(items[i], secrets, isSecret) == items[i] {
        HarmlessIsKept(items[i], secrets, isSecret, []);
      }
    case Obj(ms) =>
      forall i | 0 <= i < |ms| ensures MaskArgs(ms[i].value, secrets, isSecret, ms[i].key) == ms[i].value {
        HarmlessIsKept(ms[i].value, secrets, isSecret, ms[i].key);
      }
    case _ =>
  }

  /** A text with one secret once in it has the mask in its place. */
  lemma OneSecretIsMasked(before: Text, secret: Text, after: Text)
    requires |secret| >= 4 && FirstAt(before + secret + after, secret, |before|) && !Contains(after, secret)
    ensures MaskText(before + secret + after, [secret]) == before + MASK + after
  {
    var t := before + secret + after;
    MaskOfOne(t, secret);
    ReplaceUpToFirst(t, secret, |before|);
    assert t[..|before|] == before && t[|before| + |secret|..] == after;
    ReplaceOfAbsent(after, secret);
    hide Replace, Contains, FirstAt;
  }

  lemma {:induction false} MaskTwiceIsMaskOnce(value: Json, secrets: seq<Text>, isSecret: Text -> bool, key: Text)
    requires Settled(secrets)
    ensures var once := MaskArgs(value, secrets, isSecret, key); MaskArgs(once, secrets, isSecret, key) == once
    decreases value
  {
    match value
    case Str(text) =>
      forall u | u in secrets && |u| >= 4 && u != MASK ensures !Contains(MaskText(text, secrets), u) {
        HolderIsGone(text, secrets, u);
      }
      CleanTextIsKept(MaskText(text, secrets), secrets);
    case Arr(items) =>
      forall i | 0 <= i < |items| ensures var once := MaskArgs(items[i], secrets, isSecret); MaskArgs(once, secrets, isSecret) == once {
        MaskTwiceIsMaskOnce(items[i], secrets, isSecret, []);
      }
    case Obj(ms) =>
      forall i | 0 <= i < |ms| ensures var once := MaskArgs(ms[i].value, secrets, isSecret, ms[i].key); MaskArgs(once, secrets, isSecret, ms[i].key) == once {
        MaskTwiceIsMaskOnce(ms[i].value, secrets, isSecret, ms[i].key);
      }
    case _ =>
  }

  // ---- Firm secrets are exactly those that masking removes ----

  lemma {:induction false} ReplaceLength(t: Text, s: Text)
    requires s != []
    ensures |s| <= 8 ==> |Replace(t, s)| >= |t|
    ensures |s| >= 8 ==> |Replace(t, s)| <= |t|
    decreases |t|
  {
    ReplaceStep(t, s);
    hide Replace;
    if |t| >= |s| {
      ReplaceLength(if s <= t then t[|s|..] else t[1..], s);
    }
  }

  /** Replacing what occurs changes the text, unless it is the mask that is replaced. */
  lemma {:induction false} ReplaceOfPresent(t: Text, s: Text, i: nat)
    requires s != [] && s != MASK && OccursAt(t, s, i)
    ensures |s| < 8 ==> |Replace(t, s)| > |t|
    ensures |s| > 8 ==> |Replace(t, s)| < |t|
    ensures Replace(t, s) != t
    decreases |t|
  {
    ReplaceStep(t, s);
    hide Replace;
    if s <= t {
      ReplaceLength(t[|s|..], s);
      assert t[..|s|] == s && (MASK + Replace(t[|s|..], s))[..8] == MASK;
    } else {
      OccursAtStart(t, s);
      assert t[1..][i - 1..i - 1 + |s|] == t[i..i + |s|];
      ReplaceOfPresent(t[1..], s, i - 1);
      assert ([t[0]] + Replace(t[1..], s))[1..] == Replace(t[1..], s);
    }
  }

  ghost predicate FirstAt(t: Text, s: Text, p: nat) {
    OccursAt(t, s, p) && forall q | 0 <= q < p :: !OccursAt(t, s, q)
  }

  lemma {:induction false} HasFirst(t: Text, s: Text, i: nat) returns (p: nat)
    requires OccursAt(t, s, i)
    ensures FirstAt(t, s, p)
  {
    if j: nat :| j < i && OccursAt(t, s, j) {
      p := HasFirst(t, s, j);
    } else {
      p := i;
    }
  }

  lemma OccursUnit(t: Text, s: Text, q: int, k: nat)
    requires OccursAt(t, s, q) && k < |s|
    ensures t[q + k] == s[k]
  {
    assert t[q..q + |s|][k] == t[q + k];
  }

  lemma OccursByUnits(t: Text, s: Text, q: int)
    requires 0 <= q <= |t| - |s| && forall k | 0 <= k < |s| :: t[q..][k] == s[k]
    ensures OccursAt(t, s, q)
  {
    assert t[q..q + |s|] == s;
  }

  lemma OccursInTail(t: Text, s: Text, q: nat)
    requires t != []
    ensures OccursAt(t[1..], s, q) <==> OccursAt(t, s, q + 1)
  {
    if q + 1 <= |t| - |s| {
      assert t[1..][q..q + |s|] == t[q + 1..q + 1 + |s|];
    }
  }

  lemma TailFirstAt(t: Text, s: Text, p: nat)
    requires t != [] && p > 0 && FirstAt(t, s, p)
    ensures FirstAt(t[1..], s, p - 1)
  {
    hide OccursAt;
    OccursInTail(t, s, p - 1);
    forall q | 0 <= q < p - 1 ensures !OccursAt(t[1..], s, q) {
      OccursInTail(t, s, q);
      assert !OccursAt(t, s, q + 1);
    }
  }

  lemma ReplaceSkips(t: Text, s: Text)
    requires s != [] && |t| >= |s| && !OccursAt(t, s, 0)
    ensures Replace(t, s) == [t[0]] + Replace(t[1..], s)
  {
    ReplaceStep(t, s);
    OccursAtStart(t, s);
  }

  lemma ReplaceTakes(t: Text, s: Text)
    requires s != [] && OccursAt(t, s, 0)
    ensures Replace(t, s) == MASK + Replace(t[|s|..], s)
  {
    ReplaceStep(t, s);
    OccursAtStart(t, s);
  }

  lemma {:induction false} ReplaceUpToFirst(t: Text, s: Text, p: nat)
    requires s != [] && FirstAt(t, s, p)
    ensures p + |s| <= |t| && Replace(t, s) == t[..p] + MASK + Replace(t[p + |s|..], s)
    decreases p
  {
    hide Replace;
    if p == 0 {
      ReplaceTakes(t, s);
      assert t[..0] + MASK == MASK;
    } else {
      var rest := t[1..];
      ReplaceSkips(t, s);
      TailFirstAt(t, s, p);
      ReplaceUpToFirst(rest, s, p - 1);
      hide OccursAt, FirstAt;
      OneMore(t, p, Replace(rest[p - 1 + |s|..], s));
      assert rest[p - 1 + |s|..] == t[p + |s|..];
    }
  }

  lemma OneMore(t: Text, p: nat, replaced: Text)
    requires 0 < p <= |t|
    ensures [t[0]] + (t[1..][..p - 1] + MASK + replaced) == t[..p] + MASK + replaced
  {
    assert t[..p] == [t[0]] + t[1..][..p - 1];
  }

  lemma ShortIsKept(t: Text, s: Text)
    requires s != [] && |t| < |s|
    ensures Replace(t, s) == t
  {
    ReplaceStep(t, s);
  }

  /** A secret that begins with a star: the mask lends it that star. */
  lemma StarInFront(s: Text) returns (t: Text)
    requires s != [] && s[0] == STAR
    ensures Contains(Replace(t, s), s)
  {
    t := s + s[1..];
    assert t[0..|s|] == s && t[|s|..] == s[1..];
    assert FirstAt(t, s, 0);
    ReplaceUpToFirst(t, s, 0);
    ShortIsKept(s[1..], s);
    var out := MASK + s[1..];
    assert t[..0] + MASK + s[1..] == out;
    assert out[7..7 + |s|] == s;
    assert OccursAt(out, s, 7);
    hide Replace;
  }

  /** One that ends with a star. */
  lemma StarAtEnd(s: Text) returns (t: Text)
    requires s != [] && s[0] != STAR && s[|s| - 1] == STAR
    ensures Contains(Replace(t, s), s)
  {
    var n := |s| - 1;
    var w := s[..n];
    t := w + s;
    assert t[n..n + |s|] == s;
    forall q | 0 <= q < n ensures !OccursAt(t, s, q) {
      assert t[q] == s[q] == t[q + n];
      if OccursAt(t, s, q) {
        OccursUnit(t, s, q, 0);
        OccursUnit(t, s, q, n);
      }
    }
    assert FirstAt(t, s, n);
    ReplaceUpToFirst(t, s, n);
    assert t[n + |s|..] == [] && t[..n] == w;
    ShortIsKept([], s);
    var out := w + MASK;
    assert w + MASK + [] == out && out[0..|s|] == s;
    assert OccursAt(out, s, 0);
    hide Replace;
  }

  lemma NoEarlierOccurrence(s: Text, t: Text, i: nat, q: nat)
    requires FirstAt(s, MASK, i) && q < i && i + |s| <= |t| && t[i..i + |s|] == s
    ensures !OccursAt(t, s, q)
  {
    if OccursAt(t, s, q) {
      forall k | 0 <= k < |MASK| ensures s[q..][k] == MASK[k] {
        OccursUnit(s, MASK, i, k);
        OccursUnit(t, s, q, i + k);
        OccursUnit(t, s, i, q + k);
      }
      OccursByUnits(s, MASK, q);
    }
  }

  /** One with a mask inside. */
  lemma MaskInside(s: Text) returns (t: Text)
    requires Contains(s, MASK)
    ensures s != [] && Contains(Replace(t, s), s)
  {
    var j: nat :| OccursAt(s, MASK, j);
    var i := HasFirst(s, MASK, j);
    var x, y := s[..i], s[i + 8..];
    assert s == x + MASK + y;
    t := x + s + y;
    assert t[i..i + |s|] == s;
    forall q | 0 <= q < i ensures !OccursAt(t, s, q) {
      NoEarlierOccurrence(s, t, i, q);
    }
    ReplaceUpToFirst(t, s, i);
    assert t[..i] == x && t[i + |s|..] == y;
    ShortIsKept(y, s);
    assert s[0..|s|] == s;
    assert OccursAt(s, s, 0);
    hide Replace;
  }

  lemma NotFirmComesBack(s: Text) returns (t: Text)
    requires s != [] && !Firm(s)
    ensures Contains(Replace(t, s), s)
  {
    if s[0] == STAR {
      t := StarInFront(s);
    } else if s[|s| - 1] == STAR {
      t := StarAtEnd(s);
    } else {
      t := MaskInside(s);
    }
  }

  lemma MaskOfOne(t: Text, s: Text)
    ensures MaskText(t, [s]) == if |s| >= 4 then Replace(t, s) else t
  {
    assert [s][1..] == [];
  }

  /** Masking removes a secret from every text, alone or among any others, if and only if the secret is firm. */
  lemma RemovedExactlyIfFirm(s: Text)
    requires |s| >= 4
    ensures (forall t :: !Contains(MaskText(t, [s]), s)) <==> Firm(s)
    ensures (forall t, secrets :: s in secrets ==> !Contains(MaskText(t, secrets), s)) <==> Firm(s)
  {
    if Firm(s) {
      forall t, secrets | s in secrets ensures !Contains(MaskText(t, secrets), s) {
        SecretIsGone(t, secrets, s);
      }
      assert s in [s];
    } else {
      var t := NotFirmComesBack(s);
      MaskOfOne(t, s);
      assert s in [s] && Contains(MaskText(t, [s]), s);
    }
    hide MaskText, Contains, Firm;
  }

  /** With one secret other than the mask, masking twice is masking once if and only if the secret is firm. */
  lemma IdempotentExactlyIfFirm(s: Text)
    requires |s| >= 4 && s != MASK
    ensures (forall t :: MaskText(MaskText(t, [s]), [s]) == MaskText(t, [s])) <==> Firm(s)
  {
    if Firm(s) {
      forall t ensures MaskText(MaskText(t, [s]), [s]) == MaskText(t, [s]) {
        SecretIsGone(t, [s], s);
        CleanTextIsKept(MaskText(t, [s]), [s]);
      }
    } else {
      var t := NotFirmComesBack(s);
      MaskOfOne(t, s);
      var once := MaskText(t, [s]);
      MaskOfOne(once, s);
      var i: nat :| OccursAt(once, s, i);
      ReplaceOfPresent(once, s, i);
    }
  }

  /** A secret that is not firm does no harm next to a firm one that is part of it. */
  lemma FirmPartSettles(text: Text)
    ensures
      var starred, plain := [STAR, 97, 98, 99, 100], [97, 98, 99, 100];
      var once := MaskText(text, [starred, plain]);
      !Firm(starred) && MaskText(once, [starred, plain]) == once
  {
    var starred: Text, plain: Text := [STAR, 97, 98, 99, 100], [97, 98, 99, 100];
    var secrets := [starred, plain];
    assert starred[1..5] == plain;
    assert OccursAt(starred, plain, 1) && Contains(starred, plain);
    NoMaskInShort(plain);
    assert plain[0..4] == plain && OccursAt(plain, plain, 0);
    assert HoldsFirm(secrets, starred) && HoldsFirm(secrets, plain);
    assert forall u | u in secrets :: u == starred || u == plain;
    hide Firm, HoldsFirm, MaskText, MaskArgs, Contains;
    forall u | u in secrets && |u| >= 4 && u != MASK ensures !Contains(MaskText(text, secrets), u) {
      HolderIsGone(text, secrets, u);
    }
    CleanTextIsKept(MaskText(text, secrets), secrets);
  }

  lemma NoMaskInShort(s: Text)
    requires 0 < |s| < 8 && s[0] != STAR && s[|s| - 1] != STAR
    ensures Firm(s)
  {
    assert |MASK| == 8;
  }

  /** A secret of stars is not settled: masking a mask for it makes the mask longer. */
  lemma StarredSecretGrowsMask()
    ensures var s := [STAR, STAR, STAR, STAR]; MaskText(MASK, [s]) == MASK + MASK
  {
    var s := [STAR, STAR, STAR, STAR];
    ReplaceStep(MASK, s);
    assert MASK[|s|..] == s;
    ReplaceStep(s, s);
    assert s[|s|..] == [];
    ReplaceStep([], s);
    assert MASK + (MASK + []) == MASK + MASK;
    assert MaskText(MASK, [s]) == MaskText(Replace(MASK, s), []);
  }
}
