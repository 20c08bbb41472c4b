/**
 The keychain secret backend. A value longer than one credential may be spans
 numbered entries behind a head entry; through `Get`, `Set` and `Delete` it
 behaves like a plain map from accounts to values.
 */
module SecretStore {
  import opened Common
  import opened JsText

  const KEYRING_CHUNK: nat := 1280

  /** NUL followed by "chunks:". */
  const CHUNKED: Text := [0, 99, 104, 117, 110, 107, 115, 58]

  const HASH: CodeUnit := 35

  // ---- Decimal numbers in entry names and head entries ----

  function Decimal(n: nat): Text {
    if n < 10 then [48 + n] else Decimal(n / 10) + [48 + n % 10]
  }

  predicate IsDigit(c: CodeUnit) {
    48 <= c <= 57
  }

  /** The number a run of digits stands for. */
  function Number(t: Text): Option<nat> {
    if t == [] || !IsDigit(t[|t| - 1]) then None
    else if |t| == 1 then Some(t[0] - 48)
    else
      var front := Number(t[..|t| - 1]);
      if front.None? then None else Some(10 * front.value + (t[|t| - 1] - 48))
  }

  lemma NumberOfAppend(front: Text, r: nat)
    requires Number(front).Some? && r < 10
    ensures Number(front + [48 + r]) == Some(10 * Number(front).value + r)
  {
    assert (front + [48 + r])[..|front|] == front;
  }

  lemma {:induction false} NumberOfDecimal(n: nat)
    ensures Number(Decimal(n)) == Some(n)
    ensures forall c | c in Decimal(n) :: IsDigit(c)
  {
    if n >= 10 {
      var q, r := n / 10, n % 10;
      assert n == 10 * q + r && 0 <= r < 10;
      NumberOfDecimal(q);
      NumberOfAppend(Decimal(q), r);
    }
  }

  // ---- Entry names ----

  function EntryName(account: Text, chunk: nat): Text {
    account + [HASH] + Decimal(chunk)
  }

  /** A chunk is filed under the account, a number sign and its number; a head is NUL, "chunks:" and the count. */
  lemma EntriesAreNamed(account: Text, tens: nat, units: nat)
    requires 0 < tens < 10 && units < 10
    ensures EntryName(account, units) == account + ['#' as int, '0' as int + units]
    ensures EntryName(account, 10 * tens + units) == account + ['#' as int, '0' as int + tens, '0' as int + units]
    ensures CHUNKED == [0, 'c' as int, 'h' as int, 'u' as int, 'n' as int, 'k' as int, 's' as int, ':' as int]
  {
    assert (10 * tens + units) / 10 == tens && (10 * tens + units) % 10 == units;
    assert Decimal(10 * tens + units) == [48 + tens] + [48 + units];
  }

  lemma EntryNamesDiffer(a: Text, i: nat, b: Text, j: nat)
    requires EntryName(a, i) == EntryName(b, j)
    ensures a == b && i == j
  {
    var e := EntryName(a, i);
    NumberOfDecimal(i);
    NumberOfDecimal(j);
    assert e[|a|] == HASH && e[|b|] == HASH;
    forall x | |a| < x < |e| ensures IsDigit(e[x]) {
      assert e[x] in Decimal(i);
    }
    forall x | |b| < x < |e| ensures IsDigit(e[x]) {
      assert e[x] in Decimal(j);
    }
    assert a == e[..|a|] && b == e[..|b|];
    assert Decimal(i) == e[|a| + 1..] == Decimal(j);
  }

  ghost predicate IsChunkOf(entry: Text, account: Text) {
    exists i: nat :: entry == EntryName(account, i)
  }

  /** No account is another account followed by `#` and a number. */
  ghost predicate Separate(accounts: set<Text>) {
    forall a, b | a in accounts && b in accounts :: !IsChunkOf(a, b)
  }

  // ---- Splitting ----

  predicate IsHigh(c: CodeUnit) {
    0xd800 <= c <= 0xdbff
  }

  predicate IsLow(c: CodeUnit) {
    0xdc00 <= c <= 0xdfff
  }

  /** UTF-16 in which every surrogate is half of a pair (section 2.1 of RFC 2781). */
  ghost predicate WellFormed(t: Text) {
    && (forall k | 0 <= k < |t| && IsHigh(t[k]) :: k + 1 < |t| && IsLow(t[k + 1]))
    && (forall k | 0 <= k < |t| && IsLow(t[k]) :: k > 0 && IsHigh(t[k - 1]))
  }

  function Concat(parts: seq<Text>): Text {
    if parts == [] then [] else Concat(parts[..|parts| - 1]) + parts[|parts| - 1]
  }

  /** Surrogates are the 54th and 55th block of 1024 units. */
  lemma SurrogatesAre(c: CodeUnit)
    ensures (IsHigh(c) <==> c / 1024 == 54) && (IsLow(c) <==> c / 1024 == 55)
  {
  }

  method SplitValue(value: Text) returns (parts: seq<Text>)
    ensures Concat(parts) == value
    ensures forall p | p in parts :: 0 < |p| <= 1280
    ensures forall k | 0 <= k < |parts| - 1 :: |parts[k]| >= 1279
    ensures WellFormed(value) ==> forall p | p in parts :: WellFormed(p)
  {
    parts := [];
    var i := 0;
    while i < |value|
      invariant 0 <= i <= |value|
      invariant Concat(parts) == value[..i]
      invariant forall p | p in parts :: 0 < |p| <= KEYRING_CHUNK
      invariant forall k | 0 <= k < |parts| && (k < |parts| - 1 || i < |value|) :: |parts[k]| >= KEYRING_CHUNK - 1
      invariant WellFormed(value) && 0 < i < |value| ==> !IsHigh(value[i - 1])
      invariant WellFormed(value) ==> forall p | p in parts :: WellFormed(p)
    {
      var end := if i + KEYRING_CHUNK < |value| then i + KEYRING_CHUNK else |value|;
      if end < |value| && IsHigh(value[end - 1]) {
        end := end - 1;
      }
      assert value[..end] == value[..i] + value[i..end];
      if WellFormed(value) {
        CutIsWellFormed(value, i, end);
      }
      parts := parts + [value[i..end]];
      assert parts[..|parts| - 1] + [value[i..end]] == parts;
      i := end;
    }
    assert value[..i] == value;
  }

  /** A cut between two units that are not a pair leaves whole pairs. */
  lemma CutIsWellFormed(value: Text, i: nat, end: nat)
    requires WellFormed(value) && i < end <= |value|
    requires i > 0 ==> !IsHigh(value[i - 1])
    requires end < |value| ==> !IsHigh(value[end - 1])
    ensures WellFormed(value[i..end])
  {
    var p := value[i..end];
    forall k | 0 <= k < |p| ensures p[k] == value[i + k] {}
    forall k | 0 <= k < |p| && IsHigh(p[k]) ensures k + 1 < |p| && IsLow(p[k + 1]) {
      assert IsHigh(value[i + k]);
    }
    forall k | 0 <= k < |p| && IsLow(p[k]) ensures k > 0 && IsHigh(p[k - 1]) {
      assert IsLow(value[i + k]);
    }
  }

  // ---- What a keychain stores ----

  type Keychain = map<Text, Text>

  /** What a loop up to a JavaScript number does: not at all for 0, else so many rounds (none for NaN), or without end. */
  datatype Count = Zero | Rounds(n: nat) | Endless

  /** Reading what follows the marker as a number: any function that reads back what was written. */
  ghost predicate Inverts(number: Text -> Count) {
    number(Decimal(0)) == Zero && forall n: nat | n > 0 :: number(Decimal(n)) == Rounds(n)
  }

  /** `chunkCount`. */
  function ChunkCount(head: Option<Text>, number: Text -> Count): Count {
    if head.Some? && CHUNKED <= head.value then number(head.value[|CHUNKED|..]) else Zero
  }

  predicate Split(k: Keychain, account: Text) {
    account in k && CHUNKED <= k[account]
  }

  /** How many chunks a head entry of this program announces. */
  function Chunks(k: Keychain, account: Text): nat {
    if Split(k, account) then Number(k[account][|CHUNKED|..]).GetOr(0) else 0
  }

  /** The head and the chunks of one account agree. */
  ghost predicate Whole(k: Keychain, account: Text) {
    && (Split(k, account) ==> Chunks(k, account) > 0 && k[account] == CHUNKED + Decimal(Chunks(k, account)))
    && (account in k && !Split(k, account) ==> |k[account]| <= KEYRING_CHUNK)
    && forall i: nat :: i < Chunks(k, account) <==> EntryName(account, i) in k
  }

  ghost predicate ShortChunks(k: Keychain, account: Text) {
    forall i: nat | EntryName(account, i) in k :: |k[EntryName(account, i)]| <= KEYRING_CHUNK
  }

  /** Exactly the heads and their chunks, nothing else. */
  ghost predicate Sound(k: Keychain, accounts: set<Text>) {
    && (forall a | a in accounts :: Whole(k, a) && ShortChunks(k, a))
    && (forall e | e in k :: e in accounts || exists a :: a in accounts && IsChunkOf(e, a))
  }

  ghost function Joined(k: Keychain, account: Text, n: nat): Text
    requires forall i: nat | i < n :: EntryName(account, i) in k
  {
    if n == 0 then [] else Joined(k, account, n - 1) + k[EntryName(account, n - 1)]
  }

  ghost function Value(k: Keychain, account: Text): Text
    requires account in k && Whole(k, account)
  {
    if Split(k, account) then Joined(k, account, Chunks(k, account)) else k[account]
  }

  /** The secrets a sound keychain stands for. */
  ghost function Secrets(k: Keychain, accounts: set<Text>): map<Text, Text>
    requires Sound(k, accounts)
  {
    map a | a in accounts && a in k :: Value(k, a)
  }

  // ---- Writing and dropping the chunks of one account ----

  function WithChunks(k: Keychain, account: Text, parts: seq<Text>): Keychain {
    if parts == [] then k
    else WithChunks(k, account, parts[..|parts| - 1])[EntryName(account, |parts| - 1) := parts[|parts| - 1]]
  }

  function WithoutChunks(k: Keychain, account: Text, lo: nat, hi: nat): Keychain {
    if lo >= hi then k else WithoutChunks(k, account, lo, hi - 1) - {EntryName(account, hi - 1)}
  }

  lemma {:induction false} WithChunksAt(k: Keychain, account: Text, parts: seq<Text>, entry: Text)
    ensures !IsChunkOf(entry, account) ==> Lookup(WithChunks(k, account, parts), entry) == Lookup(k, entry)
    ensures forall i: nat | entry == EntryName(account, i) ::
      Lookup(WithChunks(k, account, parts), entry) == if i < |parts| then Some(parts[i]) else Lookup(k, entry)
    decreases parts
  {
    if parts != [] {
      WithChunksAt(k, account, parts[..|parts| - 1], entry);
      forall i: nat | entry == EntryName(account, i) && entry == EntryName(account, |parts| - 1) ensures i == |parts| - 1 {
        EntryNamesDiffer(account, i, account, |parts| - 1);
      }
    }
  }

  lemma {:induction false} WithoutChunksAt(k: Keychain, account: Text, lo: nat, hi: nat, entry: Text)
    ensures !IsChunkOf(entry, account) ==> Lookup(WithoutChunks(k, account, lo, hi), entry) == Lookup(k, entry)
    ensures forall i: nat | entry == EntryName(account, i) ::
      Lookup(WithoutChunks(k, account, lo, hi), entry) == if lo <= i < hi then None else Lookup(k, entry)
    decreases hi
  {
    if lo < hi {
      WithoutChunksAt(k, account, lo, hi - 1, entry);
      forall i: nat | entry == EntryName(account, i) && entry == EntryName(account, hi - 1) ensures i == hi - 1 {
        EntryNamesDiffer(account, i, account, hi - 1);
      }
    }
  }

  /** `Set`: chunks first, then the head, then the chunks a longer value left behind. */
  function AfterSet(k: Keychain, account: Text, value: Text, parts: seq<Text>): Keychain {
    var written := WithChunks(k, account, parts);
    WithoutChunks(written[account := HeadFor(value, parts)], account, |parts|, Chunks(k, account))
  }

  function AfterDelete(k: Keychain, account: Text): Keychain {
    WithoutChunks(k - {account}, account, 0, Chunks(k, account))
  }

  /** Entries of other accounts are what they were. */
  ghost predicate OthersKept(k: Keychain, k': Keychain, account: Text) {
    forall e | e != account && !IsChunkOf(e, account) :: Lookup(k', e) == Lookup(k, e)
  }

  function HeadFor(value: Text, parts: seq<Text>): Text {
    if parts == [] then value else CHUNKED + Decimal(|parts|)
  }

  lemma AfterSetAt(k: Keychain, account: Text, value: Text, parts: seq<Text>)
    requires Whole(k, account)
    ensures
      var k' := AfterSet(k, account, value, parts);
      && OthersKept(k, k', account)
      && Lookup(k', account) == Some(HeadFor(value, parts))
      && HoldsChunks(k', account, parts)
  {
    var k' := AfterSet(k, account, value, parts);
    var written := WithChunks(k, account, parts)[account := HeadFor(value, parts)];
    var n := Chunks(k, account);
    assert k' == WithoutChunks(written, account, |parts|, n);
    hide EntryName, WithChunks, WithoutChunks, AfterSet, HeadFor;
    WithoutChunksAt(written, account, |parts|, n, account) by {
    }
    assert !IsChunkOf(account, account) by {
      forall i: nat ensures account != EntryName(account, i) {
        NotOwnChunk(account, i);
      }
    }
    forall e | e != account && !IsChunkOf(e, account) ensures Lookup(k', e) == Lookup(k, e) {
      WithChunksAt(k, account, parts, e);
      WithoutChunksAt(written, account, |parts|, n, e);
    }
    forall i: nat ensures Lookup(k', EntryName(account, i)) == if i < |parts| then Some(parts[i]) else None {
      hide IsChunkOf;
      NotOwnChunk(account, i);
      WithChunksAt(k, account, parts, EntryName(account, i));
      WithoutChunksAt(written, account, |parts|, n, EntryName(account, i));
      assert i < n <==> EntryName(account, i) in k by {
        hide Chunks;
      }
    }
  }

  /** The chunk entries of the account are exactly `parts`. */
  ghost predicate HoldsChunks(k: Keychain, account: Text, parts: seq<Text>) {
    forall i: nat :: Lookup(k, EntryName(account, i)) == if i < |parts| then Some(parts[i]) else None
  }

  lemma NotOwnChunk(account: Text, i: nat)
    ensures EntryName(account, i) != account
  {
    assert |EntryName(account, i)| > |account|;
  }

  lemma AfterDeleteAt(k: Keychain, account: Text, accounts: set<Text>)
    requires Sound(k, accounts) && Separate(accounts) && account in accounts
    ensures
      var k' := AfterDelete(k, account);
      && OthersKept(k, k', account)
      && account !in k'
      && forall i: nat :: EntryName(account, i) !in k'
  {
    var n := Chunks(k, account);
    WithoutChunksAt(k - {account}, account, 0, n, account);
    forall e | e != account && !IsChunkOf(e, account) ensures Lookup(AfterDelete(k, account), e) == Lookup(k, e) {
      WithoutChunksAt(k - {account}, account, 0, n, e);
    }
    forall i: nat ensures EntryName(account, i) !in AfterDelete(k, account) {
      assert IsChunkOf(EntryName(account, i), account);
      WithoutChunksAt(k - {account}, account, 0, n, EntryName(account, i));
      assert Lookup(AfterDelete(k, account), EntryName(account, i)) == None;
    }
  }

  /** An operation on one account that keeps other entries keeps the other secrets. */
  lemma OtherSecretsKept(k: Keychain, k': Keychain, account: Text, accounts: set<Text>)
    requires Sound(k, accounts) && Separate(accounts) && account in accounts
    requires OthersKept(k, k', account)
    requires Whole(k', account) && ShortChunks(k', account)
    ensures Sound(k', accounts)
    ensures Secrets(k', accounts) ==
            if account in k' then Secrets(k, accounts)[account := Value(k', account)] else Secrets(k, accounts) - {account}
  {
    hide Value, Separate, OthersKept, ShortChunks, Whole, IsChunkOf;
    SoundnessKept(k, k', account, accounts);
    forall a | a in accounts && a != account
      ensures Whole(k, a) && Whole(k', a) && (a in k' <==> a in k) && (a in k ==> Value(k', a) == Value(k, a))
    {
      OtherValueKept(k, k', account, a, accounts);
    }
  }

  lemma OtherValueKept(k: Keychain, k': Keychain, account: Text, a: Text, accounts: set<Text>)
    requires Sound(k, accounts) && Sound(k', accounts) && Separate(accounts)
    requires account in accounts && OthersKept(k, k', account) && a in accounts && a != account
    ensures Whole(k, a) && Whole(k', a) && (a in k' <==> a in k) && (a in k ==> Value(k', a) == Value(k, a))
  {
    hide Value, Whole, Separate, OthersKept, ShortChunks;
    OtherEntries(k, k', account, a, accounts);
    ValueKept(k, k', a);
  }

  lemma ValueKept(k: Keychain, k': Keychain, a: Text)
    requires SameFor(k, k', a) && Whole(k, a) && Whole(k', a)
    ensures a in k' <==> a in k
    ensures a in k ==> Value(k', a) == Value(k, a)
  {
    if a in k {
      JoinedKept(k, k', a, Chunks(k, a));
    }
  }

  lemma SoundnessKept(k: Keychain, k': Keychain, account: Text, accounts: set<Text>)
    requires Sound(k, accounts) && Separate(accounts) && account in accounts
    requires OthersKept(k, k', account)
    requires Whole(k', account) && ShortChunks(k', account)
    ensures Sound(k', accounts)
  {
    forall a | a in accounts && a != account ensures Whole(k', a) && ShortChunks(k', a) {
      hide Separate, OthersKept;
      OtherEntries(k, k', account, a, accounts);
      assert Whole(k, a) && ShortChunks(k, a);
      hide Sound;
      WholeKept(k, k', a);
    }
    forall e | e in k' && e !in accounts ensures exists a :: a in accounts && IsChunkOf(e, a) {
      if !IsChunkOf(e, account) {
        assert Lookup(k', e) == Lookup(k, e);
      }
    }
  }

  lemma WholeKept(k: Keychain, k': Keychain, a: Text)
    requires SameFor(k, k', a) && Whole(k, a) && ShortChunks(k, a)
    ensures Whole(k', a) && ShortChunks(k', a)
  {
    forall i: nat ensures (i < Chunks(k', a) <==> EntryName(a, i) in k') && (EntryName(a, i) in k' ==> |k'[EntryName(a, i)]| <= KEYRING_CHUNK) {
      assert Lookup(k', EntryName(a, i)) == Lookup(k, EntryName(a, i));
    }
  }

  ghost predicate SameFor(k: Keychain, k': Keychain, a: Text) {
    && Lookup(k', a) == Lookup(k, a)
    && forall i: nat :: Lookup(k', EntryName(a, i)) == Lookup(k, EntryName(a, i))
  }

  lemma OtherEntries(k: Keychain, k': Keychain, account: Text, a: Text, accounts: set<Text>)
    requires OthersKept(k, k', account) && Separate(accounts)
    requires account in accounts && a in accounts && a != account
    ensures SameFor(k, k', a)
  {
    forall i: nat ensures Lookup(k', EntryName(a, i)) == Lookup(k, EntryName(a, i)) {
      assert IsChunkOf(EntryName(a, i), a);
      forall j: nat | EntryName(a, i) == EntryName(account, j) ensures false {
        EntryNamesDiffer(a, i, account, j);
      }
    }
  }

  lemma {:induction false} JoinedKept(k: Keychain, k': Keychain, a: Text, n: nat)
    requires SameFor(k, k', a)
    requires forall i: nat | i < n :: EntryName(a, i) in k
    ensures forall i: nat | i < n :: EntryName(a, i) in k'
    ensures Joined(k', a, n) == Joined(k, a, n)
  {
    forall i: nat | i < n ensures EntryName(a, i) in k' {
      assert Lookup(k', EntryName(a, i)) == Lookup(k, EntryName(a, i));
    }
    if n > 0 {
      JoinedKept(k, k', a, n - 1);
      assert Lookup(k', EntryName(a, n - 1)) == Lookup(k, EntryName(a, n - 1));
    }
  }

  lemma {:induction false} JoinedParts(k: Keychain, a: Text, parts: seq<Text>)
    requires forall i: nat | i < |parts| :: Lookup(k, EntryName(a, i)) == Some(parts[i])
    ensures forall i: nat | i < |parts| :: EntryName(a, i) in k
    ensures Joined(k, a, |parts|) == Concat(parts)
    decreases parts
  {
    forall i: nat | i < |parts| ensures EntryName(a, i) in k {
      assert Lookup(k, EntryName(a, i)) == Some(parts[i]);
    }
    if parts != [] {
      JoinedParts(k, a, parts[..|parts| - 1]);
      assert Lookup(k, EntryName(a, |parts| - 1)) == Some(parts[|parts| - 1]);
    }
  }

  /** What `set` requires of a value: a short one must not look like a head entry. */
  predicate Storable(value: Text) {
    |value| <= KEYRING_CHUNK ==> !(CHUNKED <= value)
  }

  lemma SetStores(k: Keychain, account: Text, value: Text, parts: seq<Text>, accounts: set<Text>)
    requires Sound(k, accounts) && Separate(accounts) && account in accounts && Storable(value)
    requires if |value| > KEYRING_CHUNK then Concat(parts) == value else parts == []
    requires forall p | p in parts :: |p| <= KEYRING_CHUNK
    ensures
      var k' := AfterSet(k, account, value, parts);
      Sound(k', accounts) && Secrets(k', accounts) == Secrets(k, accounts)[account := value]
  {
    var k' := AfterSet(k, account, value, parts);
    assert Whole(k, account);
    AfterSetAt(k, account, value, parts);
    if |value| > KEYRING_CHUNK {
      assert parts != [];
    }
    hide AfterSet, Sound, Separate, OthersKept;
    SplitHead(k', account, value, parts);
    OtherSecretsKept(k, k', account, accounts);
  }

  lemma SplitHead(k: Keychain, account: Text, value: Text, parts: seq<Text>)
    requires Lookup(k, account) == Some(HeadFor(value, parts)) && HoldsChunks(k, account, parts) && Storable(value)
    requires if |value| > KEYRING_CHUNK then Concat(parts) == value && parts != [] else parts == []
    requires forall p | p in parts :: |p| <= KEYRING_CHUNK
    ensures Whole(k, account) && ShortChunks(k, account)
    ensures Value(k, account) == value
  {
    NumberOfDecimal(|parts|);
    assert (CHUNKED + Decimal(|parts|))[|CHUNKED|..] == Decimal(|parts|);
    assert Chunks(k, account) == |parts|;
    assert Split(k, account) <==> parts != [];
    hide Chunks, Decimal, Number, Split, EntryName, HeadFor;
    forall i: nat ensures i < |parts| <==> EntryName(account, i) in k {
      assert Lookup(k, EntryName(account, i)) == if i < |parts| then Some(parts[i]) else None;
    }
    forall i: nat | EntryName(account, i) in k ensures |k[EntryName(account, i)]| <= KEYRING_CHUNK {
      assert Lookup(k, EntryName(account, i)) == if i < |parts| then Some(parts[i]) else None;
    }
    JoinedParts(k, account, parts);
  }

  /** A head entry this program wrote is read as the number of chunks. */
  lemma CountIsChunks(k: Keychain, account: Text, number: Text -> Count)
    requires Whole(k, account) && Inverts(number)
    ensures ChunkCount(Lookup(k, account), number) == if Chunks(k, account) == 0 then Zero else Rounds(Chunks(k, account))
  {
    if Split(k, account) {
      assert k[account][|CHUNKED|..] == Decimal(Chunks(k, account));
    }
    hide Number, Decimal, EntryName;
  }

  /** What `get` answers for any entries; without end it comes to a chunk that is not there. */
  ghost function Read(k: Keychain, account: Text, number: Text -> Count): Option<Text> {
    if account !in k then None
    else
      match ChunkCount(Some(k[account]), number)
      case Zero => Some(k[account])
      case Rounds(n) => if forall i: nat | i < n :: EntryName(account, i) in k then Some(Joined(k, account, n)) else None
      case Endless => None
  }

  /**
   A value is read back after it was set if and only if it is long, does not begin with the marker, or has something
   after it that reads as 0, whatever JavaScript makes of other texts.
   */
  lemma ReadBackExactly(k: Keychain, account: Text, value: Text, parts: seq<Text>, number: Text -> Count)
    requires Whole(k, account) && Inverts(number)
    requires if |value| > KEYRING_CHUNK then Concat(parts) == value else parts == []
    requires forall p | p in parts :: |p| <= KEYRING_CHUNK
    ensures Read(AfterSet(k, account, value, parts), account, number) == Some(value) <==>
            Storable(value) || number(value[|CHUNKED|..]) == Zero
  {
    var k' := AfterSet(k, account, value, parts);
    AfterSetAt(k, account, value, parts);
    hide AfterSet, OthersKept, EntryName, Number, Decimal, Inverts;
    if Storable(value) {
      if |value| > KEYRING_CHUNK {
        assert parts != [];
      }
      SplitHead(k', account, value, parts);
      WholeIsRead(k', account, number);
    } else {
      assert Lookup(k', EntryName(account, 0)) == None;
      assert HeadFor(value, parts) == value;
    }
  }

  lemma WholeIsRead(k: Keychain, account: Text, number: Text -> Count)
    requires Whole(k, account) && account in k && Inverts(number)
    ensures Read(k, account, number) == Some(Value(k, account))
  {
    CountIsChunks(k, account, number);
    hide EntryName, Number, Decimal, Inverts;
  }

  lemma ReadKept(k: Keychain, k': Keychain, a: Text, number: Text -> Count)
    requires SameFor(k, k', a)
    ensures Read(k', a, number) == Read(k, a, number)
  {
    assert Lookup(k', a) == Lookup(k, a);
    forall i: nat ensures EntryName(a, i) in k' <==> EntryName(a, i) in k {
      assert Lookup(k', EntryName(a, i)) == Lookup(k, EntryName(a, i));
    }
    if a in k && ChunkCount(Some(k[a]), number).Rounds? {
      var n := ChunkCount(Some(k[a]), number).n;
      if forall i: nat | i < n :: EntryName(a, i) in k {
        JoinedKept(k, k', a, n);
      }
    }
    hide EntryName, ChunkCount;
  }

  lemma DeleteRemoves(k: Keychain, account: Text, accounts: set<Text>)
    requires Sound(k, accounts) && Separate(accounts) && account in accounts
    ensures
      var k' := AfterDelete(k, account);
      Sound(k', accounts) && Secrets(k', accounts) == Secrets(k, accounts) - {account}
  {
    AfterDeleteAt(k, account, accounts);
    assert Whole(AfterDelete(k, account), account);
    OtherSecretsKept(k, AfterDelete(k, account), account, accounts);
  }

  lemma SetKeeps(k: Keychain, account: Text, value: Text, parts: seq<Text>, accounts: set<Text>, number: Text -> Count)
    requires Sound(k, accounts) && Separate(accounts) && account in accounts && Inverts(number)
    requires if |value| > KEYRING_CHUNK then Concat(parts) == value else parts == []
    requires forall p | p in parts :: |p| <= KEYRING_CHUNK
    ensures
      var k' := AfterSet(k, account, value, parts);
      && (Storable(value) ==> Sound(k', accounts) && Secrets(k', accounts) == Secrets(k, accounts)[account := value])
      && (Read(k', account, number) == Some(value) <==> Storable(value) || number(value[|CHUNKED|..]) == Zero)
      && (forall a | a in accounts && a != account :: Read(k', a, number) == Read(k, a, number))
  {
    var k' := AfterSet(k, account, value, parts);
    AfterSetAt(k, account, value, parts);
    ReadBackExactly(k, account, value, parts, number);
    if Storable(value) {
      SetStores(k, account, value, parts, accounts);
    }
    hide AfterSet, Sound, Whole, Separate, OthersKept, SameFor, HoldsChunks, Read, Inverts;
    forall a | a in accounts && a != account ensures Read(k', a, number) == Read(k, a, number) {
      OtherEntries(k, k', account, a, accounts);
      ReadKept(k, k', a, number);
    }
  }

  class KeyringSecretBackend {
    /** The operating system's credential store. */
    var keychain: Keychain
    /** The accounts secrets are filed under. */
    ghost const accounts: set<Text>
    const number: Text -> Count

    ghost predicate Valid()
      reads this
    {
      Separate(accounts) && Sound(keychain, accounts) && Inverts(number)
    }

    constructor (ghost accounts: set<Text>, number: Text -> Count)
      requires Separate(accounts) && Inverts(number)
      ensures Valid() && this.accounts == accounts && this.number == number && Secrets(keychain, accounts) == map[]
    {
      this.accounts, this.number := accounts, number;
      keychain := map[];
    }

    method WriteChunks(account: Text, parts: seq<Text>)
      modifies this
      ensures keychain == WithChunks(old(keychain), account, parts)
    {
      for i := 0 to |parts|
        invariant keychain == WithChunks(old(keychain), account, parts[..i])
      {
        assert parts[..i + 1][..i] == parts[..i];
        keychain := keychain[EntryName(account, i) := parts[i]];
      }
      assert parts[..|parts|] == parts;
    }

    method DropChunks(account: Text, lo: nat, hi: nat)
      modifies this
      ensures keychain == WithoutChunks(old(keychain), account, lo, hi)
    {
      if lo < hi {
        for i := lo to hi
          invariant keychain == WithoutChunks(old(keychain), account, lo, i)
        {
          keychain := keychain - {EntryName(account, i)};
        }
      }
    }

    method Get(account: Text) returns (value: Option<Text>)
      requires Valid() && account in accounts
      ensures value == Lookup(Secrets(keychain, accounts), account) == Read(keychain, account, number)
    {
      CountIsChunks(keychain, account, number);
      if account in keychain {
        WholeIsRead(keychain, account, number);
      }
      var head := Lookup(keychain, account);
      var count := ChunkCount(head, number);
      if count.Zero? {
        return head;
      }
      var joined := [];
      for i := 0 to count.n
        invariant joined == Joined(keychain, account, i)
      {
        var part := Lookup(keychain, EntryName(account, i));
        if part.None? {
          return None;
        }
        joined := joined + part.value;
      }
      return Some(joined);
    }

    /** Other accounts are never affected. A value that looks like a head entry is stored all the same. */
    method Set(account: Text, value: Text)
      requires Valid() && account in accounts
      modifies this
      ensures Storable(value) ==> Valid() && Secrets(keychain, accounts) == old(Secrets(keychain, accounts))[account := value]
      ensures Read(keychain, account, number) == Some(value) <==> Storable(value) || number(value[|CHUNKED|..]) == Zero
      ensures forall a | a in accounts && a != account :: Read(keychain, a, number) == old(Read(keychain, a, number))
    {
      CountIsChunks(keychain, account, number);
      ghost var was := keychain;
      var count := ChunkCount(Lookup(keychain, account), number);
      var before := if count.Rounds? then count.n else 0;
      var parts := [];
      if |value| > KEYRING_CHUNK {
        parts := SplitValue(value);
      }
      WriteChunks(account, parts);
      keychain := keychain[account := HeadFor(value, parts)];
      DropChunks(account, |parts|, before);
      assert keychain == AfterSet(was, account, value, parts);
      SetKeeps(was, account, value, parts, accounts, number);
      hide *;
    }

    method Delete(account: Text)
      requires Valid() && account in accounts
      modifies this
      ensures Valid()
      ensures Secrets(keychain, accounts) == old(Secrets(keychain, accounts)) - {account}
    {
      CountIsChunks(keychain, account, number);
      var count := ChunkCount(Lookup(keychain, account), number);
      keychain := keychain - {account};
      DropChunks(account, 0, if count.Rounds? then count.n else 0);
      DeleteRemoves(old(keychain), account, accounts);
    }
  }
}
