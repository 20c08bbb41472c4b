/** The local mirror of the MCP Registry: the latest version per name, synced page by page. */
module Registry {
  import opened Common
  import opened JsText

  const MAX_PAGES: nat := 2000

  /** One `{server, _meta}` element of a page. */
  datatype Entry =
    | Malformed
    | Entry(name: string, version: string, isLatest: Option<bool>, updatedAt: Option<Text>, serverJson: string, metaJson: string)

  datatype Row = Row(version: string, isLatest: bool, updatedAt: Option<Text>, serverJson: string, metaJson: string)

  type Rows = map<string, Row>

  // ---- One entry ----

  predicate ClaimsLatest(e: Entry)
    requires e.Entry?
  {
    e.isLatest != Some(false)
  }

  function RowOf(e: Entry): Row
    requires e.Entry?
  {
    Row(e.version, ClaimsLatest(e), e.updatedAt, e.serverJson, e.metaJson)
  }

  function Upsert(rows: Rows, e: Entry): Rows {
    if e.Malformed? then rows
    else if e.name in rows && !ClaimsLatest(e) && rows[e.name].version != e.version then rows
    else rows[e.name := RowOf(e)]
  }

  function Apply(rows: Rows, es: seq<Entry>): Rows
    decreases es
  {
    if es == [] then rows else Apply(Upsert(rows, es[0]), es[1..])
  }

  lemma {:induction false} ApplyConcat(rows: Rows, p: seq<Entry>, q: seq<Entry>)
    ensures Apply(rows, p + q) == Apply(Apply(rows, p), q)
    decreases p
  {
    if p == [] {
      assert p + q == q;
    } else {
      assert (p + q)[1..] == p[1..] + q;
      ApplyConcat(Upsert(rows, p[0]), p[1..], q);
    }
  }

  // ---- What a name sees of a run of entries ----

  function Touch(row: Option<Row>, name: string, e: Entry): Option<Row> {
    if e.Malformed? || e.name != name then row
    else if row.Some? && !ClaimsLatest(e) && row.value.version != e.version then row
    else Some(RowOf(e))
  }

  function TouchAll(row: Option<Row>, name: string, es: seq<Entry>): Option<Row>
    decreases es
  {
    if es == [] then row else TouchAll(Touch(row, name, es[0]), name, es[1..])
  }

  lemma {:induction false} NamesAreIndependent(rows: Rows, name: string, es: seq<Entry>)
    ensures Lookup(Apply(rows, es), name) == TouchAll(Lookup(rows, name), name, es)
    decreases es
  {
    if es != [] {
      NamesAreIndependent(Upsert(rows, es[0]), name, es[1..]);
    }
  }

  predicate Concerns(e: Entry, name: string) {
    e.Entry? && e.name == name
  }

  /** A run with a latest entry for the name forgets the row it started from. */
  lemma {:induction false} LatestForgets(r: Option<Row>, s: Option<Row>, name: string, es: seq<Entry>)
    requires exists e :: e in es && Concerns(e, name) && ClaimsLatest(e)
    ensures TouchAll(r, name, es) == TouchAll(s, name, es)
    decreases es
  {
    if !(Concerns(es[0], name) && ClaimsLatest(es[0])) {
      assert es == [es[0]] + es[1..];
      LatestForgets(Touch(r, name, es[0]), Touch(s, name, es[0]), name, es[1..]);
    }
  }

  ghost predicate NoLatest(name: string, es: seq<Entry>) {
    forall e | e in es && Concerns(e, name) :: e.isLatest == Some(false)
  }

  /** A run without one keeps the version, and either changes nothing or forgets all of the row but the version. */
  lemma {:induction false} OthersKeepVersion(r: Row, s: Row, name: string, es: seq<Entry>)
    requires NoLatest(name, es) && r.version == s.version
    ensures
      var r', s' := TouchAll(Some(r), name, es), TouchAll(Some(s), name, es);
      && r'.Some? && r'.value.version == r.version
      && (r' == s' || (r' == Some(r) && s' == Some(s)))
    decreases es
  {
    if es != [] {
      assert es[0] in es && forall e | e in es[1..] :: e in es;
      OthersKeepVersion(Touch(Some(r), name, es[0]).value, Touch(Some(s), name, es[0]).value, name, es[1..]);
    }
  }

  lemma {:induction false} SecondPassChangesNothing(row: Option<Row>, name: string, es: seq<Entry>)
    ensures TouchAll(TouchAll(row, name, es), name, es) == TouchAll(row, name, es)
    decreases |es|, row.None?
  {
    var once := TouchAll(row, name, es);
    if exists e :: e in es && Concerns(e, name) && ClaimsLatest(e) {
      LatestForgets(row, once, name, es);
    } else if row.Some? {
      OthersKeepVersion(row.value, row.value, name, es);
      OthersKeepVersion(row.value, once.value, name, es);
    } else if es != [] {
      if Concerns(es[0], name) {
        SecondPassChangesNothing(Some(RowOf(es[0])), name, es);
      } else {
        SecondPassChangesNothing(None, name, es[1..]);
      }
    }
  }

  // ---- What is stored, in terms of the entries ----

  /** A row holds what an entry says. */
  ghost predicate Holds(row: Row, e: Entry)
    requires e.Entry?
  {
    && row.version == e.version && row.updatedAt == e.updatedAt
    && row.serverJson == e.serverJson && row.metaJson == e.metaJson
    && (row.isLatest <==> e.isLatest != Some(false))
  }

  /** An entry of another version that says it is not the latest is passed over; any other well-formed one is stored as it is. */
  lemma EntryIsStored(rows: Rows, e: Entry)
    ensures
      var after := Upsert(rows, e);
      if e.Malformed? || (e.isLatest == Some(false) && e.name in rows && rows[e.name].version != e.version) then after == rows
      else e.name in after && Holds(after[e.name], e) && after == rows[e.name := after[e.name]]
  {
  }

  /** Entries that are not the latest: the last one of the stored version counts, and without one the row stays. */
  lemma {:induction false} OthersOfVersion(row: Row, name: string, es: seq<Entry>, version: string)
    requires row.version == version && forall e | e in es && Concerns(e, name) :: e.isLatest == Some(false)
    ensures (forall e | e in es && Concerns(e, name) :: e.version != version) ==> TouchAll(Some(row), name, es) == Some(row)
    ensures forall k | 0 <= k < |es| && IsLastOf(es, k, name, version) ::
              TouchAll(Some(row), name, es).Some? && Holds(TouchAll(Some(row), name, es).value, es[k])
    decreases es
  {
    if es != [] {
      var next := Touch(Some(row), name, es[0]).value;
      assert es[0] in es && forall e | e in es[1..] :: e in es;
      OthersOfVersion(next, name, es[1..], version);
      forall k | 0 <= k < |es| && IsLastOf(es, k, name, version)
        ensures TouchAll(Some(row), name, es).Some? && Holds(TouchAll(Some(row), name, es).value, es[k])
      {
        if k > 0 {
          assert IsLastOf(es[1..], k - 1, name, version) by {
            assert es[1..][k - 1] == es[k];
          }
        } else {
          forall e | e in es[1..] && Concerns(e, name) ensures e.version != version {
            var j :| 0 <= j < |es[1..]| && es[1..][j] == e;
            assert es[j + 1] == e;
          }
        }
      }
    }
  }

  /** The last entry of a name with that version. */
  ghost predicate IsLastOf(es: seq<Entry>, k: nat, name: string, version: string) {
    && k < |es| && Concerns(es[k], name) && es[k].version == version
    && forall j | k < j < |es| && Concerns(es[j], name) :: es[j].version != version
  }

  /** The entry that settles the version of a name: the last one not said to be old, or else the first of a name not stored. */
  ghost predicate Settles(rows: Rows, es: seq<Entry>, i: nat, name: string) {
    && i < |es| && Concerns(es[i], name)
    && (es[i].isLatest != Some(false) || (name !in rows && forall j | 0 <= j < i :: !Concerns(es[j], name)))
    && forall j | i < j < |es| && Concerns(es[j], name) :: es[j].isLatest == Some(false)
  }

  lemma {:induction false} NobodyTouches(row: Option<Row>, name: string, es: seq<Entry>)
    requires forall j | 0 <= j < |es| :: !Concerns(es[j], name)
    ensures TouchAll(row, name, es) == row
    decreases es
  {
    if es != [] {
      NobodyTouches(row, name, es[1..]);
    }
  }

  lemma {:induction false} TouchAllConcat(row: Option<Row>, name: string, p: seq<Entry>, q: seq<Entry>)
    ensures TouchAll(row, name, p + q) == TouchAll(TouchAll(row, name, p), name, q)
    decreases p
  {
    if p == [] {
      assert p + q == q;
    } else {
      assert (p + q)[1..] == p[1..] + q;
      TouchAllConcat(Touch(row, name, p[0]), name, p[1..], q);
    }
  }

  /** What the entry that settles the version leaves. */
  lemma SettledRow(rows: Rows, es: seq<Entry>, name: string, i: nat)
    requires Settles(rows, es, i, name)
    ensures var row := TouchAll(Lookup(rows, name), name, es[..i + 1]); row.Some? && Holds(row.value, es[i])
  {
    var before := es[..i];
    assert es[..i + 1] == before + [es[i]];
    TouchAllConcat(Lookup(rows, name), name, before, [es[i]]);
    assert [es[i]][1..] == [];
    if es[i].isLatest == Some(false) {
      NobodyTouches(Lookup(rows, name), name, before);
    }
  }

  /** The entries after it, seen from there. */
  lemma TailOf(es: seq<Entry>, i: nat, k: nat, name: string, version: string)
    requires i < k && IsLastOf(es, k, name, version)
    ensures IsLastOf(es[i + 1..], k - i - 1, name, version) && es[i + 1..][k - i - 1] == es[k]
  {
  }

  /** After a run a name has the version of the entry that settles it, and holds the last entry of this version. */
  lemma RowIsOfItsLastEntry(rows: Rows, es: seq<Entry>, name: string, i: nat, k: nat)
    requires Settles(rows, es, i, name) && IsLastOf(es, k, name, es[i].version)
    ensures name in Apply(rows, es) && Holds(Apply(rows, es)[name], es[k])
  {
    NamesAreIndependent(rows, name, es);
    SettledRow(rows, es, name, i);
    var after := es[i + 1..];
    assert es == es[..i + 1] + after;
    TouchAllConcat(Lookup(rows, name), name, es[..i + 1], after);
    var row := TouchAll(Lookup(rows, name), name, es[..i + 1]).value;
    forall j | 0 <= j < |after| && Concerns(after[j], name) ensures after[j].isLatest == Some(false) {
      assert es[i + 1 + j] == after[j];
    }
    OthersOfVersion(row, name, after, es[i].version);
    hide TouchAll, Settles, Apply, Holds;
    if k > i {
      TailOf(es, i, k, name, es[i].version);
    } else {
      assert k == i;
      forall j | 0 <= j < |after| && Concerns(after[j], name) ensures after[j].version != es[i].version {
        assert es[i + 1 + j] == after[j];
      }
    }
  }

  /** If only old versions of a stored name come, the row holds the last entry of its own version, or stays. */
  lemma StoredRowIsOfItsVersion(rows: Rows, es: seq<Entry>, name: string)
    requires name in rows && forall e | e in es && Concerns(e, name) :: e.isLatest == Some(false)
    ensures name in Apply(rows, es)
    ensures (forall e | e in es && Concerns(e, name) :: e.version != rows[name].version) ==> Apply(rows, es)[name] == rows[name]
    ensures forall k | 0 <= k < |es| && IsLastOf(es, k, name, rows[name].version) :: Holds(Apply(rows, es)[name], es[k])
  {
    NamesAreIndependent(rows, name, es);
    StoredStays(rows[name], name, es);
    OthersOfVersion(rows[name], name, es, rows[name].version);
  }

  // ---- Interrupted and repeated syncs ----

  lemma ReplayIsHarmless(rows: Rows, p: seq<Entry>, q: seq<Entry>)
    ensures Apply(Apply(Apply(rows, p), p), q) == Apply(Apply(rows, p), q)
  {
    var once := Apply(rows, p);
    forall name ensures Lookup(Apply(once, p), name) == Lookup(once, name) {
      NamesAreIndependent(rows, name, p);
      NamesAreIndependent(once, name, p);
      SecondPassChangesNothing(Lookup(rows, name), name, p);
    }
    MapsEqualByLookup(Apply(once, p), once);
  }

  function ApplyAttempts(rows: Rows, full: seq<Entry>, lengths: seq<nat>): Rows
    requires forall k | 0 <= k < |lengths| :: lengths[k] <= |full|
    decreases lengths
  {
    if lengths == [] then rows else ApplyAttempts(Apply(rows, full[..lengths[0]]), full, lengths[1..])
  }

  /** Any number of attempts, each cut short anywhere, followed by one that completes: the same rows as that one alone. */
  lemma {:induction false} InterruptedAttemptsAreHarmless(rows: Rows, full: seq<Entry>, lengths: seq<nat>)
    requires forall k | 0 <= k < |lengths| :: lengths[k] <= |full|
    ensures Apply(ApplyAttempts(rows, full, lengths), full) == Apply(rows, full)
    decreases lengths
  {
    if lengths != [] {
      var p, q := full[..lengths[0]], full[lengths[0]..];
      assert p + q == full;
      InterruptedAttemptsAreHarmless(Apply(rows, p), full, lengths[1..]);
      ApplyConcat(Apply(rows, p), p, q);
      ApplyConcat(rows, p, q);
      ReplayIsHarmless(rows, p, q);
    }
  }

  /** Without a latest entry for it, a stored row stays at its version, and no row is ever dropped. */
  lemma StoredVersionIsKept(rows: Rows, es: seq<Entry>, name: string)
    requires name in rows
    ensures name in Apply(rows, es)
    ensures NoLatest(name, es) ==> Apply(rows, es)[name].version == rows[name].version
  {
    NamesAreIndependent(rows, name, es);
    StoredStays(rows[name], name, es);
    if NoLatest(name, es) {
      OthersKeepVersion(rows[name], rows[name], name, es);
    }
  }

  lemma {:induction false} StoredStays(row: Row, name: string, es: seq<Entry>)
    ensures TouchAll(Some(row), name, es).Some?
    decreases es
  {
    if es != [] {
      StoredStays(Touch(Some(row), name, es[0]).value, name, es[1..]);
    }
  }

  // ---- The cursor ----

  /** The later of two timestamps; an absent or empty one counts for nothing. */
  function Later(newest: Text, updatedAt: Option<Text>): Text {
    if updatedAt.Some? && updatedAt.value != [] && Less(newest, updatedAt.value) then updatedAt.value else newest
  }

  function Newest(newest: Text, es: seq<Entry>): Text
    decreases es
  {
    if es == [] then newest
    else Newest(if es[0].Entry? then Later(newest, es[0].updatedAt) else newest, es[1..])
  }

  lemma {:induction false} NewestConcat(newest: Text, p: seq<Entry>, q: seq<Entry>)
    ensures Newest(newest, p + q) == Newest(Newest(newest, p), q)
    decreases p
  {
    if p == [] {
      assert p + q == q;
    } else {
      assert (p + q)[1..] == p[1..] + q;
      NewestConcat(if p[0].Entry? then Later(newest, p[0].updatedAt) else newest, p[1..], q);
    }
  }

  ghost predicate AtMost(a: Text, b: Text) {
    !Less(b, a)
  }

  /** The cursor never moves back, covers every timestamp seen, and is one of them. */
  lemma {:induction false} NewestIsMaximum(newest: Text, es: seq<Entry>)
    ensures AtMost(newest, Newest(newest, es))
    ensures forall e | e in es && e.Entry? && e.updatedAt.Some? :: AtMost(e.updatedAt.value, Newest(newest, es))
    ensures Newest(newest, es) == newest || exists e :: e in es && e.Entry? && e.updatedAt == Some(Newest(newest, es))
    decreases es
  {
    LessIsIrreflexive(newest);
    if es != [] {
      var first := if es[0].Entry? then Later(newest, es[0].updatedAt) else newest;
      var last := Newest(first, es[1..]);
      NewestIsMaximum(first, es[1..]);
      assert forall e | e in es :: e == es[0] || e in es[1..];
      if first != newest {
        if Less(last, newest) {
          LessIsTransitive(last, newest, first);
        }
      } else if es[0].Entry? && es[0].updatedAt.Some? && Less(last, es[0].updatedAt.value) {
        NotLaterThan(last, first, es[0].updatedAt.value);
      }
    }
  }

  lemma NotLaterThan(last: Text, first: Text, t: Text)
    requires AtMost(first, last) && AtMost(t, first)
    ensures AtMost(t, last)
  {
    LessIsTotal(first, last);
    if Less(last, t) && first != last {
      LessIsTransitive(first, last, t);
    }
  }

  // ---- The sync ----

  /** What one page request yields; a missing page counts as an empty last one. */
  datatype Fetched = Failed | Page(entries: seq<Entry>, hasNext: bool)

  datatype SyncResult = SyncResult(incremental: bool, fetched: nat, pages: nat)

  /** The entries of the first `n` pages. */
  ghost function Entries(fetch: nat -> Fetched, n: nat): seq<Entry> {
    if n == 0 then []
    else Entries(fetch, n - 1) + if fetch(n - 1).Page? then fetch(n - 1).entries else []
  }

  /** Every one of the first `n` pages arrived and announced another. */
  ghost predicate AllContinue(fetch: nat -> Fetched, n: nat) {
    forall k: nat | k < n :: fetch(k).Page? && fetch(k).hasNext
  }

  lemma {:induction false} EntriesGrow(fetch: nat -> Fetched, p: nat, n: nat)
    requires p <= n
    ensures Entries(fetch, p) <= Entries(fetch, n)
  {
    if p < n {
      EntriesGrow(fetch, p, n - 1);
    }
  }

  /**
   A sync that failed at page `p` followed by one that reads `n` pages of the
   same answers leaves the rows the second one alone would have left.
   */
  lemma FailedSyncThenSync(rows: Rows, fetch: nat -> Fetched, p: nat, n: nat)
    requires p <= n
    ensures Apply(Apply(rows, Entries(fetch, p)), Entries(fetch, n)) == Apply(rows, Entries(fetch, n))
  {
    EntriesGrow(fetch, p, n);
    var full := Entries(fetch, n);
    var read := |Entries(fetch, p)|;
    assert full[..read] == Entries(fetch, p);
    InterruptedAttemptsAreHarmless(rows, full, [read]);
    assert ApplyAttempts(rows, full, [read]) == Apply(rows, full[..read]);
  }

  class RegistryMirror {
    var rows: Rows
    /** The stored cursor; empty when never synced. */
    var updatedSince: Text
    var syncedAt: Option<nat>

    constructor ()
      ensures rows == map[] && updatedSince == [] && syncedAt == None
    {
      rows, updatedSince, syncedAt := map[], [], None;
    }

    /** Stores one page in a transaction and carries the newest timestamp on. */
    method StorePage(entries: seq<Entry>, since: Text) returns (newest: Text)
      modifies `rows
      ensures rows == Apply(old(rows), entries)
      ensures newest == Newest(since, entries)
    {
      newest := since;
      for k := 0 to |entries|
        invariant Apply(rows, entries[k..]) == Apply(old(rows), entries)
        invariant Newest(newest, entries[k..]) == Newest(since, entries)
      {
        var e := entries[k];
        assert entries[k..][1..] == entries[k + 1..];
        rows := Upsert(rows, e);
        if e.Entry? {
          newest := Later(newest, e.updatedAt);
        }
      }
    }

    /**
     A failed request leaves the pages before it stored and the cursor where it
     was. The cursor moves only after the last page, or after the page limit.
     */
    method DoSync(fetch: nat -> Fetched, now: nat) returns (result: Result<SyncResult, nat>)
      modifies this
      ensures match result {
        case Success(r) =>
          && 1 <= r.pages <= 2000 && AllContinue(fetch, r.pages - 1)
          && fetch(r.pages - 1).Page? && (fetch(r.pages - 1).hasNext <==> AllContinue(fetch, 2000))
          && (fetch(r.pages - 1).hasNext ==> r.pages == 2000)
          && rows == Apply(old(rows), Entries(fetch, r.pages))
          && updatedSince == Newest(old(updatedSince), Entries(fetch, r.pages))
          && syncedAt == Some(now)
          && r.fetched == |Entries(fetch, r.pages)|
          && r.incremental == (old(updatedSince) != [])
        case Failure(page) =>
          && page < MAX_PAGES && AllContinue(fetch, page) && fetch(page).Failed?
          && rows == Apply(old(rows), Entries(fetch, page))
          && updatedSince == old(updatedSince) && syncedAt == old(syncedAt)
      }
    {
      var newest := updatedSince;
      var pages, fetched, more := 0, 0, true;
      while more && pages < MAX_PAGES
        invariant pages <= MAX_PAGES && (pages == 0 ==> more)
        invariant AllContinue(fetch, if more then pages else pages - 1)
        invariant pages > 0 ==> fetch(pages - 1).Page? && more == fetch(pages - 1).hasNext
        invariant rows == Apply(old(rows), Entries(fetch, pages))
        invariant newest == Newest(old(updatedSince), Entries(fetch, pages))
        invariant fetched == |Entries(fetch, pages)|
        invariant updatedSince == old(updatedSince) && syncedAt == old(syncedAt)
      {
        var page := fetch(pages);
        if page.Failed? {
          return Failure(pages);
        }
        ApplyConcat(old(rows), Entries(fetch, pages), page.entries);
        NewestConcat(old(updatedSince), Entries(fetch, pages), page.entries);
        newest := StorePage(page.entries, newest);
        pages, fetched, more := pages + 1, fetched + |page.entries|, page.hasNext;
      }
      NewestIsMaximum(updatedSince, Entries(fetch, pages));
      result := Success(SyncResult(updatedSince != [], fetched, pages));
      if newest != [] {
        updatedSince := newest;
      }
      syncedAt := Some(now);
    }
  }
}
