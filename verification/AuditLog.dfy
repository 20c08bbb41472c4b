/** The append-only audit log: retention and paging. */
module AuditLog {
  import opened Common

  const PRUNE_EVERY: nat := 100

  datatype Event = Event(action: string, server: Option<string>, tool: Option<string>, detail: string)

  datatype Row = Row(id: nat, event: Event)

  /** Everything ever appended; the row with id `n` is at index `n - 1`. */
  ghost predicate Numbered(history: seq<Row>) {
    forall k | 0 <= k < |history| :: history[k].id == k + 1
  }

  // ---- Paging ----

  datatype Query = Query(limit: Option<int>, before: Option<nat>, server: Option<string>, action: Option<string>, tool: Option<string>)

  predicate Matches(r: Row, q: Query) {
    && (q.server.None? || q.server.value == "" || r.event.server == q.server)
    && (q.action.None? || q.action.value == "" || r.event.action == q.action.value)
    && (q.tool.None? || q.tool.value == "" || r.event.tool == q.tool)
  }

  /** `before` is a condition only when it is not 0. */
  predicate OnPage(r: Row, q: Query) {
    Matches(r, q) && (q.before.None? || q.before.value == 0 || r.id < q.before.value)
  }

  function PageSize(q: Query): nat {
    var n := q.limit.GetOr(100);
    if n < 1 then 1 else if n > 1000 then 1000 else n
  }

  function Count(rows: seq<Row>, q: Query): nat {
    if rows == [] then 0 else Count(rows[..|rows| - 1], q) + if Matches(rows[|rows| - 1], q) then 1 else 0
  }

  /** The first `limit` rows on the page, newest first. */
  function Newest(rows: seq<Row>, q: Query, limit: nat): seq<Row> {
    if rows == [] || limit == 0 then []
    else
      var last := rows[|rows| - 1];
      if OnPage(last, q) then [last] + Newest(rows[..|rows| - 1], q, limit - 1)
      else Newest(rows[..|rows| - 1], q, limit)
  }

  predicate Descending(rows: seq<Row>) {
    forall i, j | 0 <= i < j < |rows| :: rows[i].id > rows[j].id
  }

  /** A window of consecutive rows of the history. */
  ghost predicate IsWindow(history: seq<Row>, lo: nat, hi: nat) {
    lo <= hi <= |history|
  }

  /**
   `page` is in descending order, holds only rows of the window that belong on
   it, and misses such a row only below its last one, and only when it is full.
   */
  ghost predicate NewestOf(history: seq<Row>, lo: nat, hi: nat, q: Query, limit: nat, page: seq<Row>)
    requires IsWindow(history, lo, hi)
  {
    && |page| <= limit && Descending(page)
    && (forall r | r in page :: lo < r.id <= hi && r == history[r.id - 1] && OnPage(r, q))
    && forall k | lo <= k < hi && OnPage(history[k], q) && history[k] !in page ::
         |page| == limit && forall r | r in page :: k + 1 < r.id
  }

  lemma {:induction false} PageIsNewest(history: seq<Row>, lo: nat, hi: nat, q: Query, limit: nat)
    requires Numbered(history) && IsWindow(history, lo, hi)
    ensures NewestOf(history, lo, hi, q, limit, Newest(history[lo..hi], q, limit))
    decreases hi
  {
    hide Newest, OnPage, NewestOf, Numbered;
    if lo < hi && limit > 0 {
      var rest := if OnPage(history[hi - 1], q) then limit - 1 else limit;
      PageIsNewest(history, lo, hi - 1, q, rest);
      NewestTakesLast(history, lo, hi, q, limit);
      NewestExtends(history, lo, hi, q, rest, Newest(history[lo..hi - 1], q, rest));
    } else {
      NothingIsNewest(history, lo, hi, q, limit);
    }
  }

  lemma NothingIsNewest(history: seq<Row>, lo: nat, hi: nat, q: Query, limit: nat)
    requires IsWindow(history, lo, hi) && (lo == hi || limit == 0)
    ensures NewestOf(history, lo, hi, q, limit, Newest(history[lo..hi], q, limit))
  {
    hide OnPage;
    assert Newest(history[lo..hi], q, limit) == [];
  }

  lemma NewestTakesLast(history: seq<Row>, lo: nat, hi: nat, q: Query, limit: nat)
    requires IsWindow(history, lo, hi) && lo < hi && limit > 0
    ensures Newest(history[lo..hi], q, limit) ==
            if OnPage(history[hi - 1], q) then [history[hi - 1]] + Newest(history[lo..hi - 1], q, limit - 1)
            else Newest(history[lo..hi - 1], q, limit)
  {
    hide OnPage;
    var rows := history[lo..hi];
    assert rows[..|rows| - 1] == history[lo..hi - 1] && rows[|rows| - 1] == history[hi - 1];
  }

  lemma NewestExtends(history: seq<Row>, lo: nat, hi: nat, q: Query, rest: nat, page: seq<Row>)
    requires Numbered(history) && IsWindow(history, lo, hi) && lo < hi
    requires NewestOf(history, lo, hi - 1, q, rest, page)
    ensures if OnPage(history[hi - 1], q) then NewestOf(history, lo, hi, q, rest + 1, [history[hi - 1]] + page)
            else NewestOf(history, lo, hi, q, rest, page)
  {
    hide OnPage;
    var last := history[hi - 1];
    forall i | 0 <= i < |page| ensures page[i].id < last.id {
      assert page[i] in page;
    }
  }

  /** Where each page of a walk is read: the table is history[lo..hi] at that time. */
  datatype Window = Window(lo: nat, hi: nat)

  /** Appends and prunes between pages only move both ends up. */
  ghost predicate Evolves(history: seq<Row>, ws: seq<Window>) {
    && (forall k | 0 <= k < |ws| :: IsWindow(history, ws[k].lo, ws[k].hi))
    && (forall j, k | 0 <= j < k < |ws| :: ws[j].lo <= ws[k].lo && ws[j].hi <= ws[k].hi)
  }

  ghost function PageIn(history: seq<Row>, w: Window, q: Query): seq<Row>
    requires IsWindow(history, w.lo, w.hi)
  {
    Newest(history[w.lo..w.hi], q, PageSize(q))
  }

  /** Pages until an empty one, each asking for rows before the last one seen. */
  ghost function Walk(history: seq<Row>, ws: seq<Window>, q: Query): seq<Row>
    requires Evolves(history, ws)
    decreases ws
  {
    if ws == [] then []
    else
      var page := PageIn(history, ws[0], q);
      if page == [] then [] else page + Walk(history, ws[1..], q.(before := Some(page[|page| - 1].id)))
  }

  /** The walk reached an empty page. */
  ghost predicate Finished(history: seq<Row>, ws: seq<Window>, q: Query)
    requires Evolves(history, ws)
    decreases ws
  {
    ws != [] &&
    var page := PageIn(history, ws[0], q);
    page == [] || Finished(history, ws[1..], q.(before := Some(page[|page| - 1].id)))
  }

  ghost predicate Belongs(history: seq<Row>, r: Row, q: Query) {
    0 < r.id <= |history| && r == history[r.id - 1] && OnPage(r, q)
  }

  lemma PageRowsBelong(history: seq<Row>, w: Window, q: Query)
    requires Numbered(history) && IsWindow(history, w.lo, w.hi)
    ensures forall r | r in PageIn(history, w, q) :: Belongs(history, r, q)
  {
    PageIsNewest(history, w.lo, w.hi, q, PageSize(q));
  }

  lemma OlderBelongs(history: seq<Row>, last: Row, r: Row, q: Query)
    requires Belongs(history, last, q) && Belongs(history, r, q.(before := Some(last.id)))
    ensures Belongs(history, r, q)
  {}

  /** Only rows that match and are older than asked for. */
  lemma {:induction false} WalkRowsBelong(history: seq<Row>, ws: seq<Window>, q: Query)
    requires Numbered(history) && Evolves(history, ws)
    ensures forall r | r in Walk(history, ws, q) :: Belongs(history, r, q)
    decreases ws
  {
    hide PageIn, Belongs, Numbered;
    if ws != [] {
      var page := PageIn(history, ws[0], q);
      PageRowsBelong(history, ws[0], q);
      if page != [] {
        var last := page[|page| - 1];
        assert last in page;
        var later := q.(before := Some(last.id));
        WalkRowsBelong(history, ws[1..], later);
        forall r | r in Walk(history, ws[1..], later) ensures Belongs(history, r, q) {
          OlderBelongs(history, last, r, q);
        }
      }
    }
  }

  /** Every row at most once, newest first, whatever was appended or pruned between the pages. */
  lemma {:induction false} WalkIsDescending(history: seq<Row>, ws: seq<Window>, q: Query)
    requires Numbered(history) && Evolves(history, ws)
    ensures Descending(Walk(history, ws, q))
    decreases ws
  {
    hide PageIn, OnPage, Numbered;
    if ws != [] {
      var page := PageIn(history, ws[0], q);
      PageIsDescending(history, ws[0], q);
      if page != [] {
        var last := page[|page| - 1];
        var later := q.(before := Some(last.id));
        WalkIsDescending(history, ws[1..], later);
        WalkIsOlder(history, ws[1..], later);
        DescendingConcat(page, Walk(history, ws[1..], later));
      }
    }
  }

  lemma PageIsDescending(history: seq<Row>, w: Window, q: Query)
    requires Numbered(history) && IsWindow(history, w.lo, w.hi)
    ensures var page := PageIn(history, w, q); Descending(page) && (page != [] ==> page[|page| - 1].id > 0)
  {
    PageIsNewest(history, w.lo, w.hi, q, PageSize(q));
    var page := PageIn(history, w, q);
    assert page != [] ==> page[|page| - 1] in page;
  }

  lemma WalkIsOlder(history: seq<Row>, ws: seq<Window>, q: Query)
    requires Numbered(history) && Evolves(history, ws) && q.before.Some? && q.before.value > 0
    ensures forall r | r in Walk(history, ws, q) :: r.id < q.before.value
  {
    WalkRowsBelong(history, ws, q);
  }

  lemma DescendingConcat(p: seq<Row>, q: seq<Row>)
    requires Descending(p) && Descending(q) && p != []
    requires forall r | r in q :: r.id < p[|p| - 1].id
    ensures Descending(p + q)
  {
    forall i, j | 0 <= i < |p| && 0 <= j < |q| ensures p[i].id > q[j].id {
      assert q[j] in q;
    }
  }

  /** A finished walk has seen every matching row that was there at its start and is still there at its end. */
  lemma {:induction false} WalkMissesNothing(history: seq<Row>, ws: seq<Window>, q: Query, k: nat)
    requires Numbered(history) && Evolves(history, ws) && Finished(history, ws, q)
    requires k < ws[0].hi && ws[|ws| - 1].lo <= k && OnPage(history[k], q)
    ensures history[k] in Walk(history, ws, q)
    decreases ws
  {
    var page := PageIn(history, ws[0], q);
    PageIsNewest(history, ws[0].lo, ws[0].hi, q, PageSize(q));
    assert PageSize(q) > 0;
    if history[k] !in page {
      var last := page[|page| - 1];
      assert last in page;
      WalkMissesNothing(history, ws[1..], q.(before := Some(last.id)), k);
    }
  }

  // ---- The log ----

  /** The rows with an id above `cut`. */
  function Above(rows: seq<Row>, cut: int): (kept: seq<Row>)
    ensures forall r :: r in kept <==> r in rows && r.id > cut
  {
    if rows == [] then [] else if rows[0].id > cut then [rows[0]] + Above(rows[1..], cut) else Above(rows[1..], cut)
  }

  /** Of consecutive ids, those above a cut are an end of the rows. */
  lemma {:induction false} AboveIsSuffix(rows: seq<Row>, cut: int, first: nat)
    requires forall k | 0 <= k < |rows| :: rows[k].id == first + k
    ensures Above(rows, cut) == rows[Dropped(|rows|, cut, first)..]
    decreases rows
  {
    hide Above, Dropped;
    if rows == [] {
      AboveOfNone(cut, first);
    } else {
      var rest := rows[1..];
      AboveIsSuffix(rest, cut, first + 1);
      AboveOfMore(rows, cut);
      DroppedOfMore(|rows|, cut, first);
      assert first <= cut ==> rest[Dropped(|rest|, cut, first + 1)..] == rows[Dropped(|rest|, cut, first + 1) + 1..];
      assert [rows[0]] + rest[0..] == rows == rows[0..];
    }
  }

  lemma AboveOfNone(cut: int, first: nat)
    ensures Above([], cut) == [] && Dropped(0, cut, first) == 0
  {
  }

  lemma AboveOfMore(rows: seq<Row>, cut: int)
    requires rows != []
    ensures Above(rows, cut) == (if rows[0].id > cut then [rows[0]] else []) + Above(rows[1..], cut)
  {
    assert [] + Above(rows[1..], cut) == Above(rows[1..], cut);
  }

  lemma DroppedOfMore(n: nat, cut: int, first: nat)
    requires n > 0
    ensures Dropped(n, cut, first) == if cut < first then 0 else Dropped(n - 1, cut, first + 1) + 1
    ensures cut < first ==> Dropped(n - 1, cut, first + 1) == 0
  {
  }

  /** How many of `n` ids from `first` on are at most `cut`. */
  function Dropped(n: nat, cut: int, first: nat): (d: nat)
    ensures d <= n
  {
    if cut < first then 0 else if cut - first < n then cut - first + 1 else n
  }

  lemma NumberedWith(history: seq<Row>, row: Row)
    requires Numbered(history) && row.id == |history| + 1
    ensures Numbered(history + [row])
  {
  }

  /** The rows are the newest of the history. */
  ghost predicate IsEnd(history: seq<Row>, rows: seq<Row>) {
    |rows| <= |history| && rows == history[|history| - |rows|..]
  }

  /** The newest end of a history grows with it. */
  lemma EndWith(history: seq<Row>, rows: seq<Row>, row: Row)
    requires IsEnd(history, rows)
    ensures IsEnd(history + [row], rows + [row])
  {
  }

  lemma EndOfEnd(history: seq<Row>, rows: seq<Row>, k: nat)
    requires IsEnd(history, rows) && k <= |rows|
    ensures IsEnd(history, rows[k..])
  {
  }

  lemma EndIsNumbered(history: seq<Row>, rows: seq<Row>)
    requires Numbered(history) && IsEnd(history, rows) && rows != []
    ensures forall k | 0 <= k < |rows| :: rows[k].id == rows[0].id + k
    ensures rows[|rows| - 1].id == rows[0].id + |rows| - 1
  {
    forall k | 0 <= k < |rows| ensures rows[k].id == |history| - |rows| + k + 1 {
      assert rows[k] == history[|history| - |rows| + k];
    }
  }

  /** The newest `limit` of the rows. */
  function Last(rows: seq<Row>, limit: nat): seq<Row> {
    if |rows| > limit then rows[|rows| - limit..] else rows
  }

  lemma LastOfNone(rows: seq<Row>, limit: int)
    ensures rows == [] && limit > 0 ==> Last(rows, limit) == rows
  {
  }

  lemma LastLength(rows: seq<Row>, limit: int)
    ensures limit > 0 ==> |Last(rows, limit)| == if limit < |rows| then limit else |rows|
  {
  }

  lemma LastIsDrop(rows: seq<Row>, limit: nat, first: nat)
    requires rows != [] && limit > 0
    ensures Last(rows, limit) == rows[Dropped(|rows|, first + |rows| - 1 - limit, first)..]
  {
    assert rows[0..] == rows;
  }

  lemma PrunedIs(history: seq<Row>, rows: seq<Row>, limit: nat)
    requires Numbered(history) && IsEnd(history, rows) && rows != [] && limit > 0
    ensures Above(rows, rows[|rows| - 1].id - limit) == Last(rows, limit) && IsEnd(history, Last(rows, limit))
  {
    hide Above, Dropped, Numbered, Last, IsEnd;
    EndIsNumbered(history, rows);
    AboveIsSuffix(rows, rows[|rows| - 1].id - limit, rows[0].id);
    LastIsDrop(rows, limit, rows[0].id);
    EndOfEnd(history, rows, Dropped(|rows|, rows[|rows| - 1].id - limit, rows[0].id));
  }

  lemma NextOfHundred(a: nat)
    ensures (a + 1) % PRUNE_EVERY == if a % PRUNE_EVERY == 99 then 0 else a % PRUNE_EVERY + 1
  {
  }

  // ---- Runs of the log ----

  /** The table is what is left of the history: its rows from `gone` on. */
  datatype Log = Log(history: seq<Row>, gone: nat, appended: nat)

  datatype Op = Write(event: Event) | PruneNow

  ghost predicate Good(l: Log) {
    Numbered(l.history) && l.gone <= |l.history|
  }

  function Pruned(l: Log, maxRows: int): Log {
    if 0 < maxRows < |l.history| - l.gone then l.(gone := |l.history| - maxRows) else l
  }

  function Step(l: Log, op: Op, maxRows: int): Log {
    match op
    case Write(event) =>
      var more := Log(l.history + [Row(|l.history| + 1, event)], l.gone, l.appended + 1);
      if more.appended % PRUNE_EVERY == 0 then Pruned(more, maxRows) else more
    case PruneNow => Pruned(l, maxRows)
  }

  function Run(l: Log, ops: seq<Op>, maxRows: int): Log
    decreases ops
  {
    if ops == [] then l else Run(Step(l, ops[0], maxRows), ops[1..], maxRows)
  }

  /** A run takes every step, in order. */
  lemma {:induction false} RunThen(l: Log, ops: seq<Op>, op: Op, maxRows: int)
    ensures Run(l, [], maxRows) == l && Run(l, ops + [op], maxRows) == Step(Run(l, ops, maxRows), op, maxRows)
    decreases ops
  {
    if ops == [] {
      assert [] + [op] == [op] && [op][1..] == [];
    } else {
      RunThen(Step(l, ops[0], maxRows), ops[1..], op, maxRows);
      assert (ops + [op])[0] == ops[0] && (ops + [op])[1..] == ops[1..] + [op];
    }
    hide Step;
  }

  /** A prune leaves the newest `maxRows` rows, if there is such a limit; an append prunes every hundredth time. */
  lemma WhatAStepKeeps(l: Log, op: Op, maxRows: int)
    requires Good(l)
    ensures
      var m, kept, held := Step(l, op, maxRows), |l.history| - l.gone, |Step(l, op, maxRows).history| - Step(l, op, maxRows).gone;
      match op
      case PruneNow =>
        m.history == l.history && m.appended == l.appended && held == (if maxRows > 0 && kept >= maxRows then maxRows else kept)
      case Write(event) =>
        && m.history == l.history + [Row(|l.history| + 1, event)] && m.appended == l.appended + 1
        && held == if maxRows > 0 && (l.appended + 1) % 100 == 0 && kept + 1 >= maxRows then maxRows else kept + 1
  {
  }

  /** The log goes on: rows are added at one end and lost at the other. */
  ghost predicate GoesOn(l: Log, m: Log) {
    Good(m) && l.history <= m.history && l.gone <= m.gone
  }

  lemma StepGoesOn(l: Log, op: Op, maxRows: int)
    requires Good(l)
    ensures GoesOn(l, Step(l, op, maxRows))
  {
    if op.Write? {
      NumberedWith(l.history, Row(|l.history| + 1, op.event));
    }
  }

  lemma {:induction false} RunGoesOn(l: Log, ops: seq<Op>, maxRows: int)
    requires Good(l)
    ensures GoesOn(l, Run(l, ops, maxRows))
    decreases ops
  {
    hide Step;
    if ops != [] {
      StepGoesOn(l, ops[0], maxRows);
      RunGoesOn(Step(l, ops[0], maxRows), ops[1..], maxRows);
    }
  }

  /** A walk over the pages of a log in use: `gaps[i]` is what happens before page `i` is read. */
  ghost function LiveWalk(l: Log, gaps: seq<seq<Op>>, maxRows: int, q: Query): seq<Row>
    requires Good(l)
    decreases gaps
  {
    if gaps == [] then []
    else
      RunGoesOn(l, gaps[0], maxRows);
      var now := Run(l, gaps[0], maxRows);
      var page := Newest(now.history[now.gone..], q, PageSize(q));
      if page == [] then [] else page + LiveWalk(now, gaps[1..], maxRows, q.(before := Some(page[|page| - 1].id)))
  }

  /** It came to an empty page. */
  ghost predicate LiveWalkEnds(l: Log, gaps: seq<seq<Op>>, maxRows: int, q: Query)
    requires Good(l)
    decreases gaps
  {
    gaps != [] &&
    (RunGoesOn(l, gaps[0], maxRows);
     var now := Run(l, gaps[0], maxRows);
     var page := Newest(now.history[now.gone..], q, PageSize(q));
     page == [] || LiveWalkEnds(now, gaps[1..], maxRows, q.(before := Some(page[|page| - 1].id))))
  }

  function After(l: Log, gaps: seq<seq<Op>>, maxRows: int): Log
    decreases gaps
  {
    if gaps == [] then l else After(Run(l, gaps[0], maxRows), gaps[1..], maxRows)
  }

  /** The part of the history each page is read from. */
  function Windows(l: Log, gaps: seq<seq<Op>>, maxRows: int): seq<Window>
    decreases gaps
  {
    if gaps == [] then []
    else
      var now := Run(l, gaps[0], maxRows);
      [Window(now.gone, |now.history|)] + Windows(now, gaps[1..], maxRows)
  }

  lemma {:induction false} AfterGoesOn(l: Log, gaps: seq<seq<Op>>, maxRows: int)
    requires Good(l)
    ensures GoesOn(l, After(l, gaps, maxRows))
    decreases gaps
  {
    if gaps != [] {
      RunGoesOn(l, gaps[0], maxRows);
      AfterGoesOn(Run(l, gaps[0], maxRows), gaps[1..], maxRows);
    }
  }

  /** The windows of a run lie between its start and its end, and only move up. */
  lemma {:induction false} WindowsEvolve(l: Log, gaps: seq<seq<Op>>, maxRows: int)
    requires Good(l)
    ensures var end, ws := After(l, gaps, maxRows), Windows(l, gaps, maxRows);
            && Evolves(end.history, ws)
            && forall i | 0 <= i < |ws| :: l.gone <= ws[i].lo <= end.gone && |l.history| <= ws[i].hi
    decreases gaps
  {
    if gaps != [] {
      var now := Run(l, gaps[0], maxRows);
      RunGoesOn(l, gaps[0], maxRows);
      AfterGoesOn(now, gaps[1..], maxRows);
      WindowsEvolve(now, gaps[1..], maxRows);
    }
  }

  /** A walk over the log in use is a walk over windows of its final history. */
  lemma {:induction false} LiveWalkIsWalk(l: Log, gaps: seq<seq<Op>>, maxRows: int, q: Query, history: seq<Row>)
    requires Good(l) && After(l, gaps, maxRows).history <= history && Evolves(history, Windows(l, gaps, maxRows))
    ensures LiveWalk(l, gaps, maxRows, q) == Walk(history, Windows(l, gaps, maxRows), q)
    ensures LiveWalkEnds(l, gaps, maxRows, q) <==> Finished(history, Windows(l, gaps, maxRows), q)
    decreases gaps
  {
    if gaps != [] {
      var now := Run(l, gaps[0], maxRows);
      RunGoesOn(l, gaps[0], maxRows);
      AfterGoesOn(now, gaps[1..], maxRows);
      var ws := Windows(l, gaps, maxRows);
      assert ws[1..] == Windows(now, gaps[1..], maxRows);
      assert now.history[now.gone..] == history[ws[0].lo..ws[0].hi];
      var page := PageIn(history, ws[0], q);
      if page != [] {
        LiveWalkIsWalk(now, gaps[1..], maxRows, q.(before := Some(page[|page| - 1].id)), history);
      }
    }
  }

  /**
   Over any run of appends and prunes between the pages: a walk that comes to an empty page has listed every
   matching row that the log held at its first page and holds still, and no row twice, newest first.
   */
  lemma LiveWalkMissesNothing(l: Log, gaps: seq<seq<Op>>, maxRows: int, q: Query, r: Row)
    requires Good(l) && LiveWalkEnds(l, gaps, maxRows, q)
    ensures Descending(LiveWalk(l, gaps, maxRows, q))
    ensures
      var start, end := Run(l, gaps[0], maxRows), After(l, gaps, maxRows);
      GoesOn(l, start) && GoesOn(start, end)
      && (r in start.history[start.gone..] && r in end.history[end.gone..] && OnPage(r, q) ==>
            r in LiveWalk(l, gaps, maxRows, q))
  {
    var start, end := Run(l, gaps[0], maxRows), After(l, gaps, maxRows);
    var ws := Windows(l, gaps, maxRows);
    RunGoesOn(l, gaps[0], maxRows);
    AfterGoesOn(start, gaps[1..], maxRows);
    WindowsEvolve(l, gaps, maxRows);
    LiveWalkIsWalk(l, gaps, maxRows, q, end.history);
    WalkIsDescending(end.history, ws, q);
    if r in start.history[start.gone..] && r in end.history[end.gone..] && OnPage(r, q) {
      var k :| end.gone <= k < |end.history| && end.history[k] == r;
      var j :| start.gone <= j < |start.history| && start.history[j] == r;
      assert end.history[j] == start.history[j];
      assert ws[|ws| - 1].lo <= end.gone;
      WalkMissesNothing(end.history, ws, q, k);
    }
  }

  // ---- What a list says, in terms of the rows and the query ----

  /** An absent or empty field of a query asks for nothing. */
  ghost predicate Fits(event: Event, q: Query) {
    && (q.server == None || q.server == Some("") || event.server == q.server)
    && (q.action == None || q.action == Some("") || Some(event.action) == q.action)
    && (q.tool == None || q.tool == Some("") || event.tool == q.tool)
  }

  lemma FitsIsMatches(r: Row, q: Query)
    ensures Fits(r.event, q) <==> Matches(r, q)
  {
  }

  /** The total counts the fitting rows, wherever the page is. */
  lemma {:induction false} CountIsOfFitting(rows: seq<Row>, q: Query)
    ensures Count(rows, q) == |set i | 0 <= i < |rows| && Fits(rows[i].event, q)|
    decreases rows
  {
    var all := set i | 0 <= i < |rows| && Fits(rows[i].event, q);
    if rows == [] {
      assert all == {};
    } else {
      var n := |rows| - 1;
      CountIsOfFitting(rows[..n], q);
      var front := set i | 0 <= i < n && Fits(rows[..n][i].event, q);
      hide Fits, Matches;
      assert forall i | 0 <= i < n :: rows[..n][i] == rows[i];
      assert all == front + if Fits(rows[n].event, q) then {n} else {};
      FitsIsMatches(rows[n], q);
    }
  }

  /** The limit asked for, 100 if none is, and never less than 1 or more than 1000. */
  lemma PageSizeIsClamped(q: Query)
    ensures q.limit == None ==> PageSize(q) == 100
    ensures q.limit.Some? && 1 <= q.limit.value <= 1000 ==> PageSize(q) == q.limit.value
    ensures q.limit.Some? && q.limit.value < 1 ==> PageSize(q) == 1
    ensures q.limit.Some? && q.limit.value > 1000 ==> PageSize(q) == 1000
  {
  }

  lemma OnPageIs(r: Row, q: Query)
    ensures OnPage(r, q) <==> Fits(r.event, q) && (q.before == None || q.before == Some(0) || r.id < q.before.value)
  {
  }

  /** The rows of a page, and those that it misses. */
  lemma PageRows(history: seq<Row>, w: Window, q: Query, r: Row)
    requires Numbered(history) && w.lo <= w.hi <= |history|
    ensures
      var page := PageIn(history, w, q);
      && (r in page ==> r in history[w.lo..w.hi] && OnPage(r, q))
      && (r in history[w.lo..w.hi] && r !in page && OnPage(r, q) ==> |page| == PageSize(q) && forall x | x in page :: x.id > r.id)
  {
    PageIsNewest(history, w.lo, w.hi, q, PageSize(q));
    hide Newest, PageSize, OnPage;
    if r in history[w.lo..w.hi] {
      var k :| w.lo <= k < w.hi && history[k] == r;
      assert history[k].id == k + 1;
    }
    if r in PageIn(history, w, q) {
      assert history[w.lo..w.hi][r.id - 1 - w.lo] == r;
    }
  }

  /** A page holds fitting rows that are older than asked for, and misses such a row only if it is full of newer ones. */
  lemma PageIsOfFitting(history: seq<Row>, w: Window, q: Query)
    requires Numbered(history) && w.lo <= w.hi <= |history|
    ensures
      var page := PageIn(history, w, q);
      && |page| <= PageSize(q)
      && (forall i, j | 0 <= i < j < |page| :: page[i].id > page[j].id)
      && (forall r | r in page :: r in history[w.lo..w.hi] && Fits(r.event, q) && (q.before == None || q.before == Some(0) || r.id < q.before.value))
      && (forall r | r in history[w.lo..w.hi] && r !in page
                     && Fits(r.event, q) && (q.before == None || q.before == Some(0) || r.id < q.before.value) ::
            |page| == PageSize(q) && forall x | x in page :: x.id > r.id)
  {
    PageIsNewest(history, w.lo, w.hi, q, PageSize(q));
    var page := PageIn(history, w, q);
    assert |page| <= PageSize(q) && Descending(page);
    hide Newest, PageSize, OnPage, Fits, PageIn, NewestOf, Numbered;
    forall r | r in page
      ensures r in history[w.lo..w.hi] && Fits(r.event, q) && (q.before == None || q.before == Some(0) || r.id < q.before.value)
    {
      PageRows(history, w, q, r);
      OnPageIs(r, q);
    }
    forall r | r in history[w.lo..w.hi] && r !in page
               && Fits(r.event, q) && (q.before == None || q.before == Some(0) || r.id < q.before.value)
      ensures |page| == PageSize(q) && forall x | x in page :: x.id > r.id
    {
      PageRows(history, w, q, r);
      OnPageIs(r, q);
    }
  }

  class AuditLog {
    const maxRows: int
    /** The table, in id order. */
    var rows: seq<Row>
    /** The last id handed out; ids are never reused. */
    var lastId: nat
    /** Appends by this process. */
    var appended: nat
    ghost var history: seq<Row>

    /** The table is the newest end of the history; after a prune it is at most 99 rows over the limit. */
    ghost predicate Valid()
      reads this
    {
      && Numbered(history) && lastId == |history|
      && IsEnd(history, rows)
      && (maxRows > 0 && appended >= PRUNE_EVERY ==> |rows| <= maxRows + appended % PRUNE_EVERY)
    }

    ghost function State(): Log
      requires Valid()
      reads this
    {
      Log(history, |history| - |rows|, appended)
    }

    /** Opens the log over whatever an earlier process left in the table. */
    constructor (rows: seq<Row>, lastId: nat, maxRows: int, ghost history: seq<Row>)
      requires Numbered(history) && lastId == |history|
      requires IsEnd(history, rows)
      ensures Valid() && this.maxRows == maxRows && this.history == history && this.rows == rows && appended == 0
    {
      this.maxRows, this.rows, this.lastId, this.appended, this.history := maxRows, rows, lastId, 0, history;
    }

    method Append(event: Event)
      requires Valid()
      modifies this
      ensures Valid() && history == old(history) + [Row(old(lastId) + 1, event)]
      ensures State() == Step(old(State()), Write(event), maxRows)
      ensures appended == old(appended) + 1
      ensures |rows| == if maxRows > 0 && appended % PRUNE_EVERY == 0 && |old(rows)| >= maxRows then maxRows else |old(rows)| + 1
      ensures maxRows > 0 && appended >= PRUNE_EVERY ==> |rows| <= maxRows + 99
    {
      var row := Row(lastId + 1, event);
      NumberedWith(history, row);
      EndWith(history, rows, row);
      NextOfHundred(appended);
      hide Numbered, IsEnd, Last;
      rows, lastId, history := rows + [row], lastId + 1, history + [row];
      appended := appended + 1;
      if appended % PRUNE_EVERY == 0 {
        Prune();
      }
    }

    /** Deletes every row whose id is at most the greatest one less `maxRows`. */
    method Prune()
      requires Numbered(history) && IsEnd(history, rows)
      modifies `rows
      ensures maxRows <= 0 ==> rows == old(rows)
      ensures maxRows > 0 ==> rows == Last(old(rows), maxRows)
      ensures |rows| == if 0 < maxRows < |old(rows)| then maxRows else |old(rows)|
      ensures IsEnd(history, rows)
    {
      hide Numbered, Above, IsEnd, Last;
      LastOfNone(rows, maxRows);
      LastLength(rows, maxRows);
      if maxRows <= 0 || rows == [] {
        return;
      }
      PrunedIs(history, rows, maxRows);
      rows := Above(rows, rows[|rows| - 1].id - maxRows);
    }

    method List(q: Query) returns (entries: seq<Row>, total: nat)
      requires Valid()
      ensures entries == PageIn(history, Window(|history| - |rows|, |history|), q)
      ensures total == |set i | 0 <= i < |rows| && Fits(rows[i].event, q)|
    {
      CountIsOfFitting(rows, q);
      assert rows == history[|history| - |rows|..|history|];
      entries, total := Newest(rows, q, PageSize(q)), Count(rows, q);
    }
  }
}
