/** Search over the ranking: fetch more than asked for, drop hidden tools, cut. */
module Search {
  import opened Common
  import opened ToolIndex

  datatype Hit = Hit(id: RowId, score: real)

  ghost predicate DistinctIds(hits: seq<Hit>) {
    forall i, j | 0 <= i < j < |hits| :: hits[i].id != hits[j].id
  }

  /** The hits whose rows are shown, in order. */
  function Visible(hits: seq<Hit>, shown: set<RowId>): seq<Hit> {
    if hits == [] then []
    else Visible(hits[..|hits| - 1], shown) + if hits[|hits| - 1].id in shown then [hits[|hits| - 1]] else []
  }

  function Take(hits: seq<Hit>, n: nat): seq<Hit> {
    if n < |hits| then hits[..n] else hits
  }

  lemma TakeConcat(p: seq<Hit>, q: seq<Hit>, n: nat)
    requires n <= |p|
    ensures Take(p + q, n) == Take(p, n)
  {}

  /** Ids in the ranking that are not shown. */
  function Hidden(hits: seq<Hit>, shown: set<RowId>): set<RowId> {
    set h | h in hits && h.id !in shown :: h.id
  }

  lemma {:induction false} VisibleConcat(p: seq<Hit>, q: seq<Hit>, shown: set<RowId>)
    ensures Visible(p + q, shown) == Visible(p, shown) + Visible(q, shown)
    decreases q
  {
    if q == [] {
      assert p + q == p;
    } else {
      assert (p + q)[..|p + q| - 1] == p + q[..|q| - 1];
      VisibleConcat(p, q[..|q| - 1], shown);
    }
  }

  /** Every hit is visible or hidden. */
  lemma {:induction false} VisibleAndHidden(hits: seq<Hit>, shown: set<RowId>)
    requires DistinctIds(hits)
    ensures |Visible(hits, shown)| + |Hidden(hits, shown)| == |hits|
    decreases hits
  {
    if hits != [] {
      var front, last := hits[..|hits| - 1], hits[|hits| - 1];
      assert hits == front + [last];
      VisibleAndHidden(front, shown);
      if last.id in shown {
        assert Hidden(hits, shown) == Hidden(front, shown);
      } else {
        assert last.id !in Hidden(front, shown);
        assert Hidden(hits, shown) == Hidden(front, shown) + {last.id};
      }
    }
  }

  lemma {:induction false} VisibleAreShown(hits: seq<Hit>, shown: set<RowId>)
    ensures forall h | h in Visible(hits, shown) :: h in hits && h.id in shown
    decreases hits
  {
    if hits != [] {
      VisibleAreShown(hits[..|hits| - 1], shown);
    }
  }

  lemma HiddenOfPart(hits: seq<Hit>, n: nat, shown: set<RowId>)
    requires n <= |hits|
    ensures |Hidden(hits[..n], shown)| <= |Hidden(hits, shown)|
  {
    Subset(Hidden(hits[..n], shown), Hidden(hits, shown));
  }

  lemma {:induction false} Subset(a: set<RowId>, b: set<RowId>)
    requires a <= b
    ensures |a| <= |b|
    decreases a
  {
    if a != {} {
      var x :| x in a;
      Subset(a - {x}, b - {x});
    }
  }

  /** What `search` returns: `quarantined` was counted before ranking, `shown` is read after it. */
  function Search(ranking: seq<Hit>, limit: nat, quarantined: nat, shown: set<RowId>): seq<Hit> {
    Take(Visible(Take(ranking, limit + quarantined), shown), limit)
  }

  /**
   When no more ranked tools are hidden than were counted, the answer is the
   first `limit` of the whole ranking without the hidden ones.
   */
  lemma OverfetchIsEnough(ranking: seq<Hit>, limit: nat, quarantined: nat, shown: set<RowId>)
    requires DistinctIds(ranking) && |Hidden(ranking, shown)| <= quarantined
    ensures Search(ranking, limit, quarantined, shown) == Take(Visible(ranking, shown), limit)
  {
    hide Visible, Hidden;
    var n := limit + quarantined;
    if n < |ranking| {
      var p, q := ranking[..n], ranking[n..];
      VisibleAndHidden(p, shown);
      HiddenOfPart(ranking, n, shown);
      assert p + q == ranking;
      VisibleConcat(p, q, shown);
      TakeConcat(Visible(p, shown), Visible(q, shown), limit);
    }
  }

  /** The ranking up to its last visible hit. */
  function Ahead(hits: seq<Hit>, shown: set<RowId>): seq<Hit> {
    if hits == [] || hits[|hits| - 1].id in shown then hits else Ahead(hits[..|hits| - 1], shown)
  }

  lemma {:induction false} AheadHasAllVisible(hits: seq<Hit>, shown: set<RowId>)
    ensures Ahead(hits, shown) <= hits && Visible(hits[|Ahead(hits, shown)|..], shown) == []
    ensures Visible(Ahead(hits, shown), shown) == Visible(hits, shown)
    ensures var p := Ahead(hits, shown); p != [] ==> p[|p| - 1].id in shown
    decreases hits
  {
    if hits != [] && hits[|hits| - 1].id !in shown {
      var front, last := hits[..|hits| - 1], hits[|hits| - 1];
      AheadHasAllVisible(front, shown);
      var p := Ahead(front, shown);
      assert hits[|p|..] == front[|p|..] + [last];
      VisibleConcat(front[|p|..], [last], shown);
      assert [last][..0] == [];
    } else {
      assert hits[|hits|..] == [];
    }
  }

  lemma {:induction false} VisiblePart(hits: seq<Hit>, n: nat, shown: set<RowId>)
    requires Visible(hits, shown) == []
    ensures Visible(Take(hits, n), shown) == []
  {
    if n < |hits| {
      assert hits == hits[..n] + hits[n..];
      VisibleConcat(hits[..n], hits[n..], shown);
    }
  }

  /** What comes after the last visible hit is of no account. */
  lemma SearchAhead(ranking: seq<Hit>, limit: nat, quarantined: nat, shown: set<RowId>)
    ensures Search(ranking, limit, quarantined, shown) == Search(Ahead(ranking, shown), limit, quarantined, shown)
  {
    AheadHasAllVisible(ranking, shown);
    var p, n := Ahead(ranking, shown), limit + quarantined;
    hide Ahead, Visible;
    if n > |p| {
      var rest := ranking[|p|..];
      assert Take(ranking, n) == p + Take(rest, n - |p|);
      VisiblePart(rest, n - |p|, shown);
      VisibleConcat(p, Take(rest, n - |p|), shown);
    } else {
      assert Take(ranking, n) == Take(p, n);
    }
  }

  /** Searches fill up, whatever the limit, if and only if no more hidden hits than were counted are ahead of the last visible one. */
  lemma OverfetchIsEnoughExactly(ranking: seq<Hit>, quarantined: nat, shown: set<RowId>)
    requires DistinctIds(ranking)
    ensures (forall limit: nat :: Search(ranking, limit, quarantined, shown) == Take(Visible(ranking, shown), limit))
            <==> |Hidden(Ahead(ranking, shown), shown)| <= quarantined
  {
    hide Ahead, Hidden, Visible, Search, DistinctIds;
    if |Hidden(Ahead(ranking, shown), shown)| <= quarantined {
      forall limit: nat ensures Search(ranking, limit, quarantined, shown) == Take(Visible(ranking, shown), limit) {
        SearchFills(ranking, limit, quarantined, shown);
      }
    } else {
      var limit := SearchFallsShort(ranking, quarantined, shown);
    }
  }

  lemma SearchFills(ranking: seq<Hit>, limit: nat, quarantined: nat, shown: set<RowId>)
    requires DistinctIds(ranking) && |Hidden(Ahead(ranking, shown), shown)| <= quarantined
    ensures Search(ranking, limit, quarantined, shown) == Take(Visible(ranking, shown), limit)
  {
    AheadHasAllVisible(ranking, shown);
    SearchAhead(ranking, limit, quarantined, shown);
    OverfetchIsEnough(Ahead(ranking, shown), limit, quarantined, shown);
    hide Ahead, Hidden, Visible, Search;
  }

  lemma SearchFallsShort(ranking: seq<Hit>, quarantined: nat, shown: set<RowId>) returns (limit: nat)
    requires DistinctIds(ranking) && |Hidden(Ahead(ranking, shown), shown)| > quarantined
    ensures Search(ranking, limit, quarantined, shown) != Take(Visible(ranking, shown), limit)
  {
    var p := Ahead(ranking, shown);
    AheadHasAllVisible(ranking, shown);
    VisibleAndHidden(p, shown);
    hide Ahead, Hidden, Visible;
    limit := |Visible(p, shown)|;
    SearchAhead(ranking, limit, quarantined, shown);
    LastIsMissed(p, limit + quarantined, shown);
  }

  lemma LastIsMissed(hits: seq<Hit>, n: nat, shown: set<RowId>)
    requires n < |hits| && hits[|hits| - 1].id in shown
    ensures |Visible(Take(hits, n), shown)| < |Visible(hits, shown)|
  {
    var front := hits[..|hits| - 1];
    assert front == front[..n] + front[n..] && front[..n] == hits[..n];
    VisibleConcat(front[..n], front[n..], shown);
  }

  /** Ranked ids that are no tool's: search rows left without a tool row. */
  function Strangers(ranking: seq<Hit>, all: set<RowId>): set<RowId> {
    set h | h in ranking && h.id !in all :: h.id
  }

  /** The count taken while the same servers are quarantined is such a bound, but for strangers. */
  lemma CountBoundsHidden(ranking: seq<Hit>, all: set<RowId>, quarantined: set<RowId>)
    ensures |Hidden(ranking, all - quarantined)| <= |quarantined| + |Strangers(ranking, all)|
  {
    Subset(Hidden(ranking, all - quarantined), quarantined + Strangers(ranking, all));
  }

  /** A search row without a tool, ranked first, takes the only place: nothing is found. */
  lemma StrangerTakesAPlace(stranger: Hit, tool: Hit)
    requires stranger.id != tool.id
    ensures Search([stranger, tool], 1, 0, {tool.id}) == [] && Visible([stranger, tool], {tool.id}) == [tool]
  {
    assert [stranger, tool][..1] == [stranger] && [stranger][..0] == [];
    assert Visible([stranger], {tool.id}) == [];
  }

  /** In any case nothing hidden is returned, in ranking order and within the limit. */
  lemma SearchIsSafe(ranking: seq<Hit>, limit: nat, quarantined: nat, shown: set<RowId>)
    ensures var found := Search(ranking, limit, quarantined, shown);
            && |found| <= limit
            && found <= Visible(ranking, shown)
            && forall h | h in found :: h in ranking && h.id in shown
  {
    var n := limit + quarantined;
    VisibleAreShown(ranking, shown);
    if n < |ranking| {
      assert ranking[..n] + ranking[n..] == ranking;
      VisibleConcat(ranking[..n], ranking[n..], shown);
    }
  }
}
