/** The scores of a query, over the reals: fusion, server routing, usage prior, and the order of the result. */
module Ranking {
  import opened Common
  import opened Search
  import opened ToolIndex

  type Server = string
  type Scores = map<RowId, real>

  datatype Options = Options(
    saturation: real, denseWeight: real, serverBoost: real, serverMention: real, usageWeight: real, usageCap: real)

  /** Weights are fractions; nothing is negative. */
  predicate Sane(o: Options) {
    && o.saturation > 0.0 && o.usageWeight >= 0.0 && o.usageCap >= 0.0
    && 0.0 <= o.denseWeight <= 1.0 && 0.0 <= o.serverBoost <= 1.0 && 0.0 <= o.serverMention <= 1.0
  }

  /** The options the ranker has by default. */
  lemma DefaultsAreSane()
    ensures Sane(Options(6.0, 0.5, 0.3, 0.3, 0.01, 0.05))
  {
  }

  predicate Unit(scores: Scores) {
    forall id | id in scores :: 0.0 <= scores[id] <= 1.0
  }

  function Get(scores: Scores, id: RowId): real {
    Lookup(scores, id).GetOr(0.0)
  }

  // ---- The best of some tools ----

  /** The highest score among `ids`. */
  ghost function Highest(scores: Scores, ids: set<RowId>): (m: real)
    requires ids != {} && ids <= scores.Keys
    ensures forall id | id in ids :: scores[id] <= m
    ensures exists id :: id in ids && scores[id] == m
    decreases ids
  {
    var id :| id in ids;
    if ids == {id} then scores[id]
    else
      var rest := ids - {id};
      assert forall other | other in ids :: other == id || other in rest;
      var m := Highest(scores, rest);
      if scores[id] <= m then m else scores[id]
  }

  /** The server of a row; a search row without a tool row has none, and all of these share that. */
  function Home(serverOf: map<RowId, Server>, id: RowId): Option<Server> {
    Lookup(serverOf, id)
  }

  predicate IsNamed(named: set<Server>, server: Option<Server>) {
    server.Some? && server.value in named
  }

  function Of(scores: Scores, serverOf: map<RowId, Server>, server: Option<Server>): (ids: set<RowId>)
    ensures ids <= scores.Keys
  {
    set id | id in scores && Home(serverOf, id) == server
  }

  // ---- Stages ----

  /** BM25 scores, positive, saturated into 0..1. */
  method Lexical(rows: seq<(RowId, real)>, o: Options) returns (out: Scores)
    requires Sane(o) && forall i | 0 <= i < |rows| :: rows[i].1 > 0.0
    requires forall i, j | 0 <= i < j < |rows| :: rows[i].0 != rows[j].0
    ensures forall id :: id in out <==> exists i | 0 <= i < |rows| :: rows[i].0 == id
    ensures forall i | 0 <= i < |rows| :: rows[i].0 in out && out[rows[i].0] == rows[i].1 / (rows[i].1 + o.saturation)
    ensures forall id | id in out :: 0.0 < out[id] < 1.0
  {
    out := map[];
    for k := 0 to |rows|
      invariant forall id :: id in out <==> exists i | 0 <= i < k :: rows[i].0 == id
      invariant forall i | 0 <= i < k :: rows[i].0 in out && out[rows[i].0] == rows[i].1 / (rows[i].1 + o.saturation)
      invariant forall id | id in out :: 0.0 < out[id] < 1.0
    {
      var (id, raw) := rows[k];
      SaturatedIsInside(raw, o.saturation);
      out := out[id := raw / (raw + o.saturation)];
    }
  }

  lemma SaturatedIsInside(raw: real, saturation: real)
    requires raw > 0.0 && saturation > 0.0
    ensures 0.0 < raw / (raw + saturation) < 1.0
  {
  }

  lemma SmallerShare(p: real, q: real, x: real, y: real, s: real)
    requires 0.0 < x < y && 0.0 < s && p * x == s && q * y == s
    ensures q < p
  {
    assert q > 0.0;
    assert q * x < q * y;
    assert (p - q) * x > 0.0;
  }

  lemma Complement(a: real, s: real, x: real)
    requires 0.0 < x && x == a + s
    ensures a / x == 1.0 - s / x
  {
    SumOfQuotients(a, s, x);
    assert x / x == 1.0;
  }

  lemma SumOfQuotients(a: real, s: real, x: real)
    requires x > 0.0
    ensures a / x + s / x == (a + s) / x
  {
  }

  /** A better BM25 score stays better after saturation. */
  lemma SaturationKeepsOrder(a: real, b: real, saturation: real)
    requires 0.0 < a < b && saturation > 0.0
    ensures a / (a + saturation) < b / (b + saturation)
  {
    var x, y := a + saturation, b + saturation;
    Complement(a, saturation, x);
    Complement(b, saturation, y);
    SmallerShare(saturation / x, saturation / y, x, y, saturation);
  }

  function Rescaled(c: real, lo: real, hi: real): real
    requires lo < hi
  {
    (c - lo) / (hi - lo)
  }

  lemma RescaledFacts(c: real, lo: real, hi: real)
    requires lo < c <= hi
    ensures 0.0 < Rescaled(c, lo, hi) <= 1.0 && (Rescaled(c, lo, hi) == 1.0 <==> c == hi)
  {
    var r := Rescaled(c, lo, hi);
    assert r * (hi - lo) == c - lo;
  }

  lemma RescaledKeepsOrder(c: real, d: real, lo: real, hi: real)
    requires lo < hi
    ensures Rescaled(c, lo, hi) < Rescaled(d, lo, hi) <==> c < d
  {
    var r, q := Rescaled(c, lo, hi), Rescaled(d, lo, hi);
    assert r * (hi - lo) == c - lo && q * (hi - lo) == d - lo;
    assert (q - r) * (hi - lo) == d - c;
  }

  ghost predicate Bounds(cos: seq<(RowId, real)>, lo: real, hi: real) {
    && (forall i | 0 <= i < |cos| :: lo <= cos[i].1 <= hi)
    && (exists i | 0 <= i < |cos| :: cos[i].1 == lo)
    && (exists i | 0 <= i < |cos| :: cos[i].1 == hi)
  }

  method MinMax(cos: seq<(RowId, real)>) returns (lo: real, hi: real)
    requires cos != []
    ensures Bounds(cos, lo, hi)
  {
    lo, hi := cos[0].1, cos[0].1;
    for k := 0 to |cos|
      invariant forall i | 0 <= i < k :: lo <= cos[i].1 <= hi
      invariant exists i | 0 <= i < |cos| :: cos[i].1 == lo
      invariant exists i | 0 <= i < |cos| :: cos[i].1 == hi
    {
      lo := if cos[k].1 < lo then cos[k].1 else lo;
      hi := if cos[k].1 > hi then cos[k].1 else hi;
    }
  }

  /** `out` holds the rescaled value of every cosine above the lowest, and nothing else. */
  ghost predicate IsRescaling(cos: seq<(RowId, real)>, out: Scores, lo: real, hi: real) {
    && (forall i | 0 <= i < |cos| :: cos[i].0 in out <==> cos[i].1 > lo)
    && (forall i | 0 <= i < |cos| && cos[i].1 > lo :: lo < hi && out[cos[i].0] == Rescaled(cos[i].1, lo, hi))
    && (forall id | id in out :: exists i | 0 <= i < |cos| :: cos[i].0 == id)
  }

  /** Cosines rescaled so that the worst becomes nothing and the best 1. */
  method Dense(cos: seq<(RowId, real)>) returns (out: Scores)
    requires forall i, j | 0 <= i < j < |cos| :: cos[i].0 != cos[j].0
    ensures cos == [] ==> out == map[]
    ensures cos != [] ==> exists lo, hi :: Bounds(cos, lo, hi) && IsRescaling(cos, out, lo, hi)
  {
    out := map[];
    if cos == [] {
      return;
    }
    var lo, hi := MinMax(cos);
    hide Rescaled;
    for k := 0 to |cos|
      invariant forall i | 0 <= i < k :: cos[i].0 in out <==> cos[i].1 > lo
      invariant forall i | 0 <= i < k && cos[i].1 > lo :: lo < hi && out[cos[i].0] == Rescaled(cos[i].1, lo, hi)
      invariant forall id | id in out :: exists i | 0 <= i < k :: cos[i].0 == id
    {
      if cos[k].1 > lo {
        var r := Quotient(cos[k].1, lo, hi);
        out := out[cos[k].0 := r];
      }
    }
    assert IsRescaling(cos, out, lo, hi);
  }

  method Quotient(c: real, lo: real, hi: real) returns (r: real)
    requires lo < hi
    ensures r == Rescaled(c, lo, hi)
  {
    r := (c - lo) / (hi - lo);
  }

  /** Dense scores lie in 0..1, exactly the best cosine gets 1, and the order of the cosines is kept. */
  lemma RescalingIsFaithful(cos: seq<(RowId, real)>, out: Scores, lo: real, hi: real, i: nat, j: nat)
    requires Bounds(cos, lo, hi) && IsRescaling(cos, out, lo, hi)
    requires i < |cos| && j < |cos| && cos[i].0 in out && cos[j].0 in out
    ensures 0.0 < out[cos[i].0] <= 1.0
    ensures out[cos[i].0] == 1.0 <==> forall k | 0 <= k < |cos| :: cos[k].1 <= cos[i].1
    ensures out[cos[i].0] < out[cos[j].0] <==> cos[i].1 < cos[j].1
  {
    hide Rescaled;
    RescaledFacts(cos[i].1, lo, hi);
    RescaledKeepsOrder(cos[i].1, cos[j].1, lo, hi);
    var top :| 0 <= top < |cos| && cos[top].1 == hi;
  }

  lemma RescalingIsUnit(cos: seq<(RowId, real)>, out: Scores, lo: real, hi: real)
    requires Bounds(cos, lo, hi) && IsRescaling(cos, out, lo, hi)
    ensures Unit(out)
  {
    forall id | id in out ensures 0.0 <= out[id] <= 1.0 {
      var i :| 0 <= i < |cos| && cos[i].0 == id;
      RescalingIsFaithful(cos, out, lo, hi, i, i);
    }
  }

  /** The weighted sum of the two scores; a tool that one side lacks has nothing from it. */
  function FusedScore(lexical: Scores, dense: Scores, w: real, id: RowId): real {
    Mixed(1.0 - w, Get(lexical, id), w, Get(dense, id))
  }

  function Mixed(u: real, s: real, w: real, d: real): real {
    u * s + w * d
  }

  function Fused(lexical: Scores, dense: Scores, w: real): Scores {
    map id | id in lexical.Keys + dense.Keys :: FusedScore(lexical, dense, w, id)
  }

  /** Without a dense side (`None`) the lexical scores are the result. */
  method Fuse(lexical: Scores, dense: Option<Scores>, o: Options) returns (scores: Scores)
    ensures scores == Fused(lexical, dense.GetOr(map[]), if dense.Some? then o.denseWeight else 0.0)
  {
    var w := if dense.Some? then o.denseWeight else 0.0;
    var other := dense.GetOr(map[]);
    scores := map[];
    var todo := lexical.Keys;
    while todo != {}
      invariant todo <= lexical.Keys && scores.Keys == lexical.Keys - todo
      invariant forall id | id in scores :: scores[id] == (1.0 - w) * lexical[id]
      decreases todo
    {
      var id :| id in todo;
      todo := todo - {id};
      scores := scores[id := (1.0 - w) * lexical[id]];
    }
    scores := AddDense(scores, lexical, other, w);
  }

  method AddDense(lexical: Scores, ghost whole: Scores, dense: Scores, w: real) returns (scores: Scores)
    requires lexical.Keys == whole.Keys && forall id | id in lexical :: lexical[id] == (1.0 - w) * whole[id]
    ensures scores == Fused(whole, dense, w)
  {
    scores := lexical;
    var todo := dense.Keys;
    while todo != {}
      invariant todo <= dense.Keys && scores.Keys == lexical.Keys + (dense.Keys - todo)
      invariant forall id | id in todo :: Get(scores, id) == Get(lexical, id)
      invariant forall id | id in scores && id !in todo :: scores[id] == FusedScore(whole, dense, w, id)
      invariant forall id | id in scores && id in todo :: id in lexical
      decreases todo
    {
      var id :| id in todo;
      todo := todo - {id};
      DenseAdds(whole, dense, w, id);
      scores := scores[id := Get(scores, id) + w * dense[id]];
    }
    hide FusedScore;
  }

  lemma DenseAdds(lexical: Scores, dense: Scores, w: real, id: RowId)
    requires id in dense
    ensures FusedScore(lexical, dense, w, id) == (if id in lexical then (1.0 - w) * lexical[id] else 0.0) + w * dense[id]
  {
  }

  lemma FusedIsUnit(lexical: Scores, dense: Scores, w: real)
    requires Unit(lexical) && Unit(dense) && 0.0 <= w <= 1.0
    ensures Unit(Fused(lexical, dense, w))
  {
    hide Mixed;
    forall id | id in lexical.Keys + dense.Keys ensures 0.0 <= FusedScore(lexical, dense, w, id) <= 1.0 {
      MixIsUnit(1.0 - w, Get(lexical, id), w, Get(dense, id));
    }
  }

  /** A fraction of something is not more than it; the product is named so that it is one number to its users. */
  lemma FractionOf(a: real, b: real, p: real)
    requires 0.0 <= a && 0.0 <= b <= 1.0 && p == a * b
    ensures 0.0 <= p <= a
  {
    var rest := a * (1.0 - b);
    assert rest >= 0.0 && p >= 0.0;
    assert rest == a - p;
  }

  lemma MixIsUnit(u: real, s: real, w: real, d: real)
    requires 0.0 <= s <= 1.0 && 0.0 <= d <= 1.0 && 0.0 <= u && 0.0 <= w && u + w == 1.0
    ensures 0.0 <= Mixed(u, s, w, d) <= 1.0
  {
    var p, q := u * s, w * d;
    FractionOf(u, s, p);
    FractionOf(w, d, q);
    SumIsUnit(u, p, w, q);
  }

  lemma SumIsUnit(u: real, p: real, w: real, q: real)
    requires 0.0 <= p <= u && 0.0 <= q <= w && u + w == 1.0
    ensures 0.0 <= p + q <= 1.0
  {
  }

  // ---- Routing ----

  function Share(best: real, top: real): real {
    best / (if top == 0.0 then 1.0 else top)
  }

  function Lag(boost: real, share: real): real {
    1.0 - boost * (1.0 - share)
  }

  /** What a server's tools are scaled by: by how far its best tool is behind, and by whether the query names others only. */
  function Factor(o: Options, best: real, top: real, unnamed: bool): real {
    var f := Lag(o.serverBoost, Share(best, top));
    if unnamed then f * (1.0 - o.serverMention) else f
  }

  function Damped(score: real, o: Options, best: real, top: real, unnamed: bool): real {
    score * Factor(o, best, top, unnamed)
  }

  ghost function RoutedScore(scores: Scores, serverOf: map<RowId, Server>, named: set<Server>, o: Options, id: RowId): real
    requires Unit(scores) && id in scores
  {
    var server := Home(serverOf, id);
    assert id in Of(scores, serverOf, server);
    Damped(scores[id], o, Highest(scores, Of(scores, serverOf, server)), Highest(scores, scores.Keys),
           named != {} && !IsNamed(named, server))
  }

  ghost function Routed(scores: Scores, serverOf: map<RowId, Server>, named: set<Server>, o: Options): (r: Scores)
    requires Unit(scores)
    ensures r.Keys == scores.Keys
  {
    map id | id in scores :: RoutedScore(scores, serverOf, named, o, id)
  }

  ghost predicate Reached(scores: Scores, serverOf: map<RowId, Server>, server: Option<Server>, b: real) {
    exists id | id in scores :: Home(serverOf, id) == server && scores[id] == b
  }

  /** Each server with a scored tool, with the best score it reaches. */
  ghost predicate IsBest(scores: Scores, serverOf: map<RowId, Server>, best: map<Option<Server>, real>) {
    && (forall id | id in scores :: Home(serverOf, id) in best && scores[id] <= best[Home(serverOf, id)])
    && (forall server | server in best :: Reached(scores, serverOf, server, best[server]))
  }

  method BestOfServers(scores: Scores, serverOf: map<RowId, Server>) returns (best: map<Option<Server>, real>)
    requires Unit(scores)
    ensures IsBest(scores, serverOf, best)
  {
    best := map[];
    var todo := scores.Keys;
    while todo != {}
      invariant todo <= scores.Keys
      invariant forall id | id in scores && id !in todo :: Home(serverOf, id) in best && scores[id] <= best[Home(serverOf, id)]
      invariant forall server | server in best :: Reached(scores, serverOf, server, best[server])
      decreases todo
    {
      var id :| id in todo;
      todo := todo - {id};
      var server, s := Home(serverOf, id), scores[id];
      assert Reached(scores, serverOf, server, s);
      if server !in best || best[server] <= s {
        best := best[server := s];
      }
    }
  }

  ghost predicate IsTop(best: map<Option<Server>, real>, top: real) {
    (exists server | server in best :: best[server] == top) && forall server | server in best :: best[server] <= top
  }

  method TopOf(best: map<Option<Server>, real>) returns (top: real)
    requires best != map[]
    ensures IsTop(best, top)
  {
    var todo := best.Keys;
    assert todo != {};
    var first :| first in todo;
    todo, top := todo - {first}, best[first];
    while todo != {}
      invariant todo <= best.Keys
      invariant exists server | server in best :: best[server] == top
      invariant forall server | server in best && server !in todo :: best[server] <= top
      decreases todo
    {
      var server :| server in todo;
      todo := todo - {server};
      top := if best[server] > top then best[server] else top;
    }
  }

  lemma BestIsHighest(scores: Scores, serverOf: map<RowId, Server>, best: map<Option<Server>, real>, id: RowId)
    requires Unit(scores) && IsBest(scores, serverOf, best) && id in scores
    ensures Of(scores, serverOf, Home(serverOf, id)) != {}
    ensures best[Home(serverOf, id)] == Highest(scores, Of(scores, serverOf, Home(serverOf, id)))
  {
    var server := Home(serverOf, id);
    assert id in Of(scores, serverOf, server);
    assert Reached(scores, serverOf, server, best[server]);
    var other :| other in scores && Home(serverOf, other) == server && scores[other] == best[server];
    assert other in Of(scores, serverOf, server);
  }

  lemma TopIsHighest(scores: Scores, serverOf: map<RowId, Server>, best: map<Option<Server>, real>, top: real)
    requires Unit(scores) && IsBest(scores, serverOf, best) && scores != map[]
    requires IsTop(best, top)
    ensures scores.Keys != {} && top == Highest(scores, scores.Keys)
  {
    var server :| server in best && best[server] == top;
    assert Reached(scores, serverOf, server, top);
    assert scores.Keys != {};
  }

  /** The servers one of whose name terms is in the query. */
  method Named(serverTerms: map<Server, set<string>>, query: seq<string>) returns (named: set<Server>)
    ensures named == set server | server in serverTerms && Mentions(query, serverTerms[server])
  {
    named := {};
    var todo := serverTerms.Keys;
    while todo != {}
      invariant todo <= serverTerms.Keys
      invariant named == set server | server in serverTerms && server !in todo && Mentions(query, serverTerms[server])
      decreases todo
    {
      var server :| server in todo;
      todo := todo - {server};
      if Mentions(query, serverTerms[server]) {
        named := named + {server};
      }
    }
  }

  predicate Mentions(query: seq<string>, terms: set<string>) {
    exists i | 0 <= i < |query| :: query[i] in terms
  }

  method Route(scores: Scores, serverOf: map<RowId, Server>, named: set<Server>, o: Options) returns (routed: Scores)
    requires Unit(scores) && scores != map[]
    ensures routed == Routed(scores, serverOf, named, o)
  {
    var best := BestOfServers(scores, serverOf);
    assert best != map[] by {
      assert scores.Keys != {};
    }
    var top := TopOf(best);
    routed := DampAll(scores, serverOf, named, o, best, top);
  }

  /** The second loop of `route`. */
  method DampAll(
      scores: Scores, serverOf: map<RowId, Server>, named: set<Server>, o: Options, best: map<Option<Server>, real>, top: real)
    returns (routed: Scores)
    requires Unit(scores) && IsBest(scores, serverOf, best) && IsTop(best, top)
    ensures routed == Routed(scores, serverOf, named, o)
  {
    hide Highest, Of, IsBest, IsTop, Damped, RoutedScore, Unit, Home, IsNamed;
    routed := map[];
    var todo := scores.Keys;
    while todo != {}
      invariant todo <= scores.Keys && routed.Keys == scores.Keys - todo
      invariant forall id | id in routed :: routed[id] == RoutedScore(scores, serverOf, named, o, id)
      decreases todo
    {
      var id :| id in todo;
      todo := todo - {id};
      var server := Home(serverOf, id);
      RoutedScoreIs(scores, serverOf, named, o, best, top, id);
      routed := routed[id := Damped(scores[id], o, best[server], top, named != {} && !IsNamed(named, server))];
    }
  }

  lemma RoutedScoreIs(
      scores: Scores, serverOf: map<RowId, Server>, named: set<Server>, o: Options,
      best: map<Option<Server>, real>, top: real, id: RowId)
    requires Unit(scores) && IsBest(scores, serverOf, best) && id in scores
    requires IsTop(best, top)
    ensures Home(serverOf, id) in best
    ensures RoutedScore(scores, serverOf, named, o, id) ==
            Damped(scores[id], o, best[Home(serverOf, id)], top, named != {} && !IsNamed(named, Home(serverOf, id)))
  {
    hide Damped, Home, IsNamed;
    TopIsHighest(scores, serverOf, best, top);
    BestIsHighest(scores, serverOf, best, id);
  }

  lemma ShareIsFraction(best: real, top: real)
    requires 0.0 <= best <= top
    ensures 0.0 <= Share(best, top) <= 1.0 && (best == top && top > 0.0 ==> Share(best, top) == 1.0)
  {
    var t := if top == 0.0 then 1.0 else top;
    QuotientIsFraction(best / t, best, t);
  }

  lemma QuotientIsFraction(share: real, best: real, t: real)
    requires 0.0 < t && 0.0 <= best <= t && share * t == best
    ensures 0.0 <= share <= 1.0 && (best == t ==> share == 1.0)
  {
    assert (1.0 - share) * t >= 0.0;
  }

  lemma LagIsFraction(boost: real, share: real, gap: real)
    requires 0.0 <= boost <= 1.0 && 0.0 <= gap <= 1.0 && share == 1.0 - gap
    ensures 0.0 <= Lag(boost, share) <= 1.0 && (share == 1.0 ==> Lag(boost, share) == 1.0)
  {
    var p := boost * gap;
    FractionOf(boost, gap, p);
    assert 1.0 - share == gap;
    assert boost * (1.0 - share) == p;
  }

  lemma FactorIsFraction(o: Options, best: real, top: real, unnamed: bool)
    requires Sane(o) && 0.0 <= best <= top
    ensures 0.0 <= Factor(o, best, top, unnamed) <= 1.0
    ensures best == top && top > 0.0 && !unnamed ==> Factor(o, best, top, unnamed) == 1.0
  {
    hide Lag, Share;
    ShareIsFraction(best, top);
    var share := Share(best, top);
    LagIsFraction(o.serverBoost, share, 1.0 - share);
    var f := Lag(o.serverBoost, share);
    var rest := 1.0 - o.serverMention;
    FractionOf(f, rest, f * rest);
  }

  /** A tool's score is scaled by its server's factor, which depends on nothing else of the tool. */
  ghost function ServerFactor(
      scores: Scores, serverOf: map<RowId, Server>, named: set<Server>, o: Options, server: Option<Server>): real
    requires scores != map[]
  {
    var ids := Of(scores, serverOf, server);
    assert scores.Keys != {};
    Factor(o, if ids == {} then 0.0 else Highest(scores, ids), Highest(scores, scores.Keys),
           named != {} && !IsNamed(named, server))
  }

  lemma RoutedIsScaled(scores: Scores, serverOf: map<RowId, Server>, named: set<Server>, o: Options, id: RowId)
    requires Unit(scores) && id in scores
    ensures RoutedScore(scores, serverOf, named, o, id) == scores[id] * ServerFactor(scores, serverOf, named, o, Home(serverOf, id))
  {
    assert id in Of(scores, serverOf, Home(serverOf, id));
    hide Factor, Home, IsNamed, Highest, Of, Unit;
  }

  lemma FactorOfServer(scores: Scores, serverOf: map<RowId, Server>, named: set<Server>, o: Options, id: RowId)
    requires Sane(o) && Unit(scores) && id in scores
    ensures 0.0 <= ServerFactor(scores, serverOf, named, o, Home(serverOf, id)) <= 1.0
  {
    var server := Home(serverOf, id);
    var ids := Of(scores, serverOf, server);
    assert id in ids;
    var best, top := Highest(scores, ids), Highest(scores, scores.Keys);
    assert 0.0 <= best <= top;
    hide Factor, Home, IsNamed, Highest, Of, Unit, Sane;
    FactorIsFraction(o, best, top, named != {} && !IsNamed(named, server));
  }

  lemma ServerFactorIsFraction(scores: Scores, serverOf: map<RowId, Server>, named: set<Server>, o: Options, id: RowId)
    requires Sane(o) && Unit(scores) && id in scores
    ensures RoutedScore(scores, serverOf, named, o, id) == scores[id] * ServerFactor(scores, serverOf, named, o, Home(serverOf, id))
    ensures 0.0 <= ServerFactor(scores, serverOf, named, o, Home(serverOf, id)) <= 1.0
  {
    RoutedIsScaled(scores, serverOf, named, o, id);
    FactorOfServer(scores, serverOf, named, o, id);
    hide ServerFactor, RoutedScore, Home, Unit, Sane;
  }

  /** Routing lowers or keeps a score; it stays in 0..1. */
  lemma RoutingOnlyDamps(scores: Scores, serverOf: map<RowId, Server>, named: set<Server>, o: Options, id: RowId)
    requires Sane(o) && Unit(scores) && id in scores
    ensures 0.0 <= RoutedScore(scores, serverOf, named, o, id) <= scores[id] <= 1.0
  {
    hide ServerFactor, RoutedScore;
    ServerFactorIsFraction(scores, serverOf, named, o, id);
    FractionOf(scores[id], ServerFactor(scores, serverOf, named, o, Home(serverOf, id)), RoutedScore(scores, serverOf, named, o, id));
  }

  /** Two tools of one server keep their order. */
  lemma RoutingKeepsServerOrder(
      scores: Scores, serverOf: map<RowId, Server>, named: set<Server>, o: Options, a: RowId, b: RowId)
    requires Sane(o) && Unit(scores) && a in scores && b in scores
    requires Home(serverOf, a) == Home(serverOf, b) && scores[a] <= scores[b]
    ensures RoutedScore(scores, serverOf, named, o, a) <= RoutedScore(scores, serverOf, named, o, b)
  {
    hide ServerFactor, RoutedScore;
    ServerFactorIsFraction(scores, serverOf, named, o, a);
    ServerFactorIsFraction(scores, serverOf, named, o, b);
    var f := ServerFactor(scores, serverOf, named, o, Home(serverOf, a));
    var ra, rb := RoutedScore(scores, serverOf, named, o, a), RoutedScore(scores, serverOf, named, o, b);
    ScaledInOrder(scores[a], scores[b], f, ra, rb);
  }

  lemma ScaledInOrder(a: real, b: real, f: real, ra: real, rb: real)
    requires a <= b && 0.0 <= f && ra == a * f && rb == b * f
    ensures ra <= rb
  {
    ProductsInOrder(a, b, f);
  }

  lemma ProductsInOrder(a: real, b: real, f: real)
    requires a <= b && 0.0 <= f
    ensures a * f <= b * f
  {
    assert (b - a) * f >= 0.0;
  }

  /** With no server named, the server that has the best tool keeps all its scores. */
  lemma TopServerIsUntouched(scores: Scores, serverOf: map<RowId, Server>, o: Options, id: RowId, winner: RowId)
    requires Sane(o) && Unit(scores) && id in scores && winner in scores
    requires scores[winner] == Highest(scores, scores.Keys) && Home(serverOf, id) == Home(serverOf, winner)
    ensures RoutedScore(scores, serverOf, {}, o, id) == scores[id]
  {
    var server := Home(serverOf, id);
    var ids := Of(scores, serverOf, server);
    assert id in ids && winner in ids;
    var best, top := Highest(scores, ids), Highest(scores, scores.Keys);
    assert best == top && 0.0 <= scores[id] <= top;
    hide Factor, Highest;
    FactorIsFraction(o, best, top, false);
  }

  /** Routing looks at the best tool of the server, the best tool of all, and at whether only other servers are named. */
  lemma RoutingTakesTheBest(scores: Scores, serverOf: map<RowId, Server>, named: set<Server>, o: Options, id: RowId, best: RowId, top: RowId)
    requires Unit(scores) && id in scores && best in scores && top in scores
    requires Lookup(serverOf, best) == Lookup(serverOf, id)
    requires forall x | x in scores :: scores[x] <= scores[top] && (Lookup(serverOf, x) == Lookup(serverOf, id) ==> scores[x] <= scores[best])
    ensures RoutedScore(scores, serverOf, named, o, id) ==
            Damped(scores[id], o, scores[best], scores[top], named != {} && (id !in serverOf || serverOf[id] !in named))
  {
    var ids := Of(scores, serverOf, Home(serverOf, id));
    assert id in ids && best in ids;
    assert Highest(scores, ids) == scores[best] && Highest(scores, scores.Keys) == scores[top];
    hide Highest, Of, Unit, Damped;
  }

  /** A score is scaled by how far its server is behind, and once more if only others are named. */
  lemma DampedIs(score: real, o: Options, best: real, top: real, unnamed: bool)
    requires top > 0.0
    ensures
      var lag := 1.0 - o.serverBoost * (1.0 - best / top);
      Damped(score, o, best, top, unnamed) == if unnamed then score * (lag * (1.0 - o.serverMention)) else score * lag
  {
  }

  // ---- Usage ----

  /** `log1p` stands for the natural logarithm of 1 + n: never negative is all that matters. */
  function PrimedScore(s: real, calls: nat, log1p: nat -> real, o: Options): real {
    if calls == 0 then s else Least(1.0, s + Least(o.usageCap, o.usageWeight * log1p(calls)))
  }

  function Least(a: real, b: real): real {
    if a < b then a else b
  }

  function CallsOf(calls: map<RowId, nat>, id: RowId): nat {
    if id in calls then calls[id] else 0
  }

  function Primed(scores: Scores, calls: map<RowId, nat>, log1p: nat -> real, o: Options): (r: Scores)
    ensures r.Keys == scores.Keys
  {
    map id | id in scores :: PrimedScore(scores[id], CallsOf(calls, id), log1p, o)
  }

  method Prime(scores: Scores, calls: map<RowId, nat>, log1p: nat -> real, o: Options) returns (primed: Scores)
    ensures primed == Primed(scores, calls, log1p, o)
  {
    hide PrimedScore;
    primed := scores;
    var todo := scores.Keys;
    while todo != {}
      invariant todo <= scores.Keys && primed.Keys == scores.Keys
      invariant forall id | id in scores ::
        primed[id] == if id in todo then scores[id] else PrimedScore(scores[id], CallsOf(calls, id), log1p, o)
      decreases todo
    {
      var id :| id in todo;
      todo := todo - {id};
      primed := primed[id := PrimedScore(scores[id], CallsOf(calls, id), log1p, o)];
    }
  }

  /** Without calls a score stays; with calls it is raised by the weighted logarithm, by the cap, or to 1, whichever is least. */
  lemma PriorIsExact(s: real, calls: nat, log1p: nat -> real, o: Options)
    ensures calls == 0 ==> PrimedScore(s, calls, log1p, o) == s
    ensures calls > 0 ==>
      var r, weighted, capped := PrimedScore(s, calls, log1p, o), s + o.usageWeight * log1p(calls), s + o.usageCap;
      r <= 1.0 && r <= weighted && r <= capped && (r == 1.0 || r == weighted || r == capped)
  {
  }

  /** The prior never lowers a score, adds at most its cap, and stays in 0..1. */
  lemma PriorIsCapped(s: real, calls: nat, log1p: nat -> real, o: Options)
    requires Sane(o) && 0.0 <= s <= 1.0 && forall n :: 0.0 <= log1p(n)
    ensures s <= PrimedScore(s, calls, log1p, o) <= 1.0
    ensures PrimedScore(s, calls, log1p, o) <= s + o.usageCap
  {
    assert o.usageWeight * log1p(calls) >= 0.0;
  }

  /** Of two tools with the same score, more calls never rank lower. */
  lemma PriorFollowsCalls(s: real, few: nat, many: nat, log1p: nat -> real, o: Options)
    requires Sane(o) && 0.0 <= s <= 1.0 && few <= many
    requires forall n :: 0.0 <= log1p(n)
    requires forall m, n | m <= n :: log1p(m) <= log1p(n)
    ensures PrimedScore(s, few, log1p, o) <= PrimedScore(s, many, log1p, o)
  {
    PriorIsCapped(s, many, log1p, o);
    ProductsInOrder(log1p(few), log1p(many), o.usageWeight);
  }

  // ---- The order of the result ----

  /** Better score first; of equal scores the older row. */
  predicate Before(a: Hit, b: Hit) {
    a.score > b.score || (a.score == b.score && a.id < b.id)
  }

  /** All the scores, best first. */
  ghost predicate IsRanking(hits: seq<Hit>, scores: Scores) {
    && (forall i, j | 0 <= i < j < |hits| :: Before(hits[i], hits[j]))
    && (forall i | 0 <= i < |hits| :: hits[i].id in scores && hits[i].score == scores[hits[i].id])
    && (forall id | id in scores :: Hit(id, scores[id]) in hits)
  }

  function Placed(h: Hit, hits: seq<Hit>): seq<Hit> {
    if hits == [] || Before(h, hits[0]) then [h] + hits else [hits[0]] + Placed(h, hits[1..])
  }

  ghost predicate Ordered(hits: seq<Hit>) {
    forall i, j | 0 <= i < j < |hits| :: Before(hits[i], hits[j])
  }

  lemma {:induction false} PlacedIsOrdered(h: Hit, hits: seq<Hit>)
    requires Ordered(hits) && forall x | x in hits :: x.id != h.id
    ensures Ordered(Placed(h, hits))
    ensures forall x :: x in Placed(h, hits) <==> x == h || x in hits
  {
    if hits == [] {
    } else if Before(h, hits[0]) {
      assert ([h] + hits)[1..] == hits;
    } else {
      var rest := Placed(h, hits[1..]);
      PlacedIsOrdered(h, hits[1..]);
      assert hits == [hits[0]] + hits[1..];
      assert hits[0] in hits;
      forall x | x in rest ensures Before(hits[0], x) {
        if x != h {
          var i :| 0 <= i < |hits[1..]| && hits[1..][i] == x;
          assert hits[i + 1] == x;
        }
      }
    }
  }

  /** Whatever order the entries come in. */
  method SortHits(scores: Scores) returns (hits: seq<Hit>)
    ensures IsRanking(hits, scores)
  {
    hits := [];
    var todo := scores.Keys;
    while todo != {}
      invariant todo <= scores.Keys && Ordered(hits)
      invariant forall x :: x in hits <==> x.id in scores.Keys - todo && x.score == scores[x.id]
      decreases todo
    {
      var id :| id in todo;
      PlacedIsOrdered(Hit(id, scores[id]), hits);
      hits := Placed(Hit(id, scores[id]), hits);
      todo := todo - {id};
    }
  }

  /** There is only one such list: the result does not depend on the order of any map. */
  lemma {:induction false} RankingIsUnique(a: seq<Hit>, b: seq<Hit>, scores: Scores)
    requires IsRanking(a, scores) && IsRanking(b, scores)
    ensures a == b
  {
    forall x ensures x in a <==> x in b {
      if x in a {
        assert x == Hit(x.id, scores[x.id]);
      }
      if x in b {
        assert x == Hit(x.id, scores[x.id]);
      }
    }
    SameElementsSameOrder(a, b);
  }

  lemma {:induction false} SameElementsSameOrder(a: seq<Hit>, b: seq<Hit>)
    requires Ordered(a) && Ordered(b) && forall x :: x in a <==> x in b
    ensures a == b
    decreases a
  {
    if a == [] {
      if b != [] {
        FirstIsSame(b, a);
      }
    } else {
      FirstIsSame(a, b);
      forall x ensures x in a[1..] <==> x in b[1..] {
        InTail(a, x);
        InTail(b, x);
      }
      SameElementsSameOrder(a[1..], b[1..]);
      assert a == [a[0]] + a[1..] && b == [b[0]] + b[1..];
    }
  }

  lemma FirstIsBest(s: seq<Hit>, x: Hit)
    requires Ordered(s) && s != [] && x in s
    ensures x == s[0] || Before(s[0], x)
  {
    var i :| 0 <= i < |s| && s[i] == x;
  }

  lemma FirstIsSame(a: seq<Hit>, b: seq<Hit>)
    requires Ordered(a) && Ordered(b) && a != [] && forall x :: x in a <==> x in b
    ensures b != [] && a[0] == b[0]
  {
    assert a[0] in b;
    assert b[0] in b;
    FirstIsBest(a, b[0]);
    FirstIsBest(b, a[0]);
  }

  lemma InTail(s: seq<Hit>, x: Hit)
    requires Ordered(s) && s != []
    ensures x in s[1..] <==> x in s && x != s[0]
  {
    if x in s[1..] {
      var i :| 0 <= i < |s[1..]| && s[1..][i] == x;
      assert s[i + 1] == x && Before(s[0], s[i + 1]);
    }
    if x in s && x != s[0] {
      var i :| 0 <= i < |s| && s[i] == x;
      assert s[1..][i - 1] == x;
    }
  }

  lemma {:induction false} HasOrder(scores: Scores, ids: set<RowId>) returns (hits: seq<Hit>)
    requires ids <= scores.Keys
    ensures Ordered(hits) && forall x :: x in hits <==> x.id in ids && x.score == scores[x.id]
    decreases ids
  {
    if ids == {} {
      hits := [];
    } else {
      var id :| id in ids;
      var rest := HasOrder(scores, ids - {id});
      PlacedIsOrdered(Hit(id, scores[id]), rest);
      hits := Placed(Hit(id, scores[id]), rest);
    }
  }

  /** The scores have a ranking, and only one. */
  lemma ThereIsOneRanking(scores: Scores)
    ensures exists ranking :: IsRanking(ranking, scores) && forall other :: IsRanking(other, scores) ==> other == ranking
  {
    var ranking := HasOrder(scores, scores.Keys);
    assert IsRanking(ranking, scores);
    forall other | IsRanking(other, scores) ensures other == ranking {
      RankingIsUnique(other, ranking, scores);
    }
  }

  lemma RankingHasDistinctIds(hits: seq<Hit>, scores: Scores)
    requires IsRanking(hits, scores)
    ensures DistinctIds(hits)
  {
    forall i, j | 0 <= i < j < |hits| ensures hits[i].id != hits[j].id {
      assert Before(hits[i], hits[j]);
    }
  }

  // ---- All of it ----

  /** The scores `rank` sorts. */
  ghost function Final(
      lexical: Scores, dense: Option<Scores>, serverOf: map<RowId, Server>, named: set<Server>,
      calls: map<RowId, nat>, log1p: nat -> real, o: Options): Scores
    requires Sane(o) && Unit(lexical) && Unit(dense.GetOr(map[]))
  {
    var w := if dense.Some? then o.denseWeight else 0.0;
    FusedIsUnit(lexical, dense.GetOr(map[]), w);
    Primed(Routed(Fused(lexical, dense.GetOr(map[]), w), serverOf, named, o), calls, log1p, o)
  }

  method Rank(
      lexical: Scores, dense: Option<Scores>, serverOf: map<RowId, Server>, serverTerms: map<Server, set<string>>,
      query: seq<string>, calls: map<RowId, nat>, log1p: nat -> real, o: Options, limit: nat)
    returns (hits: seq<Hit>)
    requires Sane(o) && Unit(lexical) && Unit(dense.GetOr(map[]))
    ensures
      var named := set server | server in serverTerms && Mentions(query, serverTerms[server]);
      var final := Final(lexical, dense, serverOf, named, calls, log1p, o);
      && (exists ranking :: IsRanking(ranking, final) && hits == Take(ranking, limit))
      && (forall ranking | IsRanking(ranking, final) :: hits == Take(ranking, limit))
  {
    var named := Named(serverTerms, query);
    ghost var final := Final(lexical, dense, serverOf, named, calls, log1p, o);
    hide Fused, Routed, Primed, Mentions, Unit;
    FusedIsUnit(lexical, dense.GetOr(map[]), if dense.Some? then o.denseWeight else 0.0);
    var scores := Fuse(lexical, dense, o);
    if scores == map[] {
      forall ranking | IsRanking(ranking, final) ensures ranking == [] {
        RankingOfNothing(ranking, final);
      }
      ThereIsOneRanking(final);
      return [];
    }
    scores := Route(scores, serverOf, named, o);
    scores := Prime(scores, calls, log1p, o);
    var all := SortHits(scores);
    forall ranking | IsRanking(ranking, final) ensures ranking == all {
      RankingIsUnique(ranking, all, final);
    }
    hits := Take(all, limit);
  }

  lemma RankingOfNothing(ranking: seq<Hit>, scores: Scores)
    requires scores.Keys == {} && IsRanking(ranking, scores)
    ensures ranking == []
  {
    assert forall id | id in scores :: id in scores.Keys;
    RankingIsUnique(ranking, [], scores);
  }

  /** What the prior adds to the score of a tool before the cap. */
  function Prior(calls: map<RowId, nat>, log1p: nat -> real, o: Options, id: RowId): real {
    if id in calls && calls[id] > 0 then o.usageWeight * log1p(calls[id]) else 0.0
  }

  /** Of two tools with equal scores after routing, the one with the larger prior comes first, whatever the ids, while there is room. */
  lemma MoreUsedComesFirst(
      lexical: Scores, dense: Option<Scores>, serverOf: map<RowId, Server>, named: set<Server>,
      calls: map<RowId, nat>, log1p: nat -> real, o: Options, ranking: seq<Hit>, i: nat, j: nat)
    requires Sane(o) && Unit(lexical) && Unit(dense.GetOr(map[])) && forall n :: 0.0 <= log1p(n)
    requires IsRanking(ranking, Final(lexical, dense, serverOf, named, calls, log1p, o)) && i < |ranking| && j < |ranking|
    requires
      var fused := Fused(lexical, dense.GetOr(map[]), if dense.Some? then o.denseWeight else 0.0);
      var a, b := ranking[i].id, ranking[j].id;
      && Unit(fused) && a in fused && b in fused
      && RoutedScore(fused, serverOf, named, o, a) == RoutedScore(fused, serverOf, named, o, b)
      && Prior(calls, log1p, o, b) < Prior(calls, log1p, o, a)
      && Prior(calls, log1p, o, b) < o.usageCap
      && RoutedScore(fused, serverOf, named, o, b) + Prior(calls, log1p, o, b) < 1.0
    ensures i < j
  {
    var fused := Fused(lexical, dense.GetOr(map[]), if dense.Some? then o.denseWeight else 0.0);
    var final := Final(lexical, dense, serverOf, named, calls, log1p, o);
    var a, b := ranking[i].id, ranking[j].id;
    LargerPriorWins(RoutedScore(fused, serverOf, named, o, a), calls, log1p, o, a, b);
    FinalIs(lexical, dense, serverOf, named, calls, log1p, o, a);
    FinalIs(lexical, dense, serverOf, named, calls, log1p, o, b);
    hide Fused, RoutedScore, PrimedScore, Prior, CallsOf, Unit, Final, Sane;
    BetterIsFirst(ranking, final, i, j);
  }

  lemma FinalIs(
      lexical: Scores, dense: Option<Scores>, serverOf: map<RowId, Server>, named: set<Server>,
      calls: map<RowId, nat>, log1p: nat -> real, o: Options, id: RowId)
    requires Sane(o) && Unit(lexical) && Unit(dense.GetOr(map[]))
    requires
      var fused := Fused(lexical, dense.GetOr(map[]), if dense.Some? then o.denseWeight else 0.0);
      Unit(fused) && id in fused
    ensures
      var fused := Fused(lexical, dense.GetOr(map[]), if dense.Some? then o.denseWeight else 0.0);
      var final := Final(lexical, dense, serverOf, named, calls, log1p, o);
      id in final && final[id] == PrimedScore(RoutedScore(fused, serverOf, named, o, id), CallsOf(calls, id), log1p, o)
  {
    hide Fused, RoutedScore, PrimedScore, CallsOf, Sane;
  }

  lemma BetterIsFirst(ranking: seq<Hit>, scores: Scores, i: nat, j: nat)
    requires IsRanking(ranking, scores) && i < |ranking| && j < |ranking| && scores[ranking[i].id] > scores[ranking[j].id]
    ensures i < j
  {
    assert !Before(ranking[j], ranking[i]);
  }

  lemma LargerPriorWins(s: real, calls: map<RowId, nat>, log1p: nat -> real, o: Options, a: RowId, b: RowId)
    requires Prior(calls, log1p, o, b) < Prior(calls, log1p, o, a) && Prior(calls, log1p, o, b) < o.usageCap
    requires s + Prior(calls, log1p, o, b) < 1.0 && Sane(o) && forall n :: 0.0 <= log1p(n)
    ensures PrimedScore(s, CallsOf(calls, b), log1p, o) < PrimedScore(s, CallsOf(calls, a), log1p, o)
  {
    PriorIsExact(s, CallsOf(calls, a), log1p, o);
    PriorIsExact(s, CallsOf(calls, b), log1p, o);
    PriorIsPositive(calls, log1p, o, b);
    hide PrimedScore;
  }

  lemma PriorIsPositive(calls: map<RowId, nat>, log1p: nat -> real, o: Options, id: RowId)
    requires Sane(o) && forall n :: 0.0 <= log1p(n)
    ensures Prior(calls, log1p, o, id) >= 0.0
  {
  }

  /** Every final score is in 0..1. */
  lemma FinalIsUnit(
      lexical: Scores, dense: Option<Scores>, serverOf: map<RowId, Server>, named: set<Server>,
      calls: map<RowId, nat>, log1p: nat -> real, o: Options)
    requires Sane(o) && Unit(lexical) && Unit(dense.GetOr(map[])) && forall n :: 0.0 <= log1p(n)
    ensures Unit(Final(lexical, dense, serverOf, named, calls, log1p, o))
  {
    var w := if dense.Some? then o.denseWeight else 0.0;
    var fused := Fused(lexical, dense.GetOr(map[]), w);
    FusedIsUnit(lexical, dense.GetOr(map[]), w);
    hide Fused, RoutedScore, PrimedScore;
    forall id | id in fused
      ensures 0.0 <= PrimedScore(RoutedScore(fused, serverOf, named, o, id), CallsOf(calls, id), log1p, o) <= 1.0
    {
      RoutingOnlyDamps(fused, serverOf, named, o, id);
      PriorIsCapped(RoutedScore(fused, serverOf, named, o, id), CallsOf(calls, id), log1p, o);
    }
  }
}
