/**
 What the ranker's snapshot derives from the search documents: how many of them hold a term, and which terms of a
 server's name are its own. Both depend on the set of documents only, in whatever order rows and words come.
 */
module Vocabulary {
  import opened Common
  import opened JsText
  import opened ToolIndex

  /** A search row joined with its tool row and server. */
  datatype Doc = Doc(id: RowId, server: ServerId, document: Document)

  /** How documents and server names fall into words; a name can repeat a word. */
  datatype Words = Words(of: Document -> set<Text>, own: ServerId -> seq<Text>)

  type Counts = map<Text, nat>

  function Count(vocab: Counts, t: Text): nat {
    if t in vocab then vocab[t] else 0
  }

  function Bumped(vocab: Counts, t: Text): Counts {
    vocab[t := Count(vocab, t) + 1]
  }

  ghost predicate Tight(vocab: Counts) {
    forall t | t in vocab :: vocab[t] > 0
  }

  function AsSet(docs: seq<Doc>): set<Doc> {
    set d | d in docs
  }

  function Holding(docs: set<Doc>, words: Words, t: Text): set<Doc> {
    set d | d in docs && t in words.of(d.document)
  }

  function ServersOf(docs: set<Doc>): set<ServerId> {
    set d | d in docs :: d.server
  }

  /** How often the names of some servers use a term. */
  ghost function Uses(servers: set<ServerId>, words: Words, t: Text): nat {
    if servers == {} then 0
    else
      var s :| s in servers;
      multiset(words.own(s))[t] + Uses(servers - {s}, words, t)
  }

  /** The count of a term is fixed by the set of documents. */
  ghost predicate IsVocabulary(vocab: Counts, docs: set<Doc>, words: Words) {
    && Tight(vocab)
    && forall t :: Count(vocab, t) == |Holding(docs, words, t)| + Uses(ServersOf(docs), words, t)
  }

  /** Every term that counts. */
  ghost function Terms(docs: set<Doc>, words: Words): set<Text> {
    (set d, t | d in docs && t in words.of(d.document) :: t) + (set s, t | s in ServersOf(docs) && t in words.own(s) :: t)
  }

  ghost function VocabularyOf(docs: set<Doc>, words: Words): Counts {
    map t | t in Terms(docs, words) :: |Holding(docs, words, t)| + Uses(ServersOf(docs), words, t)
  }

  lemma {:induction false} UsedIsCounted(servers: set<ServerId>, words: Words, t: Text)
    ensures Uses(servers, words, t) > 0 <==> exists s :: s in servers && t in words.own(s)
    decreases servers
  {
    if servers != {} {
      var r :| r in servers && Uses(servers, words, t) == multiset(words.own(r))[t] + Uses(servers - {r}, words, t);
      UsedIsCounted(servers - {r}, words, t);
      assert multiset(words.own(r))[t] > 0 <==> t in words.own(r);
      assert forall s | s in servers :: s == r || s in servers - {r};
    }
  }

  lemma HeldIsCounted(docs: set<Doc>, words: Words, t: Text)
    ensures |Holding(docs, words, t)| > 0 <==> exists d :: d in docs && t in words.of(d.document)
  {
    if d :| d in docs && t in words.of(d.document) {
      assert d in Holding(docs, words, t);
    }
    if |Holding(docs, words, t)| > 0 {
      var d :| d in Holding(docs, words, t);
    }
  }

  lemma VocabularyOfIs(docs: set<Doc>, words: Words)
    ensures IsVocabulary(VocabularyOf(docs, words), docs, words)
  {
    var vocab := VocabularyOf(docs, words);
    hide Uses, Holding, ServersOf;
    forall t ensures Count(vocab, t) == |Holding(docs, words, t)| + Uses(ServersOf(docs), words, t)
      ensures t in vocab ==> vocab[t] > 0
    {
      UsedIsCounted(ServersOf(docs), words, t);
      HeldIsCounted(docs, words, t);
    }
  }

  lemma VocabularyIsUnique(v: Counts, w: Counts, docs: set<Doc>, words: Words)
    requires IsVocabulary(v, docs, words) && IsVocabulary(w, docs, words)
    ensures v == w
  {
    forall t ensures (t in v <==> t in w) && (t in v ==> v[t] == w[t]) {
      assert Count(v, t) == Count(w, t);
    }
    hide Holding, Uses;
  }

  lemma {:induction false} UsesWith(servers: set<ServerId>, words: Words, t: Text, s: ServerId)
    requires s in servers
    ensures Uses(servers, words, t) == multiset(words.own(s))[t] + Uses(servers - {s}, words, t)
    decreases servers
  {
    var r :| r in servers && Uses(servers, words, t) == multiset(words.own(r))[t] + Uses(servers - {r}, words, t);
    if r != s {
      UsesWith(servers - {r}, words, t, s);
      UsesWith(servers - {s}, words, t, r);
      assert servers - {r} - {s} == servers - {s} - {r};
    }
  }

  lemma HoldingWith(docs: set<Doc>, words: Words, d: Doc, t: Text)
    requires d !in docs
    ensures |Holding(docs + {d}, words, t)| == |Holding(docs, words, t)| + if t in words.of(d.document) then 1 else 0
  {
    if t in words.of(d.document) {
      assert Holding(docs + {d}, words, t) == Holding(docs, words, t) + {d};
    } else {
      assert Holding(docs + {d}, words, t) == Holding(docs, words, t);
    }
  }

  /** One document: every word it holds counts once. */
  method CountWords(vocab: Counts, held: set<Text>) returns (more: Counts)
    requires Tight(vocab)
    ensures Tight(more) && forall t :: Count(more, t) == Count(vocab, t) + if t in held then 1 else 0
  {
    more := vocab;
    var todo := held;
    while todo != {}
      invariant todo <= held && Tight(more)
      invariant forall t :: Count(more, t) == Count(vocab, t) + if t in held && t !in todo then 1 else 0
      decreases todo
    {
      var t :| t in todo;
      todo := todo - {t};
      more := Bumped(more, t);
    }
  }

  method CountDocs(docs: seq<Doc>, words: Words) returns (vocab: Counts)
    requires forall i, j | 0 <= i < j < |docs| :: docs[i] != docs[j]
    ensures Tight(vocab)
    ensures forall t :: Count(vocab, t) == |Holding(AsSet(docs), words, t)|
  {
    hide Count;
    vocab := map[];
    ghost var seen: set<Doc> := {};
    EmptyCounts(words);
    for i := 0 to |docs|
      invariant seen == AsSet(docs[..i])
      invariant Tight(vocab) && forall t :: Count(vocab, t) == |Holding(seen, words, t)|
    {
      var d := docs[i];
      assert d !in seen;
      forall t ensures |Holding(seen + {d}, words, t)| == |Holding(seen, words, t)| + if t in words.of(d.document) then 1 else 0 {
        HoldingWith(seen, words, d, t);
      }
      vocab := CountWords(vocab, words.of(d.document));
      assert docs[..i + 1] == docs[..i] + [d];
      seen := seen + {d};
    }
    assert docs[..|docs|] == docs;
  }

  lemma EmptyCounts(words: Words)
    ensures forall t :: Count(map[], t) == |Holding({}, words, t)|
  {
    forall t ensures Holding({}, words, t) == {} {
    }
  }

  method CountNames(base: Counts, servers: set<ServerId>, words: Words) returns (vocab: Counts)
    requires Tight(base)
    ensures Tight(vocab) && forall t :: Count(vocab, t) == Count(base, t) + Uses(servers, words, t)
  {
    vocab := base;
    var todo, done: set<ServerId> := servers, {};
    while todo != {}
      invariant servers == todo + done && todo !! done
      invariant Tight(vocab) && forall t :: Count(vocab, t) == Count(base, t) + Uses(done, words, t)
      decreases todo
    {
      var s :| s in todo;
      forall t ensures Uses(done + {s}, words, t) == multiset(words.own(s))[t] + Uses(done, words, t) {
        UsesWith(done + {s}, words, t, s);
        assert done + {s} - {s} == done;
      }
      vocab := CountName(vocab, words.own(s));
      todo, done := todo - {s}, done + {s};
    }
    assert done == servers;
  }

  method CountName(vocab: Counts, own: seq<Text>) returns (more: Counts)
    requires Tight(vocab)
    ensures Tight(more) && forall t :: Count(more, t) == Count(vocab, t) + multiset(own)[t]
  {
    more := vocab;
    for i := 0 to |own|
      invariant Tight(more) && forall t :: Count(more, t) == Count(vocab, t) + multiset(own[..i])[t]
    {
      assert own[..i + 1] == own[..i] + [own[i]];
      more := Bumped(more, own[i]);
    }
    assert own[..|own|] == own;
  }

  /** The counts of the rebuild, rows in any order: the one vocabulary of the set of documents. */
  method Build(docs: seq<Doc>, words: Words) returns (vocab: Counts)
    requires forall i, j | 0 <= i < j < |docs| :: docs[i] != docs[j]
    ensures IsVocabulary(vocab, AsSet(docs), words) && vocab == VocabularyOf(AsSet(docs), words)
  {
    hide Count, Holding, Uses, VocabularyOf;
    vocab := CountDocs(docs, words);
    vocab := CountNames(vocab, ServersOf(AsSet(docs)), words);
    VocabularyOfIs(AsSet(docs), words);
    VocabularyIsUnique(vocab, VocabularyOf(AsSet(docs), words), AsSet(docs), words);
  }

  // ---- Which name terms are a server's own ----

  /** The servers whose documents hold a term. */
  function Holders(docs: set<Doc>, words: Words, t: Text): set<ServerId> {
    set d | d in docs && t in words.of(d.document) :: d.server
  }

  /** Rare outside the server: at most one other server, or a tenth of all, use it. */
  predicate Rare(holders: set<ServerId>, servers: set<ServerId>, server: ServerId) {
    var others := |holders - {server}|;
    others <= 1 || 10 * others <= |servers|
  }

  function Distinctive(docs: set<Doc>, words: Words, server: ServerId): set<Text> {
    set t | t in words.own(server) && Rare(Holders(docs, words, t), ServersOf(docs), server)
  }

  function ServerTerms(docs: set<Doc>, words: Words): map<ServerId, set<Text>> {
    map s | s in ServersOf(docs) && Distinctive(docs, words, s) != {} :: Distinctive(docs, words, s)
  }

  function HoldersIn(index: map<Text, set<ServerId>>, t: Text): set<ServerId> {
    if t in index then index[t] else {}
  }

  method IndexWords(index: map<Text, set<ServerId>>, held: set<Text>, server: ServerId)
    returns (more: map<Text, set<ServerId>>)
    ensures forall t :: HoldersIn(more, t) == HoldersIn(index, t) + if t in held then {server} else {}
  {
    more := index;
    var todo := held;
    while todo != {}
      invariant todo <= held
      invariant forall t :: HoldersIn(more, t) == HoldersIn(index, t) + if t in held && t !in todo then {server} else {}
      decreases todo
    {
      var t :| t in todo;
      todo := todo - {t};
      more := more[t := HoldersIn(more, t) + {server}];
    }
  }

  method IndexDocs(docs: seq<Doc>, words: Words) returns (index: map<Text, set<ServerId>>)
    ensures forall t :: HoldersIn(index, t) == Holders(AsSet(docs), words, t)
  {
    index := map[];
    ghost var seen: set<Doc> := {};
    for i := 0 to |docs|
      invariant seen == AsSet(docs[..i])
      invariant forall t :: HoldersIn(index, t) == Holders(seen, words, t)
    {
      var d := docs[i];
      forall t ensures Holders(seen + {d}, words, t)
                       == Holders(seen, words, t) + if t in words.of(d.document) then {d.server} else {} {
        HoldersWith(seen, words, d, t);
      }
      index := IndexWords(index, words.of(d.document), d.server);
      assert docs[..i + 1] == docs[..i] + [d];
      seen := seen + {d};
    }
    assert docs[..|docs|] == docs;
  }

  lemma HoldersWith(docs: set<Doc>, words: Words, d: Doc, t: Text)
    ensures Holders(docs + {d}, words, t) == Holders(docs, words, t) + if t in words.of(d.document) then {d.server} else {}
  {
    if t in words.of(d.document) {
      assert d in docs + {d};
    }
  }

  /** A server's own term counts if at most one other server has a document with it, or at most a tenth of all servers. */
  lemma WhichTermsAreDistinctive(docs: set<Doc>, words: Words, s: ServerId, t: Text)
    ensures
      var servers := set d | d in docs :: d.server;
      var others := set d | d in docs && t in words.of(d.document) && d.server != s :: d.server;
      var terms := ServerTerms(docs, words);
      && (s in terms && t in terms[s] <==> s in servers && t in words.own(s) && (|others| <= 1 || 10 * |others| <= |servers|))
      && (s in terms ==> terms[s] != {})
  {
    var others := set d | d in docs && t in words.of(d.document) && d.server != s :: d.server;
    assert Holders(docs, words, t) - {s} == others;
    assert Rare(Holders(docs, words, t), ServersOf(docs), s) <==> |others| <= 1 || 10 * |others| <= |ServersOf(docs)|;
    assert t in Distinctive(docs, words, s) <==> t in words.own(s) && Rare(Holders(docs, words, t), ServersOf(docs), s);
  }

  /** The server terms of the rebuild, rows in any order. */
  method BuildServerTerms(docs: seq<Doc>, words: Words) returns (serverTerms: map<ServerId, set<Text>>)
    ensures serverTerms == ServerTerms(AsSet(docs), words)
  {
    var index := IndexDocs(docs, words);
    ghost var all := AsSet(docs);
    var servers := ServersOf(AsSet(docs));
    serverTerms := map[];
    var todo := servers;
    hide Distinctive, ServersOf, AsSet, Holders;
    while todo != {}
      invariant todo <= servers
      invariant forall s :: s in serverTerms <==> s in servers && s !in todo && Distinctive(all, words, s) != {}
      invariant forall s | s in serverTerms :: serverTerms[s] == Distinctive(all, words, s)
      decreases todo
    {
      var s :| s in todo;
      todo := todo - {s};
      var own := OwnTerms(index, servers, words.own(s), s);
      OwnIsDistinctive(all, words, index, s, own);
      if own != {} {
        serverTerms := serverTerms[s := own];
      }
    }
  }

  lemma OwnIsDistinctive(
      docs: set<Doc>, words: Words, index: map<Text, set<ServerId>>, server: ServerId, own: set<Text>)
    requires forall t :: HoldersIn(index, t) == Holders(docs, words, t)
    requires own == set t | t in words.own(server) && Rare(HoldersIn(index, t), ServersOf(docs), server)
    ensures own == Distinctive(docs, words, server)
  {
    hide Rare, ServersOf, Holders, HoldersIn;
  }

  method OwnTerms(index: map<Text, set<ServerId>>, servers: set<ServerId>, own: seq<Text>, server: ServerId)
    returns (distinctive: set<Text>)
    ensures distinctive == set t | t in own && Rare(HoldersIn(index, t), servers, server)
  {
    distinctive := {};
    for i := 0 to |own|
      invariant distinctive == set t | t in own[..i] && Rare(HoldersIn(index, t), servers, server)
    {
      assert own[..i + 1] == own[..i] + [own[i]];
      if Rare(HoldersIn(index, own[i]), servers, server) {
        distinctive := distinctive + {own[i]};
      }
    }
    assert own[..|own|] == own;
  }
}
