/** The inverted TF-IDF index over memory entries, and what it stands for: the term
    counts of the indexed documents. Scores are exact reals; how a text is cut into
    words, term-frequency scaling and the logarithm are parameters. */
module MemoryIndexes {
  import opened Ids

  type Word = string
  type Document = seq<Word>
  type Posting = (nat, real)
  type Inverted = map<Word, seq<Posting>>

  datatype Weights = Weights(tokens: string -> Document, tf: nat -> real, idf: (nat, nat) -> real)

  function Count(d: Document, w: Word): nat { if d == [] then 0 else (if d[0] == w then 1 else 0) + Count(d[1..], w) }

  function Words(d: Document): set<Word> { set w | w in d }

  function DocSet(ps: seq<Posting>): set<nat> { set p | p in ps :: p.0 }

  function Containing(docs: seq<Document>, w: Word): set<nat> { set i | 0 <= i < |docs| && w in docs[i] }

  ghost predicate DistinctDocs(ps: seq<Posting>) { forall j, k :: 0 <= j < k < |ps| ==> ps[j].0 != ps[k].0 }

  predicate Weighs(tf: nat -> real, docs: seq<Document>, w: Word, p: Posting) {
    p.0 < |docs| && w in docs[p.0] && p.1 == tf(Count(docs[p.0], w))
  }

  /** `ps` holds each document with `w` once, with its scaled count, and nothing else. */
  ghost predicate Lists(tf: nat -> real, docs: seq<Document>, w: Word, ps: seq<Posting>) {
    && (forall p :: p in ps ==> Weighs(tf, docs, w, p))
    && (forall i :: i in Containing(docs, w) ==> i in DocSet(ps))
    && DistinctDocs(ps)
  }

  /** A word has a list, a correct one, exactly if some document has the word. */
  ghost predicate Indexed(tf: nat -> real, docs: seq<Document>, inverted: Inverted, w: Word) {
    && (w in inverted <==> Containing(docs, w) != {})
    && (w in inverted ==> Lists(tf, docs, w, inverted[w]))
  }

  ghost predicate Indexes(tf: nat -> real, docs: seq<Document>, inverted: Inverted) {
    forall w :: Indexed(tf, docs, inverted, w)
  }

  /** The postings of a word as a set, by a naive scan of all documents. */
  function Scan(tf: nat -> real, docs: seq<Document>, w: Word): set<Posting> {
    set i | i in Containing(docs, w) :: (i, tf(Count(docs[i], w)))
  }

  function Elems(ps: seq<Posting>): set<Posting> { set p | p in ps }

  /** The invariant in other words: every posting list is the naive scan, each document
      once, so its length is the document frequency. */
  lemma ListsIsScan(tf: nat -> real, docs: seq<Document>, w: Word, ps: seq<Posting>)
    requires Lists(tf, docs, w, ps)
    ensures Elems(ps) == Scan(tf, docs, w) && |ps| == |Containing(docs, w)|
  {
    forall q | q in Scan(tf, docs, w) ensures q in ps {
      assert q.0 in DocSet(ps);
      var p :| p in ps && p.0 == q.0;
      assert Weighs(tf, docs, w, p);
    }
    forall p | p in ps ensures p in Scan(tf, docs, w) { assert Weighs(tf, docs, w, p); }
    DocCount(ps);
    assert DocSet(ps) == Containing(docs, w) by {
      forall i | i in DocSet(ps) ensures i in Containing(docs, w) {
        var p :| p in ps && p.0 == i;
        assert Weighs(tf, docs, w, p);
      }
    }
  }

  lemma {:induction false} DocCount(ps: seq<Posting>)
    requires DistinctDocs(ps)
    ensures |DocSet(ps)| == |ps|
  {
    if ps != [] {
      var last := ps[|ps| - 1];
      var rest := ps[..|ps| - 1];
      DocCount(rest);
      assert ps == rest + [last];
      assert DocSet(ps) == DocSet(rest) + {last.0};
    }
  }

  // -------------------------------------------------------------------- updating

  function PostingsOf(inverted: Inverted, w: Word): seq<Posting> { if w in inverted then inverted[w] else [] }

  /** The words of `d` were posted for document `idx`. */
  ghost predicate Posted(tf: nat -> real, before: Inverted, now: Inverted, d: Document, words: set<Word>, idx: nat) {
    forall w :: PostedWord(tf, before, now, d, words, idx, w)
  }

  ghost predicate PostedWord(tf: nat -> real, before: Inverted, now: Inverted, d: Document, words: set<Word>, idx: nat,
                             w: Word) {
    if w in words then w in now && now[w] == PostingsOf(before, w) + [(idx, tf(Count(d, w)))]
    else PostingsOf(now, w) == PostingsOf(before, w) && (w in now <==> w in before)
  }

  /** Posting a document where there was an empty one. */
  lemma PostKeepsIndex(tf: nat -> real, docs: seq<Document>, before: Inverted, now: Inverted, d: Document, idx: nat)
    requires idx < |docs| && docs[idx] == [] && Indexes(tf, docs, before)
    requires Posted(tf, before, now, d, Words(d), idx)
    ensures Indexes(tf, docs[idx := d], now)
  {
    var after := docs[idx := d];
    forall w ensures Indexed(tf, after, now, w) {
      assert Indexed(tf, docs, before, w) && PostedWord(tf, before, now, d, Words(d), idx, w);
      PostKeepsWord(tf, docs, w, before, now, d, idx);
    }
  }

  lemma PostKeepsWord(tf: nat -> real, docs: seq<Document>, w: Word, before: Inverted, now: Inverted, d: Document,
                      idx: nat)
    requires idx < |docs| && docs[idx] == [] && Indexed(tf, docs, before, w)
    requires PostedWord(tf, before, now, d, Words(d), idx, w)
    ensures Indexed(tf, docs[idx := d], now, w)
  {
    var after := docs[idx := d];
    assert Containing(after, w) == if w in d then Containing(docs, w) + {idx} else Containing(docs, w);
    if w in d {
      PostKeepsLists(tf, docs, w, PostingsOf(before, w), d, idx);
    } else if w in before {
      OtherKeepsLists(tf, docs, w, before[w], d, idx);
    }
  }

  lemma OtherKeepsLists(tf: nat -> real, docs: seq<Document>, w: Word, ps: seq<Posting>, d: Document, idx: nat)
    requires idx < |docs| && w !in docs[idx] && w !in d && Lists(tf, docs, w, ps)
    ensures Lists(tf, docs[idx := d], w, ps)
  {
    var after := docs[idx := d];
    forall p | p in ps ensures Weighs(tf, after, w, p) { assert Weighs(tf, docs, w, p); }
    forall i | i in Containing(after, w) ensures i in DocSet(ps) { assert i in Containing(docs, w); }
  }

  lemma PostKeepsLists(tf: nat -> real, docs: seq<Document>, w: Word, ps: seq<Posting>, d: Document, idx: nat)
    requires idx < |docs| && docs[idx] == [] && w in d && Lists(tf, docs, w, ps)
    ensures Lists(tf, docs[idx := d], w, ps + [(idx, tf(Count(d, w)))])
  {
    var after := docs[idx := d];
    var all := ps + [(idx, tf(Count(d, w)))];
    forall p | p in ps ensures Weighs(tf, after, w, p) && p.0 != idx { assert Weighs(tf, docs, w, p); }
    assert DocSet(all) == DocSet(ps) + {idx} by { DocSetAppend(ps, (idx, tf(Count(d, w)))); }
    forall i | i in Containing(after, w) ensures i in DocSet(all) {
      if i != idx { assert i in Containing(docs, w); }
    }
    forall j, k | 0 <= j < k < |all| ensures all[j].0 != all[k].0 {
      assert all[j] in ps;
    }
  }

  lemma DocSetAppend(ps: seq<Posting>, p: Posting)
    ensures DocSet(ps + [p]) == DocSet(ps) + {p.0}
  {
    forall i | i in DocSet(ps) + {p.0} ensures i in DocSet(ps + [p]) {
      if i == p.0 {
        assert p in ps + [p];
      } else {
        var q :| q in ps && q.0 == i;
        assert q in ps + [p];
      }
    }
  }

  lemma EmptyDocument(tf: nat -> real, docs: seq<Document>, inverted: Inverted)
    requires Indexes(tf, docs, inverted)
    ensures Indexes(tf, docs + [[]], inverted)
  {
    var more := docs + [[]];
    forall w ensures Indexed(tf, more, inverted, w) {
      assert Indexed(tf, docs, inverted, w);
      assert Containing(more, w) == Containing(docs, w);
      if w in inverted {
        forall p | p in inverted[w] ensures Weighs(tf, more, w, p) { assert Weighs(tf, docs, w, p); }
      }
    }
  }

  function Without(ps: seq<Posting>, idx: nat): seq<Posting> {
    if ps == [] then [] else (if ps[0].0 == idx then [] else [ps[0]]) + Without(ps[1..], idx)
  }

  lemma {:induction false} WithoutMeans(ps: seq<Posting>, idx: nat)
    ensures forall p :: p in Without(ps, idx) <==> p in ps && p.0 != idx
    ensures DistinctDocs(ps) ==> DistinctDocs(Without(ps, idx))
  {
    if ps != [] {
      WithoutMeans(ps[1..], idx);
      var rest := Without(ps[1..], idx);
      assert forall p :: p in ps <==> p == ps[0] || p in ps[1..];
      if DistinctDocs(ps) {
        forall p | p in rest ensures p.0 != ps[0].0 { assert p in ps[1..]; }
        assert DistinctDocs(ps[1..]);
      }
    }
  }

  /** The index without the postings of one document, and without words left empty. */
  function Dropped(inverted: Inverted, idx: nat): Inverted {
    map w | w in inverted && Without(inverted[w], idx) != [] :: Without(inverted[w], idx)
  }

  /** Dropping a document's postings leaves an index in which it is empty. */
  lemma RemoveKeepsIndex(tf: nat -> real, docs: seq<Document>, before: Inverted, now: Inverted, idx: nat)
    requires idx < |docs| && Indexes(tf, docs, before)
    requires now == Dropped(before, idx)
    ensures Indexes(tf, docs[idx := []], now)
  {
    var after := docs[idx := []];
    forall w ensures Indexed(tf, after, now, w) {
      assert Indexed(tf, docs, before, w);
      RemoveKeepsWord(tf, docs, w, before, now, idx);
    }
  }

  lemma RemoveKeepsWord(tf: nat -> real, docs: seq<Document>, w: Word, before: Inverted, now: Inverted, idx: nat)
    requires idx < |docs| && Indexed(tf, docs, before, w) && now == Dropped(before, idx)
    ensures Indexed(tf, docs[idx := []], now, w)
  {
    var after := docs[idx := []];
    assert Containing(after, w) == Containing(docs, w) - {idx};
    if w in before {
      var ps := Without(before[w], idx);
      RemoveKeepsLists(tf, docs, w, before[w], idx);
      if ps != [] { assert Weighs(tf, after, w, ps[0]) && ps[0].0 in Containing(after, w); }
      if i :| i in Containing(after, w) { assert i in DocSet(ps); }
    }
  }

  lemma RemoveKeepsLists(tf: nat -> real, docs: seq<Document>, w: Word, ps: seq<Posting>, idx: nat)
    requires idx < |docs| && Lists(tf, docs, w, ps)
    ensures Lists(tf, docs[idx := []], w, Without(ps, idx))
  {
    var after := docs[idx := []];
    WithoutMeans(ps, idx);
    forall p | p in Without(ps, idx) ensures Weighs(tf, after, w, p) { assert Weighs(tf, docs, w, p); }
    forall i | i in Containing(after, w) ensures i in DocSet(Without(ps, idx)) {
      assert i in Containing(docs, w) && i in DocSet(ps);
      var p :| p in ps && p.0 == i;
      assert p in Without(ps, idx);
    }
  }

  // ------------------------------------------------- inverse document frequencies

  function Vocabulary(docs: seq<Document>): set<Word> { set i, w | 0 <= i < |docs| && w in docs[i] :: w }

  lemma VocabularyMeans(docs: seq<Document>, w: Word)
    ensures w in Vocabulary(docs) <==> Containing(docs, w) != {}
  {
    if w in Vocabulary(docs) {
      var i :| 0 <= i < |docs| && w in docs[i];
      assert i in Containing(docs, w);
    }
    if i :| i in Containing(docs, w) { assert w in docs[i]; }
  }

  /** The table a rebuild computes from scratch. */
  function FreshTable(weights: Weights, docs: seq<Document>): map<Word, real> {
    map w | w in Vocabulary(docs) :: weights.idf(|docs|, |Containing(docs, w)|)
  }

  /** A table over an index that takes each word's frequency from its posting list. */
  lemma TableFromPostings(weights: Weights, docs: seq<Document>, inverted: Inverted, idf: map<Word, real>)
    requires Indexes(weights.tf, docs, inverted)
    requires idf.Keys == inverted.Keys && forall w :: w in inverted ==> idf[w] == weights.idf(|docs|, |inverted[w]|)
    ensures idf == FreshTable(weights, docs)
  {
    forall w ensures w in idf <==> w in FreshTable(weights, docs) {
      assert Indexed(weights.tf, docs, inverted, w);
      VocabularyMeans(docs, w);
    }
    forall w | w in idf ensures idf[w] == FreshTable(weights, docs)[w] {
      assert Indexed(weights.tf, docs, inverted, w);
      ListsIsScan(weights.tf, docs, w, inverted[w]);
    }
  }

  /** What `add_entry` does to the table: only the words of the new entry are updated. */
  ghost predicate PartlyUpdated(weights: Weights, docs: seq<Document>, d: Document, before: map<Word, real>,
                                now: map<Word, real>) {
    && now.Keys == before.Keys + Words(d)
    && forall w :: w in now ==>
         && (w in d || w in before)
         && now[w] == if w in d then weights.idf(|docs| + 1, |Containing(docs + [d], w)|) else before[w]
  }

  lemma AddedWord(docs: seq<Document>, d: Document, w: Word)
    ensures Containing(docs + [d], w) == Containing(docs, w) + (if w in d then {|docs|} else {})
    ensures w in Vocabulary(docs + [d]) <==> w in Vocabulary(docs) || w in d
  {
    VocabularyMeans(docs, w);
    VocabularyMeans(docs + [d], w);
  }

  /** An addition keeps the table equal to a rebuild's exactly when every indexed word
      occurs in the new entry: all others keep the logarithm of the old total. */
  lemma AddKeepsTableIff(weights: Weights, docs: seq<Document>, d: Document, now: map<Word, real>)
    requires forall n: nat, df: nat :: n > 0 && df > 0 ==> weights.idf(n + 1, df) != weights.idf(n, df)
    requires PartlyUpdated(weights, docs, d, FreshTable(weights, docs), now)
    ensures now == FreshTable(weights, docs + [d]) <==> Vocabulary(docs) <= Words(d)
  {
    var before, after := FreshTable(weights, docs), FreshTable(weights, docs + [d]);
    forall w ensures w in now <==> w in after { AddedWord(docs, d, w); }
    forall w | w in Vocabulary(docs) && w !in d ensures now[w] != after[w] {
      AddedWord(docs, d, w);
      VocabularyMeans(docs, w);
      var df := |Containing(docs, w)|;
      assert weights.idf(|docs| + 1, df) != weights.idf(|docs|, df);
    }
    if Vocabulary(docs) <= Words(d) {
      forall w | w in now ensures now[w] == after[w] { AddedWord(docs, d, w); }
    }
  }

  /** How many documents there were when `w` was last weighed, if the whole table was last
      computed over the first `base` of them and entries were only added since. */
  function LastWeighed(docs: seq<Document>, w: Word, base: nat): (n: nat)
    requires base <= |docs|
    ensures base <= n <= |docs|
  {
    if |docs| == base then base
    else if w in docs[|docs| - 1] then |docs| else LastWeighed(docs[..|docs| - 1], w, base)
  }

  /** The table after such a history: each word has its true frequency under the total of
      its last weighing. */
  function TableSince(weights: Weights, docs: seq<Document>, base: nat): map<Word, real>
    requires base <= |docs|
  {
    map w | w in Vocabulary(docs) :: weights.idf(LastWeighed(docs, w, base), |Containing(docs, w)|)
  }

  lemma FreshSince(weights: Weights, docs: seq<Document>)
    ensures TableSince(weights, docs, |docs|) == FreshTable(weights, docs)
  {
  }

  /** An addition carries such a table on, whatever was added before. */
  lemma AddKeepsSince(weights: Weights, docs: seq<Document>, base: nat, d: Document, now: map<Word, real>)
    requires base <= |docs| && PartlyUpdated(weights, docs, d, TableSince(weights, docs, base), now)
    ensures now == TableSince(weights, docs + [d], base)
  {
    assert (docs + [d])[..|docs|] == docs;
    var after := TableSince(weights, docs + [d], base);
    forall w ensures w in now <==> w in after { AddedWord(docs, d, w); }
    forall w | w in now ensures now[w] == after[w] { AddedWord(docs, d, w); }
  }

  /** The weight of a word grows with the number of documents. */
  ghost predicate Rising(weights: Weights) {
    forall n: nat, m: nat, df: nat :: 0 < n < m && df > 0 ==> weights.idf(n, df) < weights.idf(m, df)
  }

  lemma {:induction false} WeighedOnce(docs: seq<Document>, w: Word, base: nat)
    requires base <= |docs| && w in Vocabulary(docs)
    ensures LastWeighed(docs, w, base) > 0 && Containing(docs, w) != {}
    ensures LastWeighed(docs, w, base) == |docs| <==> base == |docs| || w in docs[|docs| - 1]
  {
    VocabularyMeans(docs, w);
    if base < |docs| && w !in docs[|docs| - 1] {
      AddedWord(docs[..|docs| - 1], docs[|docs| - 1], w);
      assert docs == docs[..|docs| - 1] + [docs[|docs| - 1]];
      WeighedOnce(docs[..|docs| - 1], w, base);
    }
  }

  /** After any additions to a table computed over `base` documents, a word is weighed too
      low exactly if something was added and the last entry lacks the word; otherwise its
      weight is a rebuild's. */
  lemma StaleIff(weights: Weights, docs: seq<Document>, base: nat, w: Word)
    requires Rising(weights) && base <= |docs| && w in Vocabulary(docs)
    ensures var now, exact := TableSince(weights, docs, base)[w], FreshTable(weights, docs)[w];
            && (now < exact <==> base < |docs| && w !in docs[|docs| - 1])
            && (now == exact <==> base == |docs| || w in docs[|docs| - 1])
  {
    WeighedOnce(docs, w, base);
    var n, df := LastWeighed(docs, w, base), |Containing(docs, w)|;
    assert n < |docs| ==> weights.idf(n, df) < weights.idf(|docs|, df);
  }

  /** The whole table is a rebuild's exactly if nothing was added since it was computed or
      the last entry has every indexed word. */
  lemma TableCurrentIff(weights: Weights, docs: seq<Document>, base: nat)
    requires Rising(weights) && base <= |docs|
    ensures TableSince(weights, docs, base) == FreshTable(weights, docs) <==>
              base == |docs| || Vocabulary(docs) <= Words(docs[|docs| - 1])
  {
    var now, exact := TableSince(weights, docs, base), FreshTable(weights, docs);
    forall w | w in Vocabulary(docs)
      ensures now[w] == exact[w] <==> base == |docs| || w in docs[|docs| - 1]
    {
      StaleIff(weights, docs, base, w);
    }
    assert now.Keys == exact.Keys == Vocabulary(docs);
    if now == exact && base < |docs| {
      forall w | w in Vocabulary(docs) ensures w in Words(docs[|docs| - 1]) { assert now[w] == exact[w]; }
    }
  }

  // ------------------------------------------------------------------- searching

  function IdfOf(idf: map<Word, real>, w: Word): real { if w in idf then idf[w] else 0.0 }

  /** What one query term adds to one document's score. */
  function Gain(weights: Weights, idf: map<Word, real>, docs: seq<Document>, term: Word, i: nat): real {
    if i < |docs| && term in docs[i] then weights.tf(Count(docs[i], term)) * IdfOf(idf, term) else 0.0
  }

  /** The score of a document by a naive scan over the query. */
  function Score(weights: Weights, idf: map<Word, real>, docs: seq<Document>, terms: seq<Word>, i: nat): real {
    if terms == [] then 0.0
    else Score(weights, idf, docs, terms[..|terms| - 1], i) + Gain(weights, idf, docs, terms[|terms| - 1], i)
  }

  /** The documents in which some query term occurs. */
  function Matching(docs: seq<Document>, terms: seq<Word>): set<nat> {
    set i | 0 <= i < |docs| && exists t :: t in terms && t in docs[i]
  }

  /** The documents a scan finds, with their scores. */
  function ScoreTable(weights: Weights, idf: map<Word, real>, docs: seq<Document>, terms: seq<Word>): map<nat, real> {
    map i | i in Matching(docs, terms) :: Score(weights, idf, docs, terms, i)
  }

  ghost predicate Scores(weights: Weights, idf: map<Word, real>, docs: seq<Document>, terms: seq<Word>,
                         scores: map<nat, real>) {
    && scores.Keys == Matching(docs, terms)
    && forall i :: i in scores ==> scores[i] == Score(weights, idf, docs, terms, i)
  }

  lemma {:induction false} UnmatchedScore(weights: Weights, idf: map<Word, real>, docs: seq<Document>,
                                          terms: seq<Word>, i: nat)
    requires i !in Matching(docs, terms)
    ensures Score(weights, idf, docs, terms, i) == 0.0
  {
    if terms != [] {
      var init := terms[..|terms| - 1];
      assert forall t :: t in init ==> t in terms;
      UnmatchedScore(weights, idf, docs, init, i);
    }
  }

  lemma NextMatching(docs: seq<Document>, terms: seq<Word>, term: Word)
    ensures Matching(docs, terms + [term]) == Matching(docs, terms) + Containing(docs, term)
  {
    forall i | 0 <= i < |docs|
      ensures i in Matching(docs, terms + [term]) <==> i in Matching(docs, terms) || i in Containing(docs, term)
    {
      if i in Matching(docs, terms) {
        var t :| t in terms && t in docs[i];
        assert t in terms + [term];
      }
      if term in docs[i] { assert term in terms + [term]; }
    }
  }

  /** `now` is `before` with this term's gain added for every document that has it. */
  ghost predicate Gained(before: map<nat, real>, now: map<nat, real>, reached: set<nat>, gain: map<nat, real>)
    requires reached <= gain.Keys
  {
    && now.Keys == before.Keys + reached
    && forall i :: i in now ==>
         now[i] == (if i in before then before[i] else 0.0) + (if i in reached then gain[i] else 0.0)
  }

  function Gains(weights: Weights, idf: map<Word, real>, docs: seq<Document>, term: Word): map<nat, real> {
    map i | i in Containing(docs, term) :: Gain(weights, idf, docs, term, i)
  }

  lemma NextScores(weights: Weights, idf: map<Word, real>, docs: seq<Document>, terms: seq<Word>, term: Word,
                   before: map<nat, real>, now: map<nat, real>)
    requires Scores(weights, idf, docs, terms, before)
    requires Gained(before, now, Containing(docs, term), Gains(weights, idf, docs, term))
    ensures Scores(weights, idf, docs, terms + [term], now)
  {
    NextMatching(docs, terms, term);
    assert (terms + [term])[..|terms|] == terms;
    forall i | i in now ensures now[i] == Score(weights, idf, docs, terms + [term], i) {
      if i !in before { UnmatchedScore(weights, idf, docs, terms, i); }
    }
  }

  ghost predicate Descending(r: seq<Posting>) { forall j, k :: 0 <= j < k < |r| ==> r[j].1 >= r[k].1 }

  /** A descending ranking of exactly these scores. */
  ghost predicate RanksAll(scores: map<nat, real>, r: seq<Posting>) {
    && Descending(r) && DistinctDocs(r) && DocSet(r) == scores.Keys
    && forall p :: p in r ==> p.0 in scores && p.1 == scores[p.0]
  }

  /** The best `topN` of them: nothing left out scores higher than anything listed. */
  ghost predicate RanksTop(scores: map<nat, real>, topN: nat, r: seq<Posting>) {
    && Descending(r) && DistinctDocs(r) && (forall p :: p in r ==> p.0 in scores && p.1 == scores[p.0])
    && |r| == (if topN < |scores| then topN else |scores|)
    && forall i, p :: i in scores && i !in DocSet(r) && p in r ==> scores[i] <= p.1
  }

  lemma TopOfAll(scores: map<nat, real>, r: seq<Posting>, topN: nat)
    requires RanksAll(scores, r)
    ensures RanksTop(scores, topN, if topN < |r| then r[..topN] else r)
  {
    DocCount(r);
    var n := if topN < |r| then topN else |r|;
    var top := r[..n];
    assert topN >= |r| ==> top == r;
    forall i, p | i in scores && i !in DocSet(top) && p in top ensures scores[i] <= p.1 {
      var q :| q in r && q.0 == i;
      LeftOut(r, n, q, p);
    }
  }

  lemma LeftOut(r: seq<Posting>, n: nat, q: Posting, p: Posting)
    requires Descending(r) && n <= |r| && q in r && p in r[..n] && q !in r[..n]
    ensures q.1 <= p.1
  {
    var k :| 0 <= k < |r| && r[k] == q;
    var j :| 0 <= j < n && r[..n][j] == p;
    assert forall x :: 0 <= x < n ==> r[..n][x] == r[x];
    assert r[j] == p && k >= n;
  }

  /** With room for all matches the ranking lists exactly the matching documents. */
  lemma TopIsAll(scores: map<nat, real>, r: seq<Posting>, topN: nat)
    requires RanksTop(scores, topN, r) && topN >= |scores|
    ensures DocSet(r) == scores.Keys
  {
    DocCount(r);
    forall i | i in DocSet(r) ensures i in scores { var p :| p in r && p.0 == i; }
    SubsetSize(DocSet(r), scores.Keys);
  }

  function InsertRanked(r: seq<Posting>, p: Posting): seq<Posting> {
    if r == [] || p.1 > r[0].1 then [p] + r else [r[0]] + InsertRanked(r[1..], p)
  }

  lemma {:induction false} InsertContents(r: seq<Posting>, p: Posting)
    ensures forall q :: q in InsertRanked(r, p) <==> q == p || q in r
    ensures Descending(r) ==> Descending(InsertRanked(r, p))
    ensures DistinctDocs(r) && p.0 !in DocSet(r) ==> DistinctDocs(InsertRanked(r, p))
  {
    if r != [] && p.1 <= r[0].1 {
      InsertContents(r[1..], p);
      assert r == [r[0]] + r[1..];
      InsertAfterHead(r, p, InsertRanked(r[1..], p));
    } else if r != [] {
      InsertAtHead(r, p);
    }
  }

  lemma InsertAtHead(r: seq<Posting>, p: Posting)
    requires r != [] && p.1 > r[0].1
    ensures Descending(r) ==> Descending([p] + r)
    ensures DistinctDocs(r) && p.0 !in DocSet(r) ==> DistinctDocs([p] + r)
  {
    var all := [p] + r;
    if Descending(r) {
      forall j, k | 0 <= j < k < |all| ensures all[j].1 >= all[k].1 {
        assert k - 1 > 0 ==> r[0].1 >= r[k - 1].1;
      }
    }
    if DistinctDocs(r) && p.0 !in DocSet(r) {
      forall j, k | 0 <= j < k < |all| ensures all[j].0 != all[k].0 { assert r[k - 1] in r; }
    }
  }

  lemma InsertAfterHead(r: seq<Posting>, p: Posting, rest: seq<Posting>)
    requires r != [] && p.1 <= r[0].1 && forall q :: q in rest <==> q == p || q in r[1..]
    requires Descending(r[1..]) ==> Descending(rest)
    requires DistinctDocs(r[1..]) && p.0 !in DocSet(r[1..]) ==> DistinctDocs(rest)
    ensures Descending(r) ==> Descending([r[0]] + rest)
    ensures DistinctDocs(r) && p.0 !in DocSet(r) ==> DistinctDocs([r[0]] + rest)
  {
    var all := [r[0]] + rest;
    if Descending(r) {
      forall q | q in r[1..] ensures q.1 <= r[0].1 {
        var k :| 0 <= k < |r[1..]| && r[1..][k] == q;
        assert r[k + 1] == q;
      }
      forall j, k | 0 <= j < k < |all| ensures all[j].1 >= all[k].1 { assert rest[k - 1] in rest; }
    }
    if DistinctDocs(r) && p.0 !in DocSet(r) {
      assert r[0] in r && forall q :: q in r[1..] ==> q in r;
      forall q | q in r[1..] ensures q.0 != r[0].0 {
        var k :| 0 <= k < |r[1..]| && r[1..][k] == q;
        assert r[k + 1] == q;
      }
      forall j, k | 0 <= j < k < |all| ensures all[j].0 != all[k].0 { assert rest[k - 1] in rest; }
    }
  }
}
