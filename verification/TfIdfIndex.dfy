/** The index as it is maintained: posting lists, a table of inverse document
    frequencies and a document count, updated in place. */
module TfIdfIndexes {
  import opened Ids
  import opened MemoryIndexes

  /** Term frequencies of one document. */
  method CountTokens(d: Document) returns (counts: map<Word, nat>)
    ensures counts.Keys == Words(d) && forall w :: w in counts ==> counts[w] == Count(d, w)
  {
    counts := map[];
    for i := |d| downto 0
      invariant counts.Keys == Words(d[i..]) && forall w :: w in counts ==> counts[w] == Count(d[i..], w)
    {
      assert d[i..] == [d[i]] + d[i + 1..];
      forall w ensures Count(d[i..], w) == (if d[i] == w then 1 else 0) + Count(d[i + 1..], w) {}
      if d[i] !in counts { NoOccurrence(d[i + 1..], d[i]); }
      counts := counts[d[i] := (if d[i] in counts then counts[d[i]] else 0) + 1];
    }
    assert d[0..] == d;
  }

  lemma {:induction false} NoOccurrence(d: Document, w: Word)
    requires w !in d
    ensures Count(d, w) == 0
  {
    if d != [] { NoOccurrence(d[1..], w); }
  }

  function Tokenized(weights: Weights, entries: seq<string>): (docs: seq<Document>)
    ensures |docs| == |entries|
  {
    if entries == [] then []
      else Tokenized(weights, entries[..|entries| - 1]) + [weights.tokens(entries[|entries| - 1])]
  }

  lemma PostedNext(tf: nat -> real, before: Inverted, now: Inverted, d: Document, done: set<Word>, idx: nat, w: Word)
    requires Posted(tf, before, now, d, done, idx) && w !in done
    ensures Posted(tf, before, now[w := PostingsOf(now, w) + [(idx, tf(Count(d, w)))]], d, done + {w}, idx)
  {
    var next := now[w := PostingsOf(now, w) + [(idx, tf(Count(d, w)))]];
    forall x ensures PostedWord(tf, before, next, d, done + {w}, idx, x) {
      assert PostedWord(tf, before, now, d, done, idx, x);
    }
  }

  // ------------------------------------------------------------- what the index keeps

  /** Folds the invariant of the index, so that methods pass it on as a whole. */
  datatype Seal = Seal

  ghost predicate Opened(weights: Weights, docs: seq<Document>, base: nat, inverted: Inverted, idf: map<Word, real>,
                         seal: Seal) {
    base <= |docs| && Indexes(weights.tf, docs, inverted) && idf == TableSince(weights, docs, base)
  }

  /** The posting lists are the naive term counts of `docs`, and the table was computed over
      the first `base` of them and carried on by additions. */
  ghost predicate Consistent(weights: Weights, docs: seq<Document>, base: nat, inverted: Inverted,
                             idf: map<Word, real>) {
    forall x: Seal {:trigger Opened(weights, docs, base, inverted, idf, x)} ::
      Opened(weights, docs, base, inverted, idf, x)
  }

  lemma Open(weights: Weights, docs: seq<Document>, base: nat, inverted: Inverted, idf: map<Word, real>)
    requires Consistent(weights, docs, base, inverted, idf)
    ensures base <= |docs| && Indexes(weights.tf, docs, inverted) && idf == TableSince(weights, docs, base)
  {
    assert Opened(weights, docs, base, inverted, idf, Seal);
  }

  /** An index with a table computed from its own posting lists. */
  lemma Recomputed(weights: Weights, docs: seq<Document>, inverted: Inverted, idf: map<Word, real>)
    requires Indexes(weights.tf, docs, inverted)
    requires idf == map w | w in inverted :: weights.idf(|docs|, |inverted[w]|)
    ensures Consistent(weights, docs, |docs|, inverted, idf) && idf == FreshTable(weights, docs)
  {
    TableFromPostings(weights, docs, inverted, idf);
    FreshSince(weights, docs);
  }

  /** Adding under the next index: exact lists, and a table updated for the entry's words. */
  lemma Added(weights: Weights, docs: seq<Document>, base: nat, before: Inverted, now: Inverted,
              table: map<Word, real>, idf: map<Word, real>, d: Document)
    requires Consistent(weights, docs, base, before, table) && Posted(weights.tf, before, now, d, Words(d), |docs|)
    requires Weighed(weights, |docs| + 1, now, table, idf, Words(d))
    ensures Consistent(weights, docs + [d], base, now, idf) && PartlyUpdated(weights, docs, d, table, idf)
  {
    Open(weights, docs, base, before, table);
    AddedExactly(weights, docs, before, now, table, idf, d);
    AddKeepsSince(weights, docs, base, d, idf);
  }

  /** Exchanging an indexed document: the index of a rebuild. */
  lemma Replaced(weights: Weights, docs: seq<Document>, base: nat, before: Inverted, now: Inverted,
                 table: map<Word, real>, idf: map<Word, real>, d: Document, idx: nat)
    requires idx < |docs| && Consistent(weights, docs, base, before, table)
    requires Posted(weights.tf, Dropped(before, idx), now, d, Words(d), idx)
    requires idf == map w | w in now :: weights.idf(|docs|, |now[w]|)
    ensures var after := docs[idx := d];
            Consistent(weights, after, |docs|, now, idf) && idf == FreshTable(weights, after)
  {
    Open(weights, docs, base, before, table);
    var cleared := docs[idx := []];
    RemoveKeepsIndex(weights.tf, docs, before, Dropped(before, idx), idx);
    PostKeepsIndex(weights.tf, cleared, Dropped(before, idx), now, d, idx);
    assert cleared[idx := d] == docs[idx := d];
    Recomputed(weights, docs[idx := d], now, idf);
  }

  class MemoryIndex {
    const weights: Weights
    var inverted: Inverted
    var idf: map<Word, real>
    var docCount: nat
    ghost var docs: seq<Document>
    ghost var base: nat

    /** Whatever updates came before, the posting lists are the naive term counts, and every
        word has the weight of its last weighing: `base` documents had been indexed when the
        whole table was last computed. */
    ghost predicate Valid()
      reads this
    {
      docCount == |docs| && Consistent(weights, docs, base, inverted, idf)
    }

    /** The table is the one a rebuild would compute. */
    ghost predicate Current()
      reads this
    {
      idf == FreshTable(weights, docs)
    }

    constructor (weights: Weights)
      ensures Valid() && Current() && this.weights == weights && docs == []
    {
      this.weights := weights;
      inverted, idf, docCount, docs, base := map[], map[], 0, [], 0;
      new;
      Recomputed(weights, [], map[], map[]);
    }

    /** `rebuild`. */
    method Rebuild(entries: seq<string>)
      modifies this
      ensures Valid() && Current() && docs == Tokenized(weights, entries) && base == docCount
    {
      inverted, idf, docCount, docs := map[], map[], |entries|, [];
      for i := 0 to |entries|
        invariant Indexes(weights.tf, docs, inverted) && docs == Tokenized(weights, entries[..i])
        invariant docCount == |entries|
      {
        assert entries[..i + 1][..i] == entries[..i];
        ghost var before := inverted;
        var d := weights.tokens(entries[i]);
        PostWords(d, i);
        AppendKeepsIndex(weights.tf, docs, before, inverted, d);
        docs := docs + [d];
      }
      assert entries[..|entries|] == entries;
      RecomputeTable();
      base := docCount;
      Recomputed(weights, docs, inverted, idf);
    }

    method PostWords(d: Document, idx: nat)
      modifies this`inverted
      ensures Posted(weights.tf, old(inverted), inverted, d, Words(d), idx)
    {
      var counts := CountTokens(d);
      var todo := counts.Keys;
      while todo != {}
        invariant todo <= counts.Keys && Posted(weights.tf, old(inverted), inverted, d, counts.Keys - todo, idx)
        decreases todo
      {
        var w :| w in todo;
        PostedNext(weights.tf, old(inverted), inverted, d, counts.Keys - todo, idx, w);
        assert counts.Keys - (todo - {w}) == counts.Keys - todo + {w};
        inverted := inverted[w := PostingsOf(inverted, w) + [(idx, weights.tf(counts[w]))]];
        todo := todo - {w};
      }
      assert counts.Keys - {} == counts.Keys;
    }

    /** Recomputes every word's weight and drops words that have disappeared. */
    method RecomputeTable()
      modifies this`idf
      ensures idf == map w | w in inverted :: weights.idf(docCount, |inverted[w]|)
    {
      var todo := inverted.Keys;
      while todo != {}
        invariant todo <= inverted.Keys && inverted.Keys - todo <= idf.Keys
        invariant forall w :: w in inverted && w !in todo ==> idf[w] == weights.idf(docCount, |inverted[w]|)
        decreases todo
      {
        var w :| w in todo;
        idf := idf[w := weights.idf(docCount, |inverted[w]|)];
        todo := todo - {w};
      }
      idf := map w | w in idf && w in inverted :: idf[w];
    }

    /** `add_entry`: the entry's words are posted for `idx` and only their weights are
        updated. With the next index the lists stay the naive counts and the table is
        carried on. */
    method AddEntry(content: string, idx: nat)
      modifies this
      ensures docCount == old(docCount) + 1
      ensures Posted(weights.tf, old(inverted), inverted, weights.tokens(content), Words(weights.tokens(content)), idx)
      ensures Weighed(weights, docCount, inverted, old(idf), idf, Words(weights.tokens(content)))
      ensures old(Valid()) && idx == old(docCount) ==>
                && Valid() && docs == old(docs) + [weights.tokens(content)] && base == old(base)
                && PartlyUpdated(weights, old(docs), weights.tokens(content), old(idf), idf)
    {
      docCount := docCount + 1;
      var d := weights.tokens(content);
      docs := docs + [d];
      PostAndWeigh(d, idx);
      if old(Valid()) && idx == old(docCount) {
        Added(weights, old(docs), base, old(inverted), inverted, old(idf), idf, d);
      }
    }

    method PostAndWeigh(d: Document, idx: nat)
      modifies this`inverted, this`idf
      ensures Posted(weights.tf, old(inverted), inverted, d, Words(d), idx)
      ensures Weighed(weights, docCount, inverted, old(idf), idf, Words(d))
    {
      var counts := CountTokens(d);
      var todo := counts.Keys;
      while todo != {}
        invariant todo <= counts.Keys && Posted(weights.tf, old(inverted), inverted, d, counts.Keys - todo, idx)
        invariant Weighed(weights, docCount, inverted, old(idf), idf, counts.Keys - todo)
        decreases todo
      {
        var w :| w in todo;
        PostedNext(weights.tf, old(inverted), inverted, d, counts.Keys - todo, idx, w);
        assert counts.Keys - (todo - {w}) == counts.Keys - todo + {w};
        WeighedNext(weights, docCount, inverted, old(idf), idf, counts.Keys - todo, w,
                    PostingsOf(inverted, w) + [(idx, weights.tf(counts[w]))]);
        inverted := inverted[w := PostingsOf(inverted, w) + [(idx, weights.tf(counts[w]))]];
        idf := idf[w := weights.idf(docCount, |inverted[w]|)];
        todo := todo - {w};
      }
      assert counts.Keys - {} == counts.Keys;
    }

    /** `replace_entry`: the postings of `idx` are exchanged for the entry's and the whole
        table is recomputed. For an indexed document that is the index of a rebuild over the
        documents with this one exchanged. */
    method ReplaceEntry(content: string, idx: nat)
      modifies this
      ensures docCount == old(docCount)
      ensures Posted(weights.tf, Dropped(old(inverted), idx), inverted, weights.tokens(content),
                     Words(weights.tokens(content)), idx)
      ensures idf == map w | w in inverted :: weights.idf(docCount, |inverted[w]|)
      ensures old(Valid()) && idx < docCount ==>
                && Valid() && Current() && docs == old(docs)[idx := weights.tokens(content)] && base == docCount
    {
      DropPostings(idx);
      var d := weights.tokens(content);
      PostWords(d, idx);
      RecomputeTable();
      if old(Valid()) && idx < docCount {
        Replaced(weights, docs, base, old(inverted), inverted, old(idf), idf, d, idx);
        docs, base := docs[idx := d], docCount;
      }
    }

    method DropPostings(idx: nat)
      modifies this`inverted
      ensures inverted == Dropped(old(inverted), idx)
    {
      var todo := inverted.Keys;
      while todo != {}
        invariant todo <= inverted.Keys == old(inverted).Keys
        invariant forall w :: w in inverted ==>
                    inverted[w] == if w in todo then old(inverted)[w] else Without(old(inverted)[w], idx)
        decreases todo
      {
        var w :| w in todo;
        inverted := inverted[w := Without(inverted[w], idx)];
        todo := todo - {w};
      }
      inverted := map w | w in inverted && inverted[w] != [] :: inverted[w];
    }

    /** `search`: the best `topN` of the documents in which some query term occurs, by
        their naive score under the current table. */
    method Search(query: string, topN: nat) returns (ranked: seq<Posting>)
      requires Valid()
      ensures RanksTop(ScoreTable(weights, idf, docs, weights.tokens(query)), topN, ranked)
    {
      var terms := weights.tokens(query);
      if terms == [] || inverted == map[] {
        NothingMatches(weights, docs, base, inverted, idf, terms);
        return [];
      }
      var all := Accumulate(terms);
      var full := RankAll(all);
      TopOfAll(all, full, topN);
      assert all == ScoreTable(weights, idf, docs, terms);
      ranked := if topN < |full| then full[..topN] else full;
    }

    method Accumulate(terms: seq<Word>) returns (scores: map<nat, real>)
      requires Valid()
      ensures Scores(weights, idf, docs, terms, scores)
    {
      scores := map[];
      assert terms[..|terms|] == terms;
      for k := 0 to |terms|
        invariant Scores(weights, idf, docs, terms[..k], scores)
      {
        ghost var before := scores;
        scores := AddTerm(terms[k], scores);
        NextScores(weights, idf, docs, terms[..k], terms[k], before, scores);
        assert terms[..k + 1] == terms[..k] + [terms[k]];
      }
    }

    method AddTerm(term: Word, before: map<nat, real>) returns (scores: map<nat, real>)
      requires Valid()
      ensures Gained(before, scores, Containing(docs, term), Gains(weights, idf, docs, term))
    {
      scores := before;
      TermPostings(weights, docs, base, inverted, idf, term);
      if term !in inverted { return; }
      var ps := inverted[term];
      ghost var gains := Gains(weights, idf, docs, term);
      scores := AddPostings(ps, IdfOf(idf, term), before, gains);
    }
  }

  method AddPostings(ps: seq<Posting>, weight: real, before: map<nat, real>, ghost gains: map<nat, real>)
    returns (scores: map<nat, real>)
    requires DistinctDocs(ps) && forall p :: p in ps ==> p.0 in gains && gains[p.0] == p.1 * weight
    ensures DocSet(ps) <= gains.Keys && Gained(before, scores, DocSet(ps), gains)
  {
    scores := before;
    assert ps[..|ps|] == ps;
    for j := 0 to |ps|
      invariant DocSet(ps[..j]) <= gains.Keys && Gained(before, scores, DocSet(ps[..j]), gains)
    {
      NextPosting(ps, j);
      assert ps[j] in ps;
      GainedNext(before, scores, DocSet(ps[..j]), gains, ps[j].0);
      scores := Raise(scores, ps[j].0, ps[j].1 * weight);
    }
  }

  function Raise(scores: map<nat, real>, i: nat, gain: real): map<nat, real>
  {
    scores[i := (if i in scores then scores[i] else 0.0) + gain]
  }

  lemma GainedNext(before: map<nat, real>, now: map<nat, real>, reached: set<nat>, gains: map<nat, real>, i: nat)
    requires reached <= gains.Keys && i in gains && i !in reached && Gained(before, now, reached, gains)
    ensures Gained(before, Raise(now, i, gains[i]), reached + {i}, gains)
  {
  }

  ghost predicate Weighed(weights: Weights, docCount: nat, inverted: Inverted, before: map<Word, real>,
                          now: map<Word, real>, words: set<Word>) {
    && now.Keys == before.Keys + words && words <= inverted.Keys
    && forall w :: w in now ==>
         && (w in words || w in before)
         && now[w] == if w in words then weights.idf(docCount, |inverted[w]|) else before[w]
  }

  lemma AddedExactly(weights: Weights, docs: seq<Document>, before: Inverted, now: Inverted,
                     table: map<Word, real>, idf: map<Word, real>, d: Document)
    requires Indexes(weights.tf, docs, before) && Posted(weights.tf, before, now, d, Words(d), |docs|)
    requires Weighed(weights, |docs| + 1, now, table, idf, Words(d))
    ensures Indexes(weights.tf, docs + [d], now) && PartlyUpdated(weights, docs, d, table, idf)
  {
    AppendKeepsIndex(weights.tf, docs, before, now, d);
    forall w | w in d ensures |now[w]| == |Containing(docs + [d], w)| {
      assert Indexed(weights.tf, docs + [d], now, w);
      ListsIsScan(weights.tf, docs + [d], w, now[w]);
    }
  }

  lemma WeighedNext(weights: Weights, docCount: nat, inverted: Inverted, before: map<Word, real>, now: map<Word, real>,
                    words: set<Word>, w: Word, ps: seq<Posting>)
    requires Weighed(weights, docCount, inverted, before, now, words) && w !in words
    ensures Weighed(weights, docCount, inverted[w := ps], before, now[w := weights.idf(docCount, |ps|)], words + {w})
  {
  }

  lemma AppendKeepsIndex(tf: nat -> real, docs: seq<Document>, before: Inverted, now: Inverted, d: Document)
    requires Indexes(tf, docs, before) && Posted(tf, before, now, d, Words(d), |docs|)
    ensures Indexes(tf, docs + [d], now)
  {
    EmptyDocument(tf, docs, before);
    PostKeepsIndex(tf, docs + [[]], before, now, d, |docs|);
    assert (docs + [[]])[|docs| := d] == docs + [d];
  }

  lemma NothingMatches(weights: Weights, docs: seq<Document>, base: nat, inverted: Inverted, idf: map<Word, real>,
                       terms: seq<Word>)
    requires Consistent(weights, docs, base, inverted, idf) && (terms == [] || inverted == map[])
    ensures Matching(docs, terms) == {}
  {
    Open(weights, docs, base, inverted, idf);
    if terms != [] {
      forall i, t | 0 <= i < |docs| ensures t !in docs[i] {
        assert Indexed(weights.tf, docs, inverted, t) && i !in Containing(docs, t);
      }
    }
  }

  /** A term's posting list is what a query needs: the documents with the term, once each,
      with what the term adds to their scores. */
  lemma TermPostings(weights: Weights, docs: seq<Document>, base: nat, inverted: Inverted, idf: map<Word, real>,
                     term: Word)
    requires Consistent(weights, docs, base, inverted, idf)
    ensures var ps, gains := PostingsOf(inverted, term), Gains(weights, idf, docs, term);
            && DistinctDocs(ps) && DocSet(ps) == Containing(docs, term)
            && forall p :: p in ps ==> p.0 in gains && gains[p.0] == p.1 * IdfOf(idf, term)
  {
    Open(weights, docs, base, inverted, idf);
    assert Indexed(weights.tf, docs, inverted, term);
    if term in inverted { ListedDocs(weights, idf, docs, term, inverted[term]); }
  }

  lemma ListedDocs(weights: Weights, idf: map<Word, real>, docs: seq<Document>, term: Word, ps: seq<Posting>)
    requires Lists(weights.tf, docs, term, ps)
    ensures var gains := Gains(weights, idf, docs, term);
            && DocSet(ps) == Containing(docs, term)
            && forall p :: p in ps ==> p.0 in gains && gains[p.0] == p.1 * IdfOf(idf, term)
  {
    forall p | p in ps
      ensures p.0 in Containing(docs, term) && p.1 * IdfOf(idf, term) == Gain(weights, idf, docs, term, p.0)
    {
      assert Weighs(weights.tf, docs, term, p);
    }
  }

  lemma NextPosting(ps: seq<Posting>, j: nat)
    requires j < |ps| && DistinctDocs(ps)
    ensures DocSet(ps[..j + 1]) == DocSet(ps[..j]) + {ps[j].0} && ps[j].0 !in DocSet(ps[..j])
  {
    assert ps[..j + 1] == ps[..j] + [ps[j]];
  }

  /** Sorts the scores of all matches, best first. */
  method RankAll(scores: map<nat, real>) returns (r: seq<Posting>)
    ensures RanksAll(scores, r)
  {
    r := [];
    var todo := scores.Keys;
    while todo != {}
      invariant todo <= scores.Keys && Descending(r) && DistinctDocs(r) && DocSet(r) == scores.Keys - todo
      invariant forall p :: p in r ==> p.0 in scores && p.1 == scores[p.0]
      decreases todo
    {
      var i :| i in todo;
      InsertContents(r, (i, scores[i]));
      ghost var before := r;
      r := InsertRanked(r, (i, scores[i]));
      assert DocSet(r) == DocSet(before) + {i};
      todo := todo - {i};
    }
  }
}
