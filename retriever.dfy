/**
 * `Retriever` of app/retriever/retriever.py: it asks the indexer for the
 * nearest chunks of a query, scores each candidate by the cosine similarity
 * of its embedding with the query's, and returns the candidates stably
 * sorted by descending score.
 *
 * The cosine itself is a collaborator (numpy's dot product over the product
 * of the two norms); the model keeps the two cases in which the code scores
 * 0.0 without computing it.
 */
module Retrieval {
  import opened Wrappers
  import opened Chunks
  import opened Indexer
  import opened Lists

  /** `top_k`'s default. */
  const DefaultTopK: int := 5

  /** A candidate with its relevance score. */
  datatype RetrievedChunk = RetrievedChunk(chunk: CodeChunk, score: real)

  /** The dictionary `RetrievedChunk.to_dict` returns: the chunk's record plus `relevance_score`. */
  datatype ScoredRecord = ScoredRecord(record: ChunkRecord, relevanceScore: real)

  /** `RetrievedChunk.to_dict`: the chunk without its embedding, and the score. */
  function ToScoredDict(r: RetrievedChunk): (d: ScoredRecord)
    ensures FromRecord(d.record) == r.chunk.(embedding := None)
    ensures d.relevanceScore == r.score
  {
    ScoredRecord(ToDict(r.chunk), r.score)
  }

  /** `k or self.top_k`: an absent or zero `k` falls back to `top_k`. */
  function EffectiveK(k: Option<int>, topK: int): (r: int)
    ensures (k.None? || k.value == 0) ==> r == topK
    ensures k.Some? && k.value != 0 ==> r == k.value
  {
    if k.Some? && k.value != 0 then k.value else topK
  }

  /** The squared Euclidean norm of a vector. */
  function NormSq(v: Vector): (r: real)
    ensures r >= 0.0
  {
    if v == [] then 0.0 else v[0] * v[0] + NormSq(v[1..])
  }

  /**
   * The score of one candidate: 0.0 when its embedding is missing or empty,
   * 0.0 when either norm is zero (so their product is), and otherwise the
   * cosine similarity of the query's embedding with the candidate's.
   */
  function Relevance(cosine: (Vector, Vector) -> real, q: Vector, e: Option<Vector>): (r: real)
    ensures r != 0.0 ==> e.Some? && e.value != [] && NormSq(q) > 0.0 && NormSq(e.value) > 0.0
    ensures e.Some? && e.value != [] && NormSq(q) > 0.0 && NormSq(e.value) > 0.0 ==> r == cosine(q, e.value)
  {
    if e.None? || e.value == [] then 0.0
    else if NormSq(q) == 0.0 || NormSq(e.value) == 0.0 then 0.0
    else cosine(q, e.value)
  }

  /** `zip(chunks, scores)` into `RetrievedChunk`s: as long as the shorter list. */
  function Zip(chunks: seq<CodeChunk>, scores: seq<real>): (r: seq<RetrievedChunk>)
    ensures |r| == if |chunks| <= |scores| then |chunks| else |scores|
    ensures forall i :: 0 <= i < |r| ==> r[i].chunk == chunks[i] && r[i].score == scores[i]
  {
    if chunks == [] || scores == [] then []
    else [RetrievedChunk(chunks[0], scores[0])] + Zip(chunks[1..], scores[1..])
  }

  /** Non-increasing by score. */
  predicate SortedDesc(s: seq<RetrievedChunk>)
  {
    forall i, j :: 0 <= i < j < |s| ==> s[i].score >= s[j].score
  }

  /** The elements of `s` whose score is `v`, in their order. */
  function WithScore(s: seq<RetrievedChunk>, v: real): seq<RetrievedChunk>
  {
    if s == [] then [] else (if s[0].score == v then [s[0]] else []) + WithScore(s[1..], v)
  }

  lemma {:induction false} WithScoreAppend(a: seq<RetrievedChunk>, b: seq<RetrievedChunk>, v: real)
    ensures WithScore(a + b, v) == WithScore(a, v) + WithScore(b, v)
  {
    if a != [] {
      assert (a + b)[1..] == a[1..] + b;
      WithScoreAppend(a[1..], b, v);
    } else {
      assert a + b == b;
    }
  }

  /** When every element of `s` scores below `v`, none scores `v`. */
  lemma {:induction false} WithScoreNone(s: seq<RetrievedChunk>, v: real)
    requires forall i :: 0 <= i < |s| ==> s[i].score < v
    ensures WithScore(s, v) == []
  {
    if s != [] {
      WithScoreNone(s[1..], v);
    }
  }

  /**
   * Insert `x` into a list sorted by descending score, after every element
   * whose score is at least `x`'s: ties keep `x` behind the earlier ones.
   */
  function Insert(s: seq<RetrievedChunk>, x: RetrievedChunk): (r: seq<RetrievedChunk>)
    ensures |r| == |s| + 1
    ensures r[0] == x || (s != [] && r[0] == s[0])
  {
    if s == [] then [x]
    else if s[0].score >= x.score then [s[0]] + Insert(s[1..], x)
    else [x] + s
  }

  /** Insertion adds `x` and nothing else. */
  lemma {:induction false} InsertPerm(s: seq<RetrievedChunk>, x: RetrievedChunk)
    ensures multiset(Insert(s, x)) == multiset(s) + multiset{x}
  {
    if s != [] {
      assert s == [s[0]] + s[1..];
      if s[0].score >= x.score {
        InsertPerm(s[1..], x);
      }
    }
  }

  lemma {:induction false} InsertSorted(s: seq<RetrievedChunk>, x: RetrievedChunk)
    requires SortedDesc(s)
    ensures SortedDesc(Insert(s, x))
  {
    if s != [] {
      if s[0].score >= x.score {
        var t := Insert(s[1..], x);
        assert SortedDesc(s[1..]) by {
          forall i, j | 0 <= i < j < |s[1..]| ensures s[1..][i].score >= s[1..][j].score {
            assert s[1..][i] == s[i + 1] && s[1..][j] == s[j + 1];
          }
        }
        InsertSorted(s[1..], x);
        var r := [s[0]] + t;
        assert Insert(s, x) == r;
        assert s[0].score >= t[0].score by {
          if t[0] != x { assert t[0] == s[1]; }
        }
        forall i, j | 0 <= i < j < |r| ensures r[i].score >= r[j].score {
          assert r[j] == t[j - 1];
          if i == 0 {
            assert t[0].score >= t[j - 1].score;
          } else {
            assert r[i] == t[i - 1];
          }
        }
      } else {
        var r := [x] + s;
        assert Insert(s, x) == r;
        forall i, j | 0 <= i < j < |r| ensures r[i].score >= r[j].score {
          assert r[j] == s[j - 1];
          if i == 0 {
            assert s[0].score >= s[j - 1].score;
          } else {
            assert r[i] == s[i - 1];
          }
        }
      }
    }
  }

  lemma WithScoreCons(a: RetrievedChunk, t: seq<RetrievedChunk>, v: real)
    ensures WithScore([a] + t, v) == (if a.score == v then [a] else []) + WithScore(t, v)
  {
    assert ([a] + t)[1..] == t;
  }

  /** An insertion puts `x` behind every element of the same score. */
  lemma {:induction false} InsertWithScore(s: seq<RetrievedChunk>, x: RetrievedChunk, v: real)
    requires SortedDesc(s)
    ensures WithScore(Insert(s, x), v) == WithScore(s, v) + (if x.score == v then [x] else [])
  {
    var mine: seq<RetrievedChunk> := if x.score == v then [x] else [];
    if s == [] {
      assert Insert(s, x) == [x] + [];
      WithScoreCons(x, [], v);
      assert WithScore([], v) == [];
    } else if s[0].score >= x.score {
      var head: seq<RetrievedChunk> := if s[0].score == v then [s[0]] else [];
      assert SortedDesc(s[1..]);
      InsertWithScore(s[1..], x, v);
      assert Insert(s, x) == [s[0]] + Insert(s[1..], x);
      WithScoreCons(s[0], Insert(s[1..], x), v);
      assert s == [s[0]] + s[1..];
      WithScoreCons(s[0], s[1..], v);
      AppendAssoc(head, WithScore(s[1..], v), mine);
    } else {
      assert Insert(s, x) == [x] + s;
      WithScoreCons(x, s, v);
      if x.score == v {
        WithScoreNone(s, v);
      }
    }
  }

  /**
   * `list.sort(key=score, reverse=True)` as an insertion sort: each element,
   * from first to last, goes behind every earlier element scoring at least as
   * much.
   */
  function SortByScore(s: seq<RetrievedChunk>): (r: seq<RetrievedChunk>)
    ensures |r| == |s|
  {
    if s == [] then [] else Insert(SortByScore(s[..|s| - 1]), s[|s| - 1])
  }

  /** The sorted list is non-increasing by score and a permutation of its input. */
  lemma {:induction false} SortByScoreOrdered(s: seq<RetrievedChunk>)
    ensures SortedDesc(SortByScore(s))
    ensures multiset(SortByScore(s)) == multiset(s)
  {
    if s != [] {
      var n := |s| - 1;
      SortByScoreOrdered(s[..n]);
      InsertSorted(SortByScore(s[..n]), s[n]);
      InsertPerm(SortByScore(s[..n]), s[n]);
      assert s == s[..n] + [s[n]];
    }
  }

  /** The sort is stable: the elements scoring `v` keep their input order. */
  lemma {:induction false} SortByScoreStable(s: seq<RetrievedChunk>, v: real)
    ensures WithScore(SortByScore(s), v) == WithScore(s, v)
  {
    if s != [] {
      var n := |s| - 1;
      var init := s[..n];
      SortByScoreStable(init, v);
      SortByScoreOrdered(init);
      InsertWithScore(SortByScore(init), s[n], v);
      WithScoreAppend(init, [s[n]], v);
      WithScoreCons(s[n], [], v);
      assert [s[n]] + [] == [s[n]];
      assert s == init + [s[n]];
    }
  }

  /**
   * The sorted list is non-increasing by score, a permutation of its input,
   * and stable: the elements of any one score appear in their input order.
   */
  lemma SortByScoreCorrect(s: seq<RetrievedChunk>)
    ensures SortedDesc(SortByScore(s))
    ensures multiset(SortByScore(s)) == multiset(s)
    ensures forall v :: WithScore(SortByScore(s), v) == WithScore(s, v)
  {
    SortByScoreOrdered(s);
    forall v ensures WithScore(SortByScore(s), v) == WithScore(s, v) {
      SortByScoreStable(s, v);
    }
  }

  class Retriever {
    const indexer: CodeIndexer
    const topK: int
    /** numpy's `dot(q, e) / (norm(q) * norm(e))`, used only when both norms are non-zero. */
    const cosine: (Vector, Vector) -> real

    /** `top_k` defaults to `DefaultTopK`; it comes last because it is the parameter with a default. */
    constructor (indexer: CodeIndexer, cosine: (Vector, Vector) -> real, topK: int := DefaultTopK)
      ensures this.indexer == indexer && this.topK == topK && this.cosine == cosine
    {
      this.indexer := indexer;
      this.topK := topK;
      this.cosine := cosine;
    }

    /** `_calculate_relevance_scores`: one score per candidate, in candidate order. */
    method CalculateRelevanceScores(query: string, chunks: seq<CodeChunk>) returns (scores: seq<real>)
      ensures |scores| == |chunks|
      ensures forall i :: 0 <= i < |chunks| ==> scores[i] == Relevance(cosine, indexer.embed(query), chunks[i].embedding)
    {
      if chunks == [] {
        return [];
      }
      var q := indexer.embed(query);
      scores := [];
      for i := 0 to |chunks|
        invariant |scores| == i
        invariant forall j :: 0 <= j < i ==> scores[j] == Relevance(cosine, q, chunks[j].embedding)
      {
        var score: real;
        var e := chunks[i].embedding;
        if e.Some? && e.value != [] {
          if NormSq(q) == 0.0 || NormSq(e.value) == 0.0 {
            score := 0.0;
          } else {
            score := cosine(q, e.value);
          }
        } else {
          score := 0.0;
        }
        scores := scores + [score];
      }
    }

    /**
     * `retrieve`: search with `k or top_k`, pair each candidate with its
     * score, and sort the pairs by descending score; a failed search fails.
     */
    method Retrieve(query: string, k: Option<int>) returns (r: Result<seq<RetrievedChunk>, SearchError>)
      ensures var found := indexer.Search(query, EffectiveK(k, topK));
              found.Failure? ==> r == Failure(found.error)
      ensures var found := indexer.Search(query, EffectiveK(k, topK));
              found.Success? ==>
                r.Success?
                && |r.value| == |found.value|
                && SortedDesc(r.value)
                && multiset(r.value) == multiset(Zip(found.value, Scores(cosine, indexer.embed(query), found.value)))
                && forall v :: WithScore(r.value, v) == WithScore(Zip(found.value, Scores(cosine, indexer.embed(query), found.value)), v)
    {
      var found := indexer.Search(query, EffectiveK(k, topK));
      if found.Failure? {
        return Failure(found.error);
      }
      var chunks := found.value;
      var scores := CalculateRelevanceScores(query, chunks);
      assert scores == Scores(cosine, indexer.embed(query), chunks);
      var pairs := Zip(chunks, scores);
      SortByScoreCorrect(pairs);
      r := Success(SortByScore(pairs));
    }
  }

  /** The scores `_calculate_relevance_scores` gives the candidates. */
  function Scores(cosine: (Vector, Vector) -> real, q: Vector, chunks: seq<CodeChunk>): (r: seq<real>)
    ensures |r| == |chunks|
    ensures forall i :: 0 <= i < |chunks| ==> r[i] == Relevance(cosine, q, chunks[i].embedding)
  {
    seq(|chunks|, i requires 0 <= i < |chunks| => Relevance(cosine, q, chunks[i].embedding))
  }

  /** Every pair of the zip keeps its own chunk and that chunk's score. */
  lemma ZipScores(cosine: (Vector, Vector) -> real, q: Vector, chunks: seq<CodeChunk>)
    ensures var pairs := Zip(chunks, Scores(cosine, q, chunks));
            |pairs| == |chunks|
            && forall i :: 0 <= i < |pairs| ==> pairs[i] == RetrievedChunk(chunks[i], Relevance(cosine, q, chunks[i].embedding))
  {
  }
}
