// The candidate refinement and prompt assembly of the question-answering
// app: the filter that maps vector-search hits back to chunks, the
// order-preserving deduplication, the select-top-m rule of the reranker
// (blank candidates dropped, whitespace normalised, stable sort by
// descending score, Python slice, deduplication) and the prompt template.
// The vector search and the cross-encoder are inputs: the hits are a
// sequence of indices and the scorer is a function to an ordered type.

module RagApp {
  import opened Text

  /** How many re-ranked passages the app keeps. */
  const TopM: int := 8

  predicate Distinct<T(==)>(s: seq<T>) {
    forall i, j :: 0 <= i < j < |s| ==> s[i] != s[j]
  }

  // ---------------------------------------------------------------------
  // retrieve_chunks: the chunks the search hits point at, in hit order;
  // a hit outside the chunk list is skipped.

  function Retrieve(chunks: seq<String>, hits: seq<int>): (r: seq<String>)
    ensures |r| <= |hits|
    ensures forall k :: 0 <= k < |r| ==> r[k] in chunks
  {
    if hits == [] then []
    else
      (if 0 <= hits[0] < |chunks| then [chunks[hits[0]]] else []) + Retrieve(chunks, hits[1..])
  }

  /** Retrieval keeps search order: the hits of a + b give those of a, then those of b. */
  lemma {:induction false} RetrieveAppend(chunks: seq<String>, a: seq<int>, b: seq<int>)
    ensures Retrieve(chunks, a + b) == Retrieve(chunks, a) + Retrieve(chunks, b)
  {
    if a == [] {
      assert a + b == b;
    } else {
      assert (a + b)[0] == a[0] && (a + b)[1..] == a[1..] + b;
      RetrieveAppend(chunks, a[1..], b);
    }
  }

  /** With every hit in range, retrieval is exactly the chunks at the hits. */
  lemma {:induction false} RetrieveInRange(chunks: seq<String>, hits: seq<int>)
    requires forall j :: 0 <= j < |hits| ==> 0 <= hits[j] < |chunks|
    ensures |Retrieve(chunks, hits)| == |hits|
    ensures forall j :: 0 <= j < |hits| ==> Retrieve(chunks, hits)[j] == chunks[hits[j]]
  {
    if hits != [] {
      RetrieveInRange(chunks, hits[1..]);
    }
  }

  /** Out-of-range hits (such as the search's -1 padding) are dropped. */
  lemma {:induction false} RetrieveOutOfRange(chunks: seq<String>, hits: seq<int>)
    requires forall j :: 0 <= j < |hits| ==> !(0 <= hits[j] < |chunks|)
    ensures Retrieve(chunks, hits) == []
  {
    if hits != [] {
      RetrieveOutOfRange(chunks, hits[1..]);
    }
  }

  /** The shape of a flat L2 index's answer to a top-k query over n vectors:
      k indices, the first min(k, n) of them valid, the rest -1. */
  predicate SearchResult(hits: seq<int>, k: nat, n: nat) {
    |hits| == k &&
    (forall j :: 0 <= j < k && j < n ==> 0 <= hits[j] < n) &&
    (forall j :: n <= j < k ==> hits[j] == -1)
  }

  /** Asking for k hits against n chunks yields min(k, n) chunks. */
  lemma RetrieveCount(chunks: seq<String>, hits: seq<int>, k: nat)
    requires SearchResult(hits, k, |chunks|)
    ensures |Retrieve(chunks, hits)| == if k <= |chunks| then k else |chunks|
  {
    var c := if k <= |chunks| then k else |chunks|;
    assert hits == hits[..c] + hits[c..];
    RetrieveAppend(chunks, hits[..c], hits[c..]);
    RetrieveInRange(chunks, hits[..c]);
    RetrieveOutOfRange(chunks, hits[c..]);
  }

  // ---------------------------------------------------------------------
  // dedupe_preserve_order

  /** The first occurrences of s, in order (the loop's result on a prefix). */
  function Dedupe<T(==)>(s: seq<T>): (r: seq<T>)
    ensures |r| <= |s|
    ensures forall k :: 0 <= k < |r| ==> r[k] in s
    ensures forall k :: 0 <= k < |s| ==> s[k] in r
    ensures Distinct(r)
  {
    if s == [] then []
    else
      var r := Dedupe(s[..|s| - 1]);
      if s[|s| - 1] in r then r else r + [s[|s| - 1]]
  }

  /** Position of the first occurrence of x in s. */
  function FirstIndex<T(==)>(s: seq<T>, x: T): (i: nat)
    requires x in s
    ensures i < |s| && s[i] == x && x !in s[..i]
  {
    if s[0] == x then 0 else 1 + FirstIndex(s[1..], x)
  }

  lemma FirstIndexAt<T>(s: seq<T>, x: T, i: nat)
    requires i < |s| && s[i] == x && x !in s[..i]
    ensures FirstIndex(s, x) == i
  {
    var f := FirstIndex(s, x);
    assert forall j :: 0 <= j < i ==> s[..i][j] == s[j];
    assert forall j :: 0 <= j < f ==> s[..f][j] == s[j];
  }

  /** Removing duplicates from a list without any leaves it unchanged. */
  lemma {:induction false} DedupeDistinct<T>(s: seq<T>)
    requires Distinct(s)
    ensures Dedupe(s) == s
  {
    if s != [] {
      var p := s[..|s| - 1];
      DedupeDistinct(p);
      assert s[|s| - 1] !in p;
      assert p + [s[|s| - 1]] == s;
    }
  }

  /** The kept elements appear in the order of their first occurrence. */
  lemma {:induction false} DedupeFirstOccurrenceOrder<T>(s: seq<T>)
    ensures forall j, k :: 0 <= j < k < |Dedupe(s)| ==>
              FirstIndex(s, Dedupe(s)[j]) < FirstIndex(s, Dedupe(s)[k])
  {
    if s != [] {
      var p, last := s[..|s| - 1], s[|s| - 1];
      var rp := Dedupe(p);
      DedupeFirstOccurrenceOrder(p);
      forall y | y in p ensures FirstIndex(s, y) == FirstIndex(p, y) {
        var i := FirstIndex(p, y);
        assert s[..i] == p[..i];
        FirstIndexAt(s, y, i);
      }
      if last !in rp {
        assert last !in p;
        assert s[..|s| - 1] == p;
        FirstIndexAt(s, last, |s| - 1);
      }
    }
  }

  /** dedupe_preserve_order as the source runs it: a loop over the items with
      a set of the strings seen so far and an output list. */
  method DedupePreserveOrder<T(==)>(items: seq<T>) returns (out: seq<T>)
    ensures out == Dedupe(items)
  {
    var seen: set<T> := {};
    out := [];
    for i := 0 to |items|
      invariant out == Dedupe(items[..i])
      invariant seen == set x | x in out
    {
      var s := items[i];
      assert items[..i + 1][..i] == items[..i];
      if s !in seen {
        seen := seen + {s};
        out := out + [s];
      }
    }
    assert items[..|items|] == items;
  }

  // ---------------------------------------------------------------------
  // The reranker sorts the (passage, score) pairs by descending score.
  //
  // The sort is modelled on candidate positions.  Python's sort is stable
  // also with reverse=True, so position a goes before position b exactly
  // when a scores higher, or scores the same and comes first.

  predicate InRange(n: nat, idx: seq<nat>) {
    forall k :: 0 <= k < |idx| ==> idx[k] < n
  }

  predicate Before(scores: seq<int>, a: nat, b: nat)
    requires a < |scores| && b < |scores|
  {
    scores[a] > scores[b] || (scores[a] == scores[b] && a < b)
  }

  predicate SortedBy(scores: seq<int>, idx: seq<nat>)
    requires InRange(|scores|, idx)
  {
    forall j, k :: 0 <= j < k < |idx| ==> Before(scores, idx[j], idx[k])
  }

  function Insert(scores: seq<int>, x: nat, idx: seq<nat>): (r: seq<nat>)
    requires x < |scores| && InRange(|scores|, idx)
    ensures multiset(r) == multiset(idx) + multiset{x}
    ensures InRange(|scores|, r)
  {
    if idx == [] || Before(scores, x, idx[0]) then [x] + idx
    else
      assert idx == [idx[0]] + idx[1..];
      [idx[0]] + Insert(scores, x, idx[1..])
  }

  lemma {:induction false} InsertSorted(scores: seq<int>, x: nat, idx: seq<nat>)
    requires x < |scores| && InRange(|scores|, idx)
    requires SortedBy(scores, idx) && x !in idx
    ensures SortedBy(scores, Insert(scores, x, idx))
  {
    if idx != [] && !Before(scores, x, idx[0]) {
      var tail := idx[1..];
      InsertSorted(scores, x, tail);
      var r := Insert(scores, x, idx);
      var rt := Insert(scores, x, tail);
      assert r == [idx[0]] + rt;
      forall k | 0 < k < |r| ensures Before(scores, idx[0], r[k]) {
        assert r[k] in multiset(rt);
        if r[k] != x {
          SortedHead(scores, idx, r[k]);
        }
      }
    }
  }

  lemma SortedHead(scores: seq<int>, idx: seq<nat>, y: nat)
    requires InRange(|scores|, idx) && SortedBy(scores, idx)
    requires idx != [] && y in idx[1..]
    ensures Before(scores, idx[0], y)
  {
    var j :| 0 <= j < |idx[1..]| && idx[1..][j] == y;
    assert idx[j + 1] == y;
  }

  function SortDesc(scores: seq<int>, idx: seq<nat>): (r: seq<nat>)
    requires InRange(|scores|, idx)
    ensures multiset(r) == multiset(idx)
    ensures InRange(|scores|, r)
  {
    if idx == [] then []
    else
      assert idx == [idx[0]] + idx[1..];
      Insert(scores, idx[0], SortDesc(scores, idx[1..]))
  }

  lemma {:induction false} SortDescSorted(scores: seq<int>, idx: seq<nat>)
    requires InRange(|scores|, idx) && Distinct(idx)
    ensures SortedBy(scores, SortDesc(scores, idx))
  {
    if idx != [] {
      SortDescSorted(scores, idx[1..]);
      assert idx[0] !in multiset(idx[1..]);
      InsertSorted(scores, idx[0], SortDesc(scores, idx[1..]));
    }
  }

  function Range(n: nat): (r: seq<nat>)
    ensures |r| == n && forall i :: 0 <= i < n ==> r[i] == i
  {
    seq(n, i requires 0 <= i => i)
  }

  /** The positions 0..|scores|-1 in ranked order. */
  function Ranking(scores: seq<int>): (r: seq<nat>)
    ensures InRange(|scores|, r)
  {
    SortDesc(scores, Range(|scores|))
  }

  /** Ranking is a permutation of the positions, sorted by descending score,
      with equal scores in their original order. */
  lemma RankingIsStableSort(scores: seq<int>)
    ensures |Ranking(scores)| == |scores| && Distinct(Ranking(scores))
    ensures forall i :: 0 <= i < |scores| ==> i in Ranking(scores)
    ensures SortedBy(scores, Ranking(scores))
  {
    var n := |scores|;
    var r := Ranking(scores);
    SortDescSorted(scores, Range(n));
    assert |r| == |multiset(r)| == |multiset(Range(n))| == n;
    forall i | 0 <= i < n ensures i in r {
      assert Range(n)[i] == i;
      assert i in multiset(Range(n));
    }
  }

  /** With all scores equal, the ranking keeps the input order. */
  lemma {:induction false} SortDescEqualScores(scores: seq<int>, idx: seq<nat>)
    requires InRange(|scores|, idx)
    requires forall j, k :: 0 <= j < k < |idx| ==> idx[j] < idx[k]
    requires forall a, b :: 0 <= a < |scores| && 0 <= b < |scores| ==> scores[a] == scores[b]
    ensures SortDesc(scores, idx) == idx
  {
    if idx != [] {
      SortDescEqualScores(scores, idx[1..]);
      assert idx == [idx[0]] + idx[1..];
    }
  }

  // ---------------------------------------------------------------------
  // rerank_chunks

  /** The candidate filter: non-empty and not all whitespace. */
  predicate NonBlank(c: String) {
    c != [] && Strip(c) != []
  }

  /** A filtering list comprehension: f of every element that passes keep, in order. */
  function FilterMap<T, U>(keep: T -> bool, f: T -> U, xs: seq<T>): (r: seq<U>)
    ensures |r| <= |xs|
  {
    if xs == [] then []
    else (if keep(xs[0]) then [f(xs[0])] else []) + FilterMap(keep, f, xs[1..])
  }

  /** The comprehension is empty exactly when no element passes the filter. */
  lemma {:induction false} FilterMapEmpty<T, U>(keep: T -> bool, f: T -> U, xs: seq<T>)
    ensures FilterMap(keep, f, xs) == [] <==> forall x :: x in xs ==> !keep(x)
  {
    if xs != [] {
      FilterMapEmpty(keep, f, xs[1..]);
      assert forall x :: x in xs <==> x == xs[0] || x in xs[1..];
    }
  }

  /** Every element of the comprehension is f of an element that passes. */
  lemma {:induction false} FilterMapFrom<T, U>(keep: T -> bool, f: T -> U, xs: seq<T>, k: nat)
    requires k < |FilterMap(keep, f, xs)|
    ensures exists x :: x in xs && keep(x) && FilterMap(keep, f, xs)[k] == f(x)
    decreases |xs|
  {
    var x0, tail := xs[0], xs[1..];
    var head := if keep(x0) then [f(x0)] else [];
    var rest := FilterMap(keep, f, tail);
    assert FilterMap(keep, f, xs) == head + rest;
    ConcatIndex(head, rest, k);
    if k < |head| {
      assert x0 in xs;
    } else {
      FilterMapFrom(keep, f, tail, k - |head|);
      var x :| x in tail && keep(x) && rest[k - |head|] == f(x);
      assert x in xs;
    }
  }

  /** One element: it is kept, as f of itself, exactly when it passes. */
  lemma FilterMapSingle<T, U>(keep: T -> bool, f: T -> U, x: T)
    ensures FilterMap(keep, f, [x]) == if keep(x) then [f(x)] else []
  {
    assert [x][1..] == [];
  }

  /** The comprehension of a + b is that of a followed by that of b. */
  lemma {:induction false} FilterMapAppend<T, U>(keep: T -> bool, f: T -> U, a: seq<T>, b: seq<T>)
    ensures FilterMap(keep, f, a + b) == FilterMap(keep, f, a) + FilterMap(keep, f, b)
  {
    if a == [] {
      assert a + b == b;
    } else {
      assert (a + b)[0] == a[0] && (a + b)[1..] == a[1..] + b;
      FilterMapAppend(keep, f, a[1..], b);
      var head := if keep(a[0]) then [f(a[0])] else [];
      ConcatAssoc(head, FilterMap(keep, f, a[1..]), FilterMap(keep, f, b));
    }
  }

  /** The candidates that are neither empty nor all whitespace, each with its
      whitespace normalised, in input order. */
  function Cleaned(candidates: seq<String>): (r: seq<String>)
    ensures |r| <= |candidates|
  {
    FilterMap(NonBlank, NormalizeWs, candidates)
  }

  /** The cleaned list is empty exactly when every candidate is blank. */
  lemma CleanedEmpty(candidates: seq<String>)
    ensures Cleaned(candidates) == [] <==> forall c :: c in candidates ==> !NonBlank(c)
  {
    FilterMapEmpty(NonBlank, NormalizeWs, candidates);
  }

  /** Each cleaned entry is the normalisation of a non-blank candidate. */
  lemma CleanedFrom(candidates: seq<String>, k: nat)
    requires k < |Cleaned(candidates)|
    ensures exists c :: c in candidates && NonBlank(c) && Cleaned(candidates)[k] == NormalizeWs(c)
  {
    FilterMapFrom(NonBlank, NormalizeWs, candidates, k);
  }

  /** One candidate is kept, normalised, exactly when it is not blank. */
  lemma CleanedSingle(c: String)
    ensures Cleaned([c]) == if NonBlank(c) then [NormalizeWs(c)] else []
  {
    FilterMapSingle(NonBlank, NormalizeWs, c);
  }

  /** Cleaning goes candidate by candidate: it keeps the input order. */
  lemma CleanedAppend(a: seq<String>, b: seq<String>)
    ensures Cleaned(a + b) == Cleaned(a) + Cleaned(b)
  {
    FilterMapAppend(NonBlank, NormalizeWs, a, b);
  }

  /** Every non-blank candidate reaches the cleaned list, normalised. */
  lemma CleanedKeeps(candidates: seq<String>, c: String)
    requires c in candidates && NonBlank(c)
    ensures NormalizeWs(c) in Cleaned(candidates)
  {
    var i :| 0 <= i < |candidates| && candidates[i] == c;
    var pre, post := candidates[..i], candidates[i + 1..];
    assert candidates == pre + ([c] + post);
    CleanedAppend(pre, [c] + post);
    CleanedAppend([c], post);
    CleanedSingle(c);
    assert Cleaned([c] + post)[0] == NormalizeWs(c);
  }

  /** The (question, passage) pairs of the cleaned passages, in order. */
  function Pairs(question: String, cleaned: seq<String>): (r: seq<(String, String)>)
    ensures |r| == |cleaned|
    ensures forall i :: 0 <= i < |r| ==> r[i].0 == question && r[i].1 == cleaned[i]
  {
    seq(|cleaned|, i requires 0 <= i < |cleaned| => (question, cleaned[i]))
  }

  /** The scores the cross-encoder gives a batch of pairs, one per pair. */
  function ScoreAll(score: (String, String) -> int, batch: seq<(String, String)>): (s: seq<int>)
    ensures |s| == |batch|
    ensures forall i :: 0 <= i < |batch| ==> s[i] == score(batch[i].0, batch[i].1)
  {
    seq(|batch|, i requires 0 <= i < |batch| => score(batch[i].0, batch[i].1))
  }

  /** xs[:m] with Python's slice semantics: a negative m counts from the end. */
  function PyTake<T>(xs: seq<T>, m: int): (r: seq<T>)
    ensures |r| <= |xs| && r == xs[..|r|]
    ensures m >= 0 ==> |r| == if m <= |xs| then m else |xs|
    ensures m < 0 ==> |r| == if |xs| + m > 0 then |xs| + m else 0
  {
    if m >= 0 then (if m <= |xs| then xs[..m] else xs)
    else if |xs| + m > 0 then xs[..|xs| + m]
    else []
  }

  /** The passages at the ranked positions, scores dropped. */
  function Select(cleaned: seq<String>, ranked: seq<nat>): (r: seq<String>)
    requires InRange(|cleaned|, ranked)
    ensures |r| == |ranked|
    ensures forall p :: 0 <= p < |ranked| ==> r[p] == cleaned[ranked[p]]
  {
    seq(|ranked|, p requires 0 <= p < |ranked| => cleaned[ranked[p]])
  }

  /** The batches of (question, passage) pairs handed to the scorer. */
  function ScorerCalls(question: String, candidates: seq<String>): (r: seq<seq<(String, String)>>)
    ensures |r| <= 1
    ensures r == [] <==> Cleaned(candidates) == []
    ensures forall b: seq<(String, String)> :: b in r ==>
              |b| == |Cleaned(candidates)| &&
              forall i :: 0 <= i < |b| ==> b[i].0 == question && b[i].1 == Cleaned(candidates)[i]
  {
    var cleaned := Cleaned(candidates);
    if cleaned == [] then [] else [Pairs(question, cleaned)]
  }

  /** The positions that survive the top-m cut of the ranking by the scores. */
  function TopPositions(scores: seq<int>, m: int): (r: seq<nat>)
    ensures InRange(|scores|, r)
  {
    PyTake(Ranking(scores), m)
  }

  /** rerank_chunks: nothing when every candidate is blank; otherwise the
      scores of the one scorer batch rank the cleaned candidates, and the
      top m of them are deduplicated. */
  function Rerank(question: String, candidates: seq<String>, score: (String, String) -> int, m: int): (r: seq<String>)
    ensures forall k :: 0 <= k < |r| ==> r[k] in Cleaned(candidates)
  {
    var cleaned := Cleaned(candidates);
    var calls := ScorerCalls(question, candidates);
    if calls == [] then []
    else
      assert calls[0] in calls;
      Dedupe(Select(cleaned, TopPositions(ScoreAll(score, calls[0]), m)))
  }

  /** Rerank in terms of the cleaned list and its scores. */
  lemma RerankUnfold(question: String, candidates: seq<String>, score: (String, String) -> int, m: int)
    ensures var cleaned := Cleaned(candidates);
            Rerank(question, candidates, score, m) ==
              if cleaned == [] then []
              else Dedupe(Select(cleaned, TopPositions(ScoreAll(score, Pairs(question, cleaned)), m)))
  {
  }

  /** With no non-blank candidate the scorer is never called and nothing is
      returned; with m > 0 nothing is returned only in that case. */
  lemma RerankAllBlank(question: String, candidates: seq<String>, score: (String, String) -> int, m: int)
    ensures ScorerCalls(question, candidates) == [] <==> forall c :: c in candidates ==> !NonBlank(c)
    ensures (forall c :: c in candidates ==> !NonBlank(c)) ==> Rerank(question, candidates, score, m) == []
    ensures m > 0 ==> (Rerank(question, candidates, score, m) == [] <==>
                       forall c :: c in candidates ==> !NonBlank(c))
  {
    RerankUnfold(question, candidates, score, m);
    CleanedEmpty(candidates);
    var cleaned := Cleaned(candidates);
    if cleaned != [] && m > 0 {
      var top := TopPositions(ScoreAll(score, Pairs(question, cleaned)), m);
      RankingIsStableSort(ScoreAll(score, Pairs(question, cleaned)));
      assert |top| > 0;
      var sel := Select(cleaned, top);
      assert sel[0] in Dedupe(sel);
    }
  }

  /** At most m passages (for m >= 0), at most one per non-blank candidate,
      no duplicates, each the normalisation of a non-blank candidate. */
  lemma RerankBounds(question: String, candidates: seq<String>, score: (String, String) -> int, m: int)
    ensures |Rerank(question, candidates, score, m)| <= |Cleaned(candidates)|
    ensures m >= 0 ==> |Rerank(question, candidates, score, m)| <= m
    ensures Distinct(Rerank(question, candidates, score, m))
    ensures forall x :: x in Rerank(question, candidates, score, m) ==>
              exists c :: c in candidates && NonBlank(c) && x == NormalizeWs(c)
  {
    RerankUnfold(question, candidates, score, m);
    var cleaned := Cleaned(candidates);
    if cleaned != [] {
      var sc := ScoreAll(score, Pairs(question, cleaned));
      RankingIsStableSort(sc);
      var top := TopPositions(ScoreAll(score, Pairs(question, cleaned)), m);
      var sel := Select(cleaned, top);
      assert |top| <= |cleaned|;
      forall x | x in Dedupe(sel)
        ensures exists c :: c in candidates && NonBlank(c) && x == NormalizeWs(c)
      {
        var p :| 0 <= p < |sel| && sel[p] == x;
        CleanedFrom(candidates, top[p]);
      }
    }
  }

  /** Every passage is whitespace-normalised and non-empty. */
  lemma RerankNormalized(question: String, candidates: seq<String>, score: (String, String) -> int, m: int)
    ensures forall x :: x in Rerank(question, candidates, score, m) ==> Normalized(x) && x != []
  {
    RerankBounds(question, candidates, score, m);
    forall x | x in Rerank(question, candidates, score, m) ensures Normalized(x) && x != [] {
      var c :| c in candidates && NonBlank(c) && x == NormalizeWs(c);
      NormalizeWsProperties(c);
    }
  }

  /** Within the ranked positions, the first position holding a string is the
      string's first position in the cleaned list. */
  lemma FirstRankedIsFirst(scores: seq<int>, cleaned: seq<String>, score: (String, String) -> int,
                           question: String, m: int, sel: seq<String>, p: nat)
    requires scores == ScoreAll(score, Pairs(question, cleaned))
    requires sel == Select(cleaned, TopPositions(ScoreAll(score, Pairs(question, cleaned)), m))
    requires p < |sel| && sel[p] !in sel[..p]
    ensures FirstIndex(cleaned, sel[p]) == Ranking(scores)[p]
  {
    var r := Ranking(scores);
    RankingIsStableSort(scores);
    var x, a := sel[p], r[p];
    var a0 := FirstIndex(cleaned, x);
    assert a0 in r;
    var p0 :| 0 <= p0 < |r| && r[p0] == a0;
    assert forall q :: 0 <= q < p ==> sel[..p][q] == sel[q];
    assert forall q :: p < q < |r| ==> Before(scores, a, r[q]);
    assert scores[a0] == scores[a];
    assert a0 == a;
  }

  /** The passages come in non-increasing score order; passages with equal
      scores keep the order in which they first appear among the cleaned
      candidates. */
  lemma RerankOrder(question: String, candidates: seq<String>, score: (String, String) -> int, m: int)
    ensures forall j, k :: 0 <= j < k < |Rerank(question, candidates, score, m)| ==>
              var r := Rerank(question, candidates, score, m);
              score(question, r[j]) > score(question, r[k]) ||
              (score(question, r[j]) == score(question, r[k]) &&
               FirstIndex(Cleaned(candidates), r[j]) < FirstIndex(Cleaned(candidates), r[k]))
  {
    RerankUnfold(question, candidates, score, m);
    var cleaned := Cleaned(candidates);
    if cleaned != [] {
      var sc := ScoreAll(score, Pairs(question, cleaned));
      var ranking := Ranking(sc);
      RankingIsStableSort(sc);
      var sel := Select(cleaned, TopPositions(ScoreAll(score, Pairs(question, cleaned)), m));
      var r := Dedupe(sel);
      DedupeFirstOccurrenceOrder(sel);
      forall j, k | 0 <= j < k < |r|
        ensures score(question, r[j]) > score(question, r[k]) ||
                (score(question, r[j]) == score(question, r[k]) &&
                 FirstIndex(cleaned, r[j]) < FirstIndex(cleaned, r[k]))
      {
        var p, q := FirstIndex(sel, r[j]), FirstIndex(sel, r[k]);
        assert p < q;
        SelectedInOrder(question, cleaned, score, m, sel, p, q);
      }
    }
  }

  /** Two first occurrences among the selected passages are in score order,
      ties broken by first position in the cleaned list. */
  lemma SelectedInOrder(question: String, cleaned: seq<String>, score: (String, String) -> int, m: int,
                        sel: seq<String>, p: nat, q: nat)
    requires sel == Select(cleaned, TopPositions(ScoreAll(score, Pairs(question, cleaned)), m))
    requires p < q < |sel| && sel[p] !in sel[..p] && sel[q] !in sel[..q]
    ensures score(question, sel[p]) > score(question, sel[q]) ||
            (score(question, sel[p]) == score(question, sel[q]) &&
             FirstIndex(cleaned, sel[p]) < FirstIndex(cleaned, sel[q]))
  {
    var sc := ScoreAll(score, Pairs(question, cleaned));
    var ranking := Ranking(sc);
    RankingIsStableSort(sc);
    FirstRankedIsFirst(sc, cleaned, score, question, m, sel, p);
    FirstRankedIsFirst(sc, cleaned, score, question, m, sel, q);
    ScoreAt(score, question, cleaned, ranking[p]);
    ScoreAt(score, question, cleaned, ranking[q]);
    assert Before(sc, ranking[p], ranking[q]);
  }

  /** No position holding a value comes before the value's first position. */
  lemma FirstIndexLeast<T>(s: seq<T>, i: nat)
    requires i < |s|
    ensures FirstIndex(s, s[i]) <= i
  {
  }

  /** In a sorted ranking, a position that does not go before position a
      and differs from it is ranked after it. */
  lemma RankedAfter(scores: seq<int>, ranking: seq<nat>, p: nat, p0: nat)
    requires InRange(|scores|, ranking) && SortedBy(scores, ranking)
    requires p < |ranking| && p0 < |ranking| && ranking[p] != ranking[p0]
    requires !Before(scores, ranking[p0], ranking[p])
    ensures p < p0
  {
  }

  /** A position that the cut keeps pulls in every position that goes
      before it. */
  lemma TopKeepsBefore(scores: seq<int>, m: int, p: nat, a0: nat)
    requires p < |TopPositions(scores, m)| && a0 < |scores|
    requires a0 != TopPositions(scores, m)[p] && !Before(scores, TopPositions(scores, m)[p], a0)
    ensures a0 in TopPositions(scores, m)
  {
    var ranking := Ranking(scores);
    RankingIsStableSort(scores);
    var top := TopPositions(scores, m);
    assert top == ranking[..|top|];
    assert a0 in ranking;
    var p0 :| 0 <= p0 < |ranking| && ranking[p0] == a0;
    RankedAfter(scores, ranking, p0, p);
    assert top[p0] == a0;
  }

  /** The score of the i-th cleaned passage. */
  lemma ScoreAt(score: (String, String) -> int, question: String, cleaned: seq<String>, i: nat)
    requires i < |cleaned|
    ensures ScoreAll(score, Pairs(question, cleaned))[i] == score(question, cleaned[i])
  {
  }

  /** The cut keeps the best: a cleaned candidate that scores higher than a
      returned passage, or scores the same and comes first, is returned too. */
  lemma RerankTop(question: String, candidates: seq<String>, score: (String, String) -> int, m: int,
                  x: String, c: String)
    requires x in Rerank(question, candidates, score, m) && c in Cleaned(candidates)
    requires score(question, c) > score(question, x) ||
             (score(question, c) == score(question, x) &&
              FirstIndex(Cleaned(candidates), c) < FirstIndex(Cleaned(candidates), x))
    ensures c in Rerank(question, candidates, score, m)
  {
    RerankUnfold(question, candidates, score, m);
    var cleaned := Cleaned(candidates);
    var sc := ScoreAll(score, Pairs(question, cleaned));
    var top := TopPositions(sc, m);
    var sel := Select(cleaned, top);
    var r := Dedupe(sel);
    assert Rerank(question, candidates, score, m) == r;
    var k :| 0 <= k < |r| && r[k] == x;
    var p :| 0 <= p < |sel| && sel[p] == x;
    var a := top[p];
    FirstIndexLeast(cleaned, a);
    var a0 := FirstIndex(cleaned, c);
    ScoreAt(score, question, cleaned, a0);
    ScoreAt(score, question, cleaned, a);
    assert a0 != a && !Before(sc, a, a0);
    TopKeepsBefore(sc, m, p, a0);
    var p0 :| 0 <= p0 < |top| && top[p0] == a0;
    assert sel[p0] == c;
  }

  /** The cut keeps all of the top m: the candidate at each of the first m
      ranked positions is returned. */
  lemma RerankKeepsTop(question: String, candidates: seq<String>, score: (String, String) -> int, m: int, p: nat)
    requires p < |Cleaned(candidates)| && p < m
    ensures var ranking := Ranking(ScoreAll(score, Pairs(question, Cleaned(candidates))));
            p < |ranking| && Cleaned(candidates)[ranking[p]] in Rerank(question, candidates, score, m)
  {
    RerankUnfold(question, candidates, score, m);
    var cleaned := Cleaned(candidates);
    var sc := ScoreAll(score, Pairs(question, cleaned));
    RankingIsStableSort(sc);
    var top := TopPositions(sc, m);
    assert |top| > p && top[p] == Ranking(sc)[p];
    var sel := Select(cleaned, top);
    assert sel[p] in Dedupe(sel);
  }

  /** Only the top m compete: every returned passage is the cleaned
      candidate at one of the first m ranked positions, so duplicates among
      those positions use up slots. */
  lemma RerankWithinTop(question: String, candidates: seq<String>, score: (String, String) -> int, m: int,
                        x: String)
    requires x in Rerank(question, candidates, score, m)
    ensures var cleaned := Cleaned(candidates);
            var top := TopPositions(ScoreAll(score, Pairs(question, cleaned)), m);
            InRange(|cleaned|, top) && exists p :: 0 <= p < |top| && cleaned[top[p]] == x
  {
    RerankUnfold(question, candidates, score, m);
    var cleaned := Cleaned(candidates);
    var top := TopPositions(ScoreAll(score, Pairs(question, cleaned)), m);
    var sel := Select(cleaned, top);
    assert x in sel;
    var p :| 0 <= p < |sel| && sel[p] == x;
    assert cleaned[top[p]] == x;
  }

  lemma {:induction false} DedupeConstant(s: seq<String>, x: String)
    requires s != [] && forall k :: 0 <= k < |s| ==> s[k] == x
    ensures Dedupe(s) == [x]
  {
    var p := s[..|s| - 1];
    if p != [] {
      DedupeConstant(p, x);
    }
  }

  /** Candidates that differ only in whitespace collapse to one passage. */
  lemma RerankWhitespaceVariants(question: String, candidates: seq<String>, score: (String, String) -> int,
                                 m: int, x: String)
    requires m > 0 && exists c :: c in candidates && NonBlank(c)
    requires forall c :: c in candidates && NonBlank(c) ==> NormalizeWs(c) == x
    ensures Rerank(question, candidates, score, m) == [x]
  {
    RerankUnfold(question, candidates, score, m);
    var cleaned := Cleaned(candidates);
    CleanedEmpty(candidates);
    var top := TopPositions(ScoreAll(score, Pairs(question, cleaned)), m);
    RankingIsStableSort(ScoreAll(score, Pairs(question, cleaned)));
    var sel := Select(cleaned, top);
    forall k | 0 <= k < |sel| ensures sel[k] == x {
      CleanedFrom(candidates, top[k]);
    }
    DedupeConstant(sel, x);
  }

  /** When every passage scores the same, the ranking keeps the input order,
      so the result is the deduplicated first m cleaned candidates:
      duplicates among those m use up slots, and fewer than m passages can
      come back although more distinct ones exist. */
  lemma RerankEqualScores(question: String, candidates: seq<String>, score: (String, String) -> int, m: int)
    requires forall a, b :: a in Cleaned(candidates) && b in Cleaned(candidates) ==>
               score(question, a) == score(question, b)
    ensures Rerank(question, candidates, score, m) == Dedupe(PyTake(Cleaned(candidates), m))
  {
    RerankUnfold(question, candidates, score, m);
    var cleaned := Cleaned(candidates);
    if cleaned != [] {
      EqualScoresRanking(score, question, cleaned);
      SelectRangeTake(cleaned, m);
    }
  }

  /** With equal scores the ranking is the identity. */
  lemma EqualScoresRanking(score: (String, String) -> int, question: String, cleaned: seq<String>)
    requires forall a, b :: a in cleaned && b in cleaned ==> score(question, a) == score(question, b)
    ensures Ranking(ScoreAll(score, Pairs(question, cleaned))) == Range(|cleaned|)
  {
    var sc := ScoreAll(score, Pairs(question, cleaned));
    forall a, b | 0 <= a < |sc| && 0 <= b < |sc| ensures sc[a] == sc[b] {
      assert cleaned[a] in cleaned && cleaned[b] in cleaned;
      ScoreAt(score, question, cleaned, a);
      ScoreAt(score, question, cleaned, b);
    }
    SortDescEqualScores(sc, Range(|sc|));
  }

  /** Selecting the first m positions is taking the first m entries. */
  lemma SelectRangeTake(cleaned: seq<String>, m: int)
    ensures InRange(|cleaned|, PyTake(Range(|cleaned|), m))
    ensures Select(cleaned, PyTake(Range(|cleaned|), m)) == PyTake(cleaned, m)
  {
  }

  // ---------------------------------------------------------------------
  // _build_qa_prompts and the context join of answer_question

  /** The fixed system instruction, character for character as the source
      file has it (its apostrophe is stored as the three characters
      U+201A U+00C4 U+00F4). */
  const SystemPrompt: String :=
    "You are a knowledgeable assistant that answers questions based on the provided context. "
    + "If the answer is not in the context, say you don\U{201A}\U{00C4}\U{00F4}t know."

  const ContextHeader: String := "Context:\n"

  function QuestionTail(question: String): String {
    "\n\nQuestion: " + question + "\n\nAnswer:"
  }

  /** The system prompt is the constant; the user prompt is the header, the
      context and the question block, so the context can be read back. */
  function BuildQaPrompts(question: String, context: String): (r: (String, String))
    ensures r.0 == SystemPrompt
    ensures |r.1| == |ContextHeader| + |context| + |QuestionTail(question)|
    ensures r.1[..|ContextHeader|] == ContextHeader
    ensures r.1[|ContextHeader|..|ContextHeader| + |context|] == context
    ensures r.1[|ContextHeader| + |context|..] == QuestionTail(question)
  {
    (SystemPrompt, ContextHeader + context + QuestionTail(question))
  }

  /** answer_question up to the call of the text generator. */
  function AnswerPrompts(question: String, chunks: seq<String>, hits: seq<int>,
                         score: (String, String) -> int): (r: (String, String))
    ensures r.0 == SystemPrompt
    ensures |ContextHeader| <= |r.1| && r.1[..|ContextHeader|] == ContextHeader
  {
    var passages := Rerank(question, Retrieve(chunks, hits), score, TopM);
    BuildQaPrompts(question, Join("\n\n", passages))
  }

  /** The generator receives at most TopM passages, each recoverable from the
      context block by splitting it at blank lines; with no passages the
      context is empty. */
  lemma AnswerPromptsCarryPassages(question: String, chunks: seq<String>, hits: seq<int>,
                                   score: (String, String) -> int)
    ensures var passages := Rerank(question, Retrieve(chunks, hits), score, TopM);
            var context := Join("\n\n", passages);
            |passages| <= TopM &&
            AnswerPrompts(question, chunks, hits, score) ==
              (SystemPrompt, ContextHeader + context + QuestionTail(question)) &&
            (passages == [] ==> context == []) &&
            (passages != [] ==> SplitParagraphs(context) == passages)
  {
    var passages := Rerank(question, Retrieve(chunks, hits), score, TopM);
    RerankBounds(question, Retrieve(chunks, hits), score, TopM);
    RerankNormalized(question, Retrieve(chunks, hits), score, TopM);
    forall k | 0 <= k < |passages| ensures '\n' !in passages[k] {
      assert passages[k] in passages;
      NormalizedHasNoNewline(passages[k]);
    }
    if passages != [] {
      SplitJoinParagraphs(passages);
    }
  }
}
