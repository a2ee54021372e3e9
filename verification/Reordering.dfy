/** Rearranging queued jobs by swapping the scores they already have (services/queue.py:
    `_REORDER_LUA`), and what that does to ranks and priorities. */
module Reordering {
  import opened Scores

  type Queue = map<JobId, int>

  datatype Result = Reordered(queue: Queue, scores: seq<int>) | Missing(position: nat)

  /** `table.sort` on the scores: any ascending permutation, here by insertion. */
  function Insert(x: int, xs: seq<int>): (r: seq<int>)
    ensures |r| == |xs| + 1
  {
    if xs == [] then [x] else if x <= xs[0] then [x] + xs else [xs[0]] + Insert(x, xs[1..])
  }

  function Sorted(xs: seq<int>): (r: seq<int>)
    ensures |r| == |xs|
  {
    if xs == [] then [] else Insert(xs[0], Sorted(xs[1..]))
  }

  predicate Ascending(xs: seq<int>) {
    forall i, j | 0 <= i < j < |xs| :: xs[i] <= xs[j]
  }

  lemma {:induction false} InsertAdds(x: int, xs: seq<int>)
    ensures multiset(Insert(x, xs)) == multiset(xs) + multiset{x}
    decreases |xs|
  {
    if xs != [] {
      assert xs == [xs[0]] + xs[1..];
      if x > xs[0] {
        InsertAdds(x, xs[1..]);
      }
    }
  }

  lemma ConsAscending(h: int, r: seq<int>)
    requires Ascending(r) && (forall i | 0 <= i < |r| :: h <= r[i])
    ensures Ascending([h] + r)
  {
    forall i, j | 0 <= i < j < |r| + 1 ensures ([h] + r)[i] <= ([h] + r)[j] {
      assert ([h] + r)[j] == r[j - 1];
      assert i > 0 ==> ([h] + r)[i] == r[i - 1];
    }
  }

  lemma {:induction false} InsertAscending(x: int, xs: seq<int>)
    requires Ascending(xs)
    ensures Ascending(Insert(x, xs))
    decreases |xs|
  {
    if xs != [] && x > xs[0] {
      var r := Insert(x, xs[1..]);
      InsertAscending(x, xs[1..]);
      InsertAdds(x, xs[1..]);
      forall i | 0 <= i < |r| ensures xs[0] <= r[i] {
        assert r[i] in multiset(r);
      }
      ConsAscending(xs[0], r);
    } else {
      ConsAscending(x, xs);
    }
  }

  lemma {:induction false} SortedIsAscending(xs: seq<int>)
    ensures Ascending(Sorted(xs)) && multiset(Sorted(xs)) == multiset(xs)
    decreases |xs|
  {
    if xs != [] {
      SortedIsAscending(xs[1..]);
      InsertAscending(xs[0], Sorted(xs[1..]));
      InsertAdds(xs[0], Sorted(xs[1..]));
      assert xs == [xs[0]] + xs[1..];
    }
  }

  /** The first listed job that is not queued, if any. */
  function FirstMissing(q: Queue, ids: seq<JobId>): (n: nat)
    ensures n <= |ids|
    ensures forall i | 0 <= i < n :: ids[i] in q
    ensures n < |ids| ==> ids[n] !in q
  {
    if ids == [] || ids[0] !in q then 0 else 1 + FirstMissing(q, ids[1..])
  }

  function Lookup(q: Queue, ids: seq<JobId>): (scores: seq<int>)
    requires forall j <- ids :: j in q
    ensures |scores| == |ids| && (forall i | 0 <= i < |ids| :: scores[i] == q[ids[i]])
  {
    if ids == [] then [] else [q[ids[0]]] + Lookup(q, ids[1..])
  }

  /** The write loop: each listed job gets the score at its place in the list. */
  function Assign(q: Queue, ids: seq<JobId>, scores: seq<int>): Queue
    requires |ids| == |scores|
  {
    if ids == [] then q
    else
      var n := |ids| - 1;
      Assign(q, ids[..n], scores[..n])[ids[n] := scores[n]]
  }

  function Reorder(q: Queue, ids: seq<JobId>): Result {
    var n := FirstMissing(q, ids);
    if n < |ids| then Missing(n)
    else
      var scores := Sorted(Lookup(q, ids));
      Reordered(Assign(q, ids, scores), scores)
  }

  predicate Distinct(ids: seq<JobId>) {
    forall i, j | 0 <= i < j < |ids| :: ids[i] != ids[j]
  }

  lemma {:induction false} AssignEffect(q: Queue, ids: seq<JobId>, scores: seq<int>)
    requires |ids| == |scores| && Distinct(ids) && (forall j <- ids :: j in q)
    ensures var r := Assign(q, ids, scores);
            && r.Keys == q.Keys
            && (forall i | 0 <= i < |ids| :: r[ids[i]] == scores[i])
            && (forall k | k in q && k !in ids :: r[k] == q[k])
    decreases |ids|
  {
    if ids != [] {
      var n := |ids| - 1;
      assert forall j <- ids[..n] :: j in ids;
      AssignEffect(q, ids[..n], scores[..n]);
      assert ids == ids[..n] + [ids[n]];
    }
  }

  /** All or nothing: a listed job that is no longer queued leaves everything as it was; otherwise
      the listed jobs come out in the requested order, with the very scores they had between them. */
  lemma ReorderPermutesScores(q: Queue, ids: seq<JobId>)
    requires Distinct(ids)
    ensures Reorder(q, ids).Missing? <==> exists j <- ids :: j !in q
    ensures Reorder(q, ids).Missing? ==> Reorder(q, ids).position < |ids| && ids[Reorder(q, ids).position] !in q
    ensures Reorder(q, ids).Reordered? ==>
      var r := Reorder(q, ids).queue;
      && r.Keys == q.Keys && |Reorder(q, ids).scores| == |ids|
      && (forall k | k in q && k !in ids :: r[k] == q[k])
      && (forall i | 0 <= i < |ids| :: r[ids[i]] == Reorder(q, ids).scores[i])
      && Ascending(Reorder(q, ids).scores)
      && multiset(Lookup(r, ids)) == multiset(Lookup(q, ids))
  {
    var n := FirstMissing(q, ids);
    if n == |ids| {
      var scores := Sorted(Lookup(q, ids));
      SortedIsAscending(Lookup(q, ids));
      AssignEffect(q, ids, scores);
      var r := Assign(q, ids, scores);
      assert Lookup(r, ids) == scores;
    } else {
      assert ids[n] in ids;
    }
  }

  // ------------------------------------------------------------------ ranks

  predicate DistinctScores(q: Queue) {
    forall i, j | i in q && j in q && i != j :: q[i] != q[j]
  }

  /** How many scores in the queue are lower. With distinct scores, how many jobs are ahead. */
  function Rank(q: Queue, j: JobId): nat
    requires j in q
  {
    |set s | s in q.Values && s < q[j]|
  }

  lemma {:induction false} InjectiveImage(q: Queue, ks: set<JobId>)
    requires DistinctScores(q) && ks <= q.Keys
    ensures |set k | k in ks :: q[k]| == |ks|
    decreases |ks|
  {
    var image := set k | k in ks :: q[k];
    if ks == {} {
      assert image == {};
    } else {
      var x :| x in ks;
      var rest := ks - {x};
      InjectiveImage(q, rest);
      assert image == (set k | k in rest :: q[k]) + {q[x]};
    }
  }

  function Ahead(q: Queue, j: JobId): set<JobId>
    requires j in q
  {
    set k | k in q && q[k] < q[j]
  }

  lemma RankCountsJobsAhead(q: Queue, j: JobId)
    requires j in q && DistinctScores(q)
    ensures Rank(q, j) == |Ahead(q, j)|
  {
    InjectiveImage(q, Ahead(q, j));
    var image := set k | k in Ahead(q, j) :: q[k];
    var lower := set s | s in q.Values && s < q[j];
    forall s | s in lower ensures s in image {
      var k :| k in q && q[k] == s;
      assert k in Ahead(q, j);
    }
    forall s | s in image ensures s in lower {
      var k :| k in Ahead(q, j) && q[k] == s;
      assert k in q;
    }
    assert image == lower;
  }

  lemma MemberOfMultiset(a: seq<int>, b: seq<int>, i: nat) returns (j: nat)
    requires multiset(a) == multiset(b) && i < |a|
    ensures j < |b| && b[j] == a[i]
  {
    assert a[i] in multiset(b);
    j :| 0 <= j < |b| && b[j] == a[i];
  }

  lemma ValuesSurvive(q: Queue, r: Queue, ids: seq<JobId>, k: JobId)
    requires r.Keys == q.Keys && (forall j | j in q && j !in ids :: r[j] == q[j])
    requires (forall j <- ids :: j in q) && multiset(Lookup(q, ids)) == multiset(Lookup(r, ids))
    requires k in q
    ensures exists m :: m in r && r[m] == q[k]
  {
    if k in ids {
      var i :| 0 <= i < |ids| && ids[i] == k;
      var j := MemberOfMultiset(Lookup(q, ids), Lookup(r, ids), i);
      assert ids[j] in r && r[ids[j]] == q[k];
    } else {
      assert k in r && r[k] == q[k];
    }
  }

  lemma ValuesIncluded(q: Queue, r: Queue, ids: seq<JobId>)
    requires r.Keys == q.Keys && (forall j | j in q && j !in ids :: r[j] == q[j])
    requires (forall j <- ids :: j in q) && multiset(Lookup(q, ids)) == multiset(Lookup(r, ids))
    ensures q.Values <= r.Values
  {
    forall s | s in q.Values ensures s in r.Values {
      var k :| k in q && q[k] == s;
      ValuesSurvive(q, r, ids, k);
    }
  }

  lemma ReorderKeepsValues(q: Queue, ids: seq<JobId>)
    requires Distinct(ids) && Reorder(q, ids).Reordered?
    ensures Reorder(q, ids).queue.Values == q.Values
  {
    ReorderPermutesScores(q, ids);
    ValuesIncluded(q, Reorder(q, ids).queue, ids);
    ValuesIncluded(Reorder(q, ids).queue, q, ids);
  }

  lemma {:induction false} CountTwice(xs: seq<int>, i: nat, j: nat)
    requires i < j < |xs| && xs[i] == xs[j]
    ensures multiset(xs)[xs[i]] >= 2
  {
    assert xs == xs[..i] + [xs[i]] + xs[i + 1..j] + [xs[j]] + xs[j + 1..];
  }

  lemma {:induction false} CountOnce(q: Queue, ids: seq<JobId>, x: int)
    requires DistinctScores(q) && Distinct(ids) && (forall j <- ids :: j in q)
    ensures multiset(Lookup(q, ids))[x] <= 1
    decreases |ids|
  {
    if ids != [] {
      CountOnce(q, ids[1..], x);
      var rest := Lookup(q, ids[1..]);
      assert Lookup(q, ids) == [q[ids[0]]] + rest;
      if q[ids[0]] == x {
        forall i | 0 <= i < |rest| ensures rest[i] != x {
          assert ids[i + 1] in q && ids[i + 1] != ids[0];
        }
        assert x !in rest;
      }
    }
  }

  /** With distinct scores the requested order is reached strictly, and the priorities written back
      to the database never decrease along it. */
  lemma RequestedOrderIsReached(q: Queue, ids: seq<JobId>, a: nat, b: nat)
    requires Distinct(ids) && Reorder(q, ids).Reordered? && a < b < |ids|
    ensures ids[a] in Reorder(q, ids).queue && ids[b] in Reorder(q, ids).queue
    ensures PriorityOf(Reorder(q, ids).queue[ids[a]]) <= PriorityOf(Reorder(q, ids).queue[ids[b]])
    ensures DistinctScores(q) ==> Reorder(q, ids).queue[ids[a]] < Reorder(q, ids).queue[ids[b]]
  {
    ReorderPermutesScores(q, ids);
    var scores := Reorder(q, ids).scores;
    assert ids[a] in ids && ids[b] in ids;
    PriorityOfIsMonotone(scores[a], scores[b]);
    if DistinctScores(q) && scores[a] == scores[b] {
      SortedIsAscending(Lookup(q, ids));
      CountTwice(scores, a, b);
      CountOnce(q, ids, scores[a]);
      assert false;
    }
  }

  lemma ReorderKeepsDistinct(q: Queue, ids: seq<JobId>)
    requires Distinct(ids) && Reorder(q, ids).Reordered? && DistinctScores(q)
    ensures DistinctScores(Reorder(q, ids).queue)
  {
    ReorderPermutesScores(q, ids);
    var r := Reorder(q, ids).queue;
    forall i, j | i in r && j in r && i != j ensures r[i] != r[j] {
      if i in ids && j in ids {
        var a :| 0 <= a < |ids| && ids[a] == i;
        var b :| 0 <= b < |ids| && ids[b] == j;
        if a < b {
          RequestedOrderIsReached(q, ids, a, b);
        } else {
          RequestedOrderIsReached(q, ids, b, a);
        }
      } else if i in ids {
        ListedScoreIsNobodyElses(q, ids, i, j);
      } else if j in ids {
        ListedScoreIsNobodyElses(q, ids, j, i);
      }
    }
  }

  /** A listed job's new score was some listed job's, so no unlisted job's. */
  lemma ListedScoreIsNobodyElses(q: Queue, ids: seq<JobId>, i: JobId, j: JobId)
    requires Distinct(ids) && Reorder(q, ids).Reordered? && DistinctScores(q)
    requires i in ids && j in q && j !in ids
    ensures i in Reorder(q, ids).queue && j in Reorder(q, ids).queue
    ensures Reorder(q, ids).queue[i] != Reorder(q, ids).queue[j]
  {
    ReorderPermutesScores(q, ids);
    var r := Reorder(q, ids).queue;
    var a :| 0 <= a < |ids| && ids[a] == i;
    var b := MemberOfMultiset(Lookup(r, ids), Lookup(q, ids), a);
    assert ids[b] in ids && r[i] == q[ids[b]];
  }

  /** Ranks among scores, ties or not: unlisted jobs keep theirs, listed ones take over listed ones'. */
  lemma ScoreRanksMove(q: Queue, ids: seq<JobId>, k: JobId)
    requires Distinct(ids) && Reorder(q, ids).Reordered? && k in q
    ensures k in Reorder(q, ids).queue
    ensures k !in ids ==> Rank(Reorder(q, ids).queue, k) == Rank(q, k)
    ensures k in ids ==>
      exists j :: 0 <= j < |ids| && ids[j] in q && Rank(Reorder(q, ids).queue, k) == Rank(q, ids[j])
  {
    ReorderPermutesScores(q, ids);
    ReorderKeepsValues(q, ids);
    var r := Reorder(q, ids).queue;
    if k in ids {
      var i :| 0 <= i < |ids| && ids[i] == k;
      var j := MemberOfMultiset(Lookup(r, ids), Lookup(q, ids), i);
      assert Rank(r, k) == Rank(q, ids[j]);
    }
  }

  /** The places in the queue the listed jobs hold between them. */
  function Places(q: Queue, ids: seq<JobId>): set<nat>
    requires forall j <- ids :: j in q
  {
    set j | j in ids :: |Ahead(q, j)|
  }

  lemma PlacesIncluded(q: Queue, r: Queue, ids: seq<JobId>)
    requires r.Keys == q.Keys && q.Values == r.Values && DistinctScores(q) && DistinctScores(r)
    requires (forall j <- ids :: j in q) && multiset(Lookup(q, ids)) == multiset(Lookup(r, ids))
    ensures Places(q, ids) <= Places(r, ids)
  {
    forall p | p in Places(q, ids) ensures p in Places(r, ids) {
      var k :| k in ids && p == |Ahead(q, k)|;
      var i :| 0 <= i < |ids| && ids[i] == k;
      var j := MemberOfMultiset(Lookup(q, ids), Lookup(r, ids), i);
      assert ids[j] in ids && Rank(r, ids[j]) == Rank(q, k);
      RankCountsJobsAhead(q, k);
      RankCountsJobsAhead(r, ids[j]);
    }
  }

  /** With distinct scores, jobs that are not listed keep their place: as many jobs are ahead of them as
      before. And the listed ones share out exactly the places they had. */
  lemma UnlistedKeepTheirRank(q: Queue, ids: seq<JobId>, k: JobId)
    requires Distinct(ids) && Reorder(q, ids).Reordered? && DistinctScores(q) && k in q
    ensures var r := Reorder(q, ids).queue;
            && r.Keys == q.Keys && DistinctScores(r)
            && (k !in ids ==> |Ahead(r, k)| == |Ahead(q, k)|)
            && (forall j <- ids :: j in q)
            && Places(r, ids) == Places(q, ids)
  {
    var r := Reorder(q, ids).queue;
    ReorderPermutesScores(q, ids);
    ReorderKeepsValues(q, ids);
    ReorderKeepsDistinct(q, ids);
    ScoreRanksMove(q, ids, k);
    RankCountsJobsAhead(q, k);
    RankCountsJobsAhead(r, k);
    PlacesIncluded(q, r, ids);
    PlacesIncluded(r, q, ids);
  }
}
