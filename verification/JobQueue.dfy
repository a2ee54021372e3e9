/** The queue as the source writes it: keys updated in place by commands, pipelines and Lua loops
    (services/queue.py). Every method is proved against RedisQueue, Scores or Reordering. */
module JobQueue {
  import opened RedisQueue
  import Scores
  import Reordering

  class JobQueue {
    var queue: map<JobId, int>
    var leases: map<JobId, int>
    var owner: map<JobId, Worker>
    var jobModel: map<JobId, Model>
    var running: map<Model, set<JobId>>

    ghost function View(): Redis
      reads this
    {
      Redis(queue, leases, owner, jobModel, running)
    }

    constructor ()
      ensures View() == Redis(map[], map[], map[], map[], map[])
    {
      queue, leases, owner, jobModel, running := map[], map[], map[], map[], map[];
    }

    method Enqueue(j: JobId, priority: nat, pinned: bool, ts: int)
      modifies this`queue
      ensures queue == old(queue)[j := Scores.ScoreOf(Scores.Placement(priority, pinned, ts))]
    {
      queue := queue[j := Scores.Score(priority, pinned, ts)];
    }

    /** `ZADD XX`: a job that is not queued is not added. */
    method Rescore(j: JobId, priority: nat, pinned: bool, ts: int) returns (present: bool)
      modifies this`queue
      ensures queue.Keys == old(queue).Keys && present == (j in queue)
      ensures forall k | k in queue ::
        queue[k] == if k == j then Scores.ScoreOf(Scores.Placement(priority, pinned, ts)) else old(queue)[k]
    {
      if j !in queue {
        return false;
      }
      queue := queue[j := Scores.Score(priority, pinned, ts)];
      return true;
    }

    /** The claim script: count the leased members of the running set, dropping the others on the
        way; then, if there is room, move the job from the queue to a lease. */
    method ClaimJob(j: JobId, w: Worker, until: int, model: Model, limit: nat) returns (result: ClaimResult)
      modifies this
      ensures View() == Claim(old(View()), j, w, until, model, limit)
      ensures result == ResultOfClaim(old(View()), j, model, limit)
    {
      if j !in queue {
        return ClaimGone;
      }
      if limit > 0 {
        ghost var before := View();
        var members := if model in running then running[model] else {};
        var kept: set<JobId> := {};
        var count := 0;
        while members != {}
          invariant members <= RunningOn(before, model) && kept !! members
          invariant kept == set k | k in RunningOn(before, model) - members && k in leases
          invariant count == |kept|
          decreases members
        {
          var member :| member in members;
          if member in leases {
            kept := kept + {member};
            count := count + 1;
          }
          members := members - {member};
        }
        assert kept == Leased(before, model);
        running := running[model := kept];
        if count >= limit {
          return ClaimBlocked;
        }
      }
      queue := queue - {j};
      leases := leases[j := until];
      owner := owner[j := w];
      if model != "" {
        running := running[model := (if model in running then running[model] else {}) + {j}];
        jobModel := jobModel[j := model];
      }
      return ClaimOk;
    }

    method DropJob(j: JobId, dequeue: bool)
      modifies this
      ensures View() == Drop(old(View()), j, dequeue)
    {
      var model := if j in jobModel then jobModel[j] else "";
      if dequeue {
        queue := queue - {j};
      }
      leases := leases - {j};
      owner := owner - {j};
      jobModel := jobModel - {j};
      if model != "" {
        running := running[model := (if model in running then running[model] else {}) - {j}];
      }
    }

    method RenewLease(j: JobId, until: int)
      modifies this`leases
      ensures View() == Renew(old(View()), j, until)
    {
      leases := leases[j := until];
    }

    /** `ZRANGEBYSCORE leases -inf now`, by repeated selection of the earliest expiry. */
    method ExpiredLeases(now: int) returns (expired: seq<JobId>)
      ensures ListsExpired(View(), now, expired)
    {
      expired := [];
      var rest := set j | j in leases && leases[j] <= now;
      while rest != {}
        invariant rest <= leases.Keys
        invariant forall j :: j in expired || j in rest <==> j in leases && leases[j] <= now
        invariant forall j <- expired :: j !in rest
        invariant forall a, b | 0 <= a < b < |expired| :: expired[a] != expired[b]
        invariant forall a, b | 0 <= a < b < |expired| :: leases[expired[a]] <= leases[expired[b]]
        invariant forall j <- expired, k <- rest :: leases[j] <= leases[k]
        decreases rest
      {
        var j := Earliest(leases, rest);
        expired := expired + [j];
        rest := rest - {j};
      }
    }

    /** `_REAP_LUA`: returns the jobs put back. */
    method ReapExpired(now: int) returns (expired: seq<JobId>)
      modifies this
      ensures ListsExpired(old(View()), now, expired)
      ensures View() == Reap(old(View()), expired, Scores.Score(0, false, now))
    {
      ghost var before := View();
      var score := Scores.Score(0, false, now);
      expired := ExpiredLeases(now);
      for i := 0 to |expired|
        invariant View() == Reap(before, expired[..i], score)
      {
        var j := expired[i];
        leases := leases - {j};
        owner := owner - {j};
        queue := queue[j := score + i + 1];
        assert expired[..i + 1][..i] == expired[..i];
      }
      assert expired[..|expired|] == expired;
    }

    /** `_REORDER_LUA`: read all the scores first; write only if every job is still queued. */
    method Reorder(ids: seq<JobId>) returns (result: Reordering.Result)
      modifies this`queue
      ensures result == Reordering.Reorder(old(queue), ids)
      ensures queue == if result.Reordered? then result.queue else old(queue)
    {
      ghost var before := queue;
      var entries: seq<int> := [];
      for i := 0 to |ids|
        invariant |entries| == i
        invariant forall k | 0 <= k < i :: ids[k] in queue && entries[k] == queue[ids[k]]
      {
        if ids[i] !in queue {
          assert Reordering.FirstMissing(queue, ids) == i;
          return Reordering.Missing(i);
        }
        entries := entries + [queue[ids[i]]];
      }
      assert Reordering.FirstMissing(queue, ids) == |ids|;
      assert entries == Reordering.Lookup(queue, ids);
      var scores := Reordering.Sorted(entries);
      for i := 0 to |ids|
        invariant queue == Reordering.Assign(before, ids[..i], scores[..i])
      {
        queue := queue[ids[i] := scores[i]];
        assert ids[..i + 1][..i] == ids[..i] && scores[..i + 1][..i] == scores[..i];
      }
      assert ids[..|ids|] == ids && scores[..|ids|] == scores;
      return Reordering.Reordered(queue, scores);
    }
  }

  method Earliest(leases: map<JobId, int>, rest: set<JobId>) returns (j: JobId)
    requires rest != {} && rest <= leases.Keys
    ensures j in rest && (forall k <- rest :: leases[j] <= leases[k])
  {
    j :| j in rest;
    var unseen := rest - {j};
    while unseen != {}
      invariant j in rest && j !in unseen && unseen <= rest
      invariant forall k <- rest - unseen :: leases[j] <= leases[k]
      decreases unseen
    {
      var k :| k in unseen;
      if leases[k] < leases[j] {
        j := k;
      }
      unseen := unseen - {k};
    }
  }
}
