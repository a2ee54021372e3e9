/** The queue's keys in Redis and what each atomic command or Lua script does to them
    (services/queue.py), as functions on values. The class in JobQueue.dfy is proved against them. */
module RedisQueue {
  type JobId = nat
  type Worker = nat
  type Model = string

  datatype Redis = Redis(
    queue: map<JobId, int>,
    leases: map<JobId, int>,
    owner: map<JobId, Worker>,
    jobModel: map<JobId, Model>,
    running: map<Model, set<JobId>>)

  datatype ClaimResult = ClaimOk | ClaimGone | ClaimBlocked

  function RunningOn(q: Redis, m: Model): set<JobId> {
    if m in q.running then q.running[m] else {}
  }

  /** The members of the model's running set that still hold a lease. */
  function Leased(q: Redis, m: Model): set<JobId> {
    set j | j in RunningOn(q, m) && j in q.leases
  }

  function ResultOfClaim(q: Redis, j: JobId, m: Model, limit: nat): ClaimResult {
    if j !in q.queue then ClaimGone
    else if limit > 0 && |Leased(q, m)| >= limit then ClaimBlocked
    else ClaimOk
  }

  /** The counting loop takes members without a lease out of the running set, win or lose. */
  function Pruned(q: Redis, m: Model): Redis {
    q.(running := q.running[m := Leased(q, m)])
  }

  function Taken(q: Redis, j: JobId, w: Worker, until: int, m: Model): Redis {
    q.(queue := q.queue - {j}, leases := q.leases[j := until], owner := q.owner[j := w],
       running := if m == "" then q.running else q.running[m := RunningOn(q, m) + {j}],
       jobModel := if m == "" then q.jobModel else q.jobModel[j := m])
  }

  /** `_CLAIM_JOB_LUA`. */
  function Claim(q: Redis, j: JobId, w: Worker, until: int, m: Model, limit: nat): Redis {
    if j !in q.queue then q
    else
      var p := if limit > 0 then Pruned(q, m) else q;
      if ResultOfClaim(q, j, m, limit).ClaimBlocked? then p else Taken(p, j, w, until, m)
  }

  /** `_drop`: lease, owner and the slot on the model it was claimed for. */
  function Drop(q: Redis, j: JobId, dequeue: bool): Redis {
    var m := if j in q.jobModel then q.jobModel[j] else "";
    q.(queue := if dequeue then q.queue - {j} else q.queue,
       leases := q.leases - {j}, owner := q.owner - {j}, jobModel := q.jobModel - {j},
       running := if m == "" then q.running else q.running[m := RunningOn(q, m) - {j}])
  }

  function Renew(q: Redis, j: JobId, until: int): Redis {
    q.(leases := q.leases[j := until])
  }

  /** What a claim answers: it succeeds for a queued job if there is no limit, or if fewer jobs than that
      run on the model under a lease. */
  lemma ClaimAnswer(q: Redis, j: JobId, m: Model, limit: nat)
    ensures var room := limit == 0 || |set k | k in RunningOn(q, m) && k in q.leases| < limit;
            ResultOfClaim(q, j, m, limit) == if j !in q.queue then ClaimGone else if room then ClaimOk else ClaimBlocked
  {
    assert Leased(q, m) == set k | k in RunningOn(q, m) && k in q.leases;
  }

  /** What a successful claim does: the job leaves the queue, is leased to the worker, and counts on its
      model. */
  lemma ClaimTakes(q: Redis, j: JobId, w: Worker, until: int, m: Model, limit: nat)
    requires ResultOfClaim(q, j, m, limit).ClaimOk?
    ensures var t := Claim(q, j, w, until, m, limit);
            && t.queue == q.queue - {j}
            && j in t.leases && t.leases[j] == until && t.leases - {j} == q.leases - {j}
            && j in t.owner && t.owner[j] == w && t.owner - {j} == q.owner - {j}
            && (m != "" ==> j in RunningOn(t, m) && j in t.jobModel && t.jobModel[j] == m)
  {
  }

  /** What every claim leaves alone: an unsuccessful one all keys but the model's running set, and any of
      them the other models' running sets. */
  lemma ClaimLeaves(q: Redis, j: JobId, w: Worker, until: int, m: Model, limit: nat)
    ensures var t := Claim(q, j, w, until, m, limit);
            && (!ResultOfClaim(q, j, m, limit).ClaimOk? ==>
                  t.queue == q.queue && t.leases == q.leases && t.owner == q.owner && t.jobModel == q.jobModel)
            && (forall k | k != m :: RunningOn(t, k) == RunningOn(q, k))
  {
  }

  /** What a drop does, on the keys: the job has no lease, no owner, no model entry and no slot on the
      model it was claimed for, and it leaves the queue exactly if asked to. Nothing else changes. */
  lemma DropEffect(q: Redis, j: JobId, dequeue: bool)
    ensures var t := Drop(q, j, dequeue);
            && j !in t.leases && j !in t.owner && j !in t.jobModel
            && (j in q.jobModel && q.jobModel[j] != "" ==> j !in RunningOn(t, q.jobModel[j]))
            && (j in t.queue <==> j in q.queue && !dequeue)
            && t.queue - {j} == q.queue - {j} && t.leases == q.leases - {j} && t.owner == q.owner - {j}
            && t.jobModel == q.jobModel - {j}
            && (forall m :: RunningOn(t, m) - {j} == RunningOn(q, m) - {j})
            && (forall m | j !in q.jobModel || m != q.jobModel[j] :: RunningOn(t, m) == RunningOn(q, m))
  {
  }

  /** A renewal sets this lease and touches nothing else. */
  lemma RenewEffect(q: Redis, j: JobId, until: int)
    ensures var t := Renew(q, j, until);
            && j in t.leases && t.leases[j] == until && t.leases - {j} == q.leases - {j}
            && t.queue == q.queue && t.owner == q.owner && t.jobModel == q.jobModel && t.running == q.running
  {
  }

  /** A listing of exactly the expired leases, oldest first: `ZRANGEBYSCORE leases -inf now`. */
  ghost predicate ListsExpired(q: Redis, now: int, expired: seq<JobId>) {
    && (forall j :: j in expired <==> j in q.leases && q.leases[j] <= now)
    && (forall a, b | 0 <= a < b < |expired| :: expired[a] != expired[b])
    && (forall a, b | 0 <= a < b < |expired| && expired[a] in q.leases && expired[b] in q.leases ::
          q.leases[expired[a]] <= q.leases[expired[b]])
  }

  function Elements(s: seq<JobId>): set<JobId> {
    set j | j in s
  }

  /** `_REAP_LUA`: the expired jobs go back into the queue at consecutive scores. The running sets
      and the job models are not touched. */
  function Reap(q: Redis, expired: seq<JobId>, score: int): Redis
    decreases |expired|
  {
    if expired == [] then q
    else
      var n := |expired| - 1;
      var j := expired[n];
      var r := Reap(q, expired[..n], score);
      r.(queue := r.queue[j := score + n + 1], leases := r.leases - {j}, owner := r.owner - {j})
  }

  lemma {:induction false} ReapEffect(q: Redis, expired: seq<JobId>, score: int)
    ensures var r := Reap(q, expired, score);
            && r.leases == q.leases - Elements(expired)
            && r.owner == q.owner - Elements(expired)
            && r.queue.Keys == q.queue.Keys + Elements(expired)
            && r.running == q.running && r.jobModel == q.jobModel
    decreases |expired|
  {
    if expired == [] {
      assert Elements(expired) == {};
    } else {
      var n := |expired| - 1;
      ReapEffect(q, expired[..n], score);
      assert expired == expired[..n] + [expired[n]];
      assert Elements(expired) == Elements(expired[..n]) + {expired[n]};
    }
  }

  /** The jobs reaped line up in the order of the listing, and nobody else's score changes. */
  lemma {:induction false} ReapScores(q: Redis, expired: seq<JobId>, score: int, i: nat)
    requires forall a, b | 0 <= a < b < |expired| :: expired[a] != expired[b]
    ensures var r := Reap(q, expired, score);
            && (i < |expired| ==> expired[i] in r.queue && r.queue[expired[i]] == score + i + 1)
            && (forall k | k in q.queue && k !in expired :: k in r.queue && r.queue[k] == q.queue[k])
    decreases |expired|
  {
    if expired != [] {
      var n := |expired| - 1;
      ReapScores(q, expired[..n], score, i);
      assert expired == expired[..n] + [expired[n]];
    }
  }
}
