/** How a worker picks its next job (worker/main.py: `_claim`) and how many jobs a model may run
    (services/model_limits.py). */
module ClaimScan {
  import opened RedisQueue
  import JobQueue

  datatype Option<T> = None | Some(value: T)

  /** One admin rule; `fnmatch` is the uninterpreted `matches` below. */
  datatype Rule = Rule(pattern: string, maxRunning: int)

  const CLAIM_PAGE: nat := 100
  const CLAIM_SCAN_MAX: nat := 2000

  predicate Applies(model: Model, rule: Rule, matches: (string, string) -> bool) {
    rule.pattern != "" && matches(model, rule.pattern)
  }

  /** `job_limit_for`: the first rule that applies decides; 0 means no limit. */
  method JobLimitFor(model: Model, rules: seq<Rule>, matches: (string, string) -> bool) returns (limit: nat)
    ensures limit == LimitFor(model, rules, matches)
  {
    if model == "" {
      return 0;
    }
    for i := 0 to |rules|
      invariant LimitFor(model, rules, matches) == LimitFor(model, rules[i..], matches)
    {
      assert rules[i..][1..] == rules[i + 1..];
      if rules[i].pattern != "" && matches(model, rules[i].pattern) {
        return if rules[i].maxRunning < 0 then 0 else rules[i].maxRunning;
      }
    }
    return 0;
  }

  function LimitFor(model: Model, rules: seq<Rule>, matches: (string, string) -> bool): nat {
    if model == "" || rules == [] then 0
    else if Applies(model, rules[0], matches) then (if rules[0].maxRunning < 0 then 0 else rules[0].maxRunning)
    else LimitFor(model, rules[1..], matches)
  }

  /** What a limit means: a positive limit comes from the first rule that applies, and without one
      that applies there is no limit. */
  lemma {:induction false} FirstMatchDecides(model: Model, rules: seq<Rule>, matches: (string, string) -> bool, i: nat)
    requires i <= |rules|
    requires forall k | 0 <= k < i :: rules[k].pattern == "" || !matches(model, rules[k].pattern)
    ensures i == |rules| || model == "" ==> LimitFor(model, rules, matches) == 0
    ensures model != "" && i < |rules| && rules[i].pattern != "" && matches(model, rules[i].pattern) ==>
      LimitFor(model, rules, matches) == if rules[i].maxRunning < 0 then 0 else rules[i].maxRunning
    decreases i
  {
    if i > 0 {
      assert forall k | 0 <= k < i - 1 :: rules[1..][k] == rules[k + 1];
      FirstMatchDecides(model, rules[1..], matches, i - 1);
    }
  }

  /** What a scan reads from the database, once. */
  datatype Context = Context(
    models: map<JobId, Model>,
    pins: map<Model, set<JobId>>,
    rules: seq<Rule>,
    matches: (string, string) -> bool)

  function ModelOf(c: Context, j: JobId): Model {
    if j in c.models then c.models[j] else ""
  }

  function LimitOf(c: Context, m: Model): nat {
    LimitFor(m, c.rules, c.matches)
  }

  /** Another job's pin keeps this job's model to itself. */
  predicate Barred(c: Context, j: JobId) {
    ModelOf(c, j) in c.pins && j !in c.pins[ModelOf(c, j)]
  }

  /** Would trying this job, on its own, claim it? */
  predicate Claimable(q: Redis, c: Context, j: JobId) {
    !Barred(c, j) && ResultOfClaim(q, j, ModelOf(c, j), LimitOf(c, ModelOf(c, j))).ClaimOk?
  }

  /** The naive scan: try every job in order, from scratch each time. */
  function NaiveScan(q: Redis, c: Context, order: seq<JobId>): Option<JobId> {
    if order == [] then None
    else if Claimable(q, c, order[0]) then Some(order[0])
    else NaiveScan(q, c, order[1..])
  }

  /** The naive scan finds the first claimable job, and nothing exactly when there is none: a model
      at its limit or kept by a pin never hides another model's job. */
  lemma {:induction false} NaiveScanFindsFirst(q: Redis, c: Context, order: seq<JobId>)
    ensures NaiveScan(q, c, order).None? <==> forall j <- order :: !Claimable(q, c, j)
    ensures NaiveScan(q, c, order).Some? ==>
      exists i :: 0 <= i < |order| && order[i] == NaiveScan(q, c, order).value && Claimable(q, c, order[i])
                  && forall k | 0 <= k < i :: !Claimable(q, c, order[k])
    decreases order
  {
    if order != [] {
      NaiveScanFindsFirst(q, c, order[1..]);
      assert forall j <- order :: j == order[0] || j in order[1..];
      if !Claimable(q, c, order[0]) && NaiveScan(q, c, order[1..]).Some? {
        var i :| 0 <= i < |order[1..]| && order[1..][i] == NaiveScan(q, c, order[1..]).value
                 && Claimable(q, c, order[1..][i]) && forall k | 0 <= k < i :: !Claimable(q, c, order[1..][k]);
        forall k | 0 <= k < i + 1 ensures !Claimable(q, c, order[k]) {
          if k > 0 {
            assert order[k] == order[1..][k - 1];
          }
        }
        assert order[i + 1] == order[1..][i];
      }
    }
  }

  lemma {:induction false} NaiveScanSkips(q: Redis, c: Context, order: seq<JobId>, n: nat)
    requires n <= |order| && (forall k | 0 <= k < n :: !Claimable(q, c, order[k]))
    ensures NaiveScan(q, c, order) == NaiveScan(q, c, order[n..])
    decreases n
  {
    if n > 0 {
      assert forall k | 0 <= k < n - 1 :: order[1..][k] == order[k + 1];
      NaiveScanSkips(q, c, order[1..], n - 1);
      assert order[1..][n - 1..] == order[n..];
    } else {
      assert order[0..] == order;
    }
  }

  /** What is asked of a job for a worker to take it. Its model, if it has one: nobody has pinned a job on
      it, or this very job is pinned; and there is no limit on it, or fewer jobs run on it under a lease. */
  predicate Free(q: Redis, c: Context, j: JobId) {
    var m := if j in c.models then c.models[j] else "";
    var limit := LimitFor(m, c.rules, c.matches);
    && (m in c.pins ==> j in c.pins[m])
    && (limit == 0 || |set k | k in RunningOn(q, m) && k in q.leases| < limit)
  }

  lemma FreeIsClaimable(q: Redis, c: Context, j: JobId)
    requires j in q.queue
    ensures Claimable(q, c, j) <==> Free(q, c, j)
  {
    var m := if j in c.models then c.models[j] else "";
    ClaimAnswer(q, j, m, LimitFor(m, c.rules, c.matches));
  }

  /** The first free job among the first 2000 of this order, or nothing if none of them is free. */
  predicate IsFirstFree(q: Redis, c: Context, order: seq<JobId>, r: Option<JobId>) {
    match r
    case None => forall i | 0 <= i < |order| && i < 2000 :: !Free(q, c, order[i])
    case Some(j) =>
      exists i | 0 <= i < |order| && i < 2000 :: order[i] == j && Free(q, c, j)
        && forall k | 0 <= k < i :: !Free(q, c, order[k])
  }

  lemma NaiveScanIsFirstFree(q: Redis, c: Context, order: seq<JobId>)
    requires forall j <- order :: j in q.queue
    ensures IsFirstFree(q, c, order, NaiveScan(q, c, order[..ScanLimit(order)]))
  {
    var all := order[..ScanLimit(order)];
    NaiveScanFindsFirst(q, c, all);
    forall i | 0 <= i < |all| ensures all[i] == order[i] && (Claimable(q, c, order[i]) <==> Free(q, c, order[i])) {
      assert all[i] in all && order[i] in order;
      FreeIsClaimable(q, c, order[i]);
    }
  }

  /** So a pin keeps its model to the pinned jobs: no other job on it is taken. And a job that is free is
      taken if no job before it is free, whatever models the others wait for. */
  lemma PinsAreKept(q: Redis, c: Context, order: seq<JobId>, j: JobId, m: Model)
    requires forall k <- order :: k in q.queue
    requires j in c.models && c.models[j] == m && m in c.pins && j !in c.pins[m]
    ensures NaiveScan(q, c, order[..ScanLimit(order)]) != Some(j)
  {
    NaiveScanIsFirstFree(q, c, order);
  }

  /** Failed attempts may prune running sets, and nothing else. */
  ghost predicate OnlyPruned(before: Redis, now: Redis) {
    && now.queue == before.queue && now.leases == before.leases
    && now.owner == before.owner && now.jobModel == before.jobModel
    && (forall m :: Leased(now, m) == Leased(before, m))
  }

  /** The claim took this job and no other. */
  ghost predicate Took(before: Redis, now: Redis, j: JobId, w: Worker, until: int) {
    && j in before.queue && now.queue == before.queue - {j}
    && now.leases == before.leases[j := until] && now.owner == before.owner[j := w]
  }

  /** One attempt after some failed ones behaves as it would have at the start. */
  lemma AttemptAsAtTheStart(before: Redis, now: Redis, j: JobId, w: Worker, until: int, m: Model, limit: nat)
    requires OnlyPruned(before, now) && j in before.queue
    ensures ResultOfClaim(now, j, m, limit) == ResultOfClaim(before, j, m, limit) != ClaimGone
    ensures ResultOfClaim(now, j, m, limit).ClaimBlocked? ==>
      && OnlyPruned(before, Claim(now, j, w, until, m, limit))
      && limit > 0 && |Leased(before, m)| >= limit
    ensures ResultOfClaim(now, j, m, limit).ClaimOk? ==> Took(before, Claim(now, j, w, until, m, limit), j, w, until)
  {
  }

  function ScanLimit(order: seq<JobId>): nat {
    if |order| < CLAIM_SCAN_MAX then |order| else CLAIM_SCAN_MAX
  }

  /** Memo soundness: a model noted as blocked was at its limit. */
  ghost predicate MemoSound(before: Redis, c: Context, blocked: set<Model>) {
    forall m <- blocked :: LimitOf(c, m) > 0 && |Leased(before, m)| >= LimitOf(c, m)
  }

  /** One page of the scan. */
  method ScanPage(queue: JobQueue.JobQueue, c: Context, candidates: seq<JobId>, w: Worker, until: int,
                  blocked0: set<Model>, ghost before: Redis)
    returns (r: Option<JobId>, blocked: set<Model>)
    requires OnlyPruned(before, queue.View()) && MemoSound(before, c, blocked0)
    requires forall j <- candidates :: j in before.queue
    modifies queue
    ensures MemoSound(before, c, blocked)
    ensures r == NaiveScan(before, c, candidates)
    ensures r.None? ==> OnlyPruned(before, queue.View())
    ensures r.Some? ==> Took(before, queue.View(), r.value, w, until)
  {
    blocked := blocked0;
    for i := 0 to |candidates|
      invariant OnlyPruned(before, queue.View()) && MemoSound(before, c, blocked)
      invariant forall k | 0 <= k < i :: !Claimable(before, c, candidates[k])
    {
      var j := candidates[i];
      var model := if j in c.models then c.models[j] else "";
      if model in blocked {
        continue;
      }
      if model in c.pins && j !in c.pins[model] {
        continue;
      }
      var limit := JobLimitFor(model, c.rules, c.matches);
      AttemptAsAtTheStart(before, queue.View(), j, w, until, model, limit);
      var result := queue.ClaimJob(j, w, until, model, limit);
      if result.ClaimOk? {
        NaiveScanSkips(before, c, candidates, i);
        return Some(j), blocked;
      }
      if result.ClaimBlocked? {
        blocked := blocked + {model};
      }
    }
    NaiveScanSkips(before, c, candidates, |candidates|);
    r := None;
  }

  /** What the scan has yet to look at. */
  function Rest(order: seq<JobId>, offset: nat): seq<JobId> {
    if offset >= ScanLimit(order) then [] else order[offset..ScanLimit(order)]
  }

  lemma NextPage(offset: nat)
    requires offset < CLAIM_SCAN_MAX && offset % CLAIM_PAGE == 0
    ensures offset + CLAIM_PAGE <= CLAIM_SCAN_MAX && (offset + CLAIM_PAGE) % CLAIM_PAGE == 0
  {
  }

  lemma PageSplits(q: Redis, c: Context, order: seq<JobId>, offset: nat, end: nat)
    requires offset < |order| && offset < CLAIM_SCAN_MAX && offset % CLAIM_PAGE == 0
    requires end == if offset + CLAIM_PAGE < |order| then offset + CLAIM_PAGE else |order|
    ensures var page := NaiveScan(q, c, order[offset..end]);
            NaiveScan(q, c, Rest(order, offset))
            == if page.Some? then page else NaiveScan(q, c, Rest(order, offset + CLAIM_PAGE))
  {
    assert Rest(order, offset) == order[offset..end] + Rest(order, offset + CLAIM_PAGE);
    ScanSplits(q, c, order[offset..end], Rest(order, offset + CLAIM_PAGE));
  }

  /** `Worker._claim` on a queue nobody else is changing, `order` being its jobs in score order: the
      paged scan with its memo of blocked models returns exactly what the naive scan over the first
      2000 jobs would, and takes that job and no other. */
  method ClaimNext(queue: JobQueue.JobQueue, c: Context, order: seq<JobId>, w: Worker, until: int)
    returns (r: Option<JobId>)
    requires forall j <- order :: j in queue.queue
    modifies queue
    ensures r == NaiveScan(old(queue.View()), c, order[..ScanLimit(order)])
    ensures IsFirstFree(old(queue.View()), c, order, r)
    ensures r.Some? && r.value in c.models && c.models[r.value] in c.pins ==> r.value in c.pins[c.models[r.value]]
    ensures r.None? ==> OnlyPruned(old(queue.View()), queue.View())
    ensures r.Some? ==> Took(old(queue.View()), queue.View(), r.value, w, until)
  {
    ghost var before := queue.View();
    var blocked: set<Model> := {};
    var offset: nat := 0;
    ghost var all := order[..ScanLimit(order)];
    assert all == Rest(order, 0);
    NaiveScanIsFirstFree(before, c, order);
    while offset < CLAIM_SCAN_MAX
      invariant offset <= CLAIM_SCAN_MAX
      invariant offset % CLAIM_PAGE == 0
      invariant OnlyPruned(before, queue.View()) && MemoSound(before, c, blocked)
      invariant NaiveScan(before, c, all) == NaiveScan(before, c, Rest(order, offset))
    {
      if offset >= |order| {
        return None;
      }
      var end := if offset + CLAIM_PAGE < |order| then offset + CLAIM_PAGE else |order|;
      var candidates := order[offset..end];
      PageSplits(before, c, order, offset, end);
      NextPage(offset);
      r, blocked := ScanPage(queue, c, candidates, w, until, blocked, before);
      if r.Some? {
        return;
      }
      offset := offset + CLAIM_PAGE;
    }
    return None;
  }

  lemma {:induction false} ScanSplits(q: Redis, c: Context, a: seq<JobId>, b: seq<JobId>)
    ensures NaiveScan(q, c, a + b) == if NaiveScan(q, c, a).Some? then NaiveScan(q, c, a) else NaiveScan(q, c, b)
    decreases |a|
  {
    if a == [] {
      assert a + b == b;
    } else {
      assert (a + b)[1..] == a[1..] + b;
      ScanSplits(q, c, a[1..], b);
    }
  }
}
