/** What every sequence of queue operations keeps: per-model limits, and mutual exclusion of live
    holders under timely renewal. */
module QueueSafety {
  import opened RedisQueue

  // ------------------------------------------------------------------ per-model limits

  datatype Operation =
    | SetScores(queue: map<JobId, int>)   // enqueue, rescore, reorder: only the queue changes
    | ClaimJob(job: JobId, worker: Worker, until: int, model: Model)
    | DropJob(job: JobId, dequeue: bool)
    | RenewLease(job: JobId, until: int)
    | ReapExpired(expired: seq<JobId>, score: int)

  /** `active` is history: the jobs claimed for a model and neither dropped nor reaped since. */
  datatype Slots = Slots(q: Redis, active: map<JobId, Model>)

  function Operate(s: Slots, op: Operation, limitOf: Model -> nat): Slots {
    match op
    case SetScores(queue) => s.(q := s.q.(queue := queue))
    case ClaimJob(j, w, until, m) =>
      Slots(Claim(s.q, j, w, until, m, limitOf(m)),
            if ResultOfClaim(s.q, j, m, limitOf(m)).ClaimOk? then s.active[j := m] else s.active)
    case DropJob(j, dequeue) => Slots(Drop(s.q, j, dequeue), s.active - {j})
    case RenewLease(j, until) => s.(q := Renew(s.q, j, until))
    case ReapExpired(expired, score) => Slots(Reap(s.q, expired, score), s.active - Elements(expired))
  }

  function OperateAll(s: Slots, ops: seq<Operation>, limitOf: Model -> nat): Slots
    decreases ops
  {
    if ops == [] then s else OperateAll(Operate(s, ops[0], limitOf), ops[1..], limitOf)
  }

  ghost predicate WithinLimits(q: Redis, limitOf: Model -> nat) {
    forall m :: limitOf(m) > 0 ==> |RunningOn(q, m)| <= limitOf(m)
  }

  /** An active job still has its lease, so no pruning has taken it out of its running set. */
  predicate ActiveCounted(s: Slots) {
    forall j | j in s.active :: j in s.q.leases && (s.active[j] != "" ==> j in RunningOn(s.q, s.active[j]))
  }

  function ActiveOn(s: Slots, m: Model): set<JobId> {
    set j | j in s.active && s.active[j] == m
  }

  lemma PruningShrinks(q: Redis, m: Model)
    ensures Leased(q, m) <= RunningOn(q, m) && |Leased(q, m)| <= |RunningOn(q, m)|
  {
    var extra := RunningOn(q, m) - Leased(q, m);
    assert RunningOn(q, m) == Leased(q, m) + extra;
    assert |RunningOn(q, m)| == |Leased(q, m)| + |extra|;
  }

  lemma ClaimOnModel(q: Redis, j: JobId, w: Worker, until: int, m: Model, limit: nat)
    requires limit > 0 && |RunningOn(q, m)| <= limit
    ensures |RunningOn(Claim(q, j, w, until, m, limit), m)| <= limit
  {
    PruningShrinks(q, m);
    assert |Leased(q, m) + {j}| <= |Leased(q, m)| + 1;
  }

  lemma ClaimKeepsLimits(s: Slots, j: JobId, w: Worker, until: int, m: Model, limitOf: Model -> nat)
    requires WithinLimits(s.q, limitOf)
    ensures WithinLimits(Claim(s.q, j, w, until, m, limitOf(m)), limitOf)
  {
    var q' := Claim(s.q, j, w, until, m, limitOf(m));
    forall k | limitOf(k) > 0 ensures |RunningOn(q', k)| <= limitOf(k) {
      if k == m {
        ClaimOnModel(s.q, j, w, until, m, limitOf(m));
      } else {
        assert RunningOn(q', k) == RunningOn(s.q, k);
      }
    }
  }

  lemma ClaimKeepsActive(s: Slots, j: JobId, w: Worker, until: int, m: Model, limitOf: Model -> nat)
    requires ActiveCounted(s)
    ensures ActiveCounted(Operate(s, ClaimJob(j, w, until, m), limitOf))
  {
  }

  lemma DropKeepsLimits(s: Slots, j: JobId, dequeue: bool, limitOf: Model -> nat)
    requires WithinLimits(s.q, limitOf) && ActiveCounted(s)
    ensures WithinLimits(Drop(s.q, j, dequeue), limitOf)
    ensures ActiveCounted(Operate(s, DropJob(j, dequeue), limitOf))
  {
  }

  lemma OperationKeepsLimits(s: Slots, op: Operation, limitOf: Model -> nat)
    requires WithinLimits(s.q, limitOf) && ActiveCounted(s)
    ensures WithinLimits(Operate(s, op, limitOf).q, limitOf) && ActiveCounted(Operate(s, op, limitOf))
  {
    match op
    case ClaimJob(j, w, until, m) =>
      ClaimKeepsLimits(s, j, w, until, m, limitOf);
      ClaimKeepsActive(s, j, w, until, m, limitOf);
    case DropJob(j, dequeue) => DropKeepsLimits(s, j, dequeue, limitOf);
    case ReapExpired(expired, score) =>
      ReapEffect(s.q, expired, score);
      assert forall k :: RunningOn(Reap(s.q, expired, score), k) == RunningOn(s.q, k);
    case _ =>
      assert forall k :: RunningOn(Operate(s, op, limitOf).q, k) == RunningOn(s.q, k);
  }

  /** Main result on limits: whatever claims, drops, reaps, late renewals, enqueues and reorders
      come in whatever order, no model's running set exceeds its limit, and so neither does the
      number of jobs claimed for it and neither dropped nor reaped since. */
  lemma {:induction false} LimitsAlwaysHold(s: Slots, ops: seq<Operation>, limitOf: Model -> nat, m: Model)
    requires WithinLimits(s.q, limitOf) && ActiveCounted(s)
    requires limitOf(m) > 0 && m != ""
    ensures var t := OperateAll(s, ops, limitOf);
            && |RunningOn(t.q, m)| <= limitOf(m)
            && |ActiveOn(t, m)| <= limitOf(m)
    decreases ops
  {
    if ops == [] {
      var mine := ActiveOn(s, m);
      assert mine <= RunningOn(s.q, m);
      assert RunningOn(s.q, m) == mine + (RunningOn(s.q, m) - mine);
      assert |RunningOn(s.q, m)| == |mine| + |RunningOn(s.q, m) - mine|;
    } else {
      OperationKeepsLimits(s, ops[0], limitOf);
      LimitsAlwaysHold(Operate(s, ops[0], limitOf), ops[1..], limitOf, m);
    }
  }

  // ------------------------------------------------------------------ timed mutual exclusion

  /** `held` is who is really at work on what, whether or not Redis knows; `inserted` and `claimed`
      are history. A dead worker leaves `held` at its crash; its lease stays behind. */
  datatype World = World(
    q: Redis,
    now: int,
    held: set<(Worker, JobId)>,
    inserted: multiset<JobId>,
    claimed: multiset<JobId>)

  datatype Event =
    | Tick(seconds: nat)
    | Insert(job: JobId, score: int)
    | Reshuffle(queue: map<JobId, int>)
    | TryClaim(job: JobId, worker: Worker, lease: nat, model: Model, limit: nat)
    | Heartbeat(job: JobId, worker: Worker, lease: nat)
    | Release(job: JobId, worker: Worker)
    | Remove(job: JobId)
    | Die(worker: Worker)
    | DoReap(expired: seq<JobId>, score: int)

  function Inserts(queue: map<JobId, int>, j: JobId): multiset<JobId> {
    if j in queue then multiset{} else multiset{j}
  }

  function Advance(w: World, e: Event): World {
    match e
    case Tick(d) => w.(now := w.now + d)
    case Insert(j, score) =>
      w.(q := w.q.(queue := w.q.queue[j := score]), inserted := w.inserted + Inserts(w.q.queue, j))
    case Reshuffle(queue) => w.(q := w.q.(queue := queue))
    case TryClaim(j, x, lease, m, limit) =>
      var q' := Claim(w.q, j, x, w.now + lease, m, limit);
      if ResultOfClaim(w.q, j, m, limit).ClaimOk?
      then w.(q := q', held := w.held + {(x, j)}, claimed := w.claimed + multiset{j})
      else w.(q := q')
    case Heartbeat(j, x, lease) => w.(q := Renew(w.q, j, w.now + lease))
    case Release(j, x) => w.(q := Drop(w.q, j, false), held := w.held - {(x, j)})
    case Remove(j) => w.(q := Drop(w.q, j, true))
    case Die(x) => w.(held := set p | p in w.held && p.0 != x)
    case DoReap(expired, score) =>
      w.(q := Reap(w.q, expired, score), inserted := w.inserted + multiset(Elements(expired) - w.q.queue.Keys))
  }

  /** The assumptions: leases last longer than an instant and are renewed before they run out, only
      a live holder renews or releases, only jobs nobody holds are enqueued, and the reaper takes
      exactly the expired leases. */
  ghost predicate Legal(w: World, e: Event) {
    match e
    case Tick(d) => forall p | p in w.held && p.1 in w.q.leases :: w.now + d < w.q.leases[p.1]
    case Insert(j, _) => forall x :: (x, j) !in w.held
    case Reshuffle(queue) => queue.Keys == w.q.queue.Keys
    case TryClaim(_, _, lease, _, _) => lease > 0
    case Heartbeat(j, x, lease) => (x, j) in w.held && lease > 0
    case Release(j, x) => (x, j) in w.held
    case DoReap(expired, _) => ListsExpired(w.q, w.now, expired)
    case _ => true
  }

  ghost predicate LegalRun(w: World, es: seq<Event>)
    decreases es
  {
    es == [] || (Legal(w, es[0]) && LegalRun(Advance(w, es[0]), es[1..]))
  }

  function AdvanceAll(w: World, es: seq<Event>): World
    decreases es
  {
    if es == [] then w else AdvanceAll(Advance(w, es[0]), es[1..])
  }

  /** A held job is not queued, and its lease, if Redis has one, has not run out. */
  predicate HolderSafe(w: World, p: (Worker, JobId)) {
    p.1 !in w.q.queue && (p.1 in w.q.leases ==> w.now < w.q.leases[p.1])
  }

  predicate Exclusive(w: World) {
    && (forall p | p in w.held :: HolderSafe(w, p))
    && (forall p, r | p in w.held && r in w.held && p.1 == r.1 :: p == r)
  }

  /** No job has been claimed more often than it was put into the queue. */
  ghost predicate ClaimsPaidFor(w: World) {
    forall j :: w.claimed[j] + (if j in w.q.queue then 1 else 0) <= w.inserted[j]
  }

  lemma ReapSparesHolders(w: World, expired: seq<JobId>, p: (Worker, JobId))
    requires Exclusive(w) && ListsExpired(w.q, w.now, expired) && p in w.held
    ensures p.1 !in Elements(expired)
  {
  }

  lemma ReapKeepsExclusion(w: World, expired: seq<JobId>, score: int)
    requires Exclusive(w) && ListsExpired(w.q, w.now, expired)
    ensures Exclusive(Advance(w, DoReap(expired, score)))
  {
    var w' := Advance(w, DoReap(expired, score));
    ReapEffect(w.q, expired, score);
    forall p | p in w'.held ensures HolderSafe(w', p) {
      assert HolderSafe(w, p);
      ReapSparesHolders(w, expired, p);
    }
  }

  lemma ClaimKeepsExclusion(w: World, e: Event)
    requires Exclusive(w) && Legal(w, e) && e.TryClaim?
    ensures Exclusive(Advance(w, e))
  {
  }

  lemma StepKeepsExclusion(w: World, e: Event)
    requires Exclusive(w) && Legal(w, e)
    ensures Exclusive(Advance(w, e))
  {
    match e
    case DoReap(expired, score) => ReapKeepsExclusion(w, expired, score);
    case TryClaim(_, _, _, _, _) => ClaimKeepsExclusion(w, e);
    case _ =>
      var w' := Advance(w, e);
      forall p | p in w'.held ensures HolderSafe(w', p) {
        assert p in w.held && HolderSafe(w, p);
      }
  }

  lemma StepKeepsClaimsPaid(w: World, e: Event)
    requires ClaimsPaidFor(w) && Legal(w, e)
    ensures ClaimsPaidFor(Advance(w, e))
  {
    var w' := Advance(w, e);
    if e.DoReap? {
      ReapEffect(w.q, e.expired, e.score);
    }
    forall j ensures w'.claimed[j] + (if j in w'.q.queue then 1 else 0) <= w'.inserted[j] {
      assert w.claimed[j] + (if j in w.q.queue then 1 else 0) <= w.inserted[j];
    }
  }

  /** Main result on leases: as long as live holders renew in time, the reaper never takes a live
      holder's job, held jobs are never queued, no job has two live holders, and every insertion
      into the queue pays for at most one successful claim. */
  lemma {:induction false} TimelyRenewalExcludes(w: World, es: seq<Event>)
    requires Exclusive(w) && ClaimsPaidFor(w) && LegalRun(w, es)
    ensures Exclusive(AdvanceAll(w, es)) && ClaimsPaidFor(AdvanceAll(w, es))
    decreases es
  {
    if es != [] {
      StepKeepsExclusion(w, es[0]);
      StepKeepsClaimsPaid(w, es[0]);
      TimelyRenewalExcludes(Advance(w, es[0]), es[1..]);
    }
  }

  /** The assumption on renewal is exact: with held jobs unqueued and singly held, a reap keeps
      exclusion if and only if no live holder has let its lease run out. */
  lemma ReapKeepsExclusionIff(w: World, expired: seq<JobId>, score: int)
    requires ListsExpired(w.q, w.now, expired)
    requires forall p | p in w.held :: p.1 !in w.q.queue
    requires forall p, r | p in w.held && r in w.held && p.1 == r.1 :: p == r
    ensures Exclusive(Advance(w, DoReap(expired, score))) <==>
      forall p | p in w.held && p.1 in w.q.leases :: w.now < w.q.leases[p.1]
  {
    var w' := Advance(w, DoReap(expired, score));
    ReapEffect(w.q, expired, score);
    if Exclusive(w') {
      forall p | p in w.held && p.1 in w.q.leases ensures w.now < w.q.leases[p.1] {
        assert HolderSafe(w', p);
      }
    }
    if forall p | p in w.held && p.1 in w.q.leases :: w.now < w.q.leases[p.1] {
      ReapKeepsExclusion(w, expired, score);
    }
  }

  // ------------------------------------------------------------------ what is released stays released

  /** Redis knows nothing of this job but what its row would say. */
  predicate LetGo(w: World, j: JobId) {
    j !in w.q.leases && j !in w.q.queue
  }

  predicate NotBroughtBack(es: seq<Event>, j: JobId) {
    forall e <- es :: !(e.Insert? && e.job == j) && !(e.Heartbeat? && e.job == j)
  }

  predicate Reaps(e: Event, j: JobId) {
    e.DoReap? && j in e.expired
  }

  lemma StepLeavesAlone(w: World, e: Event, j: JobId)
    requires LetGo(w, j) && Legal(w, e) && NotBroughtBack([e], j)
    ensures LetGo(Advance(w, e), j) && !Reaps(e, j)
    ensures Advance(w, e).claimed[j] == w.claimed[j]
  {
    assert e in [e];
    match e
    case DoReap(expired, score) => ReapEffect(w.q, expired, score);
    case _ =>
  }

  lemma {:induction false} LeftAlone(w: World, es: seq<Event>, j: JobId)
    requires LetGo(w, j) && LegalRun(w, es) && NotBroughtBack(es, j)
    ensures LetGo(AdvanceAll(w, es), j) && AdvanceAll(w, es).claimed[j] == w.claimed[j]
    ensures forall e <- es :: !Reaps(e, j)
    decreases es
  {
    if es != [] {
      assert es[0] in es;
      assert forall e <- es[1..] :: e in es;
      StepLeavesAlone(w, es[0], j);
      LeftAlone(Advance(w, es[0]), es[1..], j);
    }
  }

  /** A job that its holder has released is let go for good: until somebody enqueues it again, no reap
      brings it back, it is not queued, and nobody claims it. */
  lemma ReleasedStaysReleased(w: World, j: JobId, x: Worker, es: seq<Event>)
    requires Exclusive(w) && (x, j) in w.held
    requires LegalRun(Advance(w, Release(j, x)), es) && NotBroughtBack(es, j)
    ensures var t := AdvanceAll(Advance(w, Release(j, x)), es);
            && j !in t.q.leases && j !in t.q.queue && (forall e <- es :: !Reaps(e, j))
            && t.claimed[j] == w.claimed[j]
  {
    assert HolderSafe(w, (x, j));
    DropEffect(w.q, j, false);
    LeftAlone(Advance(w, Release(j, x)), es, j);
  }
}
