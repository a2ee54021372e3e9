/** The place preempted work comes back to (services/pins.py: `enqueue_job` with `keep_position`). */
module HandBack {
  import Lifecycle
  import JobControl
  import Scores

  type JobId = nat

  /** Arrivals of unpinned jobs. `queuedAt` and `priority` are the row's fields, `scores` the queue;
      `at` and `handedBack` are history: the time behind each score, and the jobs whose last
      insertion was a hand-back. */
  datatype Line = Line(
    clock: int,
    queuedAt: map<JobId, int>,
    priority: map<JobId, nat>,
    scores: map<JobId, int>,
    at: map<JobId, int>,
    handedBack: set<JobId>)

  datatype Arrival =
    | Tick(seconds: nat)
    | Accept(job: JobId, level: nat)
    | Enter(job: JobId)
    | Reprioritize(job: JobId, level: nat)
    | TakeOut(job: JobId)
    | ComeBack(job: JobId)

  function PutIn(q: Line, j: JobId, ts: int): Line
    requires j in q.priority
  {
    q.(scores := q.scores[j := Scores.ScoreOf(Scores.Placement(q.priority[j], false, ts))], at := q.at[j := ts])
  }

  /** A job is accepted (created, resumed or retried) while it is not in the queue, and enters
      afterwards. A new priority takes it out of the queue, to enter again, and keeps `queued_at`. */
  function Arrive(q: Line, e: Arrival): Line {
    match e
    case Tick(d) => q.(clock := q.clock + d)
    case Accept(j, p) =>
      if j in q.scores then q else q.(queuedAt := q.queuedAt[j := q.clock], priority := q.priority[j := p])
    case Enter(j) =>
      if j in q.queuedAt && j in q.priority then PutIn(q, j, q.clock).(handedBack := q.handedBack - {j}) else q
    case Reprioritize(j, p) => q.(scores := q.scores - {j}, priority := q.priority[j := p])
    case TakeOut(j) => q.(scores := q.scores - {j})
    case ComeBack(j) =>
      if j in q.queuedAt && j in q.priority
      then PutIn(q, j, q.queuedAt[j]).(handedBack := q.handedBack + {j}) else q
  }

  function ArriveAll(q: Line, es: seq<Arrival>): Line
    decreases es
  {
    if es == [] then q else ArriveAll(Arrive(q, es[0]), es[1..])
  }

  predicate InLine(q: Line) {
    && q.scores.Keys <= q.queuedAt.Keys && q.scores.Keys <= q.priority.Keys && q.scores.Keys <= q.at.Keys
    && (forall j | j in q.queuedAt :: q.queuedAt[j] <= q.clock)
    && (forall j | j in q.scores ::
          && q.scores[j] == Scores.ScoreOf(Scores.Placement(q.priority[j], false, q.at[j]))
          && q.queuedAt[j] <= q.at[j]
          && (j in q.handedBack ==> q.at[j] == q.queuedAt[j]))
  }

  lemma ArrivalKeepsLine(q: Line, e: Arrival)
    requires InLine(q)
    ensures InLine(Arrive(q, e))
  {
  }

  /** With a clock that never runs back, a job that was handed back stands ahead of every job of its
      priority that was queued after it, whatever arrives, leaves and comes back in the meantime. */
  lemma {:induction false} HandedBackKeepsItsPlace(q: Line, es: seq<Arrival>)
    requires InLine(q)
    ensures var t := ArriveAll(q, es);
            && InLine(t)
            && forall j, i | j in t.scores && i in t.scores && j in t.handedBack ::
                 t.priority[i] == t.priority[j] && t.queuedAt[j] < t.queuedAt[i] ==> t.scores[j] < t.scores[i]
    decreases es
  {
    if es != [] {
      ArrivalKeepsLine(q, es[0]);
      HandedBackKeepsItsPlace(Arrive(q, es[0]), es[1..]);
    }
  }

  // ------------------------------------------------------------------ the rows behind the line

  /** The line shows this row's job: same level, same `queued_at`, not pinned. */
  predicate Shows(q: Line, j: JobId, r: JobControl.Row) {
    && !r.pinned && j in q.queuedAt && j in q.priority
    && r.queuedAt == Lifecycle.Some(q.queuedAt[j]) && q.priority[j] == r.priority
  }

  /** `enqueue_job` puts a row where the line has its job: at its old place when it is handed back, at the
      clock's time when it enters anew. */
  lemma EnqueueIsArrival(q: Line, j: JobId, r: JobControl.Row)
    requires Shows(q, j, r)
    ensures Arrive(q, ComeBack(j)).scores == q.scores[j := Scores.ScoreOf(JobControl.Placed(r, true, q.clock))]
    ensures Arrive(q, Enter(j)).scores == q.scores[j := Scores.ScoreOf(JobControl.Placed(r, false, q.clock))]
  {
  }

  /** In terms of the rows themselves: a job handed back at any time goes ahead of a job of its priority
      that was queued after it, whether that one is newly queued or handed back too. */
  lemma RowKeepsItsPlace(r: JobControl.Row, other: JobControl.Row, now: int, later: int, keep: bool)
    requires !r.pinned && !other.pinned && r.priority == other.priority
    requires r.queuedAt.Some? && other.queuedAt.Some? && r.queuedAt.value < other.queuedAt.value <= later
    ensures Scores.ScoreOf(JobControl.Placed(r, true, now)) < Scores.ScoreOf(JobControl.Placed(other, keep, later))
  {
  }

  /** And a pinned job goes by the time of its pin, ahead of every unpinned one, handed back or not. */
  lemma PinnedRowsFirst(r: JobControl.Row, other: JobControl.Row, keep: bool, keepOther: bool, now: int)
    requires r.pinned && r.pinnedAt.Some? && Scores.Timely(r.pinnedAt.value) && Scores.Timely(now)
    requires !other.pinned && (other.queuedAt.Some? ==> Scores.Timely(other.queuedAt.value))
    ensures JobControl.Placed(r, keep, now).ts == r.pinnedAt.value
    ensures Scores.ScoreOf(JobControl.Placed(r, keep, now)) < Scores.ScoreOf(JobControl.Placed(other, keepOther, now))
  {
    Scores.ScoreOrderIsLexicographic(JobControl.Placed(r, keep, now), JobControl.Placed(other, keepOther, now));
  }
}
