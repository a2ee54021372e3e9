/** Queue scores (services/queue.py: `_score`, `priority_of`; services/pins.py: `enqueue_job`).
    Times and scores are whole numbers here; the source keeps them in floats. */
module Scores {
  const BAND: int := 1_000_000_000_000
  const PINNED_BASE: int := -1_000_000_000_000

  function Score(priority: int, pinned: bool, ts: int): int {
    (if pinned then PINNED_BASE else priority * BAND) + ts
  }

  /** Python's `//` floors, and so does Dafny's `/` for a positive divisor. */
  function PriorityOf(score: int): nat {
    var p := score / BAND;
    if p < 0 then 0 else p
  }

  /** A timestamp the scheme was designed for: seconds since the epoch, below 10^12. */
  predicate Timely(ts: int) {
    0 <= ts < BAND
  }

  /** How a job is placed in the queue. */
  datatype Placement = Placement(priority: nat, pinned: bool, ts: int)

  function ScoreOf(p: Placement): int {
    Score(p.priority, p.pinned, p.ts)
  }

  /** The order the queue is meant to have: pinned first and by pin time, then by priority, then
      first come first served. */
  predicate ComesBefore(a: Placement, b: Placement) {
    if a.pinned != b.pinned then a.pinned
    else if a.pinned || a.priority == b.priority then a.ts < b.ts
    else a.priority < b.priority
  }

  lemma ScoreOrderIsLexicographic(a: Placement, b: Placement)
    requires Timely(a.ts) && Timely(b.ts)
    ensures ScoreOf(a) < ScoreOf(b) <==> ComesBefore(a, b)
  {
  }

  /** `priority_of` recovers the priority of an unpinned score; a pinned one reads as priority 0. */
  lemma PriorityOfInvertsScore(p: Placement)
    requires Timely(p.ts)
    ensures PriorityOf(ScoreOf(p)) == if p.pinned then 0 else p.priority
  {
  }

  lemma PriorityOfIsMonotone(s: int, t: int)
    requires s <= t
    ensures PriorityOf(s) <= PriorityOf(t)
  {
  }

  // ------------------------------------------------------------------ pinned first, over any run

  type JobId = nat

  datatype Event =
    | Enqueue(job: JobId, at: Placement)
    | Rescore(job: JobId, at: Placement)
    | Remove(job: JobId)

  /** The queue's scores, and as history how each member was last placed. */
  datatype Placed = Placed(scores: map<JobId, int>, placed: map<JobId, Placement>)

  function Step(q: Placed, e: Event): Placed {
    match e
    case Enqueue(j, p) => Placed(q.scores[j := ScoreOf(p)], q.placed[j := p])
    case Rescore(j, p) => if j in q.scores then Placed(q.scores[j := ScoreOf(p)], q.placed[j := p]) else q
    case Remove(j) => Placed(q.scores - {j}, q.placed - {j})
  }

  predicate TimelyEvent(e: Event) {
    !e.Remove? ==> Timely(e.at.ts)
  }

  function Run(q: Placed, es: seq<Event>): Placed
    decreases es
  {
    if es == [] then q else Run(Step(q, es[0]), es[1..])
  }

  predicate Faithful(q: Placed) {
    && q.scores.Keys == q.placed.Keys
    && (forall j | j in q.scores :: Timely(q.placed[j].ts) && q.scores[j] == ScoreOf(q.placed[j]))
  }

  /** However jobs are enqueued, pinned, unpinned and removed, every pinned job stays ahead of every
      unpinned one, and within a class the order is the intended one. */
  lemma {:induction false} PinnedStayAhead(q: Placed, es: seq<Event>)
    requires Faithful(q) && (forall e <- es :: TimelyEvent(e))
    ensures Faithful(Run(q, es))
    ensures var t := Run(q, es);
            forall i, j | i in t.scores && j in t.scores ::
              t.scores[i] < t.scores[j] <==> ComesBefore(t.placed[i], t.placed[j])
    decreases es
  {
    if es == [] {
      forall i, j | i in q.scores && j in q.scores
        ensures q.scores[i] < q.scores[j] <==> ComesBefore(q.placed[i], q.placed[j])
      {
        ScoreOrderIsLexicographic(q.placed[i], q.placed[j]);
      }
    } else {
      assert es[0] in es;
      assert forall e <- es[1..] :: e in es;
      PinnedStayAhead(Step(q, es[0]), es[1..]);
    }
  }
}
