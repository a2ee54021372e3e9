/** The control handlers (api/jobs.py) and the hand-back (services/pins.py) as the source writes them:
    row, signal, queue and lease changed in place, one statement after the other. Each is proved to
    come to a legal run of the steps in Lifecycle; and it is proved exactly which requests and deaths,
    served in whatever order and with whatever the workers do in between, lose a job. */
module JobControl {
  import opened Lifecycle
  import Scores

  type JobId = nat

  /** What can be asked of the desk for one job. `gone` is what the heartbeat check says of the row's
      worker, `there` whether the input file still exists, `some` whether any item failed. */
  datatype Request =
    | Stop(kind: Signal, gone: bool)
    | Resume(there: bool)
    | Retry(there: bool, some: bool)
    | Reprioritize
    | Delete
    | HandBack

  /** What row and Redis say of a job. */
  datatype Facts = Facts(status: Status, inQueue: bool, leased: bool, signal: Signal)

  function FactsOf(s: State): Facts {
    Facts(s.status, s.inQueue, s.leased, s.signal)
  }

  /** The job in the life-cycle model, its worker being `h` and no call under way. */
  function In(f: Facts, h: Holder): State {
    State(f.status, f.inQueue, f.leased, f.signal, h, Idle)
  }

  predicate Wished(f: Facts) {
    f.signal.Cancel? || f.signal.Pause?
  }

  /** The handlers' own checks. */
  predicate Accepted(st: Status, r: Request) {
    match r
    case Stop(k, _) => (k.Cancel? && CanCancel(st)) || (k.Pause? && Live(st))
    case Resume(there) => there && CanResume(st)
    case Retry(there, some) => there && some && CanRetry(st)
    case Reprioritize => st.Queued?
    case Delete => !Live(st) && !st.Deleted?
    case HandBack => st.Queued?
  }

  /** What it comes to. A stopped job is out of queue and lease; if no worker answers for it, it is
      settled at once, else the signal stays for its worker. A handed-back job goes as the user wished,
      or else to the queue. */
  function Result(f: Facts, r: Request): Facts {
    if !Accepted(f.status, r) then f
    else match r
      case Stop(k, gone) =>
        Facts(if f.status.Running? && !gone then f.status else StatusFor(k), false, false,
              if f.status.Running? then k else NoSignal)
      case Resume(_) => Facts(Queued, true, f.leased, NoSignal)
      case Retry(_, _) => Facts(Queued, true, f.leased, NoSignal)
      case Reprioritize => f.(inQueue := true, leased := false)
      case Delete => Facts(Deleted, false, false, NoSignal)
      case HandBack =>
        if Wished(f) then f.(status := StatusFor(f.signal), signal := NoSignal)
        else f.(inQueue := true, signal := NoSignal)
  }

  function Served(s: State, r: Request): State {
    In(Result(FactsOf(s), r), if r.HandBack? then Nobody else s.holder)
  }

  /** What each request comes to, written out. */
  lemma ResultsWrittenOut(f: Facts, gone: bool)
    ensures f.status == Queued ==>
      && Result(f, Stop(Cancel, gone)) == Facts(Canceled, false, false, NoSignal)
      && Result(f, Stop(Pause, gone)) == Facts(Paused, false, false, NoSignal)
      && Result(f, Reprioritize) == Facts(Queued, true, false, f.signal)
      && (f.signal == Cancel ==> Result(f, HandBack) == Facts(Canceled, f.inQueue, f.leased, NoSignal))
      && (f.signal == Pause ==> Result(f, HandBack) == Facts(Paused, f.inQueue, f.leased, NoSignal))
      && (f.signal in {NoSignal, Requeue} ==> Result(f, HandBack) == Facts(Queued, true, f.leased, NoSignal))
    ensures f.status == Running ==>
      && Result(f, Stop(Cancel, false)) == Facts(Running, false, false, Cancel)
      && Result(f, Stop(Pause, false)) == Facts(Running, false, false, Pause)
      && Result(f, Stop(Cancel, true)) == Facts(Canceled, false, false, Cancel)
      && Result(f, Stop(Pause, true)) == Facts(Paused, false, false, Pause)
    ensures f.status == Paused ==> Result(f, Stop(Cancel, gone)) == Facts(Canceled, false, false, NoSignal)
    ensures f.status in {Paused, Failed, Canceled} ==> Result(f, Resume(true)) == Facts(Queued, true, f.leased, NoSignal)
    ensures f.status in {Status.Finished, Failed, Canceled} ==>
      Result(f, Retry(true, true)) == Facts(Queued, true, f.leased, NoSignal)
    ensures f.status in {Paused, Failed, Canceled, Status.Finished} ==>
      Result(f, Delete) == Facts(Deleted, false, false, NoSignal)
  {
  }

  /** What the life cycle asks (`Lifecycle.Legal`) at the moment of the request. */
  predicate Fenced(s: State, r: Request) {
    s.call.Idle? &&
    match r
    case Stop(_, _) => true
    case Delete => true
    case HandBack => s.holder.Released?
    case _ => s.holder.Nobody?
  }

  // ------------------------------------------------------------------ every request is a legal run

  /** A call under way, once it has written its signal, can be carried to its end. */
  lemma {:induction false} Finishes(s: State, left: nat) returns (es: seq<Event>)
    requires !s.call.StopBegun? && left == StepsLeft(s.call)
    ensures LegalRun(s, es) && Run(s, es) == Finished(s, left)
    decreases left
  {
    if left == 0 {
      es := [];
    } else {
      var rest := Finishes(DoContinue(s), left - 1);
      es := Prepend(s, Api(Continue), rest);
    }
  }

  function StepsLeft(c: Call): nat {
    match c
    case Idle => 0
    case StopBegun(_, ran, gone) => if ran || gone then 3 else 4
    case StopSignaled(_, ran, gone) => if ran || gone then 2 else 3
    case StopRemoved(_, ran, gone) => if ran || gone then 1 else 2
    case StopStored => 1
    case ResumeBegun => 3
    case ResumeCleared => 2
    case RetryBegun => 3
    case RetryStored => 2
    case PatchBegun => 2
    case DeleteBegun => 3
    case DeleteStored => 2
    case DeleteRemoved => 1
    case MustEnqueue => 1
  }

  function Finished(s: State, left: nat): State
    decreases left
  {
    if left == 0 then s else Finished(DoContinue(s), left - 1)
  }

  lemma StopIsALegalRun(s: State, k: Signal, gone: bool) returns (es: seq<Event>)
    requires Fenced(s, Stop(k, gone)) && Accepted(s.status, Stop(k, gone))
    ensures LegalRun(s, es) && Run(s, es) == Served(s, Stop(k, gone))
  {
    var orphaned := s.status.Running? && gone;
    var begun := DoApi(s, CallStop(k, orphaned));
    var signaled := DoContinue(begun);
    var n := StepsLeft(signaled.call);
    var rest := Finishes(signaled, n);
    var removed := DoContinue(signaled);
    var stored := DoContinue(removed);
    assert Finished(signaled, n) == Finished(removed, n - 1);
    assert Finished(removed, n - 1) == Finished(stored, n - 2);
    assert Finished(stored, n - 2) == if n == 2 then stored else DoContinue(stored);
    var tail := Prepend(begun, Api(Continue), rest);
    es := Prepend(s, Api(CallStop(k, orphaned)), tail);
  }

  lemma BackInLineIsALegalRun(s: State, r: Request) returns (es: seq<Event>)
    requires Fenced(s, r) && Accepted(s.status, r) && (r.Resume? || r.Retry?)
    ensures LegalRun(s, es) && Run(s, es) == Served(s, r)
  {
    var a := if r.Resume? then CallResume else CallRetry;
    var begun := DoApi(s, a);
    var rest := Finishes(begun, 3);
    assert Finished(begun, 3) == Finished(DoContinue(begun), 2);
    assert Finished(DoContinue(begun), 2) == DoContinue(DoContinue(DoContinue(begun)));
    es := Prepend(s, Api(a), rest);
  }

  lemma PatchIsALegalRun(s: State) returns (es: seq<Event>)
    requires Fenced(s, Reprioritize) && s.status.Queued?
    ensures LegalRun(s, es) && Run(s, es) == Served(s, Reprioritize)
  {
    var begun := DoApi(s, CallPatch);
    var rest := Finishes(begun, 2);
    assert Finished(begun, 2) == DoContinue(DoContinue(begun));
    es := Prepend(s, Api(CallPatch), rest);
  }

  lemma DeleteIsALegalRun(s: State) returns (es: seq<Event>)
    requires Fenced(s, Delete) && Accepted(s.status, Delete)
    ensures LegalRun(s, es) && Run(s, es) == Served(s, Delete)
  {
    var begun := DoApi(s, CallDelete);
    var rest := Finishes(begun, 3);
    assert Finished(begun, 3) == Finished(DoContinue(begun), 2);
    assert Finished(DoContinue(begun), 2) == DoContinue(DoContinue(DoContinue(begun)));
    es := Prepend(s, Api(CallDelete), rest);
  }

  lemma HandBackIsALegalRun(s: State) returns (es: seq<Event>)
    requires Fenced(s, HandBack)
    ensures LegalRun(s, es) && Run(s, es) == Served(s, HandBack)
  {
    var s1 := Step(s, Depart(ReadRow));
    if !s.status.Queued? {
      es := Prepend(s, Depart(ReadRow), []);
      return;
    }
    var s2 := Step(s1, Depart(ReadSignal));
    var third := Depart(if UserSignal(s) then Decide else DropSignal);
    var last := Depart(if UserSignal(s) then ClearDecided else Reenter);
    var s3 := Step(s2, third);
    es := Prepend(s3, last, []);
    es := Prepend(s2, third, es);
    es := Prepend(s1, Depart(ReadSignal), es);
    es := Prepend(s, Depart(ReadRow), es);
  }

  /** Refinement: what the desk does for a job, the life cycle can do step by step. */
  lemma ServedIsALegalRun(s: State, r: Request) returns (es: seq<Event>)
    requires Fenced(s, r)
    ensures LegalRun(s, es) && Run(s, es) == Served(s, r)
  {
    if r.HandBack? {
      es := HandBackIsALegalRun(s);
    } else if !Accepted(s.status, r) {
      es := [];
    } else {
      match r
      case Stop(k, gone) => es := StopIsALegalRun(s, k, gone);
      case Resume(_) => es := BackInLineIsALegalRun(s, r);
      case Retry(_, _) => es := BackInLineIsALegalRun(s, r);
      case Reprioritize => es := PatchIsALegalRun(s);
      case Delete => es := DeleteIsALegalRun(s);
    }
  }

  // ------------------------------------------------------------------ any sequence of requests

  /** A job's history at the desk: requests served, and whatever workers, pinner and reaper do. */
  datatype Turn = Serve(r: Request) | Meanwhile(e: Event)

  function Take(s: State, t: Turn): State {
    if t.Serve? then Served(s, t.r) else Step(s, t.e)
  }

  predicate LegalTurn(s: State, t: Turn) {
    match t
    case Serve(r) => Fenced(s, r)
    case Meanwhile(e) => !e.Api? && Legal(s, e)
  }

  predicate LegalTurns(s: State, ts: seq<Turn>)
    decreases ts
  {
    ts == [] || (LegalTurn(s, ts[0]) && LegalTurns(Take(s, ts[0]), ts[1..]))
  }

  function TakeAll(s: State, ts: seq<Turn>): State
    decreases ts
  {
    if ts == [] then s else TakeAll(Take(s, ts[0]), ts[1..])
  }

  /** The turns that leave a queued or running job to nobody: a stop of a job that runs, by its row, under
      a worker not found gone, though none has it; and the death of a worker without a lease. */
  predicate LosesTurn(s: State, t: Turn) {
    match t
    case Serve(r) => r.Stop? && Accepted(s.status, r) && s.status.Running? && !r.gone && s.holder.Nobody?
    case Meanwhile(e) => Loses(s, e)
  }

  lemma TurnKeepsInv(s: State, t: Turn)
    requires Inv(s) && LegalTurn(s, t)
    ensures Inv(Take(s, t))
  {
    match t
    case Serve(r) =>
      var es := ServedIsALegalRun(s, r);
      AnyRunKeepsInv(s, es);
    case Meanwhile(e) => StepPreservesInv(s, e);
  }

  lemma TurnLosesIff(s: State, t: Turn)
    requires Inv(s) && LegalTurn(s, t) && Attended(s)
    ensures Attended(Take(s, t)) <==> !LosesTurn(s, t)
  {
    if t.Meanwhile? {
      StepLosesIff(s, t.e);
    }
  }

  predicate AttendedAlong(s: State, ts: seq<Turn>)
    decreases ts
  {
    Attended(s) && (ts == [] || AttendedAlong(Take(s, ts[0]), ts[1..]))
  }

  predicate NoTurnLoses(s: State, ts: seq<Turn>)
    decreases ts
  {
    ts == [] || (!LosesTurn(s, ts[0]) && NoTurnLoses(Take(s, ts[0]), ts[1..]))
  }

  /** Whatever is asked of the desk, in whatever order, and whatever happens in between: the job is
      never both queued and held, and it is attended to all along if and only if no such turn occurs. */
  lemma {:induction false} NothingLostAtTheDesk(s: State, ts: seq<Turn>)
    requires Inv(s) && LegalTurns(s, ts) && Attended(s)
    ensures Inv(TakeAll(s, ts)) && OneHolder(TakeAll(s, ts))
    ensures AttendedAlong(s, ts) <==> NoTurnLoses(s, ts)
    decreases ts
  {
    if ts != [] {
      TurnKeepsInv(s, ts[0]);
      TurnLosesIff(s, ts[0]);
      if Attended(Take(s, ts[0])) {
        NothingLostAtTheDesk(Take(s, ts[0]), ts[1..]);
      } else {
        TurnsKeepInv(Take(s, ts[0]), ts[1..]);
      }
    }
  }

  lemma {:induction false} TurnsKeepInv(s: State, ts: seq<Turn>)
    requires Inv(s) && LegalTurns(s, ts)
    ensures Inv(TakeAll(s, ts))
    decreases ts
  {
    if ts != [] {
      TurnKeepsInv(s, ts[0]);
      TurnsKeepInv(Take(s, ts[0]), ts[1..]);
    }
  }

  // ------------------------------------------------------------------ the imperative form

  /** A status a row can have. */
  type Stored = st: Status | !st.Deleted? witness Queued

  /** The columns of a job's row that the handlers use. */
  datatype Row = Row(
    status: Stored,
    priority: nat,
    pinned: bool,
    pinnedAt: Option<int>,
    queuedAt: Option<int>,
    finishedAt: Option<int>,
    worker: Option<nat>,
    completedItems: nat,
    failedItems: nat)

  datatype Reply = Done | NotFound | BadRequest

  /** Where `enqueue_job` puts a job. */
  function Placed(r: Row, keepPosition: bool, now: int): Scores.Placement {
    var ts := if r.pinned then r.pinnedAt else if keepPosition then r.queuedAt else None;
    Scores.Placement(r.priority, r.pinned, if ts.Some? then ts.value else now)
  }

  /** A row settled by a stop: a canceled job is finished and no longer pinned. */
  function Stopped(r: Row, k: Signal, now: int): Row {
    if k.Cancel? then r.(status := Canceled, finishedAt := Some(now), pinned := false)
    else r.(status := Paused)
  }

  function Larger(a: nat, b: nat): nat {
    if a < b then b else a
  }

  /** `_settle_orphan`: no worker any more, and the larger of the row's counts and the live ones. */
  function Orphan(r: Row, completed: nat, failed: nat): Row {
    r.(worker := None, completedItems := Larger(r.completedItems, completed), failedItems := Larger(r.failedItems, failed))
  }

  /** What a stop makes of the row: one that runs under a live worker is left to it. */
  function StopRow(r: Row, stop: Request, completed: nat, failed: nat, now: int): Row
    requires stop.Stop?
  {
    if !r.status.Running? then Stopped(r, stop.kind, now)
    else if stop.gone then Stopped(Orphan(r, completed, failed), stop.kind, now)
    else r
  }

  /** A row put back in line by resume or retry. */
  function BackInLine(r: Row, now: int): Row {
    r.(status := Queued, finishedAt := None, queuedAt := Some(now))
  }

  /** What these come to, column by column: a canceled row is finished and unpinned, a paused one keeps its
      pin, an orphan has no worker and the larger counts, a row that runs under a live worker is left to it. */
  lemma RowsAfterStop(r: Row, gone: bool, completed: nat, failed: nat, now: int)
    ensures var c := StopRow(r, Stop(Cancel, gone), completed, failed, now);
            var p := StopRow(r, Stop(Pause, gone), completed, failed, now);
            if r.status == Running && !gone then c == r && p == r
            else
              && c.status == Canceled && c.finishedAt == Some(now) && !c.pinned
              && p.status == Paused && p.finishedAt == r.finishedAt && p.pinned == r.pinned
              && (forall x <- [c, p] ::
                    && x.priority == r.priority && x.pinnedAt == r.pinnedAt && x.queuedAt == r.queuedAt
                    && (if r.status == Running
                        then x.worker == None && x.completedItems >= r.completedItems && x.completedItems >= completed
                             && x.completedItems in {r.completedItems, completed}
                             && x.failedItems >= r.failedItems && x.failedItems >= failed
                             && x.failedItems in {r.failedItems, failed}
                        else x.worker == r.worker && x.completedItems == r.completedItems && x.failedItems == r.failedItems))
  {
  }

  /** A resumed row is queued from now on, not finished, and keeps its pin, its priority and its counts. */
  lemma RowBackInLine(r: Row, now: int)
    ensures var b := BackInLine(r, now);
            && b.status == Queued && b.finishedAt == None && b.queuedAt == Some(now)
            && b.pinned == r.pinned && b.pinnedAt == r.pinnedAt && b.priority == r.priority && b.worker == r.worker
            && b.completedItems == r.completedItems && b.failedItems == r.failedItems
  {
  }

  /** Who may ask for what, status by status. */
  lemma AcceptedExactly(st: Status, gone: bool, there: bool, some: bool)
    ensures Accepted(st, Stop(Cancel, gone)) <==> st in {Queued, Running, Paused}
    ensures Accepted(st, Stop(Pause, gone)) <==> st in {Queued, Running}
    ensures Accepted(st, Resume(there)) <==> there && st in {Paused, Failed, Canceled}
    ensures Accepted(st, Retry(there, some)) <==> there && some && st in {Status.Finished, Failed, Canceled}
    ensures Accepted(st, Reprioritize) <==> st == Queued
    ensures Accepted(st, Delete) <==> st in {Paused, Failed, Canceled, Status.Finished}
  {
  }

  /** The desk at one moment. */
  datatype Snapshot = Snapshot(
    rows: map<JobId, Row>, signals: map<JobId, Signal>, scores: map<JobId, int>, leases: set<JobId>)

  function FactsIn(d: Snapshot, j: JobId): Facts {
    Facts(
      if j in d.rows then d.rows[j].status else Deleted,
      j in d.scores,
      j in d.leases,
      if j in d.signals then d.signals[j] else NoSignal)
  }

  /** The request was served for this job, and nothing that concerns another has changed. */
  predicate DidTo(a: Snapshot, b: Snapshot, j: JobId, r: Request) {
    && b.rows - {j} == a.rows - {j} && b.signals - {j} == a.signals - {j}
    && b.scores - {j} == a.scores - {j} && b.leases - {j} == a.leases - {j}
    && FactsIn(b, j) == Result(FactsIn(a, j), r)
  }

  lemma OthersUntouched(a: Snapshot, b: Snapshot, j: JobId, r: Request, k: JobId)
    requires DidTo(a, b, j, r) && k != j
    ensures FactsIn(b, k) == FactsIn(a, k)
  {
    assert k in b.rows - {j} <==> k in a.rows - {j};
    assert k in b.rows - {j} ==> (b.rows - {j})[k] == (a.rows - {j})[k];
    assert k in b.signals - {j} <==> k in a.signals - {j};
    assert k in b.signals - {j} ==> (b.signals - {j})[k] == (a.signals - {j})[k];
    assert k in b.scores - {j} <==> k in a.scores - {j};
    assert k in b.leases - {j} <==> k in a.leases - {j};
  }

  /** The live progress of a job, completed and failed. */
  type Progress = JobId -> (nat, nat)

  predicate PausedRow(now: Row, was: Row, paused: bool, gone: bool, live: (nat, nat)) {
    now == if paused then StopRow(was, Stop(Pause, gone), live.0, live.1, 0) else was
  }

  /** Of the desk at `was`, the jobs in `done` are paused by now, and no other is touched. */
  predicate Handled(was: Snapshot, now: Snapshot, done: set<JobId>, gone: set<JobId>, live: Progress, j: JobId) {
    && PausedIf(j in done, FactsIn(was, j), FactsIn(now, j), j in gone)
    && (j in now.rows <==> j in was.rows)
    && (j in was.rows ==> PausedRow(now.rows[j], was.rows[j], j in done, j in gone, live(j)))
  }

  lemma NextHandled(was: Snapshot, a: Snapshot, b: Snapshot, done: set<JobId>, gone: set<JobId>, live: Progress,
                    j: JobId, k: JobId)
    requires DidTo(a, b, j, Stop(Pause, j in gone)) && j !in done && j in a.rows && j in b.rows
    requires PausedRow(b.rows[j], a.rows[j], true, j in gone, live(j))
    requires Handled(was, a, done, gone, live, j) && Handled(was, a, done, gone, live, k)
    ensures Handled(was, b, done + {j}, gone, live, k)
  {
    if k != j {
      OthersUntouched(a, b, j, Stop(Pause, j in gone), k);
      assert k in b.rows - {j} <==> k in a.rows - {j};
      assert k in b.rows - {j} ==> (b.rows - {j})[k] == (a.rows - {j})[k];
    }
  }

  class Desk {
    var rows: map<JobId, Row>
    var signals: map<JobId, Signal>
    var scores: map<JobId, int>
    var leases: set<JobId>

    function Now(): Snapshot
      reads this
    {
      Snapshot(rows, signals, scores, leases)
    }

    function View(j: JobId): Facts
      reads this
    {
      FactsIn(Now(), j)
    }

    twostate predicate Did(j: JobId, r: Request)
      reads this
    {
      DidTo(old(Now()), Now(), j, r)
    }

    /** The answer to a request, by the row it finds. */
    twostate predicate Answered(j: JobId, r: Request, reply: Reply)
      reads this
    {
      && (reply.NotFound? <==> j !in old(rows))
      && (reply.Done? <==> j in old(rows) && Accepted(old(View(j)).status, r))
      && (!reply.Done? ==> rows == old(rows))
    }

    /** `enqueue_job`. */
    method EnqueueJob(j: JobId, keepPosition: bool, now: int)
      requires j in rows
      modifies this`scores
      ensures scores == old(scores)[j := Scores.ScoreOf(Placed(rows[j], keepPosition, now))]
    {
      var row := rows[j];
      var ts := now;
      if row.pinned {
        ts := if row.pinnedAt.Some? then row.pinnedAt.value else now;
      } else if keepPosition {
        ts := if row.queuedAt.Some? then row.queuedAt.value else now;
      }
      scores := scores[j := Scores.Score(row.priority, row.pinned, ts)];
    }

    /** `queue.remove`, as far as this job's entry and lease go. */
    method Remove(j: JobId)
      modifies this`scores, this`leases
      ensures scores == old(scores) - {j} && leases == old(leases) - {j}
    {
      scores := scores - {j};
      leases := leases - {j};
    }

    /** `cancel_job`; `completed` and `failed` are the live progress. */
    method CancelJob(j: JobId, gone: bool, completed: nat, failed: nat, now: int) returns (reply: Reply)
      modifies this
      ensures Did(j, Stop(Cancel, gone)) && Answered(j, Stop(Cancel, gone), reply)
      ensures reply.Done? ==>
        j in rows && rows[j] == StopRow(old(rows[j]), Stop(Cancel, gone), completed, failed, now)
    {
      if j !in rows {
        return NotFound;
      }
      var status := rows[j].status;
      if !CanCancel(status) {
        return BadRequest;
      }
      signals := signals[j := Cancel];
      Remove(j);
      if status.Running? && gone {
        rows := rows[j := Stopped(Orphan(rows[j], completed, failed), Cancel, now)];
      } else if !status.Running? {
        rows := rows[j := Stopped(rows[j], Cancel, now)];
        signals := signals - {j};
      }
      return Done;
    }

    /** `pause_job` and `_pause`; `direct` is whether the job is paused already, rather than by its
        worker later. */
    method PauseJob(j: JobId, gone: bool, completed: nat, failed: nat) returns (reply: Reply, direct: bool)
      modifies this
      ensures Did(j, Stop(Pause, gone)) && Answered(j, Stop(Pause, gone), reply)
      ensures reply.Done? ==>
        j in rows && rows[j] == StopRow(old(rows[j]), Stop(Pause, gone), completed, failed, 0)
      ensures direct <==> reply.Done? && (old(rows[j].status).Queued? || gone)
    {
      if j !in rows {
        return NotFound, false;
      }
      var status := rows[j].status;
      if !Live(status) {
        return BadRequest, false;
      }
      signals := signals[j := Pause];
      Remove(j);
      if status.Running? && gone {
        rows := rows[j := Orphan(rows[j], completed, failed).(status := Paused)];
        return Done, true;
      }
      if status.Queued? {
        rows := rows[j := rows[j].(status := Paused)];
        signals := signals - {j};
        return Done, true;
      }
      return Done, false;
    }

    /** The jobs `pause_all_jobs` finds. */
    function LiveJobs(): set<JobId>
      reads this
    {
      set j | j in rows && Live(rows[j].status)
    }

    /** Those a pause leaves to their workers. */
    function Staying(gone: set<JobId>): set<JobId>
      reads this
    {
      set j | j in rows && rows[j].status.Running? && j !in gone
    }

    /** `pause_all_jobs`: every queued or running job is paused as by `_pause`, each once and in any
        order, and no other job is touched. */
    method PauseAll(gone: set<JobId>, live: Progress) returns (paused: nat, signaled: nat)
      modifies this
      ensures forall j :: Handled(old(Now()), Now(), old(LiveJobs()), gone, live, j)
      ensures paused + signaled == |old(LiveJobs())| && signaled == |old(Staying(gone))|
    {
      var rest := LiveJobs();
      ghost var was, all, stay, done: set<JobId> := Now(), rest, Staying(gone), {};
      paused, signaled := 0, 0;
      while rest != {}
        invariant done !! rest && done + rest == all
        invariant forall j :: Handled(was, Now(), done, gone, live, j)
        invariant paused + signaled == |done| && signaled == |done * stay|
        decreases rest
      {
        var j :| j in rest;
        OneMore(done, stay, j);
        assert Handled(was, Now(), done, gone, live, j);
        var direct := PauseNext(j, gone, live, done, was);
        rest, done := rest - {j}, done + {j};
        paused, signaled := paused + (if direct then 1 else 0), signaled + (if direct then 0 else 1);
      }
      assert done == all && all * stay == stay;
    }

    /** One round of its loop. */
    method PauseNext(j: JobId, gone: set<JobId>, live: Progress, ghost done: set<JobId>, ghost was: Snapshot)
      returns (direct: bool)
      requires forall k :: Handled(was, Now(), done, gone, live, k)
      requires j !in done && Live(FactsIn(was, j).status)
      modifies this
      ensures forall k :: Handled(was, Now(), done + {j}, gone, live, k)
      ensures direct <==> !(FactsIn(was, j).status.Running? && j !in gone)
    {
      ghost var before := Now();
      assert Handled(was, before, done, gone, live, j);
      var _, now := PauseJob(j, j in gone, live(j).0, live(j).1);
      direct := now;
      forall k ensures Handled(was, Now(), done + {j}, gone, live, k) {
        assert Handled(was, before, done, gone, live, k);
        NextHandled(was, before, Now(), done, gone, live, j, k);
      }
    }

    /** `resume_job`; `preempt` is whether its model's other jobs are to make way. */
    method ResumeJob(j: JobId, there: bool, now: int) returns (reply: Reply, preempt: bool)
      modifies this
      ensures Did(j, Resume(there)) && Answered(j, Resume(there), reply)
      ensures reply.Done? ==>
        && j in rows && rows[j] == BackInLine(old(rows[j]), now)
        && j in scores && scores[j] == Scores.ScoreOf(Placed(rows[j], false, now))
      ensures preempt <==> reply.Done? && old(rows[j].pinned)
    {
      if j !in rows {
        return NotFound, false;
      }
      if !CanResume(rows[j].status) || !there {
        return BadRequest, false;
      }
      signals := signals - {j};
      rows := rows[j := rows[j].(status := Queued, finishedAt := None, queuedAt := Some(now))];
      EnqueueJob(j, false, now);
      return Done, rows[j].pinned;
    }

    /** `retry_failed`; the error file's own part is `Runs.ClearErrors`. */
    method RetryFailed(j: JobId, there: bool, now: int) returns (reply: Reply)
      modifies this
      ensures var r := Retry(there, j in old(rows) && old(rows[j].failedItems) > 0); Did(j, r) && Answered(j, r, reply)
      ensures reply.Done? ==>
        && j in rows && rows[j] == BackInLine(old(rows[j]), now).(failedItems := 0)
        && j in scores && scores[j] == Scores.ScoreOf(Placed(rows[j], false, now))
    {
      if j !in rows {
        return NotFound;
      }
      var row := rows[j];
      if !CanRetry(row.status) || row.failedItems == 0 || !there {
        return BadRequest;
      }
      rows := rows[j := row.(failedItems := 0, status := Queued, finishedAt := None, queuedAt := Some(now))];
      signals := signals - {j};
      EnqueueJob(j, false, now);
      return Done;
    }

    /** `patch_job` with a new priority. */
    method PatchPriority(j: JobId, priority: nat, now: int) returns (reply: Reply)
      modifies this
      ensures Did(j, Reprioritize) && Answered(j, Reprioritize, reply)
      ensures reply.Done? ==>
        && j in rows && rows[j] == old(rows[j]).(priority := priority)
        && j in scores && scores[j] == Scores.ScoreOf(Placed(rows[j], false, now))
    {
      if j !in rows {
        return NotFound;
      }
      if !rows[j].status.Queued? {
        return BadRequest;
      }
      rows := rows[j := rows[j].(priority := priority)];
      Remove(j);
      EnqueueJob(j, false, now);
      return Done;
    }

    /** `delete_job`, without its files and its last cut. */
    method DeleteJob(j: JobId) returns (reply: Reply)
      modifies this
      ensures Did(j, Delete) && Answered(j, Delete, reply)
    {
      if j !in rows {
        return NotFound;
      }
      if Live(rows[j].status) {
        return BadRequest;
      }
      rows := rows - {j};
      Remove(j);
      signals := signals - {j};
      return Done;
    }

    /** `requeue_preempted`, after the release: at its old place if the job goes back to the queue. */
    method RequeuePreempted(j: JobId, now: int)
      modifies this
      ensures Did(j, HandBack)
      ensures j in rows && rows[j].status.Queued? ==>
        rows == old(rows) && j in scores && scores[j] == Scores.ScoreOf(Placed(rows[j], true, now))
      ensures j in old(rows) && old(rows[j].status).Queued? && old(Wished(View(j))) ==>
        j in rows && rows[j] == Stopped(old(rows[j]), old(signals[j]), now)
      ensures !(j in rows && rows[j].status.Queued?) ==> scores == old(scores)
    {
      if j !in rows || !rows[j].status.Queued? {
        return;
      }
      if j in signals && (signals[j].Cancel? || signals[j].Pause?) {
        rows := rows[j := Stopped(rows[j], signals[j], now)];
        signals := signals - {j};
        return;
      }
      signals := signals - {j};
      EnqueueJob(j, true, now);
    }
  }

  lemma OneMore(done: set<JobId>, stay: set<JobId>, j: JobId)
    requires j !in done
    ensures |done + {j}| == |done| + 1
    ensures |(done + {j}) * stay| == |done * stay| + if j in stay then 1 else 0
  {
    if j in stay {
      assert (done + {j}) * stay == done * stay + {j};
    } else {
      assert (done + {j}) * stay == done * stay;
    }
  }

  predicate PausedIf(live: bool, before: Facts, after: Facts, gone: bool) {
    after == if live then Result(before, Stop(Pause, gone)) else before
  }

  /** What a pause of everything leaves behind, job by job: none queued; none running without the signal;
      and an attended job is left to nobody exactly if it runs, by its row, under a worker not found gone,
      though none has it. */
  lemma PauseAllLeaves(before: Facts, after: Facts, gone: bool, h: Holder)
    requires PausedIf(Live(before.status), before, after, gone)
    ensures Live(after.status) ==> after.status.Running? && after.signal.Pause? && !after.inQueue
    ensures Inv(In(before, h)) && Attended(In(before, h)) ==>
      Inv(In(after, h)) && (Attended(In(after, h)) <==> !(before.status.Running? && !gone && h.Nobody?))
  {
    var t := Serve(Stop(Pause, gone));
    if Inv(In(before, h)) && Attended(In(before, h)) && Live(before.status) {
      TurnKeepsInv(In(before, h), t);
      TurnLosesIff(In(before, h), t);
      assert Take(In(before, h), t) == In(after, h);
    }
  }
}
