/** The runs of one job (worker/runner.py: `run`, `_dispatch`, `_bump`, `_finalize`) over its result
    files: each run rescans the files, dispatches the items that are not done yet, and ends by
    completion, by a stop, or by a crash that loses whatever the writer still buffers. */
module Runs {
  import opened TokenCounts
  import opened Results

  datatype Option<T> = None | Some(value: T)

  datatype StopKind = Cancel | Pause | Requeue

  datatype Verdict = Succeeded | Completed | Stopped(kind: StopKind)

  datatype Tally = Tally(completed: nat, failed: nat, tokens: Tokens)

  /** Where the dispatch loop stands. `pending` are created and unfinished tasks, `inRequest` those
      past the semaphore; `requested` is history: the items this run has sent to the model. */
  datatype Dispatch = Dispatch(
    done: set<nat>,
    cursor: nat,
    pending: set<nat>,
    inRequest: set<nat>,
    requested: set<nat>,
    stop: Option<StopKind>)

  /** The job's files, and the memory of the run over them when there is one. */
  datatype Session = Session(
    total: nat,
    concurrency: nat,
    output: seq<Line>,
    errors: seq<Line>,
    active: bool,
    work: Dispatch,
    tally: Tally,
    outBuf: seq<Line>,
    errBuf: seq<Line>,
    verdict: Option<Verdict>)

  datatype Event =
    | Start
    | Advance
    | BeginRequest(index: nat)
    | SkipTask(index: nat)
    | Succeed(index: nat, usage: Tokens)
    | Fail(index: nat)
    | StopSignal(kind: StopKind)
    | FlushOutput
    | FlushErrors
    | Finish
    | Break
    | Crash
    | ClearErrors

  function OutLog(s: Session): seq<Line> {
    s.output + s.outBuf
  }

  function ErrLog(s: Session): seq<Line> {
    s.errors + s.errBuf
  }

  /** Every index with a result, on disk or still buffered. */
  function Recorded(s: Session): set<nat> {
    Indices(OutLog(s)) + Indices(ErrLog(s))
  }

  function TallyOf(st: ResumeState): Tally {
    Tally(st.completed, st.failed, st.tokens)
  }

  /** When each step can happen. */
  predicate Enabled(s: Session, e: Event) {
    var d := s.work;
    match e
    case Start => !s.active
    case ClearErrors => !s.active
    case Advance => s.active && d.cursor < s.total && d.stop.None?
                    && (d.cursor in d.done || |d.pending| < 4 * s.concurrency)
    case BeginRequest(i) => s.active && i in d.pending - d.inRequest && d.stop.None? && |d.inRequest| < s.concurrency
    case SkipTask(i) => s.active && i in d.pending - d.inRequest && d.stop.Some?
    case Succeed(i, _) => s.active && i in d.inRequest
    case Fail(i) => s.active && i in d.inRequest
    case Finish => s.active && d.cursor == s.total && d.pending == {}
    case Break => s.active && d.cursor < s.total && d.stop.Some?
    case _ => s.active
  }

  function Leave(d: Dispatch, i: nat): Dispatch {
    d.(pending := d.pending - {i}, inRequest := d.inRequest - {i})
  }

  /** The steps that change the dispatch bookkeeping only. */
  function Move(d: Dispatch, e: Event): Dispatch {
    match e
    case Advance =>
      if d.cursor in d.done then d.(cursor := d.cursor + 1)
      else d.(cursor := d.cursor + 1, pending := d.pending + {d.cursor})
    case BeginRequest(i) => d.(inRequest := d.inRequest + {i}, requested := d.requested + {i})
    case SkipTask(i) => Leave(d, i)
    case StopSignal(k) => d.(stop := Some(k))
    case _ => d
  }

  function BeginRun(s: Session): Session {
    var st := Scan(s.output, s.errors);
    s.(active := true, work := Dispatch(st.done, 0, {}, {}, {}, None), tally := TallyOf(st),
       outBuf := [], errBuf := [], verdict := None)
  }

  function LogSuccess(s: Session, i: nat, u: Tokens): Session {
    s.(work := Leave(s.work, i), outBuf := s.outBuf + [Entry(i, u)],
       tally := Tally(s.tally.completed + 1, s.tally.failed, Add(s.tally.tokens, u)))
  }

  function LogFailure(s: Session, i: nat): Session {
    s.(work := Leave(s.work, i), errBuf := s.errBuf + [Entry(i, Zero())],
       tally := s.tally.(failed := s.tally.failed + 1))
  }

  function EndRun(s: Session, v: Verdict): Session {
    s.(output := OutLog(s), errors := ErrLog(s), outBuf := [], errBuf := [], active := false, verdict := Some(v))
  }

  /** `self._stop_status or JobStatus.canceled`. */
  function StopStatus(d: Dispatch): StopKind {
    if d.stop.Some? then d.stop.value else Cancel
  }

  /** The status `run` returns after the dispatch loop has gone through every item. */
  function VerdictAtEnd(s: Session): Verdict {
    if s.work.stop.Some? && s.tally.completed + s.tally.failed < s.total then Stopped(StopStatus(s.work))
    else if s.tally.failed == 0 then Succeeded else Completed
  }

  function Step(s: Session, e: Event): Session {
    match e
    case Start => BeginRun(s)
    case ClearErrors => s.(errors := [])
    case Succeed(i, u) => LogSuccess(s, i, u)
    case Fail(i) => LogFailure(s, i)
    case FlushOutput => s.(output := OutLog(s), outBuf := [])
    case FlushErrors => s.(errors := ErrLog(s), errBuf := [])
    case Finish => EndRun(s, VerdictAtEnd(s))
    case Break => EndRun(s, Stopped(StopStatus(s.work)))
    case Crash => s.(active := false, outBuf := [], errBuf := [], verdict := None)
    case _ => s.(work := Move(s.work, e))
  }

  predicate EnabledRun(s: Session, es: seq<Event>)
    decreases es
  {
    es == [] || (Enabled(s, es[0]) && EnabledRun(Step(s, es[0]), es[1..]))
  }

  function Run(s: Session, es: seq<Event>): Session
    decreases es
  {
    if es == [] then s else Run(Step(s, es[0]), es[1..])
  }

  // ------------------------------------------------------------------ the invariant

  predicate Below(xs: set<nat>, n: nat) {
    forall x | x in xs :: x < n
  }

  /** Dispatch bookkeeping: what has been dispatched, what is under way, and where the rest went. */
  predicate DispatchSound(total: nat, concurrency: nat, d: Dispatch, recorded: set<nat>) {
    && d.cursor <= total
    && d.inRequest <= d.pending && |d.pending| <= 4 * concurrency && |d.inRequest| <= concurrency
    && Below(d.pending, d.cursor) && Below(d.requested, d.cursor)
    && d.pending !! recorded
    && d.inRequest <= d.requested && (d.pending - d.inRequest) !! d.requested
    && d.requested !! d.done
    && recorded == d.done + (d.requested - d.inRequest)
    && (forall i | 0 <= i < d.cursor :: i in recorded || i in d.pending || d.stop.Some?)
  }

  /** The two logs, disk plus buffer: no index twice, every index in range. */
  predicate LogsSound(s: Session) {
    && NoDuplicates(OutLog(s), ErrLog(s))
    && Below(Recorded(s), s.total)
    && (!s.active ==> s.outBuf == [] && s.errBuf == [])
  }

  predicate RunSound(s: Session) {
    s.active ==>
      && s.tally == TallyOf(Scan(OutLog(s), ErrLog(s)))
      && s.work.done <= Indices(s.output) + Indices(s.errors)
      && DispatchSound(s.total, s.concurrency, s.work, Recorded(s))
  }

  predicate Inv(s: Session) {
    s.concurrency > 0 && LogsSound(s) && RunSound(s)
  }

  lemma FreshDispatch(total: nat, concurrency: nat, done: set<nat>)
    ensures DispatchSound(total, concurrency, Dispatch(done, 0, {}, {}, {}, None), done)
  {
  }

  lemma StartPreserves(s: Session)
    requires Inv(s) && !s.active
    ensures Inv(BeginRun(s))
  {
    var t := BeginRun(s);
    ScanMeaning(s.output, s.errors);
    assert OutLog(s) == OutLog(t) == s.output && ErrLog(s) == ErrLog(t) == s.errors;
    FreshDispatch(s.total, s.concurrency, t.work.done);
    assert Recorded(t) == t.work.done;
  }

  lemma CreateSound(total: nat, concurrency: nat, d: Dispatch, recorded: set<nat>)
    requires DispatchSound(total, concurrency, d, recorded)
    requires d.cursor < total && d.stop.None? && (d.cursor in d.done || |d.pending| < 4 * concurrency)
    ensures DispatchSound(total, concurrency, Move(d, Advance), recorded)
  {
  }

  lemma SendSound(total: nat, concurrency: nat, d: Dispatch, recorded: set<nat>, i: nat)
    requires DispatchSound(total, concurrency, d, recorded)
    requires i in d.pending - d.inRequest && |d.inRequest| < concurrency
    ensures DispatchSound(total, concurrency, Move(d, BeginRequest(i)), recorded)
  {
  }

  lemma SkipSound(total: nat, concurrency: nat, d: Dispatch, recorded: set<nat>, i: nat)
    requires DispatchSound(total, concurrency, d, recorded)
    requires i in d.pending - d.inRequest && d.stop.Some?
    ensures DispatchSound(total, concurrency, Move(d, SkipTask(i)), recorded)
  {
  }

  lemma MovePreserves(s: Session, e: Event)
    requires Inv(s) && Enabled(s, e) && (e.Advance? || e.BeginRequest? || e.SkipTask? || e.StopSignal?)
    ensures Inv(s.(work := Move(s.work, e)))
  {
    match e {
      case Advance => CreateSound(s.total, s.concurrency, s.work, Recorded(s));
      case BeginRequest(i) => SendSound(s.total, s.concurrency, s.work, Recorded(s), i);
      case SkipTask(i) => SkipSound(s.total, s.concurrency, s.work, Recorded(s), i);
      case _ =>
    }
    var s' := s.(work := Move(s.work, e));
    assert OutLog(s') == OutLog(s) && ErrLog(s') == ErrLog(s);
  }

  lemma LeaveSound(total: nat, concurrency: nat, d: Dispatch, i: nat, recorded: set<nat>)
    requires DispatchSound(total, concurrency, d, recorded) && i in d.inRequest
    ensures DispatchSound(total, concurrency, Leave(d, i), recorded + {i})
  {
  }

  lemma OneMoreSuccess(output: seq<Line>, errors: seq<Line>, x: Line)
    requires NoDuplicates(output, errors) && x.Entry? && x.index !in Indices(output) + Indices(errors)
    ensures NoDuplicates(output + [x], errors)
    ensures Indices(output + [x]) == Indices(output) + {x.index}
    ensures Scan(output + [x], errors) == Count(Scan(output, errors), x, false)
    ensures x.index !in Scan(output, errors).done
  {
    IndicesSnoc(output, x);
    ScanMeaning(output, errors);
    ScanAppendSuccess(output, errors, x);
  }

  lemma OneMoreFailure(output: seq<Line>, errors: seq<Line>, x: Line)
    requires NoDuplicates(output, errors) && x.Entry? && x.index !in Indices(output) + Indices(errors)
    ensures NoDuplicates(output, errors + [x])
    ensures Indices(errors + [x]) == Indices(errors) + {x.index}
    ensures Scan(output, errors + [x]) == Count(Scan(output, errors), x, true)
    ensures x.index !in Scan(output, errors).done
  {
    IndicesSnoc(errors, x);
    ScanMeaning(output, errors);
    ScanAppendError(output, errors, x);
  }

  lemma SuccessLogs(s: Session, i: nat, u: Tokens)
    requires LogsSound(s) && s.active && i < s.total && i !in Recorded(s)
    requires s.tally == TallyOf(Scan(OutLog(s), ErrLog(s)))
    ensures var s' := LogSuccess(s, i, u);
            LogsSound(s') && Recorded(s') == Recorded(s) + {i} && s'.tally == TallyOf(Scan(OutLog(s'), ErrLog(s')))
  {
    assert OutLog(LogSuccess(s, i, u)) == OutLog(s) + [Entry(i, u)];
    OneMoreSuccess(OutLog(s), ErrLog(s), Entry(i, u));
  }

  lemma FailureLogs(s: Session, i: nat)
    requires LogsSound(s) && s.active && i < s.total && i !in Recorded(s)
    requires s.tally == TallyOf(Scan(OutLog(s), ErrLog(s)))
    ensures var s' := LogFailure(s, i);
            LogsSound(s') && Recorded(s') == Recorded(s) + {i} && s'.tally == TallyOf(Scan(OutLog(s'), ErrLog(s')))
  {
    assert ErrLog(LogFailure(s, i)) == ErrLog(s) + [Entry(i, Zero())];
    OneMoreFailure(OutLog(s), ErrLog(s), Entry(i, Zero()));
  }

  lemma SuccessPreserves(s: Session, i: nat, u: Tokens)
    requires Inv(s) && s.active && i in s.work.inRequest
    ensures Inv(LogSuccess(s, i, u))
  {
    SuccessLogs(s, i, u);
    LeaveSound(s.total, s.concurrency, s.work, i, Recorded(s));
  }

  lemma FailurePreserves(s: Session, i: nat)
    requires Inv(s) && s.active && i in s.work.inRequest
    ensures Inv(LogFailure(s, i))
  {
    FailureLogs(s, i);
    LeaveSound(s.total, s.concurrency, s.work, i, Recorded(s));
  }

  lemma FlushPreserves(s: Session, e: Event)
    requires Inv(s) && Enabled(s, e) && (e.FlushOutput? || e.FlushErrors?)
    ensures Inv(Step(s, e))
  {
    var s' := Step(s, e);
    assert OutLog(s') == OutLog(s) && ErrLog(s') == ErrLog(s);
    IndicesConcat(s.output, s.outBuf);
    IndicesConcat(s.errors, s.errBuf);
  }

  lemma EndPreserves(s: Session, v: Verdict)
    requires Inv(s) && s.active
    ensures Inv(EndRun(s, v))
  {
    var s' := EndRun(s, v);
    assert OutLog(s') == OutLog(s) && ErrLog(s') == ErrLog(s);
  }

  /** What a crash leaves on disk is a prefix of a duplicate-free log, so still duplicate-free. */
  lemma CrashPreserves(s: Session)
    requires Inv(s) && s.active
    ensures Inv(Step(s, Crash))
  {
    var s' := Step(s, Crash);
    IndicesConcat(s.output, s.outBuf);
    IndicesConcat(s.errors, s.errBuf);
    assert OutLog(s') == s.output && ErrLog(s') == s.errors;
  }

  lemma ClearErrorsPreserves(s: Session)
    requires Inv(s) && !s.active
    ensures Inv(s.(errors := []))
  {
  }

  lemma StepPreservesInv(s: Session, e: Event)
    requires Inv(s) && Enabled(s, e)
    ensures Inv(Step(s, e))
  {
    match e
    case Start => StartPreserves(s);
    case ClearErrors => ClearErrorsPreserves(s);
    case Succeed(i, u) => SuccessPreserves(s, i, u);
    case Fail(i) => FailurePreserves(s, i);
    case FlushOutput => FlushPreserves(s, e);
    case FlushErrors => FlushPreserves(s, e);
    case Finish => EndPreserves(s, VerdictAtEnd(s));
    case Break => EndPreserves(s, Stopped(StopStatus(s.work)));
    case Crash => CrashPreserves(s);
    case _ => MovePreserves(s, e);
  }

  /** Main result on resuming: over any sequence of runs no index is ever recorded twice, the
      counters in memory always equal a rescan of disk plus buffer, and dispatch stays bounded. */
  lemma {:induction false} AnyRunsKeepInv(s: Session, es: seq<Event>)
    requires Inv(s) && EnabledRun(s, es)
    ensures var t := Run(s, es);
            && Inv(t) && NoDuplicates(OutLog(t), ErrLog(t))
            && (t.active ==>
                  && t.tally == TallyOf(Scan(OutLog(t), ErrLog(t)))
                  && |t.work.pending| <= 4 * t.concurrency && |t.work.inRequest| <= t.concurrency)
    decreases es
  {
    if es != [] {
      StepPreservesInv(s, es[0]);
      AnyRunsKeepInv(Step(s, es[0]), es[1..]);
    }
  }

  predicate SameRun(e: Event) {
    !e.Start? && !e.Finish? && !e.Break? && !e.Crash? && !e.ClearErrors?
  }

  lemma {:induction false} RequestsAccumulate(s: Session, es: seq<Event>)
    requires s.active && EnabledRun(s, es) && (forall e <- es :: SameRun(e))
    ensures var t := Run(s, es);
            && t.active && t.work.done == s.work.done
            && s.output <= t.output && s.errors <= t.errors
            && s.work.requested <= t.work.requested
            && (forall e <- es :: e.BeginRequest? ==> e.index in t.work.requested)
    decreases es
  {
    if es != [] {
      assert es[0] in es;
      assert forall e <- es[1..] :: e in es;
      assert forall e <- es :: e == es[0] || e in es[1..];
      RequestsAccumulate(Step(s, es[0]), es[1..]);
    }
  }

  /** Within one run, whatever happened since it started: an item whose result was on disk at the
      start is not sent again, no item is sent twice, and the files are only ever appended to. */
  lemma NothingSentTwice(s: Session, es: seq<Event>, i: nat)
    requires Inv(s) && !s.active && EnabledRun(BeginRun(s), es) && (forall e <- es :: SameRun(e))
    requires Enabled(Run(BeginRun(s), es), BeginRequest(i))
    ensures i !in Indices(s.output) + Indices(s.errors)
    ensures BeginRequest(i) !in es
    ensures s.output <= Run(BeginRun(s), es).output && s.errors <= Run(BeginRun(s), es).errors
  {
    var s1 := BeginRun(s);
    StartPreserves(s);
    ScanMeaning(s.output, s.errors);
    AnyRunsKeepInv(s1, es);
    RequestsAccumulate(s1, es);
    var t := Run(s1, es);
    assert DispatchSound(t.total, t.concurrency, t.work, Recorded(t));
  }

  // ------------------------------------------------------------------ which stop a run ends with

  /** The last stop asked for along these steps. */
  function LastStop(es: seq<Event>): Option<StopKind> {
    if es == [] then None
    else if es[|es| - 1].StopSignal? then Some(es[|es| - 1].kind)
    else LastStop(es[..|es| - 1])
  }

  lemma LastStopOf(e: Event, es: seq<Event>)
    ensures LastStop([e] + es) ==
      if LastStop(es).Some? then LastStop(es) else if e.StopSignal? then Some(e.kind) else None
    decreases |es|
  {
    if es == [] {
      assert ([e] + es)[..0] == [];
    } else {
      assert ([e] + es)[..|es|] == [e] + es[..|es| - 1];
      LastStopOf(e, es[..|es| - 1]);
    }
  }

  lemma {:induction false} StopIsRemembered(s: Session, es: seq<Event>)
    requires s.active && EnabledRun(s, es) && (forall e <- es :: SameRun(e))
    ensures Run(s, es).active
    ensures Run(s, es).work.stop == if LastStop(es).Some? then LastStop(es) else s.work.stop
    decreases es
  {
    if es != [] {
      assert es[0] in es;
      assert forall e <- es[1..] :: e in es;
      StopIsRemembered(Step(s, es[0]), es[1..]);
      assert es == [es[0]] + es[1..];
      LastStopOf(es[0], es[1..]);
    }
  }

  lemma BrokenOffByStop(t: Session)
    requires Enabled(t, Break)
    ensures t.work.stop.Some? && Step(t, Break).verdict == Some(Stopped(t.work.stop.value))
  {
  }

  lemma IncompleteByStop(t: Session)
    requires Inv(t) && Enabled(t, Finish) && Recorded(t) != Range(t.total)
    ensures t.work.stop.Some? && Step(t, Finish).verdict == Some(Stopped(t.work.stop.value))
  {
    StoppedMeansIncomplete(t);
  }

  /** A run ends with the stop that was asked for last: when its loop is broken off, and when it gets to
      the end with items missing. Without a stop it ends neither way. */
  lemma EndsWithTheLastStop(s: Session, es: seq<Event>)
    requires Inv(s) && !s.active && EnabledRun(BeginRun(s), es) && (forall e <- es :: SameRun(e))
    ensures var t := Run(BeginRun(s), es);
            && (Enabled(t, Break) ==>
                  LastStop(es).Some? && Step(t, Break).verdict == Some(Stopped(LastStop(es).value)))
            && (Enabled(t, Finish) && Recorded(t) != Range(t.total) ==>
                  LastStop(es).Some? && Step(t, Finish).verdict == Some(Stopped(LastStop(es).value)))
  {
    var b := BeginRun(s);
    StartPreserves(s);
    assert b.work.stop.None?;
    StopIsRemembered(b, es);
    InvAtEnd(b, es);
    var t := Run(b, es);
    if Enabled(t, Break) {
      BrokenOffByStop(t);
    }
    if Enabled(t, Finish) && Recorded(t) != Range(t.total) {
      IncompleteByStop(t);
    }
  }

  lemma InvAtEnd(s: Session, es: seq<Event>)
    requires Inv(s) && EnabledRun(s, es)
    ensures Inv(Run(s, es))
  {
    AnyRunsKeepInv(s, es);
  }

  // ------------------------------------------------------------------ completeness

  function Range(n: nat): (s: set<nat>)
    ensures |s| == n && (forall x :: x in s <==> 0 <= x < n)
  {
    if n == 0 then {} else
      var s := Range(n - 1);
      s + {n - 1}
  }

  /** The counting step: as many results as there are items, all of them in range, is every item. */
  lemma FullCount(xs: set<nat>, n: nat)
    requires Below(xs, n) && |xs| >= n
    ensures xs == Range(n)
  {
    var all := Range(n);
    assert xs <= all;
    assert |all - xs| == |all| - |xs|;
    assert all - xs == {};
  }

  lemma TallyCounts(s: Session)
    requires Inv(s) && s.active
    ensures s.tally.completed == |Indices(OutLog(s))| && s.tally.failed == |Indices(ErrLog(s))|
    ensures s.tally.completed + s.tally.failed == |Recorded(s)|
  {
    ScanMeaning(OutLog(s), ErrLog(s));
    var o, e := Indices(OutLog(s)), Indices(ErrLog(s));
    assert e - o == e;
  }

  lemma EveryItemRecorded(s: Session)
    requires Inv(s) && Enabled(s, Finish) && !VerdictAtEnd(s).Stopped?
    ensures Recorded(s) == Range(s.total)
  {
    if s.work.stop.None? {
      assert forall x | 0 <= x < s.total :: x in Recorded(s);
    } else {
      TallyCounts(s);
      FullCount(Recorded(s), s.total);
    }
  }

  /** A run that ends `succeeded` or `completed` has exactly one result for every item, even when a
      stop came in after the last task was created; and `succeeded` means not one failed. */
  lemma FinishedMeansComplete(s: Session)
    requires Inv(s) && Enabled(s, Finish) && !VerdictAtEnd(s).Stopped?
    ensures var t := Step(s, Finish);
            && t.verdict == Some(VerdictAtEnd(s))
            && NoDuplicates(t.output, t.errors)
            && Indices(t.output) + Indices(t.errors) == Range(s.total)
            && |Indices(t.output)| == s.tally.completed
            && |Indices(t.errors)| == s.tally.failed
            && s.tally.completed + s.tally.failed == s.total
            && (t.verdict == Some(Succeeded) <==> Indices(t.errors) == {})
  {
    TallyCounts(s);
    EveryItemRecorded(s);
    assert Step(s, Finish) == EndRun(s, VerdictAtEnd(s));
  }

  /** After the loop has gone through every item, the run ends stopped if and only if some item has
      no result. */
  lemma StoppedMeansIncomplete(s: Session)
    requires Inv(s) && Enabled(s, Finish)
    ensures VerdictAtEnd(s).Stopped? <==> Recorded(s) != Range(s.total)
    ensures Step(s, Finish).verdict == Some(VerdictAtEnd(s))
  {
    TallyCounts(s);
    if !VerdictAtEnd(s).Stopped? {
      EveryItemRecorded(s);
    }
  }

  // ------------------------------------------------------------------ an undisturbed run

  function FlushBoth(s: Session): Session {
    Step(Step(s, FlushOutput), FlushErrors)
  }

  /** The writer flushes both buffers as soon as one of them holds `flush` lines. */
  function Buffered(s: Session, flush: nat): Session {
    if |s.outBuf| >= flush || |s.errBuf| >= flush then FlushBoth(s) else s
  }

  /** One item from dispatch to recorded result, nothing else going on. */
  function AnsweredItem(s: Session, answer: Option<Tokens>): Session {
    var i := s.work.cursor;
    var s1 := Step(s, Advance);
    if i in s.work.done then s1
    else
      var s2 := Step(s1, BeginRequest(i));
      if answer.Some? then LogSuccess(s2, i, answer.value) else LogFailure(s2, i)
  }

  function OneItem(s: Session, answer: Option<Tokens>, flush: nat): Session {
    Buffered(AnsweredItem(s, answer), flush)
  }

  /** The rest of the items, one after the other. */
  function Items(s: Session, answer: nat -> Option<Tokens>, flush: nat): Session
    decreases s.total - s.work.cursor
  {
    if s.work.cursor >= s.total then s else Items(OneItem(s, answer(s.work.cursor), flush), answer, flush)
  }

  /** No task under way and no stop requested. */
  predicate Idle(s: Session) {
    s.active && s.work.pending == {} && s.work.inRequest == {} && s.work.stop.None? && s.work.cursor <= s.total
  }

  lemma BufferedPreserves(s: Session, flush: nat)
    requires Inv(s) && s.active
    ensures Inv(Buffered(s, flush))
  {
    FlushPreserves(s, FlushOutput);
    FlushPreserves(Step(s, FlushOutput), FlushErrors);
  }

  lemma AnsweredItemSound(s: Session, answer: Option<Tokens>)
    requires Inv(s) && Idle(s) && s.work.cursor < s.total
    ensures Inv(AnsweredItem(s, answer)) && Idle(AnsweredItem(s, answer))
  {
    var i := s.work.cursor;
    var s1 := Step(s, Advance);
    MovePreserves(s, Advance);
    if i !in s.work.done {
      var s2 := Step(s1, BeginRequest(i));
      assert s1.work.pending == {i};
      MovePreserves(s1, BeginRequest(i));
      if answer.Some? {
        SuccessPreserves(s2, i, answer.value);
      } else {
        FailurePreserves(s2, i);
      }
    }
  }

  /** The line an item's answer becomes, in the log it goes to. */
  predicate Logged(s: Session, i: nat, answer: Option<Tokens>) {
    if answer.Some? then Entry(i, answer.value) in OutLog(s) else Entry(i, Zero()) in ErrLog(s)
  }

  lemma BufferedKeepsLogs(s: Session, flush: nat)
    ensures var t := Buffered(s, flush);
            && OutLog(t) == OutLog(s) && ErrLog(t) == ErrLog(s)
            && s.output <= t.output && s.errors <= t.errors
            && t.work == s.work && t.total == s.total && t.active == s.active
  {
    assert OutLog(s) + [] == OutLog(s) && ErrLog(s) + [] == ErrLog(s);
  }

  lemma AnsweredItemEffect(s: Session, answer: Option<Tokens>)
    ensures var t := AnsweredItem(s, answer);
            && t.work.cursor == s.work.cursor + 1 && t.total == s.total && t.work.done == s.work.done
            && t.output == s.output && t.errors == s.errors
            && OutLog(s) <= OutLog(t) && ErrLog(s) <= ErrLog(t)
            && (s.work.cursor !in s.work.done ==> Logged(t, s.work.cursor, answer))
  {
    var t := AnsweredItem(s, answer);
    var i := s.work.cursor;
    if i !in s.work.done && answer.Some? {
      assert OutLog(t) == OutLog(s) + [Entry(i, answer.value)];
      assert Entry(i, answer.value) in OutLog(t);
    } else if i !in s.work.done {
      assert ErrLog(t) == ErrLog(s) + [Entry(i, Zero())];
      assert Entry(i, Zero()) in ErrLog(t);
    }
  }

  lemma OneItemEffect(s: Session, answer: Option<Tokens>, flush: nat)
    ensures var t := OneItem(s, answer, flush);
            && t.work.cursor == s.work.cursor + 1 && t.total == s.total && t.work.done == s.work.done
            && s.output <= t.output && s.errors <= t.errors
            && OutLog(s) <= OutLog(t) && ErrLog(s) <= ErrLog(t)
            && (s.work.cursor !in s.work.done ==> Logged(t, s.work.cursor, answer))
  {
    AnsweredItemEffect(s, answer);
    BufferedKeepsLogs(AnsweredItem(s, answer), flush);
  }

  predicate ReadyFor(t: Session, n: nat, total: nat) {
    Inv(t) && Idle(t) && t.work.cursor == n && t.total == total
  }

  lemma BufferedKeepsReady(s: Session, flush: nat, n: nat, total: nat)
    requires ReadyFor(s, n, total)
    ensures ReadyFor(Buffered(s, flush), n, total)
  {
    BufferedPreserves(s, flush);
    BufferedKeepsLogs(s, flush);
  }

  lemma OneItemKeeps(s: Session, answer: Option<Tokens>, flush: nat, t: Session)
    requires ReadyFor(s, s.work.cursor, s.total) && s.work.cursor < s.total && t == OneItem(s, answer, flush)
    ensures ReadyFor(t, s.work.cursor + 1, s.total)
  {
    AnsweredItemSound(s, answer);
    AnsweredItemEffect(s, answer);
    BufferedKeepsReady(AnsweredItem(s, answer), flush, s.work.cursor + 1, s.total);
  }

  lemma StartReady(s: Session)
    requires Inv(s) && !s.active
    ensures ReadyFor(BeginRun(s), 0, s.total)
  {
    StartPreserves(s);
  }

  lemma {:induction false} ItemsSound(s: Session, answer: nat -> Option<Tokens>, flush: nat)
    requires ReadyFor(s, s.work.cursor, s.total)
    ensures ReadyFor(Items(s, answer, flush), s.total, s.total)
    decreases s.total - s.work.cursor
  {
    if s.work.cursor < s.total {
      var t := OneItem(s, answer(s.work.cursor), flush);
      OneItemKeeps(s, answer(s.work.cursor), flush, t);
      ItemsSound(t, answer, flush);
    }
  }

  /** Every item before the cursor that was not done at the start has its line on disk or buffered. */
  predicate AllLogged(s: Session, answer: nat -> Option<Tokens>) {
    forall i | 0 <= i < s.work.cursor && i !in s.work.done :: Logged(s, i, answer(i))
  }

  lemma OneItemLogs(s: Session, answer: nat -> Option<Tokens>, flush: nat)
    requires AllLogged(s, answer)
    ensures AllLogged(OneItem(s, answer(s.work.cursor), flush), answer)
  {
    var t := OneItem(s, answer(s.work.cursor), flush);
    OneItemEffect(s, answer(s.work.cursor), flush);
    forall i | 0 <= i < t.work.cursor && i !in t.work.done ensures Logged(t, i, answer(i)) {
      assert i < s.work.cursor ==> Logged(s, i, answer(i));
    }
  }

  lemma {:induction false} ItemsLogged(s: Session, answer: nat -> Option<Tokens>, flush: nat)
    requires AllLogged(s, answer) && s.work.cursor <= s.total
    ensures var t := Items(s, answer, flush);
            && t.work.cursor == t.total == s.total && t.work.done == s.work.done
            && s.output <= t.output && s.errors <= t.errors
            && AllLogged(t, answer)
    decreases s.total - s.work.cursor
  {
    if s.work.cursor < s.total {
      OneItemEffect(s, answer(s.work.cursor), flush);
      OneItemLogs(s, answer, flush);
      ItemsLogged(OneItem(s, answer(s.work.cursor), flush), answer, flush);
    }
  }

  /** Does this item have its answer's line in the files? */
  predicate Answered(output: seq<Line>, errors: seq<Line>, i: nat, answer: Option<Tokens>) {
    if answer.Some? then Entry(i, answer.value) in output else Entry(i, Zero()) in errors
  }

  /** Exactly one result for every item, and `succeeded` precisely when none of them failed. */
  predicate CompleteResults(total: nat, output: seq<Line>, errors: seq<Line>, v: Verdict) {
    && !v.Stopped?
    && NoDuplicates(output, errors)
    && Indices(output) + Indices(errors) == Range(total)
    && (v.Succeeded? <==> Indices(errors) == {})
  }

  /** The files were only appended to, and every item that had no result got its answer's line. */
  predicate AnswersAppended(s: Session, answer: nat -> Option<Tokens>, output: seq<Line>, errors: seq<Line>) {
    && s.output <= output && s.errors <= errors
    && (forall i | 0 <= i < s.total && i !in Indices(s.output) + Indices(s.errors) ::
          Answered(output, errors, i, answer(i)))
  }

  lemma EndReady(e: Session)
    requires ReadyFor(e, e.total, e.total)
    ensures var t := EndRun(e, VerdictAtEnd(e));
            Inv(t) && CompleteResults(e.total, t.output, t.errors, VerdictAtEnd(e))
  {
    FinishedMeansComplete(e);
    EndPreserves(e, VerdictAtEnd(e));
  }

  lemma EndLogged(s: Session, answer: nat -> Option<Tokens>, e: Session)
    requires s.output <= e.output && s.errors <= e.errors && e.work.cursor == s.total && AllLogged(e, answer)
    requires e.work.done == Indices(s.output) + Indices(s.errors)
    ensures AnswersAppended(s, answer, OutLog(e), ErrLog(e))
  {
    forall i | 0 <= i < s.total && i !in Indices(s.output) + Indices(s.errors)
      ensures Answered(OutLog(e), ErrLog(e), i, answer(i))
    {
      assert Logged(e, i, answer(i));
    }
  }

  lemma ItemsComplete(s: Session, answer: nat -> Option<Tokens>, flush: nat, e: Session)
    requires Inv(s) && !s.active && e == Items(BeginRun(s), answer, flush)
    ensures var t := EndRun(e, VerdictAtEnd(e));
            && Inv(t) && CompleteResults(s.total, t.output, t.errors, VerdictAtEnd(e))
            && AnswersAppended(s, answer, t.output, t.errors)
  {
    StartReady(s);
    ItemsSound(BeginRun(s), answer, flush);
    EndReady(e);
    ScanMeaning(s.output, s.errors);
    ItemsLogged(BeginRun(s), answer, flush);
    EndLogged(s, answer, e);
  }

  // ------------------------------------------------------------------ the imperative form

  /** A job and the runner at work on it, its fields updated in place; the files and the buffers over
      them are the writer's. */
  class JobRunner {
    const total: nat
    const concurrency: nat
    var writer: ResultWriter
    var running: bool
    var loop: Dispatch
    var completed: nat
    var failed: nat
    var tokens: Tokens
    var verdict: Option<Verdict>

    ghost function View(): Session
      reads this, writer
    {
      Session(total, concurrency, writer.output, writer.errors, running, loop, Tally(completed, failed, tokens),
              writer.outBuf, writer.errBuf, verdict)
    }

    constructor (total: nat, concurrency: nat, flushSize: nat)
      requires concurrency > 0 && flushSize > 0
      ensures fresh(writer) && writer.Valid() && writer.flushSize == flushSize
      ensures Inv(View()) && this.total == total && writer.output == writer.errors == [] && !running
    {
      this.total, this.concurrency := total, concurrency;
      writer := new ResultWriter(flushSize, [], []);
      running, verdict := false, None;
      loop := Dispatch({}, 0, {}, {}, {}, None);
      completed, failed, tokens := 0, 0, Zero();
    }

    /** The start of `run`: rescan the files, take over what they say, and open a new writer. */
    method Resume()
      requires !running && writer.flushSize > 0
      modifies this
      ensures fresh(writer) && writer.Valid() && writer.flushSize == old(writer.flushSize)
      ensures View() == BeginRun(old(View()))
    {
      var st := ScanResumeState(writer.output, writer.errors);
      completed, failed, tokens := st.completed, st.failed, st.tokens;
      loop := Dispatch(st.done, 0, {}, {}, {}, None);
      running, verdict := true, None;
      writer := new ResultWriter(writer.flushSize, writer.output, writer.errors);
    }

    /** The next item of the input: skip it when it is done, else create its task. */
    method NextItem()
      requires running && loop.cursor < total
      modifies this`loop
      ensures View() == Step(old(View()), Advance)
    {
      var i := loop.cursor;
      loop := loop.(cursor := i + 1);
      if i !in loop.done {
        loop := loop.(pending := loop.pending + {i});
      }
    }

    /** A task gets through the semaphore and sends its request. */
    method SendRequest(i: nat)
      requires running
      modifies this`loop
      ensures View() == Step(old(View()), BeginRequest(i))
    {
      loop := loop.(inRequest := loop.inRequest + {i}, requested := loop.requested + {i});
    }

    /** `write_success` and `_bump(completed=1, ...)`. */
    method RecordSuccess(i: nat, usage: Tokens)
      requires running && writer.Valid()
      modifies this`completed, this`tokens, this`loop, writer
      ensures writer.Valid() && View() == Buffered(Step(old(View()), Succeed(i, usage)), writer.flushSize)
    {
      ghost var logged := Step(View(), Succeed(i, usage));
      writer.WriteSuccess(i, usage);
      assert OutLog(logged) == writer.output + writer.outBuf && ErrLog(logged) == writer.errors + writer.errBuf;
      assert writer.outBuf == [] ==> writer.output + [] == writer.output && writer.errors + [] == writer.errors;
      completed := completed + 1;
      tokens := Add(tokens, usage);
      loop := Leave(loop, i);
    }

    /** `write_failure` and `_bump(failed=1, ...)`. */
    method RecordFailure(i: nat)
      requires running && writer.Valid()
      modifies this`failed, this`loop, writer
      ensures writer.Valid() && View() == Buffered(Step(old(View()), Fail(i)), writer.flushSize)
    {
      ghost var logged := Step(View(), Fail(i));
      writer.WriteFailure(i);
      assert OutLog(logged) == writer.output + writer.outBuf && ErrLog(logged) == writer.errors + writer.errBuf;
      assert writer.errBuf == [] ==> writer.output + [] == writer.output && writer.errors + [] == writer.errors;
      failed := failed + 1;
      loop := Leave(loop, i);
    }

    /** The signal watcher or the biller sets the stop event. */
    method RequestStop(kind: StopKind)
      requires running
      modifies this`loop
      ensures View() == Step(old(View()), StopSignal(kind))
    {
      loop := loop.(stop := Some(kind));
    }

    /** The end of `_dispatch` and of `run`: decide the status, flush, forget the run. */
    method EndDispatch() returns (v: Verdict)
      requires running && writer.Valid()
      modifies this`running, this`verdict, writer
      ensures writer.Valid() && View() == EndRun(old(View()), v) && v == old(VerdictAtEnd(View()))
    {
      if loop.stop.Some? && completed + failed < total {
        v := Stopped(loop.stop.value);
      } else if failed == 0 {
        v := Succeeded;
      } else {
        v := Completed;
      }
      writer.Flush();
      running, verdict := false, Some(v);
    }

    /** One item from dispatch to recorded result, nothing else going on. */
    method ProcessItem(answer: Option<Tokens>)
      requires running && loop.cursor < total && writer.Valid()
      modifies this`completed, this`failed, this`tokens, this`loop, writer
      ensures writer.Valid() && View() == OneItem(old(View()), answer, writer.flushSize)
      ensures loop.cursor == old(loop.cursor) + 1
    {
      var i := loop.cursor;
      var skip := i in loop.done;
      NextItem();
      if !skip {
        SendRequest(i);
        if answer.Some? {
          RecordSuccess(i, answer.value);
        } else {
          RecordFailure(i);
        }
      }
    }

    /** A whole undisturbed run over whatever earlier runs left on disk: it ends with exactly one
        result for every item, and `succeeded` precisely when no item has failed in any run. */
    method RunToEnd(answer: nat -> Option<Tokens>) returns (v: Verdict)
      requires Inv(View()) && !running && writer.flushSize > 0
      modifies this
      ensures Inv(View()) && !running && fresh(writer) && writer.Valid()
      ensures CompleteResults(total, writer.output, writer.errors, v)
      ensures AnswersAppended(old(View()), answer, writer.output, writer.errors)
    {
      ghost var before := View();
      Resume();
      ghost var flush := writer.flushSize;
      ghost var w := writer;
      while loop.cursor < total
        invariant Items(View(), answer, flush) == Items(BeginRun(before), answer, flush)
        invariant running && writer == w && fresh(w) && w.Valid() && w.flushSize == flush
      {
        ProcessItem(answer(loop.cursor));
      }
      ItemsComplete(before, answer, flush, View());
      v := EndDispatch();
    }
  }
}
