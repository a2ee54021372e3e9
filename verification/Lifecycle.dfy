/** The life of one job: its database row, its place in Redis, the worker that has it and the API
    calls made on it (worker/main.py: `_run_job`; worker/runner.py: `run`, `_watch_signals`,
    `_finalize`; services/pins.py: `requeue_preempted`; api/jobs.py: the control handlers).
    Every step of every party is one event, and the parties interleave freely. */
module Lifecycle {
  /** `Finished` stands for succeeded and completed, `Deleted` for a row that is gone. */
  datatype Status = Queued | Running | Paused | Canceled | Failed | Finished | Deleted

  datatype Signal = NoSignal | Cancel | Pause | Requeue

  datatype Option<T> = None | Some(value: T)

  /** Where the worker that has the job stands: about to read the row; about to run it; running it,
      with the stop its watcher has seen and whether it is about to delete an outdated requeue signal; row written,
      signal still to clear; lease still to release. The rest is the hand-back after the release:
      row still to read; signal still to read; user's wish to store, then signal to clear; signal to
      drop, then job to put back. */
  datatype Holder =
    | Nobody
    | Starting
    | Loaded
    | Working(stop: Option<Status>, clearing: bool)
    | Ended(status: Status)
    | Leaving(status: Status)
    | Released
    | SawQueued
    | Deciding(status: Status)
    | Decided
    | Dropping
    | Reentering

  /** The API call under way. `ran` is whether a stop read `running`, `gone` whether it found the
      row's worker without a heartbeat. */
  datatype Call =
    | Idle
    | StopBegun(kind: Signal, ran: bool, gone: bool)
    | StopSignaled(kind: Signal, ran: bool, gone: bool)
    | StopRemoved(kind: Signal, ran: bool, gone: bool)
    | StopStored
    | ResumeBegun
    | ResumeCleared
    | RetryBegun
    | RetryStored
    | PatchBegun
    | DeleteBegun
    | DeleteStored
    | DeleteRemoved
    | MustEnqueue

  datatype State = State(
    status: Status,
    inQueue: bool,
    leased: bool,
    signal: Signal,
    holder: Holder,
    call: Call)

  datatype WorkEvent =
    | Claim
    | Load
    | Fail
    | TurnAway
    | PauseForBilling
    | MarkRunning
    | SeeSignal(blocked: bool)
    | WatchClear
    | BillingStops
    | Complete
    | ObeyStop

  datatype DepartEvent =
    | ClearEnd
    | Release
    | ReadRow
    | ReadSignal
    | Decide
    | ClearDecided
    | DropSignal
    | Reenter
    | Renew
    | Crash

  datatype ApiEvent =
    | CallStop(kind: Signal, gone: bool)
    | CallResume
    | CallRetry
    | CallPatch
    | CallDelete
    | Continue
    | ApiDies

  datatype Event =
    | Work(w: WorkEvent)
    | Depart(d: DepartEvent)
    | Api(a: ApiEvent)
    | Preempt
    | Reap

  // ------------------------------------------------------------------ the steps

  /** An `UPDATE` of a deleted row changes nothing. */
  function Store(s: State, st: Status): State {
    if s.status.Deleted? then s else s.(status := st)
  }

  predicate InHands(h: Holder) {
    h.Starting? || h.Loaded? || h.Working?
  }

  function StatusFor(k: Signal): Status {
    if k.Cancel? then Canceled else Paused
  }

  function DoSeeSignal(s: State, blocked: bool): State {
    if !s.holder.Working? || s.holder.stop.Some? then s else
      match s.signal
      case Cancel => s.(holder := s.holder.(stop := Some(Canceled)))
      case Pause => s.(holder := s.holder.(stop := Some(Paused)))
      case Requeue =>
        if blocked then s.(holder := s.holder.(stop := Some(Queued)))
        else s.(holder := s.holder.(clearing := true))
      case NoSignal => s
  }

  /** `_finalize`: the row first; the signal only if the job is not being handed back. */
  function End(s: State, st: Status): State {
    Store(s, st).(holder := if st.Queued? then Leaving(st) else Ended(st))
  }

  /** The worker from the claim to the end of the run. */
  function DoWork(s: State, w: WorkEvent): State {
    match w
    case Claim => if s.inQueue then s.(inQueue := false, leased := true, holder := Starting) else s
    case Load =>
      if !s.holder.Starting? then s
      else if s.status.Deleted? then s.(holder := Leaving(Failed))
      else if s.status.Canceled? || s.status.Finished? then s.(holder := Leaving(s.status))
      else s.(holder := Loaded)
    case Fail => if s.holder.Loaded? || s.holder.Working? then End(s, Failed) else s
    case TurnAway => if s.holder.Loaded? then End(s, Queued) else s
    case PauseForBilling => if s.holder.Loaded? then End(s, Paused) else s
    case MarkRunning => if s.holder.Loaded? then Store(s, Running).(holder := Working(None, false)) else s
    case SeeSignal(blocked) => DoSeeSignal(s, blocked)
    case WatchClear =>
      if s.holder.Working? && s.holder.clearing
      then s.(signal := NoSignal, holder := s.holder.(clearing := false)) else s
    case BillingStops =>
      if s.holder.Working? && s.holder.stop.None? then s.(holder := s.holder.(stop := Some(Paused))) else s
    case Complete => if s.holder.Working? then End(s, Finished) else s
    case ObeyStop => if s.holder.Working? && s.holder.stop.Some? then End(s, s.holder.stop.value) else s
  }

  /** The worker from the end of the run to the end of `requeue_preempted`. */
  function DoDepart(s: State, d: DepartEvent): State {
    match d
    case ClearEnd => if s.holder.Ended? then s.(signal := NoSignal, holder := Leaving(s.holder.status)) else s
    case Release =>
      if s.holder.Leaving?
      then s.(leased := false, holder := if s.holder.status.Queued? then Released else Nobody) else s
    case ReadRow =>
      if s.holder.Released? then s.(holder := if s.status.Queued? then SawQueued else Nobody) else s
    case ReadSignal =>
      if s.holder.SawQueued?
      then s.(holder := if UserSignal(s) then Deciding(StatusFor(s.signal)) else Dropping) else s
    case Decide => if s.holder.Deciding? then Store(s, s.holder.status).(holder := Decided) else s
    case ClearDecided => if s.holder.Decided? then s.(signal := NoSignal, holder := Nobody) else s
    case DropSignal => if s.holder.Dropping? then s.(signal := NoSignal, holder := Reentering) else s
    case Reenter => if s.holder.Reentering? then s.(inQueue := true, holder := Nobody) else s
    case Renew => if HoldsLease(s.holder) then s.(leased := true) else s
    case Crash => s.(holder := Nobody)
  }

  /** Heartbeat and watcher renew the lease until the worker releases it. */
  predicate HoldsLease(h: Holder) {
    InHands(h) || h.Ended? || h.Leaving?
  }

  /** The next step of the API call under way. */
  function DoContinue(s: State): State {
    match s.call
    case StopBegun(k, ran, gone) => s.(signal := k, call := StopSignaled(k, ran, gone))
    case StopSignaled(k, ran, gone) => s.(inQueue := false, leased := false, call := StopRemoved(k, ran, gone))
    case StopRemoved(k, ran, gone) =>
      if gone then Store(s, StatusFor(k)).(call := Idle)
      else if !ran then Store(s, StatusFor(k)).(call := StopStored)
      else s.(call := Idle)
    case StopStored => s.(signal := NoSignal, call := Idle)
    case ResumeBegun => s.(signal := NoSignal, call := ResumeCleared)
    case ResumeCleared => Store(s, Queued).(call := MustEnqueue)
    case RetryBegun => Store(s, Queued).(call := RetryStored)
    case RetryStored => s.(signal := NoSignal, call := MustEnqueue)
    case PatchBegun => s.(inQueue := false, leased := false, call := MustEnqueue)
    case DeleteBegun => s.(status := Deleted, call := DeleteStored)
    case DeleteStored => s.(inQueue := false, leased := false, call := DeleteRemoved)
    case DeleteRemoved => s.(signal := NoSignal, call := Idle)
    case MustEnqueue => s.(inQueue := true, call := Idle)
    case Idle => s
  }

  function DoApi(s: State, a: ApiEvent): State {
    match a
    case CallStop(k, gone) => s.(call := StopBegun(k, s.status.Running?, gone))
    case CallResume => s.(call := ResumeBegun)
    case CallRetry => s.(call := RetryBegun)
    case CallPatch => s.(call := PatchBegun)
    case CallDelete => s.(call := DeleteBegun)
    case Continue => DoContinue(s)
    case ApiDies => s.(call := Idle)
  }

  function Step(s: State, e: Event): State {
    match e
    case Work(w) => DoWork(s, w)
    case Depart(d) => DoDepart(s, d)
    case Api(a) => DoApi(s, a)
    case Preempt => if s.signal.NoSignal? then s.(signal := Requeue) else s
    case Reap => if s.leased then s.(leased := false, inQueue := true) else s
  }

  // ------------------------------------------------------------------ what may happen when

  /** The hand-back: between the release and the queue. */
  predicate InGap(h: Holder) {
    h.Released? || h.SawQueued? || h.Deciding? || h.Dropping? || h.Reentering?
  }

  /** A call that puts the job into the queue. */
  predicate Enqueues(c: Call) {
    c.ResumeBegun? || c.ResumeCleared? || c.RetryBegun? || c.RetryStored? || c.PatchBegun? || c.MustEnqueue?
  }

  predicate Live(st: Status) {
    st.Queued? || st.Running?
  }

  predicate CanCancel(st: Status) {
    Live(st) || st.Paused?
  }

  predicate CanResume(st: Status) {
    st.Paused? || st.Failed? || st.Canceled?
  }

  predicate CanRetry(st: Status) {
    st.Finished? || st.Failed? || st.Canceled?
  }

  /** The handlers' own status checks; and calls on one job do not overlap, and resume, retry and a
      new priority wait until no worker has the job. */
  predicate LegalCall(s: State, a: ApiEvent) {
    match a
    case CallStop(k, gone) =>
      && s.call.Idle?
      && ((k.Cancel? && CanCancel(s.status)) || (k.Pause? && Live(s.status)))
      && (gone ==> s.status.Running?)
    case CallResume => s.call.Idle? && s.holder.Nobody? && CanResume(s.status)
    case CallRetry => s.call.Idle? && s.holder.Nobody? && CanRetry(s.status)
    case CallPatch => s.call.Idle? && s.holder.Nobody? && s.status.Queued?
    case CallDelete => s.call.Idle? && !Live(s.status)
    case Continue => true
    case ApiDies => true
  }

  /** No worker claims a job that a call is about to enqueue. Only an expired lease is reaped, and a
      live holder's never expires (QueueSafety). Anybody may die at any point. */
  predicate Legal(s: State, e: Event) {
    match e
    case Work(w) => w.Claim? ==> !Enqueues(s.call)
    case Depart(_) => true
    case Api(a) => LegalCall(s, a)
    case Preempt => true
    case Reap => !HoldsLease(s.holder)
  }

  predicate LegalRun(s: State, es: seq<Event>)
    decreases es
  {
    es == [] || (Legal(s, es[0]) && LegalRun(Step(s, es[0]), es[1..]))
  }

  function Run(s: State, es: seq<Event>): State
    decreases es
  {
    if es == [] then s else Run(Step(s, es[0]), es[1..])
  }

  // ------------------------------------------------------------------ no job is lost

  predicate UserSignal(s: State) {
    s.signal.Cancel? || s.signal.Pause?
  }

  /** A call that will settle, enqueue or delete the job: any but a stop that has read `running` and
      leaves the rest to the worker. */
  predicate WillAct(c: Call) {
    match c
    case StopBegun(_, ran, gone) => gone || !ran
    case StopSignaled(_, ran, gone) => gone || !ran
    case StopRemoved(_, ran, gone) => gone || !ran
    case DeleteBegun => true
    case _ => Enqueues(c)
  }

  /** Somebody will see to a job that the database calls queued or running: a worker or the reaper
      finds it in Redis, or a live worker has it, or a call is about to act on it. A signal does not
      count: it is for whoever has the job. */
  predicate Attended(s: State) {
    Live(s.status) ==> s.inQueue || s.leased || !s.holder.Nobody? || WillAct(s.call)
  }

  /** Waiting and held exclude each other, so no claim can meet a live holder, and no holder's
      release can take the lease of the next. */
  predicate OneHolder(s: State) {
    && (s.inQueue ==> s.holder.Nobody?)
    && (s.leased ==> s.holder.Nobody? || HoldsLease(s.holder))
  }

  predicate HolderSound(s: State) {
    && (s.holder.Deciding? || s.holder.Ended? ==> !Live(s.holder.status))
    && (s.holder.Ended? || s.holder.Decided? ==> !Live(s.status))
    && (s.holder.Leaving? && !s.holder.status.Queued? ==> !Live(s.status))
    && (s.holder.Leaving? || InGap(s.holder) ==> !s.status.Running?)
    && (s.holder.Working? && s.holder.stop.Some? ==> !s.holder.stop.value.Running?)
  }

  predicate CallSound(s: State) {
    match s.call
    case StopBegun(k, ran, gone) => (k.Cancel? || k.Pause?) && (gone ==> ran)
    case StopSignaled(k, ran, gone) => (k.Cancel? || k.Pause?) && (gone ==> ran)
    case StopRemoved(k, ran, gone) => (k.Cancel? || k.Pause?) && (gone ==> ran)
    case ResumeBegun => s.holder.Nobody? && !Live(s.status)
    case ResumeCleared => s.holder.Nobody? && !Live(s.status)
    case RetryBegun => s.holder.Nobody? && !Live(s.status)
    case DeleteStored => s.status.Deleted?
    case DeleteRemoved => s.status.Deleted?
    case c => Enqueues(c) ==> s.holder.Nobody?
  }

  predicate Inv(s: State) {
    OneHolder(s) && HolderSound(s) && CallSound(s)
  }

  /** A job just created: row stored, queue entry owed. */
  predicate Created(s: State) {
    s == State(Queued, false, false, NoSignal, Nobody, MustEnqueue)
  }

  /** The steps that leave a queued or running job to nobody, told by the state they strike in: the
      death of a worker without a lease, since a stop has removed it or the hand-back released it; the
      death of the API when nothing but its call is about the job; and the removal by a stop that has
      read `running`, when the worker it counts on has gone. */
  predicate Loses(s: State, e: Event) {
    Live(s.status) &&
    match e
    case Depart(d) => d.Crash? && !s.holder.Nobody? && !s.leased && !WillAct(s.call)
    case Api(a) =>
      || (a.ApiDies? && s.holder.Nobody? && !s.leased && !s.inQueue && WillAct(s.call))
      || (a.Continue? && s.call.StopSignaled? && !WillAct(s.call) && s.holder.Nobody?)
    case _ => false
  }

  lemma WorkKeepsInv(s: State, w: WorkEvent)
    requires Inv(s) && Legal(s, Work(w))
    ensures Inv(DoWork(s, w)) && (Attended(s) ==> Attended(DoWork(s, w)))
  {
  }

  lemma DepartureKeepsInv(s: State, d: DepartEvent)
    requires Inv(s)
    ensures Inv(DoDepart(s, d)) && (Attended(s) && !d.Crash? ==> Attended(DoDepart(s, d)))
  {
  }

  lemma CallsKeepInv(s: State, a: ApiEvent)
    requires Inv(s) && LegalCall(s, a)
    ensures Inv(DoApi(s, a))
  {
  }

  lemma StepPreservesInv(s: State, e: Event)
    requires Inv(s) && Legal(s, e)
    ensures Inv(Step(s, e))
  {
    match e
    case Work(w) => WorkKeepsInv(s, w);
    case Depart(d) => DepartureKeepsInv(s, d);
    case Api(a) => CallsKeepInv(s, a);
    case _ =>
  }

  lemma {:induction false} AnyRunKeepsInv(s: State, es: seq<Event>)
    requires Inv(s) && LegalRun(s, es)
    ensures Inv(Run(s, es)) && OneHolder(Run(s, es))
    decreases es
  {
    if es != [] {
      StepPreservesInv(s, es[0]);
      AnyRunKeepsInv(Step(s, es[0]), es[1..]);
    }
  }

  /** Those three kinds of step lose an attended job, and no other step does. */
  lemma StepLosesIff(s: State, e: Event)
    requires Inv(s) && Attended(s) && Legal(s, e)
    ensures Attended(Step(s, e)) <==> !Loses(s, e)
  {
    match e
    case Work(w) => WorkKeepsInv(s, w);
    case Depart(d) => DepartureKeepsInv(s, d);
    case _ =>
  }

  predicate AlwaysAttended(s: State, es: seq<Event>)
    decreases es
  {
    Attended(s) && (es == [] || AlwaysAttended(Step(s, es[0]), es[1..]))
  }

  predicate NothingLoses(s: State, es: seq<Event>)
    decreases es
  {
    es == [] || (!Loses(s, es[0]) && NothingLoses(Step(s, es[0]), es[1..]))
  }

  lemma {:induction false} RunLosesIff(s: State, es: seq<Event>)
    requires Inv(s) && Attended(s) && LegalRun(s, es)
    ensures AlwaysAttended(s, es) <==> NothingLoses(s, es)
    decreases es
  {
    if es != [] {
      StepLosesIff(s, es[0]);
      StepPreservesInv(s, es[0]);
      if Attended(Step(s, es[0])) {
        RunLosesIff(Step(s, es[0]), es[1..]);
      }
    }
  }

  /** Main result: from its creation on, whatever workers, users, the pinner and the reaper do, and
      whoever dies when, a queued or running job is attended to all along if and only if none of those
      steps occurs; and a claim never meets a live holder. */
  lemma NoJobLost(s: State, es: seq<Event>)
    requires Created(s) && LegalRun(s, es)
    ensures AlwaysAttended(s, es) <==> NothingLoses(s, es)
    ensures Run(s, es).inQueue ==> Run(s, es).holder.Nobody?
  {
    RunLosesIff(s, es);
    AnyRunKeepsInv(s, es);
  }

  // ------------------------------------------------------------------ what being attended means

  /** No further call is made on the job, and neither its worker nor the call under way dies. */
  predicate NoNewCall(e: Event) {
    match e
    case Depart(d) => !d.Crash?
    case Api(a) => a.Continue?
    case _ => true
  }

  predicate Undisturbed(s: State, es: seq<Event>) {
    LegalRun(s, es) && forall e <- es :: NoNewCall(e)
  }

  /** The job gets somewhere: it runs, or it is no longer queued or running. */
  predicate GotSomewhere(s: State) {
    s.holder.Working? || !Live(s.status)
  }

  predicate MovesOn(s: State, es: seq<Event>) {
    Undisturbed(s, es) && GotSomewhere(Run(s, es))
  }

  lemma Prepend(s: State, e: Event, es: seq<Event>) returns (all: seq<Event>)
    requires Legal(s, e) && LegalRun(Step(s, e), es)
    ensures LegalRun(s, all) && Run(s, all) == Run(Step(s, e), es)
    ensures NoNewCall(e) && (forall x <- es :: NoNewCall(x)) ==> forall x <- all :: NoNewCall(x)
    ensures !e.Api? && (forall x <- es :: !x.Api?) ==> forall x <- all :: !x.Api?
  {
    all := [e] + es;
    assert all[1..] == es;
  }

  /** A waiting job is claimed and run, unless its row says it is over. */
  lemma QueuedMovesOn(s: State) returns (es: seq<Event>)
    requires s.inQueue && !Enqueues(s.call)
    ensures MovesOn(s, es) && forall e <- es :: !e.Api?
    ensures s.status.Paused? ==> Run(s, es).status.Running?
  {
    var s1 := Step(s, Work(Claim));
    var s2 := Step(s1, Work(Load));
    es := Prepend(s2, Work(MarkRunning), []);
    es := Prepend(s1, Work(Load), es);
    es := Prepend(s, Work(Claim), es);
  }

  /** A lease left behind is reaped. */
  lemma LeftBehindMovesOn(s: State) returns (es: seq<Event>)
    requires s.leased && s.holder.Nobody? && !Enqueues(s.call)
    ensures MovesOn(s, es) && forall e <- es :: !e.Api?
    ensures s.status.Paused? ==> Run(s, es).status.Running?
  {
    es := QueuedMovesOn(Step(s, Reap));
    es := Prepend(s, Reap, es);
  }

  /** The hand-back puts the job back into the queue, or settles it as the user wished. */
  lemma HandBackMovesOn(s: State) returns (es: seq<Event>)
    requires Inv(s) && InGap(s.holder)
    ensures MovesOn(s, es) && forall e <- es :: !e.Api?
    ensures s.status.Paused? && (s.holder.Dropping? || s.holder.Reentering? || (s.holder.SawQueued? && !UserSignal(s))) ==>
      Run(s, es).status.Running?
    decreases match s.holder case Released => 4 case SawQueued => 3 case Dropping => 2 case _ => 1
  {
    if GotSomewhere(s) && !s.status.Paused? {
      es := [];
      return;
    }
    match s.holder
    case Released =>
      if s.status.Paused? {
        es := [];
      } else {
        es := HandBackMovesOn(Step(s, Depart(ReadRow)));
        es := Prepend(s, Depart(ReadRow), es);
      }
    case SawQueued =>
      if s.status.Paused? && UserSignal(s) {
        es := [];
      } else {
        es := HandBackMovesOn(Step(s, Depart(ReadSignal)));
        es := Prepend(s, Depart(ReadSignal), es);
      }
    case Dropping =>
      es := HandBackMovesOn(Step(s, Depart(DropSignal)));
      es := Prepend(s, Depart(DropSignal), es);
    case Deciding(st) =>
      es := Prepend(s, Depart(Decide), []);
    case Reentering =>
      es := QueuedMovesOn(Step(s, Depart(Reenter)));
      es := Prepend(s, Depart(Reenter), es);
  }

  lemma HeldMovesOn(s: State) returns (es: seq<Event>)
    requires Inv(s) && !s.holder.Nobody?
    ensures MovesOn(s, es)
  {
    if GotSomewhere(s) {
      es := [];
    } else if InGap(s.holder) {
      es := HandBackMovesOn(s);
    } else {
      match s.holder
      case Starting =>
        es := Prepend(Step(s, Work(Load)), Work(MarkRunning), []);
        es := Prepend(s, Work(Load), es);
      case Loaded => es := Prepend(s, Work(MarkRunning), []);
      case Leaving(_) =>
        var released := Step(s, Depart(Release));
        StepPreservesInv(s, Depart(Release));
        es := HandBackMovesOn(released);
        es := Prepend(s, Depart(Release), es);
    }
  }

  /** How far the call is from having acted. */
  function ToGo(c: Call): nat {
    match c
    case StopBegun(_, _, _) => 3
    case StopSignaled(_, _, _) => 2
    case ResumeBegun => 3
    case ResumeCleared => 2
    case RetryBegun => 3
    case RetryStored => 2
    case PatchBegun => 2
    case Idle => 0
    case _ => 1
  }

  lemma {:induction false} CallMovesOn(s: State) returns (es: seq<Event>)
    requires Inv(s) && WillAct(s.call) && s.holder.Nobody?
    ensures MovesOn(s, es)
    decreases ToGo(s.call)
  {
    if GotSomewhere(s) {
      es := [];
      return;
    }
    var t := Step(s, Api(Continue));
    StepPreservesInv(s, Api(Continue));
    if GotSomewhere(t) {
      es := [];
    } else if WillAct(t.call) {
      es := CallMovesOn(t);
    } else {
      es := QueuedMovesOn(t);
    }
    es := Prepend(s, Api(Continue), es);
  }

  /** A job left to nobody: as it is, it stays. */
  predicate Stranded(s: State) {
    Live(s.status) && !s.inQueue && !s.leased && s.holder.Nobody? && !WillAct(s.call)
  }

  lemma {:induction false} StrandedStays(s: State, es: seq<Event>)
    requires Inv(s) && Stranded(s) && Undisturbed(s, es)
    ensures Stranded(Run(s, es)) && Run(s, es).status == s.status
    decreases es
  {
    if es != [] {
      assert es[0] in es;
      assert forall e <- es[1..] :: e in es;
      StepPreservesInv(s, es[0]);
      StrandedStays(Step(s, es[0]), es[1..]);
    }
  }

  /** Being attended is no more and no less than this: without any further call, the job can still be
      run or settled. A job that is not attended stays as it is for good. */
  lemma AttendedIff(s: State)
    requires Inv(s)
    ensures Attended(s) <==> exists es: seq<Event> :: MovesOn(s, es)
  {
    if Stranded(s) {
      forall es: seq<Event> ensures !MovesOn(s, es) {
        if Undisturbed(s, es) {
          StrandedStays(s, es);
        }
      }
    } else {
      var es: seq<Event>;
      if !Live(s.status) {
        es := [];
      } else if !s.holder.Nobody? {
        es := HeldMovesOn(s);
      } else if WillAct(s.call) {
        es := CallMovesOn(s);
      } else if s.inQueue {
        es := QueuedMovesOn(s);
      } else {
        es := LeftBehindMovesOn(s);
      }
      assert MovesOn(s, es);
    }
  }

  // ------------------------------------------------------------------ what a running job's stop leads to

  /** A continuation in which the worker neither finishes nor fails first, and no other is claimed. */
  predicate EndsByStop(es: seq<Event>) {
    forall e <- es :: e != Work(Complete) && e != Work(Fail) && e != Work(Claim)
  }

  /** No call is under way, or a stop of this kind. */
  predicate NoOtherCall(s: State, k: Signal) {
    match s.call
    case Idle => true
    case StopBegun(kind, _, _) => kind == k
    case StopSignaled(kind, _, _) => kind == k
    case StopRemoved(kind, _, _) => kind == k
    case StopStored => true
    case _ => false
  }

  /** From the moment the worker means to stop as `st` until it has let go of the job. */
  predicate StoppingAs(s: State, st: Status) {
    && !s.status.Deleted? && (s.leased ==> HoldsLease(s.holder)) && !s.inQueue
    && match s.holder
       case Working(stop, clearing) => stop == Some(st) && !clearing
       case Ended(ended) => ended == st && s.status == st
       case Leaving(left) => left == st && s.status == st
       case Nobody => s.status == st
       case _ => false
  }

  lemma StoppingStep(s: State, e: Event, k: Signal, st: Status)
    requires StoppingAs(s, st) && NoOtherCall(s, k) && Legal(s, e) && NoNewCall(e) && EndsByStop([e])
    requires (k == Cancel && st == Canceled) || (k == Pause && st == Paused)
    ensures StoppingAs(Step(s, e), st) && NoOtherCall(Step(s, e), k)
  {
    assert e in [e];
  }

  lemma {:induction false} StoppingRun(s: State, es: seq<Event>, k: Signal, st: Status)
    requires StoppingAs(s, st) && NoOtherCall(s, k) && Undisturbed(s, es) && EndsByStop(es)
    requires (k == Cancel && st == Canceled) || (k == Pause && st == Paused)
    ensures StoppingAs(Run(s, es), st)
    decreases es
  {
    if es != [] {
      assert es[0] in es;
      assert forall e <- es[1..] :: e in es;
      StoppingStep(s, es[0], k, st);
      StoppingRun(Step(s, es[0]), es[1..], k, st);
    }
  }

  /** A running job's cancel and pause are obeyed: once its watcher has seen the one or the other, and
      unless the run finishes or fails first, the worker lets go of the job canceled, or paused, and out of
      the queue, with no lease left. */
  lemma RunningStopIsObeyed(s: State, blocked: bool, es: seq<Event>)
    requires Inv(s) && s.holder == Working(None, false) && !s.status.Deleted?
    requires (s.signal.Cancel? || s.signal.Pause?) && NoOtherCall(s, s.signal)
    requires Undisturbed(Step(s, Work(SeeSignal(blocked))), es) && EndsByStop(es)
    ensures var t := Run(Step(s, Work(SeeSignal(blocked))), es);
            t.holder.Nobody? ==>
              && (s.signal.Cancel? ==> t.status.Canceled?) && (s.signal.Pause? ==> t.status.Paused?)
              && !t.inQueue && !t.leased
  {
    StoppingRun(Step(s, Work(SeeSignal(blocked))), es, s.signal, if s.signal.Cancel? then Canceled else Paused);
  }

  /** And it does not take long: the worker's next steps let go of the job. */
  lemma RunningStopEnds(s: State, blocked: bool)
    requires Inv(s) && s.holder == Working(None, false) && !s.status.Deleted? && (s.signal.Cancel? || s.signal.Pause?)
    ensures var ended := Step(Step(s, Work(SeeSignal(blocked))), Work(ObeyStop));
            var t := Step(Step(ended, Depart(ClearEnd)), Depart(Release));
            && t == s.(status := if s.signal.Cancel? then Canceled else Paused, leased := false,
                       signal := NoSignal, holder := Nobody)
  {
  }

  /** The pinner signals a job that has no signal, and never replaces one. */
  lemma PreemptSignalsOnce(s: State)
    ensures Step(s, Preempt).signal == if s.signal == NoSignal then Requeue else s.signal
    ensures Step(s, Preempt) == s.(signal := Step(s, Preempt).signal)
  {
  }

  /** From the moment a worker means to make way for a pin until the job is back in the queue. */
  predicate MakingWay(s: State) {
    && s.call.Idle? && !UserSignal(s) && !s.status.Deleted? && (s.leased ==> HoldsLease(s.holder))
    && (s.inQueue <==> s.holder.Nobody?)
    && match s.holder
       case Working(stop, clearing) => stop == Some(Queued) && !clearing
       case Leaving(left) => left.Queued? && s.status.Queued?
       case Released => s.status.Queued?
       case SawQueued => s.status.Queued?
       case Dropping => s.status.Queued?
       case Reentering => s.status.Queued?
       case Nobody => s.status.Queued?
       case _ => false
  }

  lemma {:induction false} MakesWay(s: State, es: seq<Event>)
    requires MakingWay(s) && Undisturbed(s, es) && EndsByStop(es)
    ensures MakingWay(Run(s, es))
    decreases es
  {
    if es != [] {
      assert es[0] in es;
      assert forall e <- es[1..] :: e in es;
      MakesWay(Step(s, es[0]), es[1..]);
    }
  }

  /** A requeue signal is obeyed while a pin blocks the job: unless the run finishes or fails first, or the
      user calls, the worker lets go of it queued, and in the queue. The same goes for a job that the check
      before the start turns away. */
  lemma MakesWayForPin(s: State, es: seq<Event>)
    requires Inv(s) && !s.status.Deleted? && s.call.Idle?
    requires (s.holder == Working(None, false) && s.signal.Requeue?) || (s.holder.Loaded? && !UserSignal(s))
    requires var e := if s.holder.Loaded? then Work(TurnAway) else Work(SeeSignal(true));
             Undisturbed(Step(s, e), es) && EndsByStop(es)
    ensures var t := Run(Step(s, if s.holder.Loaded? then Work(TurnAway) else Work(SeeSignal(true))), es);
            t.holder.Nobody? ==> t.status.Queued? && t.inQueue
  {
    MakesWay(Step(s, if s.holder.Loaded? then Work(TurnAway) else Work(SeeSignal(true))), es);
  }

  /** Without a pin in the way a requeue signal ends nothing: the watcher deletes it, and the job runs on. */
  lemma OutdatedRequeueEndsNothing(s: State)
    requires s.holder == Working(None, false) && s.signal.Requeue?
    ensures var seen := Step(s, Work(SeeSignal(false)));
            && Step(seen, Work(WatchClear)) == s.(signal := NoSignal)
            && Step(seen, Work(ObeyStop)) == seen
  {
  }

  /** The other ways a run can end, as the worker leaves row, signal and lease behind. */
  lemma OtherEnds(s: State, w: WorkEvent)
    requires !s.status.Deleted?
    requires (s.holder == Working(None, false) && (w.Complete? || w.Fail?)) || (s.holder.Loaded? && (w.Fail? || w.PauseForBilling?))
    ensures var t := Step(Step(Step(s, Work(w)), Depart(ClearEnd)), Depart(Release));
            && t.status == (if w.Complete? then Finished else if w.Fail? then Failed else Paused)
            && t == s.(status := t.status, signal := NoSignal, leased := false, holder := Nobody)
  {
  }

  /** A failed bill pauses a running job. */
  lemma BillingPauses(s: State)
    requires s.holder == Working(None, false) && !s.status.Deleted?
    ensures Step(Step(s, Work(BillingStops)), Work(ObeyStop)).status.Paused?
  {
  }

  /** Whom a worker lets go of right after the claim: a job that is over, or gone; a failed or paused one
      it runs. */
  lemma LoadSkipsExactly(s: State)
    requires s.holder.Starting?
    ensures Step(s, Work(Load)).holder.Loaded? <==> s.status in {Queued, Running, Paused, Failed}
    ensures !Step(s, Work(Load)).holder.Loaded? ==>
      Step(Step(s, Work(Load)), Depart(Release)) == s.(leased := false, holder := Nobody)
  {
  }

  // ------------------------------------------------------------------ the user's wish wins

  /** The job is on its way back to the queue, a cancel or pause was written before the hand-back read
      the signal, and the stop that wrote it, if not over yet, has read `running`. */
  predicate WishPending(s: State, k: Signal) {
    && !s.inQueue && (s.leased ==> HoldsLease(s.holder)) && (k.Cancel? || k.Pause?)
    && (s.call.Idle? || ((s.call.StopSignaled? || s.call.StopRemoved?) && s.call.ran && s.call.kind == k))
    && match s.holder
       case Leaving(st) => st.Queued? && (s.status.Queued? || s.status == StatusFor(k)) && s.signal == k
       case Released => (s.status.Queued? || s.status == StatusFor(k)) && s.signal == k
       case SawQueued => (s.status.Queued? || s.status == StatusFor(k)) && s.signal == k
       case Deciding(st) => st == StatusFor(k) && s.signal == k && !s.status.Deleted?
       case Decided => s.status == StatusFor(k)
       case Nobody => s.status == StatusFor(k)
       case _ => false
  }

  lemma WishStays(s: State, e: Event, k: Signal)
    requires WishPending(s, k) && Legal(s, e) && NoNewCall(e)
    ensures WishPending(Step(s, e), k)
  {
  }

  /** Whatever the pinner and the worker do next, a requeue signal does not replace the user's: the
      hand-back ends with the status the user asked for, and the job is not queued again. */
  lemma {:induction false} UserWins(s: State, es: seq<Event>, k: Signal)
    requires WishPending(s, k) && Undisturbed(s, es)
    ensures WishPending(Run(s, es), k)
    ensures Run(s, es).holder.Nobody? ==>
      Run(s, es).status == (if k.Cancel? then Canceled else Paused) && !Run(s, es).inQueue
    decreases es
  {
    if es != [] {
      assert es[0] in es;
      assert forall e <- es[1..] :: e in es;
      WishStays(s, es[0], k);
      UserWins(Step(s, es[0]), es[1..], k);
    }
  }

  /** The wish is kept along this continuation: once hand-back and call are over, the job has the
      status the user asked for and is not in the queue. */
  predicate WishKept(s: State, es: seq<Event>, k: Signal) {
    Undisturbed(s, es) ==>
      var t := Run(s, es);
      t.holder.Nobody? && t.call.Idle? ==> t.status == StatusFor(k) && !t.inQueue
  }

  /** A stop has written its signal to a job whose hand-back has yet to read it. */
  predicate StopMeetsHandBack(s: State) {
    && s.call.StopSignaled? && s.signal == s.call.kind && s.status.Queued?
    && (s.holder == Leaving(Queued) || s.holder.Released? || s.holder.SawQueued?)
  }

  /** The hand-back up to its reading of the signal. */
  lemma {:induction false} ReadsTheRow(s: State) returns (es: seq<Event>)
    requires Inv(s) && StopMeetsHandBack(s)
    ensures Undisturbed(s, es) && Run(s, es) == s.(holder := SawQueued, leased := false)
    decreases if s.holder.Leaving? then 2 else if s.holder.Released? then 1 else 0
  {
    if s.holder.SawQueued? {
      es := [];
    } else {
      var e := if s.holder.Leaving? then Depart(Release) else Depart(ReadRow);
      StepPreservesInv(s, e);
      es := ReadsTheRow(Step(s, e));
      es := Prepend(s, e, es);
    }
  }

  lemma {:induction false} RunConcat(s: State, a: seq<Event>, b: seq<Event>)
    ensures Run(s, a + b) == Run(Run(s, a), b)
    ensures LegalRun(s, a + b) <==> LegalRun(s, a) && LegalRun(Run(s, a), b)
    decreases a
  {
    if a == [] {
      assert a + b == b;
    } else {
      assert (a + b)[0] == a[0] && (a + b)[1..] == a[1..] + b;
      RunConcat(Step(s, a[0]), a[1..], b);
    }
  }

  /** A stop that has read `queued` settles the row and clears its own signal in between the two reads
      of the hand-back, which then finds no signal and enqueues the job. */
  lemma QueuedStopIsOverridden(s: State) returns (es: seq<Event>)
    requires Inv(s) && StopMeetsHandBack(s) && !s.call.ran
    ensures Undisturbed(s, es)
    ensures Run(s, es) == State(StatusFor(s.call.kind), true, false, NoSignal, Nobody, Idle)
  {
    var c := Api(Continue);
    var read := ReadsTheRow(s);
    var s1 := Run(s, read);
    var s2 := Step(s1, c);
    var s3 := Step(s2, c);
    var s4 := Step(s3, c);
    var s5 := Step(s4, Depart(ReadSignal));
    var s6 := Step(s5, Depart(DropSignal));
    es := Prepend(s6, Depart(Reenter), []);
    es := Prepend(s5, Depart(DropSignal), es);
    es := Prepend(s4, Depart(ReadSignal), es);
    es := Prepend(s3, c, es);
    es := Prepend(s2, c, es);
    es := Prepend(s1, c, es);
    RunConcat(s, read, es);
    es := read + es;
  }

  /** Exactly: such a wish is kept over every continuation if and only if the stop has read `running`. */
  lemma UserWinsIff(s: State)
    requires Inv(s) && StopMeetsHandBack(s)
    ensures s.call.ran <==> forall es: seq<Event> :: WishKept(s, es, s.call.kind)
  {
    if s.call.ran {
      forall es: seq<Event> ensures WishKept(s, es, s.call.kind) {
        if Undisturbed(s, es) {
          UserWins(s, es, s.call.kind);
        }
      }
    } else {
      var es := QueuedStopIsOverridden(s);
      assert !WishKept(s, es, s.call.kind);
    }
  }

  // ------------------------------------------------------------------ the windows

  /** So a worker's death loses its job exactly when it has no lease and no call is about to act: in the
      hand-back, or after a stop has removed the lease. A stop's signal does not help. */
  lemma CrashLosesIff(s: State)
    requires Inv(s) && !s.holder.Nobody?
    ensures !Attended(Step(s, Depart(Crash))) <==> Live(s.status) && !s.leased && !WillAct(s.call)
  {
  }

  /** Stopping a job that is claimed but still queued in the database takes the lease from under
      its worker: if that worker dies before its first renewal, the job is lost. */
  lemma StopOfClaimedJobLoses(s: State, k: Signal)
    requires Inv(s) && s.holder.Loaded? && s.status.Queued? && s.call.Idle? && (k.Cancel? || k.Pause?)
    ensures var c := Api(Continue);
            var stopped := Step(Step(Step(Step(Step(s, Api(CallStop(k, false))), c), c), c), c);
            !Attended(Step(Step(stopped, Work(MarkRunning)), Depart(Crash)))
  {
    var c := Api(Continue);
    var stopped := Step(Step(Step(Step(Step(s, Api(CallStop(k, false))), c), c), c), c);
    assert stopped == State(StatusFor(k), false, false, NoSignal, Loaded, Idle);
  }

  /** A stop that reads `running` while the worker hands the job back completely loses it, without a
      death: it removes the job just queued, and nobody is left to read its signal. */
  lemma LateStopLoses(s: State, k: Signal)
    requires Inv(s) && s.holder.Reentering? && s.status.Queued? && s.call == StopBegun(k, true, false)
    ensures var c := Api(Continue);
            var t := Step(Step(Step(Step(s, Depart(Reenter)), c), c), c);
            t == State(Queued, false, false, k, Nobody, Idle) && !Attended(t)
  {
  }

  /** A resume between finalize and release queues a job that still has a holder. */
  lemma EarlyResumeBreaksOneHolder(s: State)
    requires Inv(s) && s.holder == Leaving(Paused) && s.status.Paused? && s.call.Idle?
    ensures var c := Api(Continue);
            !OneHolder(Step(Step(Step(Step(s, Api(CallResume)), c), c), c))
  {
  }

  /** A stop signal that lands while the hand-back is about to delete the old one is deleted with
      it, and the rest of the stop takes the job out of the queue for good. */
  lemma DroppedStopLoses(s: State)
    requires Inv(s) && s.holder.Dropping? && s.status.Queued? && s.call.StopBegun? && s.call.ran && !s.call.gone
    ensures var c := Api(Continue);
            !Attended(Step(Step(Step(Step(Step(s, c), Depart(DropSignal)), Depart(Reenter)), c), c))
  {
  }

  /** Why calls on one job must not overlap. A cancel has read `running` and written its signal; before
      it removes the job, the worker ends as paused on its own account, clears the signal and lets go.
      A resume now runs from start to end, and then the cancel removes the job just queued and, having
      read `running`, does nothing more. */
  lemma OverlappingResumeLoses(s: State, k: Signal)
    requires Inv(s) && s.call == StopSignaled(k, true, false) && s.holder.Nobody? && s.status.Paused?
    ensures LegalCall(s.(call := Idle), CallResume)
    ensures var begun := DoApi(s.(call := Idle), CallResume);
            var resumed := DoContinue(DoContinue(DoContinue(begun)));
            var cancel := DoContinue(DoContinue(resumed.(call := s.call)));
            resumed.call.Idle? && Attended(resumed) && cancel.call.Idle? && !Attended(cancel)
  {
    var begun := DoApi(s.(call := Idle), CallResume);
    var resumed := DoContinue(DoContinue(DoContinue(begun)));
    assert resumed == s.(status := Queued, inQueue := true, signal := NoSignal, call := Idle);
  }

  /** The same comes of a claim between the steps of a stop that read `queued`. */
  lemma ClaimDuringStopLoses(s: State, k: Signal)
    requires Inv(s) && s.call == StopBegun(k, false, false) && s.status.Queued? && s.inQueue
    ensures var loaded := Step(Step(s, Work(Claim)), Work(Load));
            var stopped := DoContinue(DoContinue(DoContinue(DoContinue(loaded))));
            stopped.call.Idle? && !Attended(Step(Step(stopped, Work(MarkRunning)), Depart(Crash)))
  {
    var loaded := Step(Step(s, Work(Claim)), Work(Load));
    var stopped := DoContinue(DoContinue(DoContinue(DoContinue(loaded))));
    assert stopped == State(StatusFor(k), false, false, NoSignal, Loaded, Idle);
  }

  // ------------------------------------------------------------------ when a pause is final

  predicate NoCalls(es: seq<Event>) {
    forall e <- es :: !e.Api?
  }

  /** Nobody's call makes the job run again along this continuation. */
  predicate StaysStopped(s: State, es: seq<Event>) {
    LegalRun(s, es) && NoCalls(es) ==> !Run(s, es).status.Running?
  }

  /** Neither Redis nor a worker will bring the job back: it has no entry and no lease, and no worker
      but one whose hand-back has yet to read the row, or has read the user's signal or will. */
  predicate NobodyBringsBack(s: State) {
    && !s.inQueue && !s.leased
    && (s.holder.Nobody? || s.holder.Released? || s.holder.Deciding? || s.holder.Decided?
        || (s.holder.SawQueued? && UserSignal(s)))
  }

  lemma {:induction false} StaysAway(s: State, es: seq<Event>)
    requires Inv(s) && !Live(s.status) && NobodyBringsBack(s) && s.call.Idle? && LegalRun(s, es) && NoCalls(es)
    ensures !Live(Run(s, es).status)
    decreases es
  {
    if es != [] {
      assert es[0] in es;
      assert forall e <- es[1..] :: e in es;
      StepPreservesInv(s, es[0]);
      StaysAway(Step(s, es[0]), es[1..]);
    }
  }

  /** A worker that still has a lease, or can renew it, may die and leave it behind. */
  lemma HolderDiesAndJobRuns(s: State) returns (es: seq<Event>)
    requires s.status.Paused? && s.call.Idle? && HoldsLease(s.holder)
    ensures NoCalls(es) && LegalRun(s, es) && Run(s, es).status.Running?
  {
    var s1 := Step(s, Depart(Renew));
    es := LeftBehindMovesOn(Step(s1, Depart(Crash)));
    es := Prepend(s1, Depart(Crash), es);
    es := Prepend(s, Depart(Renew), es);
  }

  lemma RunsAgain(s: State) returns (es: seq<Event>)
    requires Inv(s) && s.status.Paused? && s.call.Idle? && !NobodyBringsBack(s)
    ensures !StaysStopped(s, es)
  {
    if s.inQueue {
      es := QueuedMovesOn(s);
    } else if HoldsLease(s.holder) {
      es := HolderDiesAndJobRuns(s);
    } else if s.leased {
      es := LeftBehindMovesOn(s);
    } else {
      es := HandBackMovesOn(s);
    }
  }

  /** With no call at it, a paused job stays stopped until somebody resumes it if and only if neither
      Redis nor a worker will bring it back. A worker that finds `paused` in the row runs the job all
      the same, so a queue entry or a lease is enough. */
  lemma PauseIsFinalIff(s: State)
    requires Inv(s) && s.status.Paused? && s.call.Idle?
    ensures (forall es: seq<Event> :: StaysStopped(s, es)) <==> NobodyBringsBack(s)
  {
    if NobodyBringsBack(s) {
      forall es: seq<Event> ensures StaysStopped(s, es) {
        if LegalRun(s, es) && NoCalls(es) {
          StaysAway(s, es);
        }
      }
    } else {
      var es := RunsAgain(s);
      assert !StaysStopped(s, es);
    }
  }

  /** A worker's death between finalize and release leaves a lease behind. */
  lemma CrashUndoesPause(s: State) returns (es: seq<Event>)
    requires Inv(s) && s.holder == Leaving(Paused) && s.leased && s.status.Paused? && s.call.Idle?
    ensures Legal(s, Depart(Crash)) && !StaysStopped(Step(s, Depart(Crash)), es)
  {
    es := LeftBehindMovesOn(Step(s, Depart(Crash)));
  }

  /** And a pause made while a worker hands the job back is undone without any death: it reads `queued`,
      settles the row, and the hand-back puts the paused job into the queue. */
  lemma HandBackUndoesPause(s: State) returns (es: seq<Event>)
    requires Inv(s) && s.status.Queued? && s.call.Idle? && (s.holder == Leaving(Queued) || s.holder.Released?)
    ensures es != [] && es[0] == Api(CallStop(Pause, false)) && (forall e <- es[1..] :: NoNewCall(e))
    ensures LegalRun(s, es) && Run(s, es).status.Running?
  {
    var call, c := Api(CallStop(Pause, false)), Api(Continue);
    var s1 := Step(s, call);
    var s2 := Step(s1, c);
    StepPreservesInv(s, call);
    StepPreservesInv(s1, c);
    var undone := QueuedStopIsOverridden(s2);
    var again := QueuedMovesOn(Run(s2, undone));
    RunConcat(s2, undone, again);
    var rest := Prepend(s1, c, undone + again);
    es := [call] + rest;
    assert es[1..] == rest;
  }

  predicate CancelHolds(s: State) {
    && s.call.Idle?
    && ((s.status.Canceled? && !s.holder.Loaded? && !s.holder.Working?) || (!Live(s.status) && NobodyBringsBack(s)))
  }

  /** A cancel is different: wherever the job turns up again, a worker that reads `canceled` lets it go.
      So it is final unless a worker has read the row before. */
  lemma {:induction false} CancelIsFinal(s: State, es: seq<Event>)
    requires Inv(s) && CancelHolds(s) && LegalRun(s, es) && NoCalls(es)
    ensures CancelHolds(Run(s, es)) && !Run(s, es).status.Running?
    decreases es
  {
    if es != [] {
      assert es[0] in es;
      assert forall e <- es[1..] :: e in es;
      StepPreservesInv(s, es[0]);
      CancelIsFinal(Step(s, es[0]), es[1..]);
    }
  }
}
