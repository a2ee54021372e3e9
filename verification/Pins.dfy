/** Pin preemption on one model (services/pins.py, worker/runner.py: the pre-start check and the
    signal watcher). The pinner commits, then scans and signals; a claimer registers in Redis, then
    checks the pin. Safety comes from that cross ordering. */
module Pins {
  type JobId = nat

  datatype Signal = Cancel | Pause | Requeue

  /** A job in the hands of a live worker: claimed and not yet past the pre-start pin check; past
      it; or on its way out (stop seen, check failed, or finished). */
  datatype Phase = Claimed | PastCheck | Ending

  /** Where `preempt_for` stands. `todo` are the candidates still to look at, `armed` those whose
      lease was seen and whose signal is about to be written. */
  datatype Pinner =
    | NotStarted
    | Committed
    | ReadDb(found: set<JobId>)
    | ReadRedis(found: set<JobId>)
    | Signalling(todo: set<JobId>, armed: set<JobId>)

  /** `target` is the job being pinned; `pinned` the jobs on the model that carry the pin flag, `blocking`
      those of them whose status makes the pin block the model (a paused job's does not), and
      `everPinned`, as history, those pinned at the target's commit or since. `clearing` are the jobs whose
      watcher has found a requeue signal stale and is about to delete it. */
  datatype State = State(
    target: JobId,
    pinner: Pinner,
    pinned: set<JobId>,
    blocking: set<JobId>,
    everPinned: set<JobId>,
    held: map<JobId, Phase>,
    dbRunning: set<JobId>,
    registered: set<JobId>,
    leased: set<JobId>,
    signals: map<JobId, Signal>,
    clearing: set<JobId>)

  datatype Event =
    | Claim(job: JobId)
    | CheckPin(job: JobId)
    | MarkRunning(job: JobId)
    | Renew(job: JobId)
    | WatchRead(job: JobId)
    | WatchClear(job: JobId)
    | UserStop(job: JobId, kind: Signal)
    | StopQueued(job: JobId)
    | Leave(job: JobId)
    | Gone(job: JobId)
    | Reap(job: JobId)
    | OtherPin(job: JobId)
    | Block(job: JobId)
    | Unblock(job: JobId)
    | Unpin(job: JobId)
    | ScanDb
    | ScanRedis
    | FilterPinned
    | SeeLease(job: JobId)
    | WriteSignal(job: JobId)

  /** `pinned_models`, for this model. */
  function Blockers(s: State): set<JobId> {
    s.pinned * s.blocking
  }

  predicate Blocked(s: State, j: JobId) {
    Blockers(s) != {} && j !in Blockers(s)
  }

  predicate IsPastCheck(s: State, j: JobId) {
    j in s.held && s.held[j].PastCheck?
  }

  function DoWatchRead(s: State, j: JobId): State {
    if !IsPastCheck(s, j) || j !in s.signals then s
    else if !s.signals[j].Requeue? || Blocked(s, j) then s.(held := s.held[j := Ending])
    else s.(clearing := s.clearing + {j})
  }

  function Without(s: State, j: JobId): State {
    s.(held := s.held - {j}, dbRunning := s.dbRunning - {j}, registered := s.registered - {j},
       leased := s.leased - {j}, signals := s.signals - {j}, clearing := s.clearing - {j})
  }

  function Step(s: State, e: Event): State {
    match e
    case Claim(j) =>
      s.(held := s.held[j := Claimed], registered := s.registered + {j}, leased := s.leased + {j})
    case CheckPin(j) =>
      if j in s.held && s.held[j].Claimed?
      then s.(held := s.held[j := if Blocked(s, j) then Ending else PastCheck]) else s
    case MarkRunning(j) => s.(dbRunning := s.dbRunning + {j})
    case Renew(j) => s.(leased := s.leased + {j})
    case WatchRead(j) => DoWatchRead(s, j)
    case WatchClear(j) =>
      if j in s.clearing then s.(signals := s.signals - {j}, clearing := s.clearing - {j}) else s
    case UserStop(j, k) =>
      s.(signals := s.signals[j := k], registered := s.registered - {j}, leased := s.leased - {j})
    case StopQueued(j) =>
      s.(signals := s.signals - {j}, registered := s.registered - {j}, leased := s.leased - {j})
    case Leave(j) => if IsPastCheck(s, j) then s.(held := s.held[j := Ending]) else s
    case Gone(j) => Without(s, j)
    case OtherPin(j) => s.(pinned := s.pinned + {j}, everPinned := s.everPinned + {j})
    case Reap(j) => s.(leased := s.leased - {j})
    case Block(j) => s.(blocking := s.blocking + {j})
    case Unblock(j) => s.(blocking := s.blocking - {j})
    case Unpin(j) => s.(pinned := s.pinned - {j})
    case ScanDb => if s.pinner.Committed? then s.(pinner := ReadDb(s.dbRunning)) else s
    case ScanRedis =>
      if s.pinner.ReadDb? then s.(pinner := ReadRedis(s.pinner.found + s.registered)) else s
    case FilterPinned =>
      if s.pinner.ReadRedis?
      then s.(pinner := Signalling(s.pinner.found - {s.target} - s.pinned, {})) else s
    case SeeLease(j) =>
      if s.pinner.Signalling? && j in s.pinner.todo
      then s.(pinner := Signalling(s.pinner.todo - {j},
                                   if j in s.leased then s.pinner.armed + {j} else s.pinner.armed)) else s
    case WriteSignal(j) =>
      if s.pinner.Signalling? && j in s.pinner.armed
      then s.(pinner := s.pinner.(armed := s.pinner.armed - {j}),
              signals := if j in s.signals then s.signals else s.signals[j := Requeue]) else s
  }

  /** The moment the pin becomes blocking: pin, or resume of a pinned job. */
  function Commit(s: State): State {
    s.(pinner := Committed, pinned := s.pinned + {s.target}, blocking := s.blocking + {s.target},
       everPinned := s.pinned + {s.target})
  }

  /** A worker has claimed the job and is not on its way out. */
  predicate InHands(s: State, j: JobId) {
    j in s.held && !s.held[j].Ending?
  }

  /** A job is claimed by one worker at a time; only its live holder renews, and its lease is not
      reaped. A stop of a job whose row says `running` (`UserStop`) leaves its signal for the worker, and
      does not come in the instant its watcher is deleting an old one. A stop of a job whose row says
      `queued` (`StopQueued`) clears its own signal again, and finds no worker at the job: from the claim
      to the running mark the source does not fence it off. And the pin stays, and stays blocking. */
  predicate Legal(s: State, e: Event) {
    match e
    case Claim(j) => j !in s.held
    case MarkRunning(j) => IsPastCheck(s, j)
    case Renew(j) => j in s.held
    case UserStop(j, k) => IsPastCheck(s, j) && j in s.dbRunning && !k.Requeue? && j !in s.clearing
    case StopQueued(j) => !InHands(s, j)
    case Reap(j) => !InHands(s, j)
    case Unpin(j) => j != s.target
    case Unblock(j) => j != s.target
    case _ => true
  }

  predicate LegalRun(s: State, es: seq<Event>)
    decreases es
  {
    es == [] || (Legal(s, es[0]) && LegalRun(Step(s, es[0]), es[1..]))
  }

  function Run(s: State, es: seq<Event>): State
    decreases es
  {
    if es == [] then s else Run(Step(s, es[0]), es[1..])
  }

  /** A job at work is registered and leased in Redis, or a user's stop waits for it. */
  predicate Visible(s: State, j: JobId) {
    (j in s.registered && j in s.leased) || (j in s.signals && !s.signals[j].Requeue?)
  }

  /** What holds whether or not a pin is being made. */
  predicate AllVisible(s: State) {
    && (forall j | j in s.held :: s.held[j].Ending? || Visible(s, j))
    && (forall j | j in s.clearing :: j in s.held && !s.held[j].Claimed?)
    && (forall j | j in s.clearing && IsPastCheck(s, j) :: j in s.signals && s.signals[j].Requeue?)
  }

  /** The pinner has finished. */
  predicate Done(s: State) {
    s.pinner.Signalling? && s.pinner.todo == {} && s.pinner.armed == {}
  }

  /** The promise: nobody past the check works on unsignalled, except jobs that were pinned too. */
  predicate Guarded(s: State) {
    forall j | j in s.held && s.held[j].PastCheck? && j !in s.everPinned :: j in s.signals
  }

  /** The promise read literally: every job past the check that is not pinned now has a signal. */
  predicate GuardedNow(s: State) {
    forall j | j in s.held && s.held[j].PastCheck? && j !in s.pinned :: j in s.signals
  }

  predicate NoUnpin(es: seq<Event>) {
    forall e <- es :: !e.Unpin?
  }

  /** What is still owed to an unsignalled job past the check, at each point of the pinner's work. */
  predicate Owed(s: State, j: JobId) {
    match s.pinner
    case NotStarted => false
    case Committed => j in s.leased && (j in s.registered || j in s.dbRunning)
    case ReadDb(found) => j in s.leased && (j in s.registered || j in found)
    case ReadRedis(found) => j in found && j in s.leased
    case Signalling(todo, armed) => (j in todo && j in s.leased) || j in armed
  }

  predicate Inv(s: State) {
    && !s.pinner.NotStarted?
    && s.target in Blockers(s) && s.pinned <= s.everPinned
    && (forall j | j in s.clearing && IsPastCheck(s, j) :: j in s.everPinned)
    && (forall j | j in s.held && s.held[j].PastCheck? && j !in s.everPinned :: j in s.signals || Owed(s, j))
  }

  lemma StepKeepsVisible(s: State, e: Event)
    requires AllVisible(s) && Legal(s, e)
    ensures AllVisible(Step(s, e))
  {
  }

  lemma {:induction false} AlwaysVisible(s: State, es: seq<Event>)
    requires AllVisible(s) && LegalRun(s, es)
    ensures AllVisible(Run(s, es))
    decreases es
  {
    if es != [] {
      StepKeepsVisible(s, es[0]);
      AlwaysVisible(Step(s, es[0]), es[1..]);
    }
  }

  lemma StepPreservesInv(s: State, e: Event)
    requires Inv(s) && Legal(s, e)
    ensures Inv(Step(s, e))
  {
  }

  lemma {:induction false} RunPreservesInv(s: State, es: seq<Event>)
    requires Inv(s) && LegalRun(s, es)
    ensures Inv(Run(s, es))
    decreases es
  {
    if es != [] {
      StepPreservesInv(s, es[0]);
      RunPreservesInv(Step(s, es[0]), es[1..]);
    }
  }

  /** Whether the pin's work can reach this job: it has a signal that is not about to be deleted, or
      it is leased and to be found in Redis or in the database. */
  predicate Reachable(s: State, j: JobId) {
    j !in s.clearing && (j in s.signals || (j in s.leased && (j in s.registered || j in s.dbRunning)))
  }

  /** What a pin's safety asks of the moment it commits. */
  predicate SafeToPin(s: State) {
    forall j | j in s.held && s.held[j].PastCheck? && j !in s.pinned + {s.target} :: Reachable(s, j)
  }

  /** No watcher of an unpinned job stands between finding a requeue signal stale and deleting it. */
  predicate NoStaleClear(s: State) {
    forall j | j in s.held && s.held[j].PastCheck? && j !in s.pinned + {s.target} :: j !in s.clearing
  }

  /** Under the fences, nothing else can make a pin unsafe. */
  lemma OnlyStaleClearsAreUnsafe(s: State)
    requires AllVisible(s)
    ensures SafeToPin(s) <==> NoStaleClear(s)
  {
    if NoStaleClear(s) {
      forall j | j in s.held && s.held[j].PastCheck? && j !in s.pinned + {s.target} ensures Reachable(s, j) {
        assert Visible(s, j);
      }
    } else {
      var j :| j in s.held && s.held[j].PastCheck? && j !in s.pinned + {s.target} && j in s.clearing;
      assert !Reachable(s, j);
    }
  }

  lemma CommitEstablishesInv(s: State)
    requires SafeToPin(s)
    ensures Inv(Commit(s))
  {
    var t := Commit(s);
    forall j | j in t.held && t.held[j].PastCheck? && j !in t.everPinned ensures j in t.signals || Owed(t, j) {
      assert Reachable(s, j);
    }
    forall j | j in t.clearing && IsPastCheck(t, j) ensures j in t.everPinned {
      assert j !in t.everPinned ==> Reachable(s, j);
    }
  }

  /** Once the pin has committed and `preempt_for` has finished, and as long as the pin stays, every
      job in the hands of a live worker that was never pinned meanwhile has a stop signal waiting, or
      is on its way out, or has yet to make the pin check; and that check will turn it away. */
  lemma PinIsEffective(s: State, es: seq<Event>)
    requires SafeToPin(s)
    requires LegalRun(Commit(s), es) && Done(Run(Commit(s), es))
    ensures var t := Run(Commit(s), es);
            && Guarded(t)
            && (forall j | j in t.held && t.held[j].Claimed? && j !in Blockers(t) ::
                  Step(t, CheckPin(j)).held[j].Ending?)
  {
    CommitEstablishesInv(s);
    RunPreservesInv(Commit(s), es);
  }

  // ------------------------------------------------------------------ the condition is exact

  lemma {:induction false} RunConcat(s: State, a: seq<Event>, b: seq<Event>)
    ensures Run(s, a + b) == Run(Run(s, a), b)
    ensures LegalRun(s, a + b) <==> LegalRun(s, a) && LegalRun(Run(s, a), b)
    decreases a
  {
    if a == [] {
      assert a + b == b;
    } else {
      assert (a + b)[0] == a[0] && (a + b)[1..] == a[1..] + b;
      RunConcat(Step(s, a[0]), a[1..], b);
    }
  }

  /** Left alone, the pinner finishes; nothing else moves. */
  lemma {:induction false} PinnerFinishes(s: State, k: JobId) returns (es: seq<Event>)
    requires s.pinner.Signalling?
    ensures LegalRun(s, es) && Done(Run(s, es)) && NoUnpin(es)
    ensures var t := Run(s, es);
            && t.target == s.target && t.held == s.held && t.clearing == s.clearing
            && t.pinned == s.pinned && t.everPinned == s.everPinned
            && (k in t.signals ==> k in s.signals || k in s.pinner.armed || (k in s.pinner.todo && k in s.leased))
    decreases |s.pinner.todo|, |s.pinner.armed|
  {
    if s.pinner.todo != {} {
      var j :| j in s.pinner.todo;
      assert |s.pinner.todo - {j}| < |s.pinner.todo|;
      var rest := PinnerFinishes(Step(s, SeeLease(j)), k);
      es := [SeeLease(j)] + rest;
      assert es[1..] == rest;
    } else if s.pinner.armed != {} {
      var j :| j in s.pinner.armed;
      assert |s.pinner.armed - {j}| < |s.pinner.armed|;
      var rest := PinnerFinishes(Step(s, WriteSignal(j)), k);
      es := [WriteSignal(j)] + rest;
      assert es[1..] == rest;
    } else {
      es := [];
    }
  }

  /** The pinner's scans and filter, with nobody else moving. */
  function Filtered(s: State): State {
    Step(Step(Step(s, ScanDb), ScanRedis), FilterPinned)
  }

  lemma ScansReachFiltered(s: State) returns (es: seq<Event>)
    ensures LegalRun(s, es) && NoUnpin(es) && Run(s, es) == Filtered(s)
  {
    var s1 := Step(s, ScanDb);
    var s2 := Step(s1, ScanRedis);
    var last := [FilterPinned];
    assert last[1..] == [] && Run(s2, last) == Filtered(s);
    var two := [ScanRedis] + last;
    assert two[1..] == last && Run(s1, two) == Filtered(s);
    es := [ScanDb] + two;
    assert es[1..] == two;
  }

  lemma FilteredFacts(c: State, k: JobId)
    requires c.pinner.Committed?
    ensures var f := Filtered(c);
            && f == c.(pinner := f.pinner) && f.pinner.Signalling? && f.pinner.armed == {}
            && (k in f.pinner.todo ==> k !in c.pinned && (k in c.registered || k in c.dbRunning))
  {
  }

  lemma PinnerDoesItsWork(c: State, k: JobId) returns (es: seq<Event>)
    requires c.pinner.Committed?
    ensures LegalRun(c, es) && NoUnpin(es) && Done(Run(c, es))
    ensures var t := Run(c, es);
            && t.target == c.target && t.held == c.held && t.clearing == c.clearing
            && t.pinned == c.pinned && t.everPinned == c.everPinned
            && (k in t.signals ==>
                  k in c.signals || (k !in c.pinned && k in c.leased && (k in c.registered || k in c.dbRunning)))
  {
    var scans := ScansReachFiltered(c);
    FilteredFacts(c, k);
    var mid := PinnerFinishes(Filtered(c), k);
    RunConcat(c, scans, mid);
    es := scans + mid;
  }

  /** A job the pinner cannot reach runs on: it is not found, or found without a lease, or its watcher
      deletes the new signal with the old one. */
  lemma UnreachedJobEscapes(s: State, j: JobId) returns (es: seq<Event>)
    requires IsPastCheck(s, j) && j !in s.pinned + {s.target} && !Reachable(s, j)
    ensures LegalRun(Commit(s), es) && NoUnpin(es) && Done(Run(Commit(s), es)) && !Guarded(Run(Commit(s), es))
    ensures !GuardedNow(Run(Commit(s), es))
  {
    var c := Commit(s);
    var work := PinnerDoesItsWork(c, j);
    var d := Run(c, work);
    var last := [WatchClear(j)];
    assert last[1..] == [] && Run(d, last) == Step(d, WatchClear(j));
    RunConcat(c, work, last);
    es := work + last;
    assert j !in Run(c, es).signals;
  }

  /** The promise over one continuation of the pin's commit. */
  predicate Kept(s: State, es: seq<Event>) {
    LegalRun(Commit(s), es) && Done(Run(Commit(s), es)) ==> Guarded(Run(Commit(s), es))
  }

  /** Main result on pins: from whatever state the pin commits in, its promise holds over every
      continuation if and only if the pinner can reach every unpinned job that is past the check. */
  lemma PinIsEffectiveIff(s: State)
    ensures SafeToPin(s) <==> forall es: seq<Event> :: Kept(s, es)
  {
    if SafeToPin(s) {
      forall es: seq<Event> ensures Kept(s, es) {
        if LegalRun(Commit(s), es) && Done(Run(Commit(s), es)) {
          PinIsEffective(s, es);
        }
      }
    } else {
      var j :| j in s.held && s.held[j].PastCheck? && j !in s.pinned + {s.target} && !Reachable(s, j);
      var es := UnreachedJobEscapes(s, j);
      assert !Kept(s, es);
    }
  }

  /** Seen from the system's side: after any fenced history, a pin that commits while no watcher stands
      between finding a signal stale and deleting it keeps its promise over every continuation. */
  lemma PinUnderTheFences(s: State, history: seq<Event>, es: seq<Event>)
    requires AllVisible(s) && LegalRun(s, history)
    requires NoStaleClear(Run(s, history))
    ensures Kept(Run(s, history), es)
  {
    AlwaysVisible(s, history);
    OnlyStaleClearsAreUnsafe(Run(s, history));
    PinIsEffectiveIff(Run(s, history));
  }

  /** What the fence on `StopQueued` is for: a pause or cancel that finds the row still `queued`
      though a worker has the job takes the job's registration, its lease and its own signal away.
      The job starts, out of the reach of any pin that commits then, marked running or not. */
  lemma QueuedStopEscapes(s: State, j: JobId, mark: bool) returns (t: State, es: seq<Event>)
    requires InHands(s, j) && !Blocked(s, j) && j !in s.pinned + {s.target}
    ensures var stopped := Step(Step(s, StopQueued(j)), CheckPin(j));
            t == if mark then Step(stopped, MarkRunning(j)) else stopped
    ensures IsPastCheck(t, j) && (mark ==> Legal(Step(Step(s, StopQueued(j)), CheckPin(j)), MarkRunning(j)))
    ensures !Kept(t, es)
  {
    t := Step(Step(s, StopQueued(j)), CheckPin(j));
    if mark {
      t := Step(t, MarkRunning(j));
    }
    es := UnreachedJobEscapes(t, j);
  }

  /** A stop of a queued row keeps the jobs at work visible exactly when no worker has the job. */
  lemma QueuedStopIsHarmlessIff(s: State, j: JobId)
    requires AllVisible(s)
    ensures AllVisible(Step(s, StopQueued(j))) <==> !InHands(s, j)
  {
    var t := Step(s, StopQueued(j));
    if InHands(s, j) {
      assert !Visible(t, j);
    }
  }

  // ------------------------------------------------------------------ jobs unpinned meanwhile

  lemma {:induction false} PinsOnlyGrow(s: State, es: seq<Event>)
    requires s.everPinned == s.pinned && NoUnpin(es)
    ensures Run(s, es).everPinned == Run(s, es).pinned
    decreases es
  {
    if es != [] {
      assert es[0] in es;
      assert forall e <- es[1..] :: e in es;
      PinsOnlyGrow(Step(s, es[0]), es[1..]);
    }
  }

  /** While nobody unpins, it holds read literally, under the same exact condition. */
  predicate KeptNow(s: State, es: seq<Event>) {
    LegalRun(Commit(s), es) && NoUnpin(es) && Done(Run(Commit(s), es)) ==> GuardedNow(Run(Commit(s), es))
  }

  lemma PinIsEffectiveNowIff(s: State)
    ensures SafeToPin(s) <==> forall es: seq<Event> :: KeptNow(s, es)
  {
    if SafeToPin(s) {
      forall es: seq<Event> ensures KeptNow(s, es) {
        if LegalRun(Commit(s), es) && NoUnpin(es) && Done(Run(Commit(s), es)) {
          PinIsEffective(s, es);
          PinsOnlyGrow(Commit(s), es);
        }
      }
    } else {
      var j :| j in s.held && s.held[j].PastCheck? && j !in s.pinned + {s.target} && !Reachable(s, j);
      var es := UnreachedJobEscapes(s, j);
      assert !KeptNow(s, es);
    }
  }

  /** And one unpin undoes it exactly when the job it unpins is past the check without a signal: one
      that the pinner's filter spared, or that was pinned later. */
  lemma UnpinBreaksIff(s: State, q: JobId)
    requires GuardedNow(s)
    ensures GuardedNow(Step(s, Unpin(q))) <==> !(IsPastCheck(s, q) && q !in s.signals)
  {
  }

  /** Such a run exists whenever a pinned job is at work without a signal when another one is pinned:
      the pinner spares it, and unpinning it leaves it running beside the pin. */
  lemma UnpinnedLaterEscapes(s: State, q: JobId) returns (es: seq<Event>)
    requires IsPastCheck(s, q) && q in s.pinned && q != s.target && q !in s.signals
    ensures LegalRun(Commit(s), es) && Done(Run(Commit(s), es)) && !GuardedNow(Run(Commit(s), es))
  {
    var c := Commit(s);
    var work := PinnerDoesItsWork(c, q);
    var d := Run(c, work);
    var last := [Unpin(q)];
    assert last[1..] == [] && Run(d, last) == Step(d, Unpin(q));
    RunConcat(c, work, last);
    es := work + last;
    assert q in Run(c, es).held && q !in Run(c, es).pinned && q !in Run(c, es).signals;
  }

  // ------------------------------------------------------------------ what a signal does

  /** What a watcher makes of the signal it reads: a cancel or pause ends the job; a requeue ends it while
      another job's pin blocks the model, and is put down for deletion otherwise; no signal, nothing. */
  lemma WatcherDecides(s: State, j: JobId)
    requires IsPastCheck(s, j)
    ensures var t := Step(s, WatchRead(j));
            && (j !in s.signals ==> t == s)
            && (j in s.signals && !s.signals[j].Requeue? ==> t.held[j].Ending?)
            && (j in s.signals && s.signals[j].Requeue? && s.pinned * s.blocking != {} && j !in s.pinned * s.blocking ==>
                  t.held[j].Ending?)
            && (j in s.signals && s.signals[j].Requeue? && s.pinned * s.blocking == {} ==>
                  IsPastCheck(t, j) && j !in Step(t, WatchClear(j)).signals)
  {
  }

  /** What the check before the start makes of a claimed job: it is turned away exactly if some job's pin
      blocks the model and it is not itself such a job; so several pinned jobs can run together. */
  lemma CheckDecides(s: State, j: JobId)
    requires j in s.held && s.held[j].Claimed?
    ensures var t := Step(s, CheckPin(j));
            && (t.held[j].Ending? <==> (exists k :: k in s.pinned && k in s.blocking) && (j !in s.pinned || j !in s.blocking))
            && (!t.held[j].Ending? ==> t.held[j].PastCheck?)
  {
    if k :| k in s.pinned && k in s.blocking {
      assert k in Blockers(s);
    }
  }

  /** Nothing is pinned on the model, nobody is about to pin, and this job is not stopped by a user nor ends
      by itself. */
  predicate PinsAreOff(s: State) {
    s.pinned == {} && s.pinner.NotStarted?
  }

  predicate LeavesInPeace(e: Event, j: JobId) {
    match e
    case OtherPin(_) => false
    case UserStop(k, _) => k != j
    case Leave(k) => k != j
    case Gone(k) => k != j
    case Claim(k) => k != j
    case _ => true
  }

  /** Without a pin a requeue signal, however old, ends no job. */
  lemma {:induction false} NoPinNoPreemption(s: State, es: seq<Event>, j: JobId)
    requires PinsAreOff(s) && IsPastCheck(s, j) && (j in s.signals ==> s.signals[j].Requeue?)
    requires LegalRun(s, es) && (forall e <- es :: LeavesInPeace(e, j))
    ensures PinsAreOff(Run(s, es)) && IsPastCheck(Run(s, es), j)
    decreases es
  {
    if es != [] {
      assert es[0] in es;
      assert forall e <- es[1..] :: e in es;
      NoPinNoPreemption(Step(s, es[0]), es[1..], j);
    }
  }

  // ------------------------------------------------------------------ the imperative form

  /** The control signals and leases `preempt_for` works on. */
  class SignalBoard {
    var signals: map<JobId, Signal>
    var leases: set<JobId>

    /** `signal(..., only_if_absent=True)`: `SET NX`. */
    method SignalIfAbsent(j: JobId, action: Signal)
      modifies this`signals
      ensures signals == if j in old(signals) then old(signals) else old(signals)[j := action]
    {
      if j !in signals {
        signals := signals[j := action];
      }
    }

    /** `preempt_for` with nobody interfering: every other job found in the database or in Redis,
        not itself pinned and still leased, gets a requeue signal, unless it has a signal already: a
        user's cancel or pause is never replaced. Nobody else's signal changes. */
    method PreemptFor(target: JobId, dbRunning: set<JobId>, registered: set<JobId>, pinned: set<JobId>)
      returns (signaled: set<JobId>)
      modifies this`signals
      ensures signaled == (dbRunning + registered - {target} - pinned) * leases
      ensures signals.Keys == old(signals).Keys + signaled
      ensures forall j | j in signals :: signals[j] == if j in old(signals) then old(signals)[j] else Requeue
    {
      var rest := dbRunning + registered - {target} - pinned;
      ghost var all := rest;
      signaled := {};
      while rest != {}
        invariant rest <= all && signaled == (all - rest) * leases
        invariant signals.Keys == old(signals).Keys + signaled
        invariant forall j | j in signals :: signals[j] == if j in old(signals) then old(signals)[j] else Requeue
        decreases rest
      {
        var j :| j in rest;
        rest := rest - {j};
        if j in leases {
          SignalIfAbsent(j, Requeue);
          signaled := signaled + {j};
        }
      }
    }
  }

  function PinnedOn(ids: set<JobId>, models: map<JobId, string>, m: string): set<JobId> {
    set j | j in ids && j in models && models[j] == m
  }

  lemma OneMorePinned(ids: set<JobId>, models: map<JobId, string>, j: JobId, m: string)
    ensures PinnedOn(ids + {j}, models, m) ==
      PinnedOn(ids, models, m) + if j in models && models[j] == m then {j} else {}
  {
  }

  /** `pinned_models`: the dictionary from model name to the jobs pinned on it. Jobs without a known
      model are in no entry, and no entry is empty. */
  method PinnedModels(ids: set<JobId>, models: map<JobId, string>) returns (out: map<string, set<JobId>>)
    ensures forall m :: m in out <==> PinnedOn(ids, models, m) != {}
    ensures forall m | m in out :: out[m] == PinnedOn(ids, models, m)
    ensures forall j | j in ids && j in models :: models[j] in out && j in out[models[j]]
    ensures forall m, j | m in out && j in out[m] :: j in ids && j in models && models[j] == m
  {
    out := map[];
    var rest := ids;
    ghost var done: set<JobId> := {};
    while rest != {}
      invariant done + rest == ids
      invariant forall m :: m in out <==> PinnedOn(done, models, m) != {}
      invariant forall m | m in out :: out[m] == PinnedOn(done, models, m)
      decreases rest
    {
      var j :| j in rest;
      rest := rest - {j};
      forall m ensures PinnedOn(done + {j}, models, m) ==
        PinnedOn(done, models, m) + if j in models && models[j] == m then {j} else {}
      {
        OneMorePinned(done, models, j, m);
      }
      done := done + {j};
      if j in models {
        var m := models[j];
        out := out[m := (if m in out then out[m] else {}) + {j}];
      }
    }
    assert done == ids;
    forall j | j in ids && j in models ensures models[j] in out && j in out[models[j]] {
      assert j in PinnedOn(ids, models, models[j]);
    }
  }
}
