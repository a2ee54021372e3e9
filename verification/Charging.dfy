/** End to end, one billing epoch of one job: result lines are produced and counted (Runs), the
    counters are flushed to the job row and cut into records (Billing), the records are sent to the
    deduplicating gateway (Outbox). All three interleave freely, and any process may crash. */
module Charging {
  import opened TokenCounts
  import Billing
  import Outbox
  import Results
  import Runs

  type Flusher = nat

  /** `flushes` are the counters that the run loop, the biller or `_finalize` have read under the lock and
      not yet written to the row; they may land in any order. `high` is history: the high-water mark of
      the usage the job has produced. `crashed` says whether a run has lost its unflushed buffer in this
      epoch. */
  datatype System = System(
    ledger: Billing.Ledger,
    outbox: Outbox.State,
    session: Runs.Session,
    flushes: map<Flusher, Tokens>,
    high: Tokens,
    crashed: bool)

  datatype Event =
    | Work(run: Runs.Event)
    | ReadCounters(flusher: Flusher)
    | WriteCounters(flusher: Flusher)
    | BeginCut(cutter: Billing.Cutter)
    | CommitCut(cutter: Billing.Cutter, key: Outbox.Option<Outbox.Key>)
    | AbandonCut(cutter: Billing.Cutter)
    | Deliver(send: Outbox.Event)

  /** The usage of every result line, on disk or still in the writer's buffer. */
  function Produced(s: Runs.Session): Tokens {
    Results.Usage(Runs.OutLog(s))
  }

  /** A runner is alive, or has ended its run and is in `_finalize`: only then are counters read. */
  predicate HasRunner(s: Runs.Session) {
    s.active || s.verdict.Some?
  }

  predicate Enabled(y: System, e: Event) {
    match e
    case Work(r) => Runs.Enabled(y.session, r)
    case ReadCounters(_) => HasRunner(y.session)
    case WriteCounters(f) => f in y.flushes
    case Deliver(o) => !o.Append? && Outbox.Legal(y.outbox, o)
    case _ => true
  }

  function DoWork(y: System, r: Runs.Event): System {
    var s := Runs.Step(y.session, r);
    y.(session := s, flushes := if r.Crash? then map[] else y.flushes,
       high := Join(y.high, Produced(s)), crashed := y.crashed || r.Crash?)
  }

  /** A committed cut adds its record to the outbox in the same transaction. */
  function DoCommitCut(y: System, c: Billing.Cutter, key: Outbox.Option<Outbox.Key>): System {
    var l := Billing.Commit(y.ledger, c);
    if !Billing.CasSucceeds(y.ledger, c) || l.records == [] then y.(ledger := l)
    else
      var r := l.records[|l.records| - 1];
      y.(ledger := l, outbox := Outbox.Step(y.outbox, Outbox.Append(r.tokens, r.model, key)))
  }

  function DoWrite(y: System, f: Flusher): System {
    if f !in y.flushes then y
    else y.(ledger := Billing.Step(y.ledger, Billing.Report(y.flushes[f])), flushes := y.flushes - {f})
  }

  function Step(y: System, e: Event): System {
    match e
    case Work(r) => DoWork(y, r)
    case ReadCounters(f) => y.(flushes := y.flushes[f := y.session.tally.tokens])
    case WriteCounters(f) => DoWrite(y, f)
    case BeginCut(c) => y.(ledger := Billing.Begin(y.ledger, c))
    case CommitCut(c, key) => DoCommitCut(y, c, key)
    case AbandonCut(c) => y.(ledger := Billing.Step(y.ledger, Billing.AbandonCut(c)))
    case Deliver(o) => y.(outbox := Outbox.Step(y.outbox, o))
  }

  predicate EnabledRun(y: System, es: seq<Event>)
    decreases es
  {
    es == [] || (Enabled(y, es[0]) && EnabledRun(Step(y, es[0]), es[1..]))
  }

  function Run(y: System, es: seq<Event>): System
    decreases es
  {
    if es == [] then y else Run(Step(y, es[0]), es[1..])
  }

  // ------------------------------------------------------------------ the invariant

  /** Every billing record is in the outbox with its own tokens. */
  predicate SameRecords(l: Billing.Ledger, o: Outbox.State) {
    && |o.recs| == |l.records|
    && (forall i | 0 <= i < |o.recs| :: o.recs[i].tokens == l.records[i].tokens)
  }

  /** Counters and high-water marks: what the job row says was produced at some time, and, without
      a crash, is still there. */
  predicate CountersSound(y: System) {
    && (HasRunner(y.session) ==> y.session.tally.tokens == Produced(y.session))
    && AtMost(Produced(y.session), y.high)
    && AtMost(y.ledger.peak, y.high)
    && (!y.crashed ==> AtMost(y.ledger.peak, Produced(y.session)))
    && (forall f | f in y.flushes ::
          AtMost(y.flushes[f], y.high) && (!y.crashed ==> AtMost(y.flushes[f], Produced(y.session))))
  }

  predicate Inv(y: System) {
    && Billing.Inv(y.ledger) && Outbox.Inv(y.outbox) && Runs.Inv(y.session)
    && SameRecords(y.ledger, y.outbox)
    && CountersSound(y)
  }

  lemma RunnerCountsProduced(s: Runs.Session)
    requires Runs.Inv(s) && s.active
    ensures s.tally.tokens == Produced(s)
  {
    Results.ScanMeaning(Runs.OutLog(s), Runs.ErrLog(s));
  }

  /** An epoch begins with any rebase that meets no live snapshot, a runner's or that of a model change
      while no run is alive, whatever the row's counters say: if they say more than the result lines,
      a crash has taken lines away. */
  lemma EpochBegins(l: Billing.Ledger, o: Outbox.State, s: Runs.Session, enabled: bool, model: string)
    requires Billing.Inv(l) && Outbox.Inv(o) && Runs.Inv(s) && SameRecords(l, o) && Billing.NoLiveCut(l)
    requires HasRunner(s) ==> s.tally.tokens == Produced(s)
    ensures var known := AtMost(l.row.usage, Produced(s));
            Inv(System(Billing.MoveOrigin(l, enabled, model), o, s, map[], Join(Produced(s), l.row.usage), !known))
  {
    Billing.StepPreservesInv(l, Billing.Rebase(enabled, model));
  }

  /** A run's own rebase comes after it has set the counters from its rescan. */
  lemma EpochBeginsWithRun(l: Billing.Ledger, o: Outbox.State, s: Runs.Session, enabled: bool, model: string)
    requires Billing.Inv(l) && Outbox.Inv(o) && Runs.Inv(s) && SameRecords(l, o)
    requires Billing.NoLiveCut(l) && s.active && l.row.usage == s.tally.tokens
    ensures var y := System(Billing.MoveOrigin(l, enabled, model), o, s, map[], Produced(s), false);
            Inv(y) && CachedTracks(y, {Produced(s)})
  {
    RunnerCountsProduced(s);
    EpochBegins(l, o, s, enabled, model);
    assert Join(Produced(s), l.row.usage) == Produced(s);
  }

  /** Without a crash the produced usage grows by each success and by nothing else, and never shrinks:
      not at a stop, not at a rescan, not when the failed items are cleared for a retry. */
  lemma ProducedGrows(s: Runs.Session, e: Runs.Event)
    requires !e.Crash? && (e.Start? ==> s.outBuf == [])
    ensures Produced(Runs.Step(s, e)) == if e.Succeed? then Add(Produced(s), e.usage) else Produced(s)
  {
    var t := Runs.Step(s, e);
    if e.Succeed? {
      var x := Results.Entry(e.index, e.usage);
      Results.PlusUsageSnoc(Zero(), Runs.OutLog(s), x);
      assert Runs.OutLog(t) == Runs.OutLog(s) + [x];
    } else {
      assert Runs.OutLog(t) == Runs.OutLog(s);
    }
  }

  lemma CountersKeepUp(s: Runs.Session, e: Runs.Event)
    requires Runs.Inv(s) && Runs.Enabled(s, e) && !e.Crash?
    requires HasRunner(s) ==> s.tally.tokens == Produced(s)
    ensures HasRunner(Runs.Step(s, e)) ==> Runs.Step(s, e).tally.tokens == Produced(Runs.Step(s, e))
  {
    if e.Start? {
      Runs.StepPreservesInv(s, e);
      RunnerCountsProduced(Runs.Step(s, e));
    } else {
      ProducedGrows(s, e);
    }
  }

  /** The high-water mark rises with what is produced, and what was known before stays known. */
  lemma WorkKeepsMarks(y: System, r: Runs.Event, x: Tokens)
    requires AtMost(x, y.high) && (!y.crashed ==> AtMost(x, Produced(y.session)))
    requires !r.Crash? ==> AtMost(Produced(y.session), Produced(DoWork(y, r).session))
    ensures AtMost(x, DoWork(y, r).high) && AtMost(Produced(DoWork(y, r).session), DoWork(y, r).high)
    ensures !DoWork(y, r).crashed ==> AtMost(x, Produced(DoWork(y, r).session))
  {
  }

  lemma WorkKeepsCounters(y: System, r: Runs.Event)
    requires Runs.Inv(y.session) && CountersSound(y) && Runs.Enabled(y.session, r)
    ensures CountersSound(DoWork(y, r))
  {
    var t := DoWork(y, r);
    if !r.Crash? {
      ProducedGrows(y.session, r);
      CountersKeepUp(y.session, r);
    } else {
      assert !HasRunner(t.session);
    }
    WorkKeepsMarks(y, r, y.ledger.peak);
    forall f | f in t.flushes
      ensures AtMost(t.flushes[f], t.high) && (!t.crashed ==> AtMost(t.flushes[f], Produced(t.session)))
    {
      WorkKeepsMarks(y, r, y.flushes[f]);
    }
  }

  lemma WorkPreserves(y: System, r: Runs.Event)
    requires Inv(y) && Runs.Enabled(y.session, r)
    ensures Inv(DoWork(y, r))
  {
    Runs.StepPreservesInv(y.session, r);
    WorkKeepsCounters(y, r);
  }

  lemma WritePreserves(y: System, f: Flusher)
    requires Inv(y)
    ensures Inv(DoWrite(y, f))
  {
    if f in y.flushes {
      Billing.StepPreservesInv(y.ledger, Billing.Report(y.flushes[f]));
    }
  }

  lemma CommitCutPreserves(y: System, c: Billing.Cutter, key: Outbox.Option<Outbox.Key>)
    requires Inv(y)
    ensures Inv(DoCommitCut(y, c, key))
  {
    Billing.CommitPreservesInv(y.ledger, c);
    if Billing.CasSucceeds(y.ledger, c) {
      assert Billing.SnapshotSound(y.ledger, y.ledger.inFlight[c]);
      var l := Billing.Commit(y.ledger, c);
      var r := l.records[|l.records| - 1];
      Outbox.StepPreservesInv(y.outbox, Outbox.Append(r.tokens, r.model, key));
    }
  }

  lemma DeliverPreserves(y: System, o: Outbox.Event)
    requires Inv(y) && !o.Append? && Outbox.Legal(y.outbox, o)
    ensures Inv(y.(outbox := Outbox.Step(y.outbox, o)))
  {
    Outbox.StepPreservesInv(y.outbox, o);
  }

  lemma StepPreservesInv(y: System, e: Event)
    requires Inv(y) && Enabled(y, e)
    ensures Inv(Step(y, e))
  {
    match e
    case Work(r) => WorkPreserves(y, r);
    case ReadCounters(_) =>
    case WriteCounters(f) => WritePreserves(y, f);
    case BeginCut(c) => Billing.StepPreservesInv(y.ledger, Billing.BeginCut(c));
    case CommitCut(c, key) => CommitCutPreserves(y, c, key);
    case AbandonCut(c) => Billing.StepPreservesInv(y.ledger, Billing.AbandonCut(c));
    case Deliver(o) => DeliverPreserves(y, o);
  }

  lemma {:induction false} AnyRunKeepsInv(y: System, es: seq<Event>)
    requires Inv(y) && EnabledRun(y, es)
    ensures Inv(Run(y, es))
    decreases es
  {
    if es != [] {
      StepPreservesInv(y, es[0]);
      AnyRunKeepsInv(Step(y, es[0]), es[1..]);
    }
  }

  lemma {:induction false} OriginStays(y: System, es: seq<Event>)
    ensures Run(y, es).ledger.base == y.ledger.base && Run(y, es).ledger.start == y.ledger.start
    decreases es
  {
    if es != [] {
      OriginStays(Step(y, es[0]), es[1..]);
    }
  }

  // ------------------------------------------------------------------ what the gateway took

  /** `acc` plus the money taken for the records from `from` on, read off the gateway's own ledger. */
  function PlusCharges(acc: Tokens, charges: seq<Outbox.Charge>, from: nat): Tokens {
    if charges == [] then acc else
      var c, rest := charges[|charges| - 1], PlusCharges(acc, charges[..|charges| - 1], from);
      if c.rec >= from then Add(rest, c.tokens) else rest
  }

  /** `acc` plus the tokens of the charged records among `from .. n`. */
  function PlusCharged(acc: Tokens, recs: seq<Outbox.Rec>, charges: seq<Outbox.Charge>, from: nat, n: nat): Tokens
    requires n <= |recs|
  {
    if n <= from then acc
    else if Outbox.IsCharged(charges, n - 1) then Add(PlusCharged(acc, recs, charges, from, n - 1), recs[n - 1].tokens)
    else PlusCharged(acc, recs, charges, from, n - 1)
  }

  /** One more charge, of a record not charged before, adds that record's tokens once. */
  lemma {:induction false} OneMoreCharge(
    acc: Tokens, recs: seq<Outbox.Rec>, front: seq<Outbox.Charge>, c: Outbox.Charge, from: nat, n: nat)
    requires n <= |recs| && !Outbox.IsCharged(front, c.rec) && c.rec < |recs| && c.tokens == recs[c.rec].tokens
    ensures PlusCharged(acc, recs, front + [c], from, n)
         == if from <= c.rec < n then Add(PlusCharged(acc, recs, front, from, n), c.tokens)
            else PlusCharged(acc, recs, front, from, n)
    decreases n
  {
    if n > from {
      OneMoreCharge(acc, recs, front, c, from, n - 1);
      AddSwap(PlusCharged(acc, recs, front, from, n - 1), c.tokens, recs[n - 1].tokens);
      var all := front + [c];
      assert all[|front|] == c;
      assert forall i | 0 <= i < |front| :: all[i] == front[i];
      assert Outbox.IsCharged(all, n - 1) <==> Outbox.IsCharged(front, n - 1) || c.rec == n - 1;
    }
  }

  lemma {:induction false} NoCharges(acc: Tokens, recs: seq<Outbox.Rec>, cs: seq<Outbox.Charge>, from: nat, n: nat)
    requires n <= |recs| && |cs| == 0
    ensures PlusCharged(acc, recs, cs, from, n) == acc
    decreases n
  {
    if n > from {
      NoCharges(acc, recs, cs, from, n - 1);
    }
  }

  /** The gateway's ledger and the platform's records agree on what was taken. */
  lemma {:induction false} GatewayAgrees(acc: Tokens, s: Outbox.State, from: nat)
    requires Outbox.ChargedOnce(s)
    ensures PlusCharges(acc, s.charges, from) == PlusCharged(acc, s.recs, s.charges, from, |s.recs|)
    decreases |s.charges|
  {
    if |s.charges| == 0 {
      NoCharges(acc, s.recs, s.charges, from, |s.recs|);
    } else {
      var k := |s.charges| - 1;
      var front, c := s.charges[..k], s.charges[k];
      assert s.charges == front + [c];
      assert forall i | 0 <= i < k :: front[i] == s.charges[i];
      GatewayAgrees(acc, s.(charges := front), from);
      OneMoreCharge(acc, s.recs, front, c, from, |s.recs|);
    }
  }

  lemma {:induction false} ChargedAtMostCut(l: Billing.Ledger, o: Outbox.State, n: nat)
    requires SameRecords(l, o) && n <= |o.recs|
    ensures var charged := PlusCharged(l.base, o.recs, o.charges, l.start, n);
            var cut := Billing.PlusRecords(l.base, l.records[..n], l.start);
            && AtMost(charged, cut)
            && ((forall i | l.start <= i < n :: Outbox.IsCharged(o.charges, i)) ==> charged == cut)
    decreases n
  {
    if n > l.start {
      ChargedAtMostCut(l, o, n - 1);
      assert l.records[..n][..n - 1] == l.records[..n - 1];
      assert l.records[..n][n - 1] == l.records[n - 1];
    }
  }

  /** The epoch's origin plus what the gateway took since. */
  function Taken(y: System): Tokens {
    PlusCharges(y.ledger.base, y.outbox.charges, y.ledger.start)
  }

  lemma TakenAtMostBilled(y: System)
    requires Inv(y)
    ensures AtMost(Taken(y), y.ledger.row.billed)
    ensures (forall i | y.ledger.start <= i < |y.outbox.recs| :: y.outbox.recs[i].status.Succeeded?) ==>
      Taken(y) == y.ledger.row.billed
  {
    GatewayAgrees(y.ledger.base, y.outbox, y.ledger.start);
    ChargedAtMostCut(y.ledger, y.outbox, |y.outbox.recs|);
    assert y.ledger.records[..|y.outbox.recs|] == y.ledger.records;
  }

  /** Main result: whatever runs, pauses, crashes, resumes and resends there were, the epoch's
      origin plus all the gateway took is within the job's high-water mark. */
  lemma NeverOvercharged(y: System, es: seq<Event>)
    requires Inv(y) && EnabledRun(y, es)
    ensures AtMost(Taken(Run(y, es)), Run(y, es).high)
    ensures Run(y, es).ledger.base == y.ledger.base && Run(y, es).ledger.start == y.ledger.start
  {
    OriginStays(y, es);
    AnyRunKeepsInv(y, es);
    TakenAtMostBilled(Run(y, es));
  }

  /** The job is at rest: no run, its last counters are in the job row, nothing is left to cut, and
      every record of the epoch has been charged. */
  predicate AtRest(y: System) {
    && !y.session.active
    && y.ledger.row.usage == Produced(y.session)
    && Billing.NothingToCut(y.ledger.row)
    && (forall i | y.ledger.start <= i < |y.outbox.recs| :: y.outbox.recs[i].status.Succeeded?)
  }

  /** And without a crash a job at rest has been charged for exactly the result lines on disk. */
  lemma ChargedExactlyWhatIsOnDisk(y: System, es: seq<Event>)
    requires Inv(y) && EnabledRun(y, es) && AtRest(Run(y, es)) && !Run(y, es).crashed
    ensures var t := Run(y, es);
            var onDisk := Results.Usage(t.session.output);
            Taken(t).prompt == onDisk.prompt && Taken(t).completion == onDisk.completion
  {
    AnyRunKeepsInv(y, es);
    var t := Run(y, es);
    TakenAtMostBilled(t);
    assert Runs.OutLog(t.session) == t.session.output && Runs.ErrLog(t.session) == t.session.errors;
  }

  // ------------------------------------------------------------------ cached tokens

  /** `b` has everything `a` has, and no more cached than prompt tokens on top of it. */
  predicate Extends(a: Tokens, b: Tokens) {
    AtMost(a, b) && b.cached + a.prompt <= b.prompt + a.cached
  }

  /** `chain` is history: everything the result lines have said so far in this epoch, each step adding no
      more cached than prompt tokens. What is billed, the row, the live snapshots and the counters still
      to be written are all among it, whatever order they come in; so no cut has to cap the cached part. */
  predicate CachedTracks(y: System, chain: set<Tokens>) {
    var l := y.ledger;
    && (forall a, b | a in chain && b in chain :: Extends(a, b) || Extends(b, a))
    && (forall a | a in chain :: Extends(a, Produced(y.session)))
    && Produced(y.session) in chain && l.row.billed in chain && l.row.usage in chain
    && (forall f | f in y.flushes :: y.flushes[f] in chain)
    && (forall c | c in l.inFlight && Billing.CasSucceeds(l, c) :: l.inFlight[c].usage in chain)
  }

  /** An answer's cached tokens are part of its prompt tokens. */
  predicate CachedInPrompt(e: Event) {
    e.Work? && e.run.Succeed? ==> e.run.usage.cached <= e.run.usage.prompt
  }

  /** A cut whose snapshot is comparable with what is billed bills exactly the snapshot. */
  lemma CommitTakesUsage(l: Billing.Ledger, c: Billing.Cutter)
    requires Billing.Inv(l) && Billing.CasSucceeds(l, c)
    requires Extends(l.row.billed, l.inFlight[c].usage) || Extends(l.inFlight[c].usage, l.row.billed)
    ensures Billing.Commit(l, c).row.billed == l.inFlight[c].usage
    ensures Billing.NoLiveCut(Billing.Commit(l, c))
  {
    assert Billing.SnapshotSound(l, l.inFlight[c]);
    forall k | k in l.inFlight ensures l.inFlight[k].billingSeq <= l.row.billingSeq {
      assert Billing.SnapshotSound(l, l.inFlight[k]);
    }
  }

  lemma CommitKeepsCached(y: System, c: Billing.Cutter, key: Outbox.Option<Outbox.Key>, chain: set<Tokens>)
    requires Inv(y) && CachedTracks(y, chain)
    ensures CachedTracks(DoCommitCut(y, c, key), chain)
  {
    if Billing.CasSucceeds(y.ledger, c) {
      CommitTakesUsage(y.ledger, c);
    }
  }

  lemma WorkKeepsCached(y: System, r: Runs.Event, chain: set<Tokens>)
    requires Inv(y) && Runs.Enabled(y.session, r) && CachedTracks(y, chain) && CachedInPrompt(Work(r)) && !r.Crash?
    ensures CachedTracks(DoWork(y, r), chain + {Produced(DoWork(y, r).session)})
  {
    ProducedGrows(y.session, r);
    assert Extends(Produced(y.session), Produced(DoWork(y, r).session));
  }

  lemma StepKeepsCached(y: System, e: Event, chain: set<Tokens>)
    requires Inv(y) && Enabled(y, e) && CachedTracks(y, chain) && CachedInPrompt(e) && !Step(y, e).crashed
    ensures CachedTracks(Step(y, e), chain + {Produced(Step(y, e).session)})
  {
    match e
    case Work(r) => WorkKeepsCached(y, r, chain);
    case CommitCut(c, key) =>
      CommitKeepsCached(y, c, key, chain);
      assert chain + {Produced(Step(y, e).session)} == chain;
    case _ => assert chain + {Produced(Step(y, e).session)} == chain;
  }

  lemma {:induction false} CrashIsRemembered(y: System, es: seq<Event>)
    ensures y.crashed ==> Run(y, es).crashed
    decreases es
  {
    if es != [] {
      CrashIsRemembered(Step(y, es[0]), es[1..]);
    }
  }

  lemma {:induction false} RunKeepsCached(y: System, es: seq<Event>, chain: set<Tokens>) returns (all: set<Tokens>)
    requires Inv(y) && EnabledRun(y, es) && CachedTracks(y, chain) && (forall e <- es :: CachedInPrompt(e))
    requires !Run(y, es).crashed
    ensures CachedTracks(Run(y, es), all)
    decreases es
  {
    all := chain;
    if es != [] {
      assert es[0] in es;
      assert forall e <- es[1..] :: e in es;
      CrashIsRemembered(Step(y, es[0]), es[1..]);
      StepKeepsCached(y, es[0], chain);
      StepPreservesInv(y, es[0]);
      all := RunKeepsCached(Step(y, es[0]), es[1..], chain + {Produced(Step(y, es[0]).session)});
    }
  }

  /** If no answer has more cached than prompt tokens, the same holds of the cached tokens too, even if
      flushes land out of order. */
  lemma CachedChargedExactly(y: System, es: seq<Event>, chain: set<Tokens>)
    requires Inv(y) && EnabledRun(y, es) && CachedTracks(y, chain) && (forall e <- es :: CachedInPrompt(e))
    requires AtRest(Run(y, es)) && !Run(y, es).crashed
    ensures Taken(Run(y, es)) == Results.Usage(Run(y, es).session.output)
  {
    AnyRunKeepsInv(y, es);
    var all := RunKeepsCached(y, es, chain);
    var t := Run(y, es);
    TakenAtMostBilled(t);
    assert Runs.OutLog(t.session) == t.session.output;
    assert Extends(t.ledger.row.billed, Produced(t.session));
  }

  // ------------------------------------------------------------------ the billing summary

  /** `acc` plus one row of `job_summary`: the tokens of the records in one status, from `from` on. */
  function PlusStatus(acc: Tokens, recs: seq<Outbox.Rec>, st: Outbox.Status, from: nat): Tokens {
    if |recs| <= from then acc
    else
      var rest, r := PlusStatus(acc, recs[..|recs| - 1], st, from), recs[|recs| - 1];
      if r.status == st then Add(rest, r.tokens) else rest
  }

  lemma {:induction false} PlusStatusShift(
    acc: Tokens, t: Tokens, recs: seq<Outbox.Rec>, st: Outbox.Status, from: nat)
    ensures PlusStatus(Add(acc, t), recs, st, from) == Add(PlusStatus(acc, recs, st, from), t)
    decreases |recs|
  {
    if |recs| > from {
      var front, r := recs[..|recs| - 1], recs[|recs| - 1];
      PlusStatusShift(acc, t, front, st, from);
      AddSwap(PlusStatus(acc, front, st, from), t, r.tokens);
    }
  }

  /** `base` plus the three rows of the summary. */
  function PlusAllStatuses(base: Tokens, recs: seq<Outbox.Rec>, from: nat): Tokens {
    PlusStatus(PlusStatus(PlusStatus(base, recs, Outbox.Succeeded, from), recs, Outbox.Pending, from),
               recs, Outbox.Failed, from)
  }

  lemma {:induction false} StatusesPartition(
    base: Tokens, recs: seq<Outbox.Rec>, records: seq<Billing.Record>, from: nat)
    requires |recs| == |records| && (forall i | 0 <= i < |recs| :: recs[i].tokens == records[i].tokens)
    ensures PlusAllStatuses(base, recs, from) == Billing.PlusRecords(base, records, from)
    decreases |recs|
  {
    var n := |recs|;
    if n > from {
      var front, r := recs[..n - 1], recs[n - 1];
      StatusesPartition(base, front, records[..n - 1], from);
      var s := PlusStatus(base, front, Outbox.Succeeded, from);
      var p := PlusStatus(s, front, Outbox.Pending, from);
      if r.status.Succeeded? {
        PlusStatusShift(s, r.tokens, front, Outbox.Pending, from);
        PlusStatusShift(p, r.tokens, front, Outbox.Failed, from);
      } else if r.status.Pending? {
        PlusStatusShift(p, r.tokens, front, Outbox.Failed, from);
      }
    }
  }

  /** A row of the page takes in exactly the records of its status. */
  lemma RowGrows(acc: Tokens, recs: seq<Outbox.Rec>, r: Outbox.Rec, st: Outbox.Status, from: nat)
    requires from <= |recs|
    ensures PlusStatus(acc, recs + [r], st, from) ==
      if r.status == st then Add(PlusStatus(acc, recs, st, from), r.tokens) else PlusStatus(acc, recs, st, from)
  {
    assert (recs + [r])[..|recs|] == recs;
  }

  lemma {:induction false} RowAgainstCharges(acc: Tokens, recs: seq<Outbox.Rec>, charges: seq<Outbox.Charge>, from: nat, n: nat)
    requires n <= |recs|
    requires forall i | from <= i < n && recs[i].status.Succeeded? :: Outbox.IsCharged(charges, i)
    ensures AtMost(PlusStatus(acc, recs[..n], Outbox.Succeeded, from), PlusCharged(acc, recs, charges, from, n))
    ensures (forall i | from <= i < n && Outbox.IsCharged(charges, i) :: recs[i].status.Succeeded?) ==>
      PlusStatus(acc, recs[..n], Outbox.Succeeded, from) == PlusCharged(acc, recs, charges, from, n)
    decreases n
  {
    if n > from {
      RowAgainstCharges(acc, recs, charges, from, n - 1);
      assert recs[..n] == recs[..n - 1] + [recs[n - 1]];
      RowGrows(acc, recs[..n - 1], recs[n - 1], Outbox.Succeeded, from);
    }
  }

  /** The page never shows as succeeded what the gateway has not taken: the succeeded row is at most the
      gateway's charges, and equal to them unless a charge has not been recorded yet. */
  lemma SucceededRowIsCharged(y: System, from: nat)
    requires Inv(y)
    ensures var row, taken := PlusStatus(Zero(), y.outbox.recs, Outbox.Succeeded, from), PlusCharges(Zero(), y.outbox.charges, from);
            && AtMost(row, taken)
            && ((forall c <- y.outbox.charges :: c.rec < |y.outbox.recs| && y.outbox.recs[c.rec].status.Succeeded?) ==> row == taken)
  {
    var n := |y.outbox.recs|;
    assert y.outbox.recs[..n] == y.outbox.recs;
    RowAgainstCharges(Zero(), y.outbox.recs, y.outbox.charges, from, n);
    GatewayAgrees(Zero(), y.outbox, from);
  }

  /** What the page shows as not yet cut: nothing while billing is off. */
  function Unbilled(row: Billing.JobRow): Tokens {
    if row.enabled then Billing.Delta(row) else Zero()
  }

  /** The page's three rows, which run over the records of all epochs, and its unbilled part. */
  function PageTotal(y: System): Tokens {
    Add(PlusAllStatuses(Zero(), y.outbox.recs, 0), Unbilled(y.ledger.row))
  }

  /** What was cut in earlier epochs. */
  function EarlierEpochs(y: System): Tokens
    requires y.ledger.start <= |y.ledger.records|
  {
    Billing.PlusRecords(Zero(), y.ledger.records[..y.ledger.start], 0)
  }

  lemma {:induction false} RecordsSplit(z: Tokens, base: Tokens, rs: seq<Billing.Record>, start: nat)
    requires start <= |rs|
    ensures Add(base, Billing.PlusRecords(z, rs, 0))
         == Add(Billing.PlusRecords(z, rs[..start], 0), Billing.PlusRecords(base, rs, start))
    decreases |rs|
  {
    if |rs| == start {
      assert rs[..start] == rs;
    } else {
      var front := rs[..|rs| - 1];
      RecordsSplit(z, base, front, start);
      assert front[..start] == rs[..start];
    }
  }

  /** The summary page adds up at every moment. Succeeded, pending, failed and unbilled together are
      what earlier epochs cut plus, above this epoch's origin, the job's usage (or, after a crash,
      whatever had been billed), and with billing off what is billed; and without a crash, once flushed,
      with billing on, the usage of the result lines. */
  lemma SummaryAddsUp(y: System)
    requires Inv(y)
    ensures var row, base := y.ledger.row, y.ledger.base;
            var page, earlier := Add(PageTotal(y), base), EarlierEpochs(y);
            && page.prompt == earlier.prompt
               + (if row.enabled then Max(row.usage.prompt, row.billed.prompt) else row.billed.prompt)
            && page.completion == earlier.completion
               + (if row.enabled then Max(row.usage.completion, row.billed.completion) else row.billed.completion)
            && (!y.crashed && row.enabled && row.usage == Produced(y.session) ==>
                  && page.prompt == earlier.prompt + Produced(y.session).prompt
                  && page.completion == earlier.completion + Produced(y.session).completion)
  {
    StatusesPartition(Zero(), y.outbox.recs, y.ledger.records, 0);
    RecordsSplit(Zero(), y.ledger.base, y.ledger.records, y.ledger.start);
  }
}
