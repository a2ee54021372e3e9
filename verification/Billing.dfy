/** Cutting a job's usage into immutable billing records (services/billing.py).

    A cut is two atomic steps: read the job row, then compare-and-set on `billing_seq`.
    Any number of cutters (the runner, the sweep, API handlers) interleave; the usage counters
    may rise or fall between any two steps; `rebase` moves the billing origin and leaves
    `billing_seq` alone. */
module Billing {
  import opened TokenCounts

  type Cutter = nat

  datatype Option<T> = None | Some(value: T)

  /** The columns of the job row that billing reads and writes. */
  datatype JobRow = JobRow(enabled: bool, model: string, usage: Tokens, billed: Tokens, billingSeq: nat)

  /** One billing record; `number` is the sequence number inside its `request_id`. */
  datatype Record = Record(number: nat, model: string, tokens: Tokens)

  /** The job row, its records, the snapshots held by cutters between their two steps, and the
      history of the current epoch: the origin set by the last rebase, how many records are older
      than it, the highest usage any committed cut saw, and the highest usage ever reported. */
  datatype Ledger = Ledger(
    row: JobRow,
    records: seq<Record>,
    inFlight: map<Cutter, JobRow>,
    base: Tokens,
    start: nat,
    seen: Tokens,
    peak: Tokens)

  datatype Event =
    | Report(usage: Tokens)
    | BeginCut(cutter: Cutter)
    | CommitCut(cutter: Cutter)
    | AbandonCut(cutter: Cutter)
    | Rebase(enabled: bool, model: string)

  /** The unbilled part of the usage. Never negative; the cached part never exceeds the prompt part. */
  function Delta(row: JobRow): Tokens {
    var dp := Monus(row.usage.prompt, row.billed.prompt);
    var dcached := Monus(row.usage.cached, row.billed.cached);
    Tokens(dp, Monus(row.usage.completion, row.billed.completion), if dcached < dp then dcached else dp)
  }

  predicate NothingToCut(row: JobRow) {
    Delta(row).prompt == 0 && Delta(row).completion == 0
  }

  function NewLedger(enabled: bool, model: string): Ledger {
    Ledger(JobRow(enabled, model, Zero(), Zero(), 0), [], map[], Zero(), 0, Zero(), Zero())
  }

  /** Does this cutter's compare-and-set find the lock version it read? */
  predicate CasSucceeds(l: Ledger, c: Cutter) {
    c in l.inFlight && l.inFlight[c].billingSeq == l.row.billingSeq
  }

  function Begin(l: Ledger, c: Cutter): Ledger {
    if l.row.enabled && !NothingToCut(l.row) then l.(inFlight := l.inFlight[c := l.row]) else l
  }

  function Commit(l: Ledger, c: Cutter): Ledger {
    if !CasSucceeds(l, c) then l.(inFlight := l.inFlight - {c})
    else
      var snap := l.inFlight[c];
      var d := Delta(snap);
      l.(row := l.row.(billingSeq := snap.billingSeq + 1, billed := Add(snap.billed, d)),
         records := l.records + [Record(snap.billingSeq + 1, snap.model, d)],
         inFlight := l.inFlight - {c},
         seen := Join(l.seen, snap.usage))
  }

  function MoveOrigin(l: Ledger, enabled: bool, model: string): Ledger {
    l.(row := l.row.(enabled := enabled, model := model, billed := l.row.usage),
       base := l.row.usage, start := |l.records|, seen := l.row.usage, peak := l.row.usage)
  }

  function Step(l: Ledger, e: Event): Ledger {
    match e
    case Report(u) => l.(row := l.row.(usage := u), peak := Join(l.peak, u))
    case BeginCut(c) => Begin(l, c)
    case CommitCut(c) => Commit(l, c)
    case AbandonCut(c) => l.(inFlight := l.inFlight - {c})
    case Rebase(enabled, model) => MoveOrigin(l, enabled, model)
  }

  /** No cutter holds a snapshot taken at the current lock version. */
  predicate NoLiveCut(l: Ledger) {
    forall c | c in l.inFlight :: l.inFlight[c].billingSeq < l.row.billingSeq
  }

  /** What the environment owes: a rebase happens only where no stale cut could still commit. */
  predicate Legal(l: Ledger, e: Event) {
    e.Rebase? ==> NoLiveCut(l)
  }

  predicate LegalRun(l: Ledger, es: seq<Event>)
    decreases es
  {
    es == [] || (Legal(l, es[0]) && LegalRun(Step(l, es[0]), es[1..]))
  }

  function Run(l: Ledger, es: seq<Event>): Ledger
    decreases es
  {
    if es == [] then l else Run(Step(l, es[0]), es[1..])
  }

  /** `base` plus the tokens on the records from index `from` on. */
  function PlusRecords(base: Tokens, rs: seq<Record>, from: nat): Tokens {
    if |rs| <= from then base else Add(PlusRecords(base, rs[..|rs| - 1], from), rs[|rs| - 1].tokens)
  }

  lemma PlusRecordsSnoc(base: Tokens, rs: seq<Record>, from: nat, r: Record)
    requires from <= |rs|
    ensures PlusRecords(base, rs + [r], from) == Add(PlusRecords(base, rs, from), r.tokens)
  {
  }

  // ------------------------------------------------------------------ the ledger invariant

  /** The property of the current epoch a reader cares about. */
  predicate EpochConserved(l: Ledger) {
    && l.start <= |l.records|
    && l.row.billed == PlusRecords(l.base, l.records, l.start)
    && l.row.billed.prompt == Max(l.base.prompt, l.seen.prompt)
    && l.row.billed.completion == Max(l.base.completion, l.seen.completion)
    && l.row.billed.cached <= Max(l.base.cached, l.seen.cached)
    && AtMost(l.base, l.peak) && AtMost(l.seen, l.peak)
    && (forall i | l.start <= i < |l.records| :: l.records[i].model == l.row.model)
  }

  predicate RecordsSound(l: Ledger) {
    && l.row.billingSeq == |l.records|
    && (forall i | 0 <= i < |l.records| ::
          && l.records[i].number == i + 1
          && l.records[i].tokens.cached <= l.records[i].tokens.prompt
          && l.records[i].tokens.prompt + l.records[i].tokens.completion > 0)
  }

  /** A snapshot is either dead (older lock version) or still agrees with the row it came from. */
  predicate SnapshotSound(l: Ledger, snap: JobRow) {
    && snap.billingSeq <= l.row.billingSeq
    && !NothingToCut(snap)
    && (snap.billingSeq == l.row.billingSeq ==>
          snap.billed == l.row.billed && snap.model == l.row.model && AtMost(snap.usage, l.peak))
  }

  predicate Inv(l: Ledger) {
    && RecordsSound(l)
    && EpochConserved(l)
    && AtMost(l.row.usage, l.peak)
    && (!l.row.enabled ==> NoLiveCut(l))
    && (forall c | c in l.inFlight :: SnapshotSound(l, l.inFlight[c]))
  }

  lemma FreshLedgerInv(l: Ledger)
    requires |l.records| == 0 == l.start == l.row.billingSeq && |l.inFlight| == 0
    requires l.row.usage == l.row.billed == l.base == l.seen == l.peak
    ensures Inv(l)
  {
  }

  lemma CommitPreservesInv(l: Ledger, c: Cutter)
    requires Inv(l)
    ensures Inv(Commit(l, c))
  {
    if CasSucceeds(l, c) {
      var snap := l.inFlight[c];
      var d := Delta(snap);
      var l' := Commit(l, c);
      assert SnapshotSound(l, snap);
      PlusRecordsSnoc(l.base, l.records, l.start, Record(snap.billingSeq + 1, snap.model, d));
      forall k | k in l'.inFlight ensures SnapshotSound(l', l'.inFlight[k]) {
        assert SnapshotSound(l, l.inFlight[k]);
      }
    } else {
      var l' := Commit(l, c);
      forall k | k in l'.inFlight ensures SnapshotSound(l', l'.inFlight[k]) {
        assert SnapshotSound(l, l.inFlight[k]);
      }
    }
  }

  lemma StepPreservesInv(l: Ledger, e: Event)
    requires Inv(l) && Legal(l, e)
    ensures Inv(Step(l, e))
  {
    var l' := Step(l, e);
    match e
    case CommitCut(c) => CommitPreservesInv(l, c);
    case Rebase(enabled, model) =>
      forall k | k in l'.inFlight ensures SnapshotSound(l', l'.inFlight[k]) {
        assert SnapshotSound(l, l.inFlight[k]);
      }
    case _ =>
      forall k | k in l'.inFlight ensures SnapshotSound(l', l'.inFlight[k]) {
        assert k in l.inFlight ==> SnapshotSound(l, l.inFlight[k]);
      }
  }

  /** Main result on cutting: every interleaving of two-phase cuts keeps the ledger conserved. */
  lemma {:induction false} AnyInterleavingConserves(l: Ledger, es: seq<Event>)
    requires Inv(l) && LegalRun(l, es)
    ensures Inv(Run(l, es)) && RecordsSound(Run(l, es)) && EpochConserved(Run(l, es))
    decreases es
  {
    if es != [] {
      StepPreservesInv(l, es[0]);
      AnyInterleavingConserves(Step(l, es[0]), es[1..]);
    }
  }

  /** Records are append-only, and within an epoch nothing billed is ever taken back. */
  lemma {:induction false} RecordsOnlyGrow(l: Ledger, es: seq<Event>)
    requires Inv(l) && LegalRun(l, es)
    ensures l.records <= Run(l, es).records
    ensures (forall e <- es :: !e.Rebase?) ==>
      && Run(l, es).base == l.base && Run(l, es).start == l.start
      && AtMost(l.row.billed, Run(l, es).row.billed)
    decreases es
  {
    if es != [] {
      StepPreservesInv(l, es[0]);
      var l' := Step(l, es[0]);
      RecordsOnlyGrow(l', es[1..]);
      if es[0].CommitCut? && CasSucceeds(l, es[0].cutter) {
        assert SnapshotSound(l, l.inFlight[es[0].cutter]);
      }
      assert forall e <- es[1..] :: e in es;
    }
  }

  // ------------------------------------------------------------------ rebase and stale cuts

  /** Anything but a change of counters or origin, and not the settling cutter's own step. */
  predicate OthersOnly(c: Cutter, e: Event) {
    match e
    case BeginCut(d) => d != c
    case CommitCut(d) => d != c
    case AbandonCut(d) => d != c
    case _ => false
  }

  predicate AllOthers(c: Cutter, es: seq<Event>) {
    forall e <- es :: OthersOnly(c, e)
  }

  predicate Settled(l: Ledger) {
    NothingToCut(l.row) && NoLiveCut(l)
  }

  /** The ledger after cutter `c` has settled, the others doing `es` between its two steps. */
  function AfterSettle(l: Ledger, c: Cutter, es: seq<Event>): Ledger {
    Commit(Run(Begin(l, c), es), c)
  }

  /** Whoever of the live cutters commits first, nothing of today's usage is left. */
  predicate LiveCutsCover(l: Ledger) {
    forall d | d in l.inFlight && CasSucceeds(l, d) :: Covers(Join(l.row.billed, l.inFlight[d].usage), l.row.usage)
  }

  /** What a settle needs to find: every live snapshot reaches today's usage, and if there is nothing
      to cut, so that the settle itself bumps no lock version, no snapshot is live. */
  predicate Settleable(l: Ledger) {
    LiveCutsCover(l) && (NothingToCut(l.row) ==> NoLiveCut(l))
  }

  /** What the settling cutter `c` can rely on while the others interleave: either its own
      snapshot is still live, or somebody else's commit has settled everything. */
  predicate Settling(l: Ledger, c: Cutter) {
    Inv(l) && LiveCutsCover(l) && (CasSucceeds(l, c) || Settled(l))
  }

  lemma CommitSettles(l: Ledger, d: Cutter)
    requires Inv(l) && LiveCutsCover(l) && CasSucceeds(l, d)
    ensures Settled(Commit(l, d)) && Inv(Commit(l, d))
  {
    CommitPreservesInv(l, d);
    assert SnapshotSound(l, l.inFlight[d]);
    forall k | k in l.inFlight ensures l.inFlight[k].billingSeq <= l.row.billingSeq {
      assert SnapshotSound(l, l.inFlight[k]);
    }
  }

  lemma SettlingStep(l: Ledger, c: Cutter, e: Event)
    requires Settling(l, c) && OthersOnly(c, e)
    ensures Settling(Step(l, e), c)
    ensures Step(l, e).row.usage == l.row.usage && Step(l, e).row.model == l.row.model
  {
    StepPreservesInv(l, e);
    if e.CommitCut? && CasSucceeds(l, e.cutter) {
      CommitSettles(l, e.cutter);
    }
  }

  lemma {:induction false} SettlingRun(l: Ledger, c: Cutter, es: seq<Event>)
    requires Settling(l, c) && AllOthers(c, es)
    ensures Settling(Run(l, es), c)
    ensures Run(l, es).row.usage == l.row.usage && Run(l, es).row.model == l.row.model
    decreases es
  {
    if es != [] {
      assert es[0] in es;
      SettlingStep(l, c, es[0]);
      assert forall e <- es[1..] :: e in es;
      SettlingRun(Step(l, es[0]), c, es[1..]);
    }
  }

  lemma SettlingBegins(l: Ledger, c: Cutter)
    requires Inv(l) && Settleable(l) && l.row.enabled && c !in l.inFlight
    ensures Settling(Begin(l, c), c)
  {
    StepPreservesInv(l, BeginCut(c));
  }

  lemma SettlingEnds(l: Ledger, c: Cutter)
    requires Settling(l, c)
    ensures var s := Commit(l, c);
            Settled(s) && Inv(s) && s.row.usage == l.row.usage && s.row.model == l.row.model
  {
    if CasSucceeds(l, c) {
      CommitSettles(l, c);
    } else {
      CommitPreservesInv(l, c);
    }
  }

  lemma SettleSettles(l: Ledger, c: Cutter, es: seq<Event>)
    requires Inv(l) && Settleable(l) && l.row.enabled && c !in l.inFlight && AllOthers(c, es)
    ensures var s := AfterSettle(l, c, es);
            Settled(s) && Inv(s) && s.row.usage == l.row.usage && s.row.model == l.row.model
  {
    SettlingBegins(l, c);
    SettlingRun(Begin(l, c), c, es);
    SettlingEnds(Run(Begin(l, c), es), c);
  }

  /** If a live snapshot saw less, its commit in between makes the settle fail. */
  lemma ShortCutUnsettles(l: Ledger, c: Cutter, d: Cutter)
    requires Inv(l) && l.row.enabled && c !in l.inFlight && CasSucceeds(l, d)
    requires !Covers(Join(l.row.billed, l.inFlight[d].usage), l.row.usage)
    ensures AllOthers(c, [CommitCut(d)]) && !Settled(AfterSettle(l, c, [CommitCut(d)]))
  {
    assert SnapshotSound(l, l.inFlight[d]);
    var l1 := Begin(l, c);
    var es := [CommitCut(d)];
    assert es[1..] == [];
    assert Run(l1, es) == Commit(l1, d);
  }

  /** The exact condition: a settle leaves nothing uncut and no stale cut alive, whatever the other
      cutters do meanwhile, if and only if it finds the ledger settleable. */
  lemma SettleAllowsRebaseIff(l: Ledger, c: Cutter)
    requires Inv(l) && l.row.enabled && c !in l.inFlight
    ensures Settleable(l) <==> forall es: seq<Event> | AllOthers(c, es) :: Settled(AfterSettle(l, c, es))
  {
    if Settleable(l) {
      forall es: seq<Event> | AllOthers(c, es) ensures Settled(AfterSettle(l, c, es)) {
        SettleSettles(l, c, es);
      }
    } else if !LiveCutsCover(l) {
      var d :| d in l.inFlight && CasSucceeds(l, d) && !Covers(Join(l.row.billed, l.inFlight[d].usage), l.row.usage);
      ShortCutUnsettles(l, c, d);
    } else {
      assert AfterSettle(l, c, []).inFlight == l.inFlight;
      assert AllOthers(c, []) && !Settled(AfterSettle(l, c, []));
    }
  }

  /** What is settled stays settled while the other cutters go on. */
  lemma {:induction false} SettledStays(l: Ledger, c: Cutter, es: seq<Event>)
    requires Inv(l) && Settled(l) && AllOthers(c, es)
    ensures Settled(Run(l, es)) && Inv(Run(l, es)) && Run(l, es).row.usage == l.row.usage
    decreases es
  {
    if es != [] {
      assert es[0] in es;
      assert forall e <- es[1..] :: e in es;
      StepPreservesInv(l, es[0]);
      SettledStays(Step(l, es[0]), c, es[1..]);
    }
  }

  /** Settle, then rebase, the others cutting before, during and after the settle: under that condition
      nothing before the rebase is billed again, no stale cut can commit after it, and the rebase is a
      legal step. */
  lemma SettleThenRebaseIsSafe(l: Ledger, c: Cutter, es: seq<Event>, later: seq<Event>, enabled: bool, model: string)
    requires Inv(l) && Settleable(l) && l.row.enabled && c !in l.inFlight && AllOthers(c, es) && AllOthers(c, later)
    ensures var s := Run(AfterSettle(l, c, es), later);
            && Settled(s) && Inv(s)
            && Covers(s.row.billed, l.row.usage)
            && LegalRun(s, [Rebase(enabled, model)]) && Inv(MoveOrigin(s, enabled, model))
            && (forall k :: !CasSucceeds(MoveOrigin(s, enabled, model), k))
  {
    SettleSettles(l, c, es);
    SettledStays(AfterSettle(l, c, es), c, later);
    var s := Run(AfterSettle(l, c, es), later);
    assert Legal(s, Rebase(enabled, model));
    StepPreservesInv(s, Rebase(enabled, model));
  }

  /** A stale compare-and-set stays dead for ever: `billing_seq` never goes back. */
  lemma {:induction false} DeadCutStaysDead(l: Ledger, es: seq<Event>, c: Cutter)
    requires c in l.inFlight && l.inFlight[c].billingSeq < l.row.billingSeq
    requires forall e <- es :: e != BeginCut(c)
    ensures !CasSucceeds(Run(l, es), c)
    decreases es
  {
    if es != [] {
      var l' := Step(l, es[0]);
      assert es[0] in es;
      assert forall e <- es[1..] :: e in es;
      if c in l'.inFlight {
        DeadCutStaysDead(l', es[1..], c);
      } else {
        AbsentCutterCannotCommit(l', es[1..], c);
      }
    }
  }

  lemma {:induction false} AbsentCutterCannotCommit(l: Ledger, es: seq<Event>, c: Cutter)
    requires c !in l.inFlight && (forall e <- es :: e != BeginCut(c))
    ensures !CasSucceeds(Run(l, es), c)
    decreases es
  {
    if es != [] {
      assert es[0] in es;
      assert forall e <- es[1..] :: e in es;
      AbsentCutterCannotCommit(Step(l, es[0]), es[1..], c);
    }
  }

  /** Why the guard on rebase matters, exactly: a cut that straddles a rebase keeps the new epoch
      conserved if and only if the rebase did not move the origin at all. */
  lemma StraddlingCutConservesIff(l: Ledger, c: Cutter, enabled: bool, model: string)
    requires Inv(l) && CasSucceeds(l, c)
    ensures var l' := Commit(MoveOrigin(l, enabled, model), c);
            l'.row.billed == PlusRecords(l'.base, l'.records, l'.start) <==> l.row.usage == l.row.billed
  {
  }

  /** Settling is not enough when a snapshot is older than the last counter change: the settling
      cutter loses its compare-and-set to cutter `d`, and usage is left uncut if and only if `d`
      saw less of it than there is now. */
  lemma LostSettleLeavesUsageUncutIff(l: Ledger, c: Cutter, d: Cutter)
    requires Inv(l) && l.row.enabled && !NothingToCut(l.row)
    requires c != d && CasSucceeds(l, d)
    ensures var s := Run(l, [BeginCut(c), CommitCut(d), CommitCut(c)]);
            && |s.records| == |l.records| + 1
            && (NothingToCut(s.row) <==> Covers(Join(l.row.billed, l.inFlight[d].usage), l.row.usage))
  {
    assert SnapshotSound(l, l.inFlight[d]);
    var l1 := Begin(l, c);
    var l2 := Commit(l1, d);
    var es := [BeginCut(c), CommitCut(d), CommitCut(c)];
    assert es[1..] == [CommitCut(d), CommitCut(c)];
    assert es[1..][1..] == [CommitCut(c)];
    assert es[1..][1..][1..] == [];
    assert Run(l, es) == Run(l1, es[1..]) == Run(l2, es[1..][1..]) == Commit(l2, c);
  }

  /** A settle that nobody interrupts makes the rebase safe if and only if it had something to cut,
      or no snapshot was live: an empty settle bumps no lock version and kills nothing. */
  lemma LoneSettleAllowsRebaseIff(l: Ledger, c: Cutter, enabled: bool, model: string)
    requires Inv(l) && l.row.enabled && c !in l.inFlight
    ensures var s := Commit(Begin(l, c), c);
            Legal(s, Rebase(enabled, model)) <==> !NothingToCut(l.row) || NoLiveCut(l)
  {
    var s := Commit(Begin(l, c), c);
    if NothingToCut(l.row) {
      assert s.inFlight == l.inFlight;
    } else {
      forall k | k in s.inFlight ensures s.inFlight[k].billingSeq < s.row.billingSeq {
        assert SnapshotSound(l, l.inFlight[k]);
      }
    }
  }

  /** And when the counters have fallen since a live snapshot, that snapshot survives a settle
      that finds nothing to cut, commits after the rebase and puts the old usage back. */
  lemma FallenCountersLetStaleCutCommit()
    ensures var seen := Tokens(100, 0, 0);
            var l := Run(NewLedger(true, "m"),
                         [Report(seen), BeginCut(0), Report(Zero()), BeginCut(1), Rebase(true, "n")]);
            && CasSucceeds(l, 0) && !EpochConserved(Commit(l, 0))
            && Commit(l, 0).records == [Record(1, "m", seen)]
  {
    var seen := Tokens(100, 0, 0);
    var l0 := NewLedger(true, "m");
    var es := [Report(seen), BeginCut(0), Report(Zero()), BeginCut(1), Rebase(true, "n")];
    var l1 := Step(l0, Report(seen));
    var l2 := Step(l1, BeginCut(0));
    var l3 := Step(l2, Report(Zero()));
    var l4 := Step(l3, BeginCut(1));
    var l5 := Step(l4, Rebase(true, "n"));
    assert es[1..] == [BeginCut(0), Report(Zero()), BeginCut(1), Rebase(true, "n")];
    assert es[1..][1..] == [Report(Zero()), BeginCut(1), Rebase(true, "n")];
    assert es[1..][1..][1..] == [BeginCut(1), Rebase(true, "n")];
    assert es[1..][1..][1..][1..] == [Rebase(true, "n")];
    assert es[1..][1..][1..][1..][1..] == [];
    assert Run(l0, es) == Run(l1, es[1..]) == Run(l2, es[1..][1..]) == Run(l3, es[1..][1..][1..])
        == Run(l4, es[1..][1..][1..][1..]) == l5;
    var s := Commit(l5, 0);
    assert s.records[0].model == "m" && s.row.model == "n" && s.start == 0;
  }

  // ------------------------------------------------------------------ the imperative form

  /** A job's billing columns and its records, updated in place as billing.py does. The ghost
      fields are the history of the epoch. */
  class JobBilling {
    var enabled: bool
    var model: string
    var usage: Tokens
    var billed: Tokens
    var billingSeq: nat
    var records: seq<Record>
    var inFlight: map<Cutter, JobRow>
    ghost var base: Tokens
    ghost var start: nat
    ghost var seen: Tokens
    ghost var peak: Tokens

    function Row(): JobRow
      reads this
    {
      JobRow(enabled, model, usage, billed, billingSeq)
    }

    ghost function View(): Ledger
      reads this
    {
      Ledger(Row(), records, inFlight, base, start, seen, peak)
    }

    constructor (enabled: bool, model: string)
      ensures View() == NewLedger(enabled, model) && Inv(View())
    {
      this.enabled, this.model := enabled, model;
      usage, billed, billingSeq, records, inFlight := Zero(), Zero(), 0, [], map[];
      base, start, seen, peak := Zero(), 0, Zero(), Zero();
      new;
      FreshLedgerInv(View());
    }

    /** The runner's counter flush. */
    method ReportUsage(u: Tokens)
      modifies this
      ensures View() == Step(old(View()), Report(u))
    {
      usage := u;
      peak := Join(peak, u);
    }

    /** First half of `cut`: read the row; give up when billing is off or nothing is new. */
    method ReadRow(c: Cutter) returns (started: bool)
      modifies this
      ensures View() == Step(old(View()), BeginCut(c))
      ensures started <==> old(enabled) && !NothingToCut(old(Row()))
    {
      if !enabled {
        return false;
      }
      var dp := Monus(usage.prompt, billed.prompt);
      var dc := Monus(usage.completion, billed.completion);
      if dp == 0 && dc == 0 {
        return false;
      }
      inFlight := inFlight[c := Row()];
      return true;
    }

    /** Second half of `cut`: the conditional update, and the record in the same transaction. */
    method CompareAndSet(c: Cutter) returns (record: Option<Record>)
      requires c in inFlight
      modifies this
      ensures View() == Step(old(View()), CommitCut(c))
      ensures record.Some? <==> old(CasSucceeds(View(), c))
      ensures record.Some? ==> records == old(records) + [record.value]
    {
      var job := inFlight[c];
      inFlight := inFlight - {c};
      if billingSeq != job.billingSeq {
        return None;
      }
      var dp := Monus(job.usage.prompt, job.billed.prompt);
      var dc := Monus(job.usage.completion, job.billed.completion);
      var dcached := Monus(job.usage.cached, job.billed.cached);
      if dp < dcached {
        dcached := dp;
      }
      billingSeq := job.billingSeq + 1;
      billed := Tokens(job.billed.prompt + dp, job.billed.completion + dc, job.billed.cached + dcached);
      seen := Join(seen, job.usage);
      var r := Record(billingSeq, job.model, Tokens(dp, dc, dcached));
      records := records + [r];
      return Some(r);
    }

    /** A whole `cut` that nobody interrupts bills exactly the difference, and at once leaves
        nothing more to cut. */
    method Cut(c: Cutter) returns (record: Option<Record>)
      requires Inv(View()) && c !in inFlight
      modifies this
      ensures Inv(View()) && usage == old(usage) && NothingToCut(Row()) == (old(enabled) || old(NothingToCut(Row())))
      ensures record.Some? <==> old(enabled && !NothingToCut(Row()))
      ensures record.None? ==> records == old(records) && billed == old(billed)
      ensures record.Some? ==>
        && records == old(records) + [record.value]
        && record.value.number == old(billingSeq) + 1 && record.value.model == old(model)
        && billed.prompt == Max(old(billed.prompt), usage.prompt)
        && billed.completion == Max(old(billed.completion), usage.completion)
        && billed == Add(old(billed), record.value.tokens)
    {
      ghost var before := View();
      var started := ReadRow(c);
      StepPreservesInv(before, BeginCut(c));
      if !started {
        return None;
      }
      CommitPreservesInv(View(), c);
      record := CompareAndSet(c);
    }

    /** `rebase`, committed together with the model change its caller makes. */
    method Rebase(on: bool, name: string)
      modifies this
      ensures View() == Step(old(View()), Event.Rebase(on, name))
    {
      enabled, model := on, name;
      billed := usage;
      base, start, seen, peak := usage, |records|, usage, usage;
    }

    /** `cut_before_change` with nobody interfering: what is unbilled is settled under the old
        model name first, and only then does the origin move. No snapshot is live afterwards, and so
        the ledger stays sound, exactly if the settle had something to cut or none was live before. */
    method CutBeforeChange(c: Cutter, on: bool, name: string)
      requires Inv(View()) && c !in inFlight
      modifies this
      ensures enabled == on && model == name && usage == old(usage) && billed == usage
      ensures old(records) <= records && |records| <= |old(records)| + 1
      ensures |records| == |old(records)| + 1 <==> old(enabled && !NothingToCut(Row()))
      ensures forall i | |old(records)| <= i < |records| :: records[i].model == old(model)
      ensures NoLiveCut(View()) <==> old(enabled && !NothingToCut(Row())) || old(NoLiveCut(View()))
      ensures NoLiveCut(View()) ==> Inv(View())
    {
      LoneSettle(View(), c, on, name);
      if enabled {
        var started := ReadRow(c);
        if started {
          var _ := CompareAndSet(c);
        }
      }
      Rebase(on, name);
    }
  }

  /** What `cut_before_change` makes of the ledger, step by step. */
  function Changed(l: Ledger, c: Cutter, on: bool, name: string): Ledger {
    MoveOrigin(if !l.row.enabled || NothingToCut(l.row) then l else Commit(Begin(l, c), c), on, name)
  }

  lemma LoneSettle(l: Ledger, c: Cutter, on: bool, name: string)
    requires Inv(l) && c !in l.inFlight
    ensures var t := Changed(l, c, on, name);
            && (NoLiveCut(t) <==> (l.row.enabled && !NothingToCut(l.row)) || NoLiveCut(l))
            && (NoLiveCut(t) ==> Inv(t))
  {
    if l.row.enabled {
      LoneSettleAllowsRebaseIff(l, c, on, name);
      assert NothingToCut(l.row) ==> Commit(Begin(l, c), c).inFlight == l.inFlight;
      StepPreservesInv(l, BeginCut(c));
      CommitPreservesInv(Begin(l, c), c);
    }
    var s := if !l.row.enabled || NothingToCut(l.row) then l else Commit(Begin(l, c), c);
    if NoLiveCut(s) {
      StepPreservesInv(s, Rebase(on, name));
    }
  }
}
