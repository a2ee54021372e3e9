/** Sending billing records to the gateway at least once (services/billing.py: `_claim`, `send`,
    `rekey_failed`, `settle_job`, `_backoff`), and the gateway that deduplicates by request id.

    A send is four atomic steps: claim, read the row, post, and commit. Its process may die between
    any two, and a key written to the row after the read is not the one that goes out.
    Records are named by their position; the position stands for the record's `request_id`. */
module Outbox {
  import opened TokenCounts

  type Sender = nat
  type Key = string

  datatype Option<T> = None | Some(value: T)

  const IN_FLIGHT_SECONDS: nat := 120
  const MAX_BACKOFF_SECONDS: nat := 600

  datatype Status = Pending | Succeeded | Failed

  datatype Rec = Rec(
    tokens: Tokens, model: string, key: Option<Key>, status: Status, next: Option<nat>, attempts: nat)

  /** What `post_billing` reports back, by code only. */
  datatype Outcome = Charged | Retriable | Rejected

  /** What the environment does with one call: the gateway accepts it, or accepts it and the answer
      is lost, or never acts on it, or refuses it, or the platform has no billing endpoint. */
  datatype Reply = Accepted | AnswerLost | Unreachable | Refused | NotConfigured

  datatype Send =
    | Claimed(rec: nat, at: nat)
    | Loaded(rec: nat, at: nat, key: Option<Key>)
    | Answered(rec: nat, at: nat, outcome: Outcome)

  /** One entry of the gateway's ledger: money actually taken. */
  datatype Charge = Charge(rec: nat, key: Key, tokens: Tokens)

  /** `tried[r]` is history: the keys record `r` was posted with since its last rejection. */
  datatype State = State(
    now: nat,
    recs: seq<Rec>,
    sends: map<Sender, Send>,
    rekeys: map<nat, Key>,
    charges: seq<Charge>,
    tried: seq<set<Key>>)

  datatype Event =
    | Tick(seconds: nat)
    | Append(tokens: Tokens, model: string, key: Option<Key>)
    | Claim(sender: Sender, rec: nat, includeFailed: bool)
    | Load(sender: Sender)
    | Post(sender: Sender, reply: Reply)
    | Commit(sender: Sender)
    | Crash(sender: Sender)
    | ReadForRekey(rec: nat, newKey: Key)
    | WriteRekey(rec: nat)

  function Pow2(n: nat): (p: nat)
    ensures p >= 1
  {
    if n == 0 then 1 else 2 * Pow2(n - 1)
  }

  /** Retry delay in seconds. */
  function Backoff(attempts: nat): nat {
    var d := 10 * Pow2(if attempts == 0 then 0 else attempts - 1);
    if d < MAX_BACKOFF_SECONDS then d else MAX_BACKOFF_SECONDS
  }

  /** The conditional update inside `_claim`. */
  predicate Claimable(s: State, r: nat, includeFailed: bool) {
    && r < |s.recs|
    && (s.recs[r].status.Pending? || (includeFailed && s.recs[r].status.Failed?))
    && (s.recs[r].next.None? || s.recs[r].next.value <= s.now)
  }

  predicate IsCharged(charges: seq<Charge>, r: nat) {
    exists i | 0 <= i < |charges| :: charges[i].rec == r
  }

  /** The gateway: a request id already charged is answered as a duplicate and takes no money. */
  function GatewayAccept(charges: seq<Charge>, r: nat, key: Key, tokens: Tokens): seq<Charge> {
    if IsCharged(charges, r) then charges else charges + [Charge(r, key, tokens)]
  }

  function OutcomeOf(key: Option<Key>, reply: Reply): Outcome {
    if reply.NotConfigured? then Retriable
    else if key.None? then Rejected
    else match reply
      case Accepted => Charged
      case Refused => Rejected
      case _ => Retriable
  }

  /** Does the call reach the gateway at all, and does the gateway act on it? */
  predicate Reaches(key: Option<Key>, reply: Reply) {
    key.Some? && !reply.NotConfigured?
  }

  function DoClaim(s: State, x: Sender, r: nat, includeFailed: bool): State {
    if !Claimable(s, r, includeFailed) then s
    else s.(recs := s.recs[r := s.recs[r].(status := Pending, next := Some(s.now + IN_FLIGHT_SECONDS))],
            sends := s.sends[x := Claimed(r, s.now)])
  }

  function DoLoad(s: State, x: Sender): State {
    if x !in s.sends || !s.sends[x].Claimed? || s.sends[x].rec >= |s.recs| then s
    else s.(sends := s.sends[x := Loaded(s.sends[x].rec, s.sends[x].at, s.recs[s.sends[x].rec].key)])
  }

  function DoPost(s: State, x: Sender, reply: Reply): State {
    if x !in s.sends || !s.sends[x].Loaded? || s.sends[x].rec >= |s.recs| || |s.tried| != |s.recs| then s
    else
      var r, key := s.sends[x].rec, s.sends[x].key;
      s.(sends := s.sends[x := Answered(r, s.sends[x].at, OutcomeOf(key, reply))],
         charges := if Reaches(key, reply) && (reply.Accepted? || reply.AnswerLost?)
                    then GatewayAccept(s.charges, r, key.value, s.recs[r].tokens) else s.charges,
         tried := if Reaches(key, reply) then s.tried[r := s.tried[r] + {key.value}] else s.tried)
  }

  /** The record after the answer is written back. */
  function Settle(rec: Rec, outcome: Outcome, now: nat): Rec {
    var n := rec.attempts + 1;
    match outcome
    case Charged => rec.(status := Succeeded, next := None, attempts := n)
    case Retriable => rec.(status := Pending, next := Some(now + Backoff(n)), attempts := n)
    case Rejected => rec.(status := Failed, next := None, attempts := n)
  }

  function DoCommit(s: State, x: Sender): State {
    if x !in s.sends || !s.sends[x].Answered? || s.sends[x].rec >= |s.recs| || |s.tried| != |s.recs| then s
    else
      var r := s.sends[x].rec;
      s.(recs := s.recs[r := Settle(s.recs[r], s.sends[x].outcome, s.now)],
         sends := s.sends - {x},
         tried := if s.sends[x].outcome.Rejected? then s.tried[r := {}] else s.tried)
  }

  function Step(s: State, e: Event): State {
    match e
    case Tick(d) => s.(now := s.now + d)
    case Append(t, m, k) => s.(recs := s.recs + [Rec(t, m, k, Pending, None, 0)], tried := s.tried + [{}])
    case Claim(x, r, f) => DoClaim(s, x, r, f)
    case Load(x) => DoLoad(s, x)
    case Post(x, reply) => DoPost(s, x, reply)
    case Commit(x) => DoCommit(s, x)
    case Crash(x) => s.(sends := s.sends - {x})
    case ReadForRekey(r, k) =>
      if r < |s.recs| && s.recs[r].status.Failed? then s.(rekeys := s.rekeys[r := k]) else s
    case WriteRekey(r) =>
      if r in s.rekeys && r < |s.recs| then
        s.(recs := s.recs[r := s.recs[r].(key := Some(s.rekeys[r]))], rekeys := s.rekeys - {r})
      else s
  }

  /** The window assumption: while a process is between claim and commit, less than the in-flight
      window goes by. Sender names are not reused while in use, and a rekey is written only onto a
      record that is still rejected. */
  predicate Legal(s: State, e: Event) {
    match e
    case Tick(d) => forall x | x in s.sends :: s.now + d < s.sends[x].at + IN_FLIGHT_SECONDS
    case Claim(x, _, _) => x !in s.sends
    case WriteRekey(r) => r in s.rekeys && r < |s.recs| ==> s.recs[r].status.Failed?
    case _ => true
  }

  predicate LegalRun(s: State, es: seq<Event>)
    decreases es
  {
    es == [] || (Legal(s, es[0]) && LegalRun(Step(s, es[0]), es[1..]))
  }

  function Run(s: State, es: seq<Event>): State
    decreases es
  {
    if es == [] then s else Run(Step(s, es[0]), es[1..])
  }

  // ------------------------------------------------------------------ safety of sending

  predicate SendSound(s: State, x: Sender)
    requires x in s.sends
  {
    var d := s.sends[x];
    && d.rec < |s.recs|
    && s.recs[d.rec].status.Pending?
    && s.recs[d.rec].next == Some(d.at + IN_FLIGHT_SECONDS)
    && s.now < d.at + IN_FLIGHT_SECONDS
    && (d.Loaded? && d.key.Some? ==> d.key == s.recs[d.rec].key)
    && (d.Answered? && d.outcome.Charged? ==> IsCharged(s.charges, d.rec))
  }

  predicate OneSendPerRecord(s: State) {
    forall x, y | x in s.sends && y in s.sends && x != y :: s.sends[x].rec != s.sends[y].rec
  }

  /** The gateway took money at most once per request id, and exactly the record's tokens. */
  predicate ChargedOnce(s: State) {
    && (forall i | 0 <= i < |s.charges| ::
          s.charges[i].rec < |s.recs| && s.charges[i].tokens == s.recs[s.charges[i].rec].tokens)
    && (forall i, j | 0 <= i < j < |s.charges| :: s.charges[i].rec != s.charges[j].rec)
  }

  predicate SuccessMeansCharged(s: State) {
    forall r | 0 <= r < |s.recs| && s.recs[r].status.Succeeded? :: IsCharged(s.charges, r)
  }

  /** Since the last rejection a record was posted with one key only, the one it still has. */
  predicate StablePayload(s: State) {
    && |s.tried| == |s.recs|
    && (forall r | 0 <= r < |s.recs| ::
          && (forall k | k in s.tried[r] :: s.recs[r].key == Some(k))
          && (s.recs[r].status.Failed? ==> s.tried[r] == {}))
  }

  predicate Inv(s: State) {
    && (forall x | x in s.sends :: SendSound(s, x))
    && OneSendPerRecord(s)
    && ChargedOnce(s)
    && SuccessMeansCharged(s)
    && StablePayload(s)
  }

  lemma ChargedMonotone(cs: seq<Charge>, more: seq<Charge>, r: nat)
    requires cs <= more && IsCharged(cs, r)
    ensures IsCharged(more, r)
  {
  }

  lemma AcceptCharges(cs: seq<Charge>, r: nat, k: Key, t: Tokens)
    ensures cs <= GatewayAccept(cs, r, k, t) && IsCharged(GatewayAccept(cs, r, k, t), r)
  {
    if !IsCharged(cs, r) {
      assert (cs + [Charge(r, k, t)])[|cs|].rec == r;
    }
  }

  lemma ClaimPreserves(s: State, x: Sender, r: nat, f: bool)
    requires Inv(s) && x !in s.sends
    ensures Inv(DoClaim(s, x, r, f))
  {
    var s' := DoClaim(s, x, r, f);
    if Claimable(s, r, f) {
      forall y | y in s.sends ensures s.sends[y].rec != r {
        assert SendSound(s, y);
      }
      forall y | y in s'.sends ensures SendSound(s', y) {
        assert y != x ==> SendSound(s, y);
      }
    }
  }

  lemma AcceptKeepsChargedOnce(s: State, r: nat, k: Key)
    requires ChargedOnce(s) && r < |s.recs|
    ensures ChargedOnce(s.(charges := GatewayAccept(s.charges, r, k, s.recs[r].tokens)))
  {
    forall i | 0 <= i < |s.charges| ensures s.charges[i].rec == r ==> IsCharged(s.charges, r) {}
  }

  lemma PostOnlyAddsCharges(s: State, x: Sender, reply: Reply)
    ensures s.charges <= DoPost(s, x, reply).charges
    ensures reply.Accepted? && DoPost(s, x, reply) != s && Reaches(s.sends[x].key, reply) ==>
      IsCharged(DoPost(s, x, reply).charges, s.sends[x].rec)
  {
    if DoPost(s, x, reply) != s && Reaches(s.sends[x].key, reply) {
      var r := s.sends[x].rec;
      AcceptCharges(s.charges, r, s.sends[x].key.value, s.recs[r].tokens);
    }
  }

  lemma PostKeepsSends(s: State, x: Sender, reply: Reply, y: Sender)
    requires y in s.sends && SendSound(s, y) && y in DoPost(s, x, reply).sends
    ensures SendSound(DoPost(s, x, reply), y)
  {
    PostOnlyAddsCharges(s, x, reply);
    if s.sends[y].Answered? && s.sends[y].outcome.Charged? {
      ChargedMonotone(s.charges, DoPost(s, x, reply).charges, s.sends[y].rec);
    }
  }

  lemma PostPreserves(s: State, x: Sender, reply: Reply)
    requires Inv(s)
    ensures Inv(DoPost(s, x, reply)) && s.charges <= DoPost(s, x, reply).charges
  {
    var s' := DoPost(s, x, reply);
    if x in s.sends && s.sends[x].Loaded? {
      var r := s.sends[x].rec;
      assert SendSound(s, x);
      if s.sends[x].key.Some? {
        AcceptKeepsChargedOnce(s, r, s.sends[x].key.value);
      }
      forall y | y in s'.sends ensures SendSound(s', y) {
        assert SendSound(s, y);
        PostKeepsSends(s, x, reply, y);
      }
      PostOnlyAddsCharges(s, x, reply);
      forall q | 0 <= q < |s'.recs| && s'.recs[q].status.Succeeded? ensures IsCharged(s'.charges, q) {
        ChargedMonotone(s.charges, s'.charges, q);
      }
    }
  }

  lemma CommitKeepsSends(s: State, x: Sender, y: Sender)
    requires Inv(s) && y in DoCommit(s, x).sends
    ensures SendSound(DoCommit(s, x), y)
  {
    assert y in s.sends && SendSound(s, y);
    if x in s.sends && x != y {
      assert s.sends[y].rec != s.sends[x].rec;
    }
  }

  lemma CommitPreserves(s: State, x: Sender)
    requires Inv(s)
    ensures Inv(DoCommit(s, x))
  {
    if x in s.sends && s.sends[x].Answered? {
      assert SendSound(s, x);
      forall y | y in DoCommit(s, x).sends ensures SendSound(DoCommit(s, x), y) {
        CommitKeepsSends(s, x, y);
      }
    }
  }

  lemma LoadPreserves(s: State, x: Sender)
    requires Inv(s)
    ensures Inv(DoLoad(s, x))
  {
    forall y | y in DoLoad(s, x).sends ensures SendSound(DoLoad(s, x), y) {
      assert SendSound(s, y);
    }
  }

  /** Time, new records, crashes and the two halves of a rekey. */
  lemma OtherPreserves(s: State, e: Event)
    requires Inv(s) && Legal(s, e) && !e.Claim? && !e.Load? && !e.Post? && !e.Commit?
    ensures Inv(Step(s, e))
  {
    var s' := Step(s, e);
    forall y | y in s'.sends ensures SendSound(s', y) {
      assert SendSound(s, y);
    }
  }

  lemma StepPreservesInv(s: State, e: Event)
    requires Inv(s) && Legal(s, e)
    ensures Inv(Step(s, e))
  {
    match e
    case Claim(x, r, f) => ClaimPreserves(s, x, r, f);
    case Load(x) => LoadPreserves(s, x);
    case Post(x, reply) => PostPreserves(s, x, reply);
    case Commit(x) => CommitPreserves(s, x);
    case _ => OtherPreserves(s, e);
  }

  /** Main result on sending: under concurrent sweeps, settles and manual retries, with crashes
      anywhere, sending stays safe. */
  lemma {:induction false} AnyRunIsSafe(s: State, es: seq<Event>)
    requires Inv(s) && LegalRun(s, es)
    ensures var t := Run(s, es);
            Inv(t) && OneSendPerRecord(t) && ChargedOnce(t) && SuccessMeansCharged(t) && StablePayload(t)
    decreases es
  {
    if es != [] {
      StepPreservesInv(s, es[0]);
      AnyRunIsSafe(Step(s, es[0]), es[1..]);
    }
  }

  lemma StepKeepsSuccess(s: State, e: Event, r: nat)
    requires Inv(s) && Legal(s, e) && r < |s.recs|
    ensures var t := Step(s, e);
            && r < |t.recs| && t.recs[r].tokens == s.recs[r].tokens && t.recs[r].model == s.recs[r].model
            && (s.recs[r].status.Succeeded? ==> t.recs[r].status.Succeeded?)
            && s.charges <= t.charges
  {
    if e.Commit? && e.sender in s.sends {
      assert SendSound(s, e.sender);
    }
    if e.Post? {
      PostOnlyAddsCharges(s, e.sender, e.reply);
    }
  }

  /** `succeeded` is absorbing, a charge is never undone, and a record's tokens and model never
      change whatever happens to it. */
  lemma {:induction false} SuccessIsAbsorbing(s: State, es: seq<Event>, r: nat)
    requires Inv(s) && LegalRun(s, es) && r < |s.recs|
    ensures var t := Run(s, es);
            && r < |t.recs| && t.recs[r].tokens == s.recs[r].tokens && t.recs[r].model == s.recs[r].model
            && (s.recs[r].status.Succeeded? ==> t.recs[r].status.Succeeded?)
            && s.charges <= t.charges
    decreases es
  {
    if es != [] {
      StepPreservesInv(s, es[0]);
      StepKeepsSuccess(s, es[0], r);
      SuccessIsAbsorbing(Step(s, es[0]), es[1..], r);
    }
  }

  // ------------------------------------------------------------------ what an answer does to a record

  /** The delays of the source, written out: 10 s after the first attempt, doubled each time, at most
      ten minutes. */
  function DelayAfter(attempts: nat): nat {
    if attempts >= 7 then 600 else [10, 10, 20, 40, 80, 160, 320][attempts]
  }

  lemma BackoffIsDelay(n: nat)
    ensures Backoff(n) == DelayAfter(n)
  {
    BackoffBounds(n);
    assert Pow2(0) == 1 && Pow2(1) == 2 && Pow2(2) == 4;
    assert Pow2(3) == 2 * Pow2(2) && Pow2(4) == 2 * Pow2(3) && Pow2(5) == 2 * Pow2(4);
  }

  /** Writing an answer back counts the attempt. A charge settles the record for good, a rejection marks it
      failed, and after a soft failure it stays pending and has to wait. */
  lemma CommitMeans(s: State, x: Sender)
    requires Inv(s) && x in s.sends && s.sends[x].Answered?
    ensures var r, t := s.sends[x].rec, Step(s, Commit(x));
            var before, now := s.recs[r], t.recs[r];
            && now.attempts == before.attempts + 1
            && now.tokens == before.tokens && now.model == before.model && now.key == before.key
            && (s.sends[x].outcome.Charged? ==> now.status.Succeeded? && now.next.None? && IsCharged(t.charges, r))
            && (s.sends[x].outcome.Rejected? ==> now.status.Failed? && now.next.None?)
            && (s.sends[x].outcome.Retriable? ==>
                  now.status.Pending? && now.next == Some(s.now + DelayAfter(before.attempts + 1)))
            && (forall q | 0 <= q < |s.recs| && q != r :: t.recs[q] == s.recs[q])
            && x !in t.sends && t.charges == s.charges
  {
    assert SendSound(s, x);
    BackoffIsDelay(s.recs[s.sends[x].rec].attempts + 1);
  }

  /** A new record starts pending, without an attempt, and can be claimed at once. */
  lemma AppendMeans(s: State, t: Tokens, m: string, k: Option<Key>)
    ensures var a := Step(s, Append(t, m, k));
            && |a.recs| == |s.recs| + 1 && a.recs[..|s.recs|] == s.recs
            && a.recs[|s.recs|] == Rec(t, m, k, Pending, None, 0)
            && Claimable(a, |s.recs|, false)
  {
  }

  predicate CommitsTo(s: State, e: Event, r: nat) {
    e.Commit? && e.sender in s.sends && s.sends[e.sender].Answered? && s.sends[e.sender].rec == r
  }

  /** How many answers this run writes back to record `r`. */
  function Commits(s: State, es: seq<Event>, r: nat): nat
    decreases es
  {
    if es == [] then 0 else (if CommitsTo(s, es[0], r) then 1 else 0) + Commits(Step(s, es[0]), es[1..], r)
  }

  lemma StepCountsAttempts(s: State, e: Event, r: nat)
    requires Inv(s) && Legal(s, e) && r < |s.recs|
    ensures r < |Step(s, e).recs|
    ensures Step(s, e).recs[r].attempts == s.recs[r].attempts + if CommitsTo(s, e, r) then 1 else 0
  {
    if e.Commit? && e.sender in s.sends && s.sends[e.sender].Answered? {
      CommitMeans(s, e.sender);
    }
  }

  /** Over every run, a record's attempts are exactly the answers written back to it. */
  lemma {:induction false} AttemptsCountAnswers(s: State, es: seq<Event>, r: nat)
    requires Inv(s) && LegalRun(s, es) && r < |s.recs|
    ensures r < |Run(s, es).recs|
    ensures Run(s, es).recs[r].attempts == s.recs[r].attempts + Commits(s, es, r)
    decreases es
  {
    if es != [] {
      StepPreservesInv(s, es[0]);
      StepCountsAttempts(s, es[0], r);
      AttemptsCountAnswers(Step(s, es[0]), es[1..], r);
    }
  }

  /** So a record that has been answered five times and is still pending is what a settle reports. */
  lemma FiveSoftFailuresAreReported(s: State, es: seq<Event>, r: nat)
    requires Inv(s) && LegalRun(s, es) && r < |s.recs| && Commits(s, es, r) >= 5
    ensures r < |Run(s, es).recs| && (Run(s, es).recs[r].status.Pending? ==> IsStuck(Run(s, es).recs[r]))
  {
    AttemptsCountAnswers(s, es, r);
  }

  /** A pending record nobody is sending, to be left alone until a given time. */
  predicate Waits(s: State, r: nat, until: nat) {
    && r < |s.recs| && s.recs[r].status.Pending? && s.recs[r].next == Some(until)
    && (forall x | x in s.sends :: s.sends[x].rec != r)
  }

  predicate NoClaimOf(es: seq<Event>, r: nat) {
    forall e <- es :: !(e.Claim? && e.rec == r)
  }

  lemma {:induction false} TimeGoesOn(s: State, es: seq<Event>)
    ensures s.now <= Run(s, es).now
    decreases es
  {
    if es != [] {
      TimeGoesOn(Step(s, es[0]), es[1..]);
    }
  }

  lemma StepWaits(s: State, e: Event, r: nat, until: nat)
    requires Waits(s, r, until) && Legal(s, e)
    requires s.now < until || !(e.Claim? && e.rec == r)
    ensures Waits(Step(s, e), r, until)
  {
  }

  lemma {:induction false} WaitsOn(s: State, es: seq<Event>, r: nat, until: nat)
    requires Waits(s, r, until) && LegalRun(s, es)
    requires Run(s, es).now < until || NoClaimOf(es, r)
    ensures Waits(Run(s, es), r, until)
    decreases es
  {
    if es != [] {
      assert es[0] in es;
      assert forall e <- es[1..] :: e in es;
      TimeGoesOn(s, es);
      StepWaits(s, es[0], r, until);
      WaitsOn(Step(s, es[0]), es[1..], r, until);
    }
  }

  /** After a soft failure nobody can claim the record for ten seconds, whatever happens meanwhile; and
      after ten minutes it can be claimed again, if nobody has done so. */
  lemma SoftFailureWaits(s: State, x: Sender, es: seq<Event>, f: bool)
    requires Inv(s) && x in s.sends && s.sends[x].Answered? && s.sends[x].outcome.Retriable?
    requires LegalRun(Step(s, Commit(x)), es)
    ensures var r, t := s.sends[x].rec, Run(Step(s, Commit(x)), es);
            && (t.now < s.now + 10 ==> !Claimable(t, r, f))
            && (NoClaimOf(es, r) && s.now + 600 <= t.now ==> Claimable(t, r, f))
  {
    CommitMeans(s, x);
    var r, c := s.sends[x].rec, Step(s, Commit(x));
    var until := c.recs[r].next.value;
    assert s.now + 10 <= until <= s.now + 600;
    forall y | y in c.sends ensures c.sends[y].rec != r {
      assert y in s.sends && y != x;
    }
    var t := Run(c, es);
    if t.now < s.now + 10 || NoClaimOf(es, r) {
      WaitsOn(c, es, r, until);
    }
  }

  /** Who may be claimed: a succeeded record never, a failed one on request only, a pending one; and a
      claim keeps everybody else away for 120 s, to the second. */
  lemma ClaimKeepsOthersAway(s: State, x: Sender, r: nat, f: bool, d: nat, g: bool)
    requires Claimable(s, r, f)
    ensures s.recs[r].status.Pending? || (f && s.recs[r].status.Failed?)
    ensures var t := DoClaim(s, x, r, f);
            && t.sends == s.sends[x := Claimed(r, s.now)] && t.recs[r].status.Pending?
            && (Claimable(t.(now := s.now + d), r, g) <==> d >= 120)
  {
  }

  // ------------------------------------------------------------------ a key written late

  /** Two different keys went out under one request id, with no rejection in between. */
  predicate TwoKeysOut(s: State, r: nat) {
    r < |s.tried| && exists a, b :: a in s.tried[r] && b in s.tried[r] && a != b
  }

  /** The record went out under a key other than `k` since its last rejection, or a sender has read
      such a key and can still post it. */
  predicate OtherKeyOut(s: State, r: nat, k: Key)
    requires r < |s.tried|
  {
    || (exists a :: a in s.tried[r] && a != k)
    || (exists x :: x in s.sends && HasRead(s.sends[x], r) && s.sends[x].key.value != k)
  }

  predicate HasRead(d: Send, r: nat) {
    d.Loaded? && d.rec == r && d.key.Some?
  }

  /** This continuation of `s` does not send record `r` out under two keys. */
  predicate KeepsOneKey(s: State, es: seq<Event>, r: nat) {
    LegalRun(s, es) ==> !TwoKeysOut(Run(s, es), r)
  }

  lemma {:induction false} RunConcat(s: State, a: seq<Event>, b: seq<Event>)
    ensures Run(s, a + b) == Run(Run(s, a), b)
    ensures LegalRun(s, a + b) <==> LegalRun(s, a) && LegalRun(Run(s, a), b)
    decreases a
  {
    if a == [] {
      assert a + b == b;
    } else {
      assert (a + b)[0] == a[0] && (a + b)[1..] == a[1..] + b;
      RunConcat(Step(s, a[0]), a[1..], b);
    }
  }

  /** A charged record nobody is sending is never touched again, whatever its key. */
  predicate AtPeace(s: State, r: nat) {
    && r < |s.recs| == |s.tried| && s.recs[r].status.Succeeded?
    && (forall x | x in s.sends :: s.sends[x].rec != r)
  }

  lemma {:induction false} PeaceLasts(s: State, es: seq<Event>, r: nat)
    requires AtPeace(s, r) && LegalRun(s, es)
    ensures AtPeace(Run(s, es), r) && Run(s, es).tried[r] == s.tried[r]
    decreases es
  {
    if es != [] {
      PeaceLasts(Step(s, es[0]), es[1..], r);
    }
  }

  lemma HarmlessWriteKeepsInv(s: State, r: nat)
    requires Inv(s) && r in s.rekeys && r < |s.recs| && s.recs[r].status.Pending?
    requires !OtherKeyOut(s, r, s.rekeys[r])
    ensures Inv(Step(s, WriteRekey(r)))
  {
    var t := Step(s, WriteRekey(r));
    forall y | y in t.sends ensures SendSound(t, y) {
      assert SendSound(s, y);
    }
  }

  lemma HarmlessWrite(s: State, r: nat, es: seq<Event>)
    requires Inv(s) && r in s.rekeys && r < |s.recs|
    requires !(s.recs[r].status.Pending? && OtherKeyOut(s, r, s.rekeys[r]))
    ensures KeepsOneKey(Step(s, WriteRekey(r)), es, r)
  {
    var t := Step(s, WriteRekey(r));
    if LegalRun(t, es) {
      match s.recs[r].status
      case Failed =>
        StepPreservesInv(s, WriteRekey(r));
        AnyRunIsSafe(t, es);
        RecordsStay(t, es, r);
      case Pending =>
        HarmlessWriteKeepsInv(s, r);
        AnyRunIsSafe(t, es);
        RecordsStay(t, es, r);
      case Succeeded =>
        forall x | x in t.sends ensures t.sends[x].rec != r {
          assert SendSound(s, x);
        }
        PeaceLasts(t, es, r);
    }
  }

  lemma RecordsStay(s: State, es: seq<Event>, r: nat)
    requires Inv(s) && LegalRun(s, es) && r < |s.recs|
    ensures r < |Run(s, es).recs|
  {
    SuccessIsAbsorbing(s, es, r);
  }

  lemma {:induction false} EverySenderDies(s: State) returns (es: seq<Event>)
    ensures LegalRun(s, es) && Run(s, es) == s.(sends := map[])
    decreases |s.sends|
  {
    if s.sends == map[] {
      return [];
    }
    var x :| x in s.sends;
    assert (s.sends - {x}).Keys == s.sends.Keys - {x};
    var rest := EverySenderDies(Step(s, Crash(x)));
    es := [Crash(x)] + rest;
    assert es[1..] == rest;
  }

  /** With no sender left, a pending record goes out again, under the key it has. */
  lemma SendsAgain(s: State, r: nat) returns (es: seq<Event>)
    requires s.sends == map[] && r < |s.recs| == |s.tried|
    requires s.recs[r].status.Pending? && s.recs[r].key.Some?
    ensures LegalRun(s, es) && Run(s, es).tried == s.tried[r := s.tried[r] + {s.recs[r].key.value}]
  {
    var wait := if s.recs[r].next.Some? && s.now < s.recs[r].next.value then s.recs[r].next.value - s.now else 0;
    var s1 := Step(s, Tick(wait));
    var s2 := Step(s1, Claim(0, r, false));
    var s3 := Step(s2, Load(0));
    var last := [Post(0, Accepted)];
    assert last[1..] == [] && Run(s3, last) == Step(s3, Post(0, Accepted)) && LegalRun(s3, last);
    var two := [Load(0)] + last;
    assert two[1..] == last && Run(s2, two) == Run(s3, last) && LegalRun(s2, two);
    var three := [Claim(0, r, false)] + two;
    assert three[1..] == two && Run(s1, three) == Run(s2, two) && LegalRun(s1, three);
    es := [Tick(wait)] + three;
    assert es[1..] == three;
  }

  /** A sender that has read another key posts it first, if need be. */
  lemma OtherKeyGoesOut(s: State, r: nat, k: Key) returns (es: seq<Event>)
    requires r < |s.recs| == |s.tried| && OtherKeyOut(s, r, k)
    ensures LegalRun(s, es) && Run(s, es).recs == s.recs && |Run(s, es).tried| == |s.tried|
    ensures exists a :: a in Run(s, es).tried[r] && a != k
  {
    if a :| a in s.tried[r] && a != k {
      es := [];
    } else {
      var x :| x in s.sends && HasRead(s.sends[x], r) && s.sends[x].key.value != k;
      es := [Post(x, AnswerLost)];
      assert es[1..] == [] && Run(s, es) == DoPost(s, x, AnswerLost);
      assert s.sends[x].key.value in Run(s, es).tried[r];
    }
  }

  lemma LateKeyGoesOutToo(s: State, r: nat) returns (es: seq<Event>)
    requires Inv(s) && r in s.rekeys && r < |s.recs|
    requires s.recs[r].status.Pending? && OtherKeyOut(s, r, s.rekeys[r])
    ensures !KeepsOneKey(Step(s, WriteRekey(r)), es, r)
  {
    var k := s.rekeys[r];
    var t := Step(s, WriteRekey(r));
    var a := OtherKeyGoesOut(t, r, k);
    var t1 := Run(t, a);
    var b := EverySenderDies(t1);
    var t2 := Run(t1, b);
    var c := SendsAgain(t2, r);
    RunConcat(t1, b, c);
    RunConcat(t, a, b + c);
    es := a + (b + c);
    var other :| other in t1.tried[r] && other != k;
    assert other in Run(t, es).tried[r] && k in Run(t, es).tried[r];
  }

  /** `rekey_failed` reads the rejected records and writes their keys in two steps. Written late,
      the new key does no harm exactly when the record is not on its way under another one: then no
      continuation sends it out under two keys without a rejection in between. That the row still
      says `failed` when the key is written is enough, and so is `succeeded`. */
  lemma LateRekeyIsHarmlessIff(s: State, r: nat)
    requires Inv(s) && r in s.rekeys && r < |s.recs|
    ensures (forall es: seq<Event> :: KeepsOneKey(Step(s, WriteRekey(r)), es, r)) <==>
      !(s.recs[r].status.Pending? && OtherKeyOut(s, r, s.rekeys[r]))
    ensures !s.recs[r].status.Pending? ==> forall es: seq<Event> :: KeepsOneKey(Step(s, WriteRekey(r)), es, r)
  {
    if s.recs[r].status.Pending? && OtherKeyOut(s, r, s.rekeys[r]) {
      var es := LateKeyGoesOutToo(s, r);
      assert !KeepsOneKey(Step(s, WriteRekey(r)), es, r);
    } else {
      forall es: seq<Event> ensures KeepsOneKey(Step(s, WriteRekey(r)), es, r) {
        HarmlessWrite(s, r, es);
      }
    }
  }

  /** A rekey reads rejected records only, and its write changes the key and nothing else. */
  lemma RekeyMeans(s: State, r: nat, k: Key)
    requires r < |s.recs|
    ensures Step(s, ReadForRekey(r, k)).rekeys == if s.recs[r].status.Failed? then s.rekeys[r := k] else s.rekeys
    ensures Step(s, ReadForRekey(r, k)) == s.(rekeys := Step(s, ReadForRekey(r, k)).rekeys)
    ensures r in s.rekeys ==>
      var t := Step(s, WriteRekey(r));
      t.recs[r] == s.recs[r].(key := Some(s.rekeys[r])) && t.recs == s.recs[r := t.recs[r]] && t.charges == s.charges
  {
  }

  /** The race is reachable: a retry sends the record between the two steps of the rekey, its answer
      is lost, and the record goes out again under the new key. */
  lemma LateRekeyRace(s: State, k1: Key, k2: Key)
    requires |s.recs| == |s.tried| == 1 && s.sends == map[] && s.rekeys == map[] && s.charges == []
    requires s.recs[0].status.Failed? && s.recs[0].next.None? && s.recs[0].key == Some(k1)
    requires s.tried[0] == {} && k1 != k2
    ensures var retried := Step(Step(Step(s, ReadForRekey(0, k2)), Claim(7, 0, true)), Load(7));
            var late := Step(Step(Step(retried, Post(7, AnswerLost)), WriteRekey(0)), Commit(7));
            var again := Step(Step(Step(late, Tick(600)), Claim(8, 0, false)), Load(8));
            && late.recs[0].status.Pending? && late.tried[0] == {k1} && late.recs[0].key == Some(k2)
            && Legal(late, Tick(600)) && Legal(Step(late, Tick(600)), Claim(8, 0, false))
            && Step(again, Post(8, Accepted)).tried[0] == {k1, k2}
  {
    assert Backoff(s.recs[0].attempts + 1) <= 600;
    var retried := Step(Step(Step(s, ReadForRekey(0, k2)), Claim(7, 0, true)), Load(7));
    var late := Step(Step(Step(retried, Post(7, AnswerLost)), WriteRekey(0)), Commit(7));
    assert late.recs[0].next.value <= late.now + 600;
    var again := Step(Step(Step(late, Tick(600)), Claim(8, 0, false)), Load(8));
    assert again.sends[8].key == Some(k2);
  }

  /** And the in-flight window matters: let a send overrun it, and its late answer turns a record
      the gateway has charged, and that was already marked so, back into a rejected one. */
  lemma OverrunUndoesSuccess(s: State, k: Key)
    requires |s.recs| == |s.tried| == 1 && s.sends == map[] && s.charges == []
    requires s.recs[0].status.Pending? && s.recs[0].next.None? && s.recs[0].key == Some(k)
    ensures var c := Step(s, Claim(0, 0, false));
            && Legal(c, Tick(119)) && !Legal(c, Tick(120))
            && var retried := Step(Step(Step(c, Load(0)), Tick(120)), Claim(1, 0, false));
            && var late := Step(Step(Step(Step(retried, Load(1)), Post(1, Accepted)), Commit(1)), Post(0, Refused));
            && late.recs[0].status.Succeeded? && Step(late, Commit(0)).recs[0].status.Failed?
            && IsCharged(late.charges, 0)
  {
    var c := Step(s, Claim(0, 0, false));
    assert c.sends[0] == Claimed(0, s.now);
    assert forall x | x in c.sends :: x == 0;
    var c1 := Step(Step(Step(Step(c, Load(0)), Tick(120)), Claim(1, 0, false)), Load(1));
    var c2 := Step(c1, Post(1, Accepted));
    AcceptCharges([], 0, k, s.recs[0].tokens);
    assert c2.charges == GatewayAccept([], 0, k, s.recs[0].tokens);
  }

  /** The retry delay starts at 10 s, never shrinks, and is capped from the seventh attempt on. */
  lemma {:induction false} BackoffBounds(n: nat)
    ensures 10 <= Backoff(n) <= Backoff(n + 1) <= MAX_BACKOFF_SECONDS
    ensures Backoff(n) == MAX_BACKOFF_SECONDS <==> n >= 7
  {
    if n >= 7 {
      Pow2AtLeast(n - 1);
    } else {
      assert Pow2(6) == 64 && Pow2(5) == 32 && Pow2(4) == 16 && Pow2(3) == 8 && Pow2(2) == 4 && Pow2(1) == 2;
    }
  }

  lemma {:induction false} Pow2AtLeast(n: nat)
    requires n >= 6
    ensures Pow2(n) >= 64
  {
    if n > 6 {
      Pow2AtLeast(n - 1);
    } else {
      assert Pow2(6) == 2 * Pow2(5) == 4 * Pow2(4) == 8 * Pow2(3) == 16 * Pow2(2) == 32 * Pow2(1);
    }
  }

  // ------------------------------------------------------------------ the imperative form

  datatype Problem = NoProblem | RejectedRecord(rec: nat) | StuckRecord(rec: nat)

  const SOFT_FAIL_LIMIT: nat := 5

  /** A record after one uninterrupted send at time `now`. */
  function SentRec(rec: Rec, reply: Reply, now: nat): Rec {
    Settle(rec.(status := Pending, next := Some(now + IN_FLIGHT_SECONDS)), OutcomeOf(rec.key, reply), now)
  }

  /** Claim, load, post and commit with nobody in between. */
  lemma UninterruptedSendKeepsInv(s: State, x: Sender, r: nat, f: bool, reply: Reply)
    requires Inv(s) && x !in s.sends
    ensures var p := DoPost(DoLoad(DoClaim(s, x, r, f), x), x, reply);
            Inv(DoCommit(p, x)) && s.charges <= p.charges
  {
    var c := DoClaim(s, x, r, f);
    ClaimPreserves(s, x, r, f);
    LoadPreserves(c, x);
    PostPreserves(DoLoad(c, x), x, reply);
    CommitPreserves(DoPost(DoLoad(c, x), x, reply), x);
  }

  lemma UninterruptedSendResult(s: State, x: Sender, r: nat, f: bool, reply: Reply)
    requires |s.tried| == |s.recs| && x !in s.sends && Claimable(s, r, f)
    ensures var d := DoLoad(DoClaim(s, x, r, f), x);
            var p := DoPost(d, x, reply);
            var t := DoCommit(p, x);
            && t.recs == s.recs[r := SentRec(s.recs[r], reply, s.now)]
            && t.now == s.now && t.sends == s.sends && t.rekeys == s.rekeys && t.charges == p.charges
  {
  }

  /** Both, of the state the four steps lead to. */
  lemma UninterruptedSend(s: State, x: Sender, r: nat, f: bool, reply: Reply) returns (t: State)
    requires Inv(s) && x !in s.sends && Claimable(s, r, f)
    ensures t == Step(Step(Step(Step(s, Claim(x, r, f)), Load(x)), Post(x, reply)), Commit(x))
    ensures Inv(t) && t.recs == s.recs[r := SentRec(s.recs[r], reply, s.now)]
    ensures t.now == s.now && t.sends == s.sends && t.rekeys == s.rekeys && s.charges <= t.charges
  {
    UninterruptedSendKeepsInv(s, x, r, f, reply);
    UninterruptedSendResult(s, x, r, f, reply);
    t := DoCommit(DoPost(DoLoad(DoClaim(s, x, r, f), x), x, reply), x);
  }

  /** A reply that is nobody's fault: no endpoint, no connection, or no answer. */
  predicate SoftReply(key: Option<Key>, reply: Reply) {
    reply.NotConfigured? || (key.Some? && (reply.AnswerLost? || reply.Unreachable?))
  }

  /** What a whole send makes of its record, by the reply it gets. */
  lemma SendMeans(s: State, x: Sender, r: nat, f: bool, reply: Reply)
    requires Inv(s) && x !in s.sends && Claimable(s, r, f)
    ensures var key, sent := s.recs[r].key, SentRec(s.recs[r], reply, s.now);
            && sent.attempts == s.recs[r].attempts + 1
            && (SoftReply(key, reply) ==>
                  sent.status.Pending? && sent.next == Some(s.now + DelayAfter(s.recs[r].attempts + 1)))
            && (key.None? && !reply.NotConfigured? ==> sent.status.Failed?)
            && (key.Some? && reply.Refused? ==> sent.status.Failed?)
            && (key.Some? && reply.Accepted? ==> sent.status.Succeeded?)
  {
    BackoffIsDelay(s.recs[r].attempts + 1);
  }

  /** Those of the first `n` records that a settle would send. */
  function Due(s: State, f: bool, n: nat): set<nat> {
    set r | 0 <= r < n && Claimable(s, r, f)
  }

  /** One job's billing records and the senders at work on them. */
  class RecordStore {
    var now: nat
    var recs: seq<Rec>
    var sends: map<Sender, Send>
    var rekeys: map<nat, Key>
    var charges: seq<Charge>
    ghost var tried: seq<set<Key>>

    ghost function View(): State
      reads this
    {
      State(now, recs, sends, rekeys, charges, tried)
    }

    constructor ()
      ensures Inv(View()) && recs == [] && charges == [] && sends == map[]
    {
      now, recs, sends, rekeys, charges, tried := 0, [], map[], map[], [], [];
    }

    /** `_claim`: one conditional update. */
    method ClaimRecord(x: Sender, r: nat, includeFailed: bool) returns (ok: bool)
      modifies this
      ensures View() == Step(old(View()), Claim(x, r, includeFailed))
      ensures ok <==> old(Claimable(View(), r, includeFailed))
    {
      if r >= |recs| {
        return false;
      }
      var statusMatches := recs[r].status.Pending? || (includeFailed && recs[r].status.Failed?);
      if !statusMatches || (recs[r].next.Some? && now < recs[r].next.value) {
        return false;
      }
      recs := recs[r := recs[r].(status := Pending, next := Some(now + IN_FLIGHT_SECONDS))];
      sends := sends[x := Claimed(r, now)];
      return true;
    }

    /** The sender reads the row. */
    method LoadRecord(x: Sender)
      requires x in sends && sends[x].Claimed? && sends[x].rec < |recs|
      modifies this`sends
      ensures View() == Step(old(View()), Load(x))
    {
      sends := sends[x := Loaded(sends[x].rec, sends[x].at, recs[sends[x].rec].key)];
    }

    /** `post_billing`, with the gateway's own dedupe search written out. */
    method PostRecord(x: Sender, reply: Reply)
      requires x in sends && sends[x].Loaded? && sends[x].rec < |recs| == |tried|
      modifies this
      ensures View() == Step(old(View()), Post(x, reply))
    {
      var r, key := sends[x].rec, sends[x].key;
      var outcome := OutcomeOf(key, reply);
      if key.Some? && !reply.NotConfigured? {
        tried := tried[r := tried[r] + {key.value}];
        if reply.Accepted? || reply.AnswerLost? {
          var found := false;
          for i := 0 to |charges|
            invariant found <==> exists k | 0 <= k < i :: charges[k].rec == r
          {
            if charges[i].rec == r {
              found := true;
            }
          }
          if !found {
            charges := charges + [Charge(r, key.value, recs[r].tokens)];
          }
        }
      }
      sends := sends[x := Answered(r, sends[x].at, outcome)];
    }

    /** The last transaction of `send`. */
    method CommitRecord(x: Sender)
      requires x in sends && sends[x].Answered? && sends[x].rec < |recs| == |tried|
      modifies this
      ensures View() == Step(old(View()), Commit(x))
    {
      var r := sends[x].rec;
      var attempts := recs[r].attempts + 1;
      match sends[x].outcome {
        case Charged =>
          recs := recs[r := recs[r].(status := Succeeded, next := None, attempts := attempts)];
        case Retriable =>
          recs := recs[r := recs[r].(status := Pending, next := Some(now + Backoff(attempts)), attempts := attempts)];
        case Rejected =>
          recs := recs[r := recs[r].(status := Failed, next := None, attempts := attempts)];
          tried := tried[r := {}];
      }
      sends := sends - {x};
    }

    /** A whole `send`. Returns whether the record was claimed at all. */
    method SendOne(x: Sender, r: nat, includeFailed: bool, reply: Reply) returns (sent: bool)
      requires Inv(View()) && x !in sends && r < |recs|
      modifies this
      ensures Inv(View()) && now == old(now) && sends == old(sends) && rekeys == old(rekeys)
      ensures sent <==> old(Claimable(View(), r, includeFailed))
      ensures recs == if sent then old(recs)[r := SentRec(old(recs[r]), reply, now)] else old(recs)
      ensures old(charges) <= charges
      ensures !sent ==> charges == old(charges)
    {
      ghost var s0 := View();
      sent := ClaimRecord(x, r, includeFailed);
      if !sent {
        return;
      }
      ghost var t := UninterruptedSend(s0, x, r, includeFailed, reply);
      LoadRecord(x);
      PostRecord(x, reply);
      CommitRecord(x);
      assert View() == t;
    }

    /** A record that keeps failing softly, if there is one. */
    method FindStuck() returns (problem: Problem)
      ensures problem.NoProblem? || (problem.StuckRecord? && problem.rec < |recs| && IsStuck(recs[problem.rec]))
      ensures problem.NoProblem? ==> forall r | 0 <= r < |recs| :: !IsStuck(recs[r])
    {
      for i := 0 to |recs|
        invariant forall r | 0 <= r < i :: !IsStuck(recs[r])
      {
        if recs[i].status.Pending? && recs[i].attempts >= SOFT_FAIL_LIMIT {
          return StuckRecord(i);
        }
      }
      return NoProblem;
    }

    /** The sending loop of `settle_job`, up to and including the first rejection. */
    method SendAll(x: Sender, includeFailed: bool, replies: nat -> Reply)
      returns (sent: nat, upTo: nat, rejected: bool)
      requires Inv(View()) && x !in sends
      modifies this
      ensures Inv(View()) && now == old(now) && sends == old(sends) && old(charges) <= charges
      ensures SentUpTo(old(View()), recs, includeFailed, replies, upTo)
      ensures sent == |Due(old(View()), includeFailed, upTo)|
      ensures EndedAt(old(View()), recs, includeFailed, upTo, rejected)
    {
      sent, upTo, rejected := 0, 0, false;
      ghost var s0 := View();
      while upTo < |recs| && !rejected
        invariant Inv(View()) && now == s0.now && sends == s0.sends && s0.charges <= charges
        invariant SentUpTo(s0, recs, includeFailed, replies, upTo)
        invariant if rejected then EndedAt(s0, recs, includeFailed, upTo, true)
                  else NoneRejected(s0, recs, includeFailed, upTo)
        invariant sent == |Due(s0, includeFailed, upTo)|
      {
        ghost var before := recs;
        var ok := SendOne(x, upTo, includeFailed, replies(upTo));
        SentOneMore(s0, before, recs, includeFailed, replies, upTo);
        OneMoreDue(s0, includeFailed, upTo);
        if ok {
          sent := sent + 1;
          rejected := recs[upTo].status.Failed?;
        }
        upTo := upTo + 1;
      }
    }

    /** `settle_job`: send every record that is not yet charged, oldest first, each once, and touch no
        other; stop at the first rejection; otherwise report a record that keeps failing softly. */
    method SettleJob(x: Sender, includeFailed: bool, replies: nat -> Reply) returns (sent: nat, problem: Problem)
      requires Inv(View()) && x !in sends
      modifies this
      ensures Inv(View()) && now == old(now) && sends == old(sends) && old(charges) <= charges
      ensures var upTo := if problem.RejectedRecord? then problem.rec + 1 else |recs|;
              && SentUpTo(old(View()), recs, includeFailed, replies, upTo)
              && sent == |Due(old(View()), includeFailed, upTo)|
              && EndedAt(old(View()), recs, includeFailed, upTo, problem.RejectedRecord?)
      ensures problem.StuckRecord? ==> problem.rec < |recs| && IsStuck(recs[problem.rec])
      ensures problem.NoProblem? ==> forall r | 0 <= r < |recs| :: !(recs[r].status.Pending? && recs[r].attempts >= 5)
      // a fifth soft failure does not go unreported
      ensures forall r | 0 <= r < |recs| && old(Claimable(View(), r, includeFailed) && recs[r].attempts >= 4) ::
        SoftReply(old(recs[r].key), replies(r)) ==> !problem.NoProblem?
    {
      ghost var s0 := View();
      var upTo, rejected;
      sent, upTo, rejected := SendAll(x, includeFailed, replies);
      if rejected {
        return sent, RejectedRecord(upTo - 1);
      }
      problem := FindStuck();
      forall r | 0 <= r < |recs| && Claimable(s0, r, includeFailed) && s0.recs[r].attempts >= 4
        ensures SoftReply(s0.recs[r].key, replies(r)) ==> !problem.NoProblem?
      {
        SendMeans(s0, x, r, includeFailed, replies(r));
      }
    }
  }

  predicate IsStuck(rec: Rec) {
    rec.status.Pending? && rec.attempts >= SOFT_FAIL_LIMIT
  }

  /** The claimable ones among the first `k` records were sent once; the others are as they were. */
  predicate SentUpTo(s: State, after: seq<Rec>, f: bool, replies: nat -> Reply, k: nat) {
    && |after| == |s.recs|
    && (forall r | 0 <= r < |after| ::
          after[r] == if r < k && Claimable(s, r, f) then SentRec(s.recs[r], replies(r), s.now) else s.recs[r])
  }

  predicate NoneRejected(s: State, after: seq<Rec>, f: bool, k: nat) {
    k <= |after| && forall r | 0 <= r < k && Claimable(s, r, f) :: !after[r].status.Failed?
  }

  /** A settle ends at the first rejection, or after the last record if there is none. */
  predicate EndedAt(s: State, after: seq<Rec>, f: bool, k: nat, rejected: bool) {
    if rejected
    then 0 < k <= |after| && Claimable(s, k - 1, f) && after[k - 1].status.Failed? && NoneRejected(s, after, f, k - 1)
    else k == |after| && NoneRejected(s, after, f, k)
  }

  lemma SentOneMore(s: State, before: seq<Rec>, after: seq<Rec>, f: bool, replies: nat -> Reply, i: nat)
    requires i < |before| && SentUpTo(s, before, f, replies, i) && NoneRejected(s, before, f, i)
    requires after == if Claimable(s, i, f) then before[i := SentRec(s.recs[i], replies(i), s.now)] else before
    ensures SentUpTo(s, after, f, replies, i + 1) && NoneRejected(s, after, f, i)
    ensures !Claimable(s, i, f) || !after[i].status.Failed? ==> NoneRejected(s, after, f, i + 1)
  {
  }

  lemma OneMoreDue(s: State, f: bool, i: nat)
    ensures |Due(s, f, i + 1)| == |Due(s, f, i)| + if Claimable(s, i, f) then 1 else 0
  {
    if Claimable(s, i, f) {
      assert Due(s, f, i + 1) == Due(s, f, i) + {i};
    } else {
      assert Due(s, f, i + 1) == Due(s, f, i);
    }
  }
}
