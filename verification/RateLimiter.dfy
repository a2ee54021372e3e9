/** The token buckets that throttle requests (services/inference.py: `RateLimiter`). A limit of 0
    turns that dimension off. Clock readings are parameters and never run backwards. */
module RateLimiter {
  datatype Bucket = Bucket(rpm: nat, tpm: nat, req: real, tok: real, last: real)

  function Min(a: real, b: real): real {
    if a <= b then a else b
  }

  function Max(a: real, b: real): real {
    if a <= b then b else a
  }

  /** What a bucket of `rate` a minute earns in some seconds. */
  function Earned(rate: nat, seconds: real): real {
    seconds * (rate as real) / 60.0
  }

  /** The seconds it takes to earn that much. */
  function TimeToEarn(rate: nat, amount: real): real
    requires rate > 0
  {
    amount * 60.0 / (rate as real)
  }

  function Refill(b: Bucket, now: real): Bucket {
    b.(last := now,
       req := if b.rpm > 0 then Min(b.rpm as real, b.req + Earned(b.rpm, now - b.last)) else b.req,
       tok := if b.tpm > 0 then Min(b.tpm as real, b.tok + Earned(b.tpm, now - b.last)) else b.tok)
  }

  predicate LacksRequest(b: Bucket) {
    b.rpm > 0 && b.req < 1.0
  }

  predicate LacksTokens(b: Bucket, estimate: nat) {
    b.tpm > 0 && estimate > 0 && b.tok < estimate as real
  }

  predicate Admits(b: Bucket, estimate: nat) {
    !LacksRequest(b) && !LacksTokens(b, estimate)
  }

  function Take(b: Bucket, estimate: nat): Bucket {
    b.(req := if b.rpm > 0 then b.req - 1.0 else b.req,
       tok := if b.tpm > 0 && estimate > 0 then b.tok - estimate as real else b.tok)
  }

  predicate Unlimited(b: Bucket) {
    b.rpm == 0 && b.tpm == 0
  }

  /** One turn at the lock. */
  function Attempt(b: Bucket, now: real, estimate: nat): Bucket {
    var r := Refill(b, now);
    if Unlimited(b) then b else if Admits(r, estimate) then Take(r, estimate) else r
  }

  predicate Granted(b: Bucket, now: real, estimate: nat) {
    Unlimited(b) || Admits(Refill(b, now), estimate)
  }

  predicate InRange(b: Bucket) {
    0.0 <= b.req <= b.rpm as real && 0.0 <= b.tok <= b.tpm as real
  }

  // ------------------------------------------------------------------ arithmetic of rates

  lemma EarnedAdds(rate: nat, x: real, y: real)
    ensures Earned(rate, x) + Earned(rate, y) == Earned(rate, x + y)
  {
    var r := rate as real;
    assert (x + y) * r == x * r + y * r;
  }

  lemma EarnedGrows(rate: nat, x: real, y: real)
    requires x <= y
    ensures Earned(rate, x) <= Earned(rate, y)
  {
    var r := rate as real;
    assert (y - x) * r >= 0.0;
    assert (y - x) * r == y * r - x * r;
  }

  lemma NothingLost(rate: nat, seconds: real)
    requires seconds >= 0.0
    ensures Earned(rate, seconds) >= 0.0
  {
    EarnedGrows(rate, 0.0, seconds);
  }

  lemma TimeShrinks(rate: nat, amount: real, seconds: real)
    requires rate > 0
    ensures TimeToEarn(rate, amount - Earned(rate, seconds)) == TimeToEarn(rate, amount) - seconds
  {
    var r := rate as real;
    assert (amount - seconds * r / 60.0) * 60.0 == amount * 60.0 - seconds * r;
    assert (amount * 60.0 - seconds * r) / r == amount * 60.0 / r - seconds * r / r;
    assert seconds * r / r == seconds;
  }

  // ------------------------------------------------------------------ the sliding window

  /** One acquirer's turn: when it got the lock, and what it asked for. */
  datatype Turn = Turn(now: real, estimate: nat)

  predicate Ordered(from: real, es: seq<Turn>)
    decreases es
  {
    es == [] || (from <= es[0].now && Ordered(es[0].now, es[1..]))
  }

  function Run(b: Bucket, es: seq<Turn>): Bucket
    decreases es
  {
    if es == [] then b else Run(Attempt(b, es[0].now, es[0].estimate), es[1..])
  }

  /** The estimates of the turns that were let through. */
  function Admitted(b: Bucket, es: seq<Turn>): seq<nat>
    decreases es
  {
    if es == [] then [] else
      var rest := Admitted(Attempt(b, es[0].now, es[0].estimate), es[1..]);
      if Granted(b, es[0].now, es[0].estimate) then [es[0].estimate] + rest else rest
  }

  function Sum(xs: seq<nat>): nat {
    if xs == [] then 0 else xs[0] + Sum(xs[1..])
  }

  lemma AttemptKeepsRange(b: Bucket, now: real, estimate: nat)
    requires InRange(b) && b.last <= now
    ensures InRange(Attempt(b, now, estimate))
  {
    EarnedGrows(b.rpm, 0.0, now - b.last);
    EarnedGrows(b.tpm, 0.0, now - b.last);
  }

  /** What was let through, and what is left, was there at the start or has been earned since. */
  lemma {:induction false} NothingFromNowhere(b: Bucket, es: seq<Turn>, until: real)
    requires InRange(b) && Ordered(b.last, es) && b.last <= until && (forall e <- es :: e.now <= until)
    ensures InRange(Run(b, es))
    ensures b.rpm > 0 ==> |Admitted(b, es)| as real <= b.req + Earned(b.rpm, until - b.last)
    ensures b.tpm > 0 ==> Sum(Admitted(b, es)) as real <= b.tok + Earned(b.tpm, until - b.last)
    decreases es
  {
    if es == [] {
      EarnedGrows(b.rpm, 0.0, until - b.last);
      EarnedGrows(b.tpm, 0.0, until - b.last);
    } else {
      var e := es[0];
      assert e in es;
      assert forall x <- es[1..] :: x in es;
      var c := Attempt(b, e.now, e.estimate);
      AttemptKeepsRange(b, e.now, e.estimate);
      if Unlimited(b) {
        UnlimitedStays(c, es[1..], e.now);
      } else {
        NothingFromNowhere(c, es[1..], until);
        EarnedAdds(b.rpm, e.now - b.last, until - e.now);
        EarnedAdds(b.tpm, e.now - b.last, until - e.now);
      }
    }
  }

  lemma {:induction false} UnlimitedStays(b: Bucket, es: seq<Turn>, from: real)
    requires Unlimited(b)
    ensures Run(b, es) == b
    decreases es
  {
    if es != [] {
      UnlimitedStays(Attempt(b, es[0].now, es[0].estimate), es[1..], from);
    }
  }

  /** Refilling twice at one instant is refilling once. */
  lemma RefillIsIdempotent(b: Bucket, now: real)
    requires InRange(b) && b.last <= now
    ensures Refill(Refill(b, now), now) == Refill(b, now)
  {
  }

  lemma WiderWindow(rate: nat, got: nat, balance: real, from: real, s: real, t: real)
    requires got as real <= balance + Earned(rate, t - from) && balance <= rate as real && s <= from
    ensures got as real <= rate as real + Earned(rate, t - s)
  {
    EarnedGrows(rate, t - from, t - s);
  }

  lemma WindowFrom(full: Bucket, within: seq<Turn>, s: real, t: real)
    requires InRange(full) && s <= full.last <= t
    requires Ordered(full.last, within) && (forall e <- within :: e.now <= t)
    ensures InRange(Run(full, within))
    ensures full.rpm > 0 ==> |Admitted(full, within)| as real <= full.rpm as real + Earned(full.rpm, t - s)
    ensures full.tpm > 0 ==> Sum(Admitted(full, within)) as real <= full.tpm as real + Earned(full.tpm, t - s)
  {
    NothingFromNowhere(full, within, t);
    if full.rpm > 0 {
      WiderWindow(full.rpm, |Admitted(full, within)|, full.req, full.last, s, t);
    }
    if full.tpm > 0 {
      WiderWindow(full.tpm, Sum(Admitted(full, within)), full.tok, full.last, s, t);
    }
  }

  /** Main result: however many acquirers took turns before, those let through in any window from
      `s` to `t` are no more than one full bucket and what is earned in between, in requests and in
      tokens; and the balances never leave their range. */
  lemma SlidingWindow(b: Bucket, before: seq<Turn>, within: seq<Turn>, s: real, t: real)
    requires InRange(b) && Ordered(b.last, before) && (forall e <- before :: e.now <= s) && b.last <= s <= t
    requires Ordered(s, within) && (forall e <- within :: e.now <= t)
    ensures var c := Run(b, before);
            && InRange(c) && InRange(Run(c, within))
            && (b.rpm > 0 ==> |Admitted(c, within)| as real <= b.rpm as real + Earned(b.rpm, t - s))
            && (b.tpm > 0 ==> Sum(Admitted(c, within)) as real <= b.tpm as real + Earned(b.tpm, t - s))
  {
    NothingFromNowhere(b, before, s);
    LastTurn(b, before, s);
    var c := Run(b, before);
    if within == [] {
      NothingLost(b.rpm, t - s);
      NothingLost(b.tpm, t - s);
    } else {
      var now := within[0].now;
      assert within[0] in within;
      RefillKeepsRange(c, now);
      SameAfterRefill(c, within);
      WindowFrom(Refill(c, now), within, s, t);
    }
  }

  lemma SameAfterRefill(c: Bucket, es: seq<Turn>)
    requires es != [] && InRange(c) && c.last <= es[0].now
    ensures Admitted(Refill(c, es[0].now), es) == Admitted(c, es)
    ensures !Unlimited(c) ==> Run(Refill(c, es[0].now), es) == Run(c, es)
    ensures Unlimited(c) ==> Run(c, es) == c
  {
    var now := es[0].now;
    RefillIsIdempotent(c, now);
    if Unlimited(c) {
      UnlimitedStays(c, es, now);
      AdmitsAll(c, es);
      AdmitsAll(Refill(c, now), es);
    }
  }

  lemma {:induction false} AdmitsAll(b: Bucket, es: seq<Turn>)
    requires Unlimited(b)
    ensures Admitted(b, es) == seq(|es|, i requires 0 <= i < |es| => es[i].estimate)
    decreases es
  {
    if es != [] {
      AdmitsAll(b, es[1..]);
    }
  }

  /** The clock of the bucket never passes the last turn, and its limits never change. */
  lemma {:induction false} LastTurn(b: Bucket, es: seq<Turn>, until: real)
    requires Ordered(b.last, es) && b.last <= until && (forall e <- es :: e.now <= until)
    ensures Run(b, es).last <= until && Run(b, es).rpm == b.rpm && Run(b, es).tpm == b.tpm
    decreases es
  {
    if es != [] {
      assert es[0] in es;
      assert forall x <- es[1..] :: x in es;
      if Unlimited(b) {
        UnlimitedStays(b, es, until);
      } else {
        LastTurn(Attempt(b, es[0].now, es[0].estimate), es[1..], until);
      }
    }
  }

  // ------------------------------------------------------------------ nothing is wasted

  /** No turn finds the bucket of requests, or of tokens, fuller than its capacity. */
  predicate NeverFull(b: Bucket, es: seq<Turn>, requests: bool)
    decreases es
  {
    es == [] ||
    ((if requests then b.req + Earned(b.rpm, es[0].now - b.last) <= b.rpm as real
      else b.tok + Earned(b.tpm, es[0].now - b.last) <= b.tpm as real)
     && NeverFull(Attempt(b, es[0].now, es[0].estimate), es[1..], requests))
  }

  /** As long as no bucket runs over, what was let through and what is left is exactly what was there and
      what has been earned: a turn that is let through costs one request and its estimate, and one that is
      sent away costs nothing. */
  lemma {:induction false} RequestsAreConserved(b: Bucket, es: seq<Turn>)
    requires b.rpm > 0 && NeverFull(b, es, true)
    ensures |Admitted(b, es)| as real + Run(b, es).req == b.req + Earned(b.rpm, Run(b, es).last - b.last)
    decreases es
  {
    if es != [] {
      var c := Attempt(b, es[0].now, es[0].estimate);
      RequestsAreConserved(c, es[1..]);
      EarnedAdds(b.rpm, c.last - b.last, Run(c, es[1..]).last - c.last);
    }
  }

  lemma {:induction false} TokensAreConserved(b: Bucket, es: seq<Turn>)
    requires b.tpm > 0 && NeverFull(b, es, false)
    ensures Sum(Admitted(b, es)) as real + Run(b, es).tok == b.tok + Earned(b.tpm, Run(b, es).last - b.last)
    decreases es
  {
    if es != [] {
      var c := Attempt(b, es[0].now, es[0].estimate);
      TokensAreConserved(c, es[1..]);
      EarnedAdds(b.tpm, c.last - b.last, Run(c, es[1..]).last - c.last);
    }
  }

  // ------------------------------------------------------------------ waiting

  /** The seconds until both balances would do. */
  function Deficit(b: Bucket, estimate: nat): real {
    Max(if LacksRequest(b) then TimeToEarn(b.rpm, 1.0 - b.req) else 0.0,
        if LacksTokens(b, estimate) then TimeToEarn(b.tpm, estimate as real - b.tok) else 0.0)
  }

  /** A request that can be met at all: the limiter makes no other wait end. */
  predicate CanBeMet(b: Bucket, estimate: nat) {
    b.tpm == 0 || estimate <= b.tpm
  }

  /** Some turn would let the request through if and only if it fits the token bucket; a bigger one
      waits forever, since `acquire` never gives up. */
  lemma MetSomeTimeIff(b: Bucket, estimate: nat)
    requires InRange(b)
    ensures (exists now :: b.last <= now && Granted(b, now, estimate)) <==> CanBeMet(b, estimate)
  {
    var later := b.last + 60.0;
    assert Earned(b.rpm, later - b.last) == b.rpm as real;
    assert Earned(b.tpm, later - b.last) == b.tpm as real;
    if CanBeMet(b, estimate) {
      assert Granted(b, later, estimate);
    }
  }

  lemma DeficitBounds(b: Bucket, estimate: nat)
    requires InRange(b) && CanBeMet(b, estimate)
    ensures 0.0 <= Deficit(b, estimate) <= 60.0
    ensures Deficit(b, estimate) == 0.0 <==> Admits(b, estimate)
  {
  }

  /** Refilling in two goes is refilling once. */
  lemma RefillTwice(b: Bucket, mid: real, now: real)
    requires InRange(b) && b.last <= mid <= now
    ensures Refill(Refill(b, mid), now) == Refill(b, now)
  {
  }

  /** Every second slept is a second less to wait. */
  lemma NapHelps(b: Bucket, estimate: nat, nap: real)
    requires InRange(b) && CanBeMet(b, estimate) && nap >= 0.0
    ensures Deficit(Refill(b, b.last + nap), estimate) <= Max(0.0, Deficit(b, estimate) - nap)
  {
    var r := Refill(b, b.last + nap);
    assert r.last - b.last == nap;
    EarnedGrows(b.rpm, 0.0, nap);
    EarnedGrows(b.tpm, 0.0, nap);
    if LacksRequest(r) {
      TimeShrinks(b.rpm, 1.0 - b.req, nap);
    }
    if LacksTokens(r, estimate) {
      TimeShrinks(b.tpm, estimate as real - b.tok, nap);
    }
  }

  lemma NoLack(rate: nat, amount: real, seconds: real)
    requires rate > 0
    ensures Earned(rate, seconds) >= amount <==> seconds >= TimeToEarn(rate, amount)
  {
    EarnedInTime(rate, amount);
    if seconds >= TimeToEarn(rate, amount) {
      EarnedGrows(rate, TimeToEarn(rate, amount), seconds);
    } else {
      EarnedStrictly(rate, seconds, TimeToEarn(rate, amount));
    }
  }

  lemma EarnedInTime(rate: nat, amount: real)
    requires rate > 0
    ensures Earned(rate, TimeToEarn(rate, amount)) == amount
  {
    var r := rate as real;
    assert amount * 60.0 / r * r == amount * 60.0;
  }

  lemma EarnedStrictly(rate: nat, x: real, y: real)
    requires x < y && rate > 0
    ensures Earned(rate, x) < Earned(rate, y)
  {
    var r := rate as real;
    assert (y - x) * r > 0.0;
    assert (y - x) * r == y * r - x * r;
  }

  /** The deficit is exactly the wait: with nobody else taking anything, the request is let through after
      that many seconds, and not a moment before. */
  lemma DeficitIsExact(b: Bucket, estimate: nat, seconds: real)
    requires InRange(b) && CanBeMet(b, estimate) && seconds >= 0.0
    ensures Granted(b, b.last + seconds, estimate) <==> seconds >= Deficit(b, estimate)
  {
    var r := Refill(b, b.last + seconds);
    assert r.last - b.last == seconds;
    EarnedGrows(b.rpm, 0.0, seconds);
    EarnedGrows(b.tpm, 0.0, seconds);
    if LacksRequest(b) {
      NoLack(b.rpm, 1.0 - b.req, seconds);
      DeficitPositive(b.rpm, 1.0 - b.req);
    }
    if LacksTokens(b, estimate) {
      NoLack(b.tpm, estimate as real - b.tok, seconds);
      DeficitPositive(b.tpm, estimate as real - b.tok);
    }
  }

  lemma DeficitPositive(rate: nat, amount: real)
    requires rate > 0 && amount > 0.0
    ensures TimeToEarn(rate, amount) > 0.0
  {
  }

  // ------------------------------------------------------------------ the imperative form

  class Limiter {
    const rpm: nat
    const tpm: nat
    var req: real
    var tok: real
    var last: real

    ghost function View(): Bucket
      reads this
    {
      Bucket(rpm, tpm, req, tok, last)
    }

    constructor (rpm: nat, tpm: nat, now: real)
      ensures this.rpm == rpm && this.tpm == tpm && last == now
      ensures req == rpm as real && tok == tpm as real && InRange(View())
    {
      this.rpm, this.tpm, last := rpm, tpm, now;
      req, tok := rpm as real, tpm as real;
    }

    /** `_refill`: what the time since the last refill has earned, up to a full bucket. */
    method RefillNow(now: real)
      modifies this
      ensures View() == Refill(old(View()), now)
    {
      var elapsed := now - last;
      last := now;
      if rpm > 0 {
        req := Min(rpm as real, req + Earned(rpm, elapsed));
      }
      if tpm > 0 {
        tok := Min(tpm as real, tok + Earned(tpm, elapsed));
      }
    }

    /** One pass of the loop of `acquire`: let through, or told how long to sleep. */
    method TryAcquire(now: real, estimate: nat) returns (ok: bool, nap: real)
      requires rpm > 0 || tpm > 0
      modifies this
      ensures View() == Attempt(old(View()), now, estimate) && ok == Granted(old(View()), now, estimate)
      ensures !ok ==> nap == Min(Max(0.05, Deficit(View(), estimate)), 5.0)
    {
      RefillNow(now);
      var needReq := rpm > 0 && req < 1.0;
      var needTok := tpm > 0 && estimate > 0 && tok < estimate as real;
      if !needReq && !needTok {
        if rpm > 0 {
          req := req - 1.0;
        }
        if tpm > 0 && estimate > 0 {
          tok := tok - estimate as real;
        }
        return true, 0.0;
      }
      var wait := 0.05;
      if needReq {
        wait := Max(wait, TimeToEarn(rpm, 1.0 - req));
      }
      if needTok {
        wait := Max(wait, TimeToEarn(tpm, estimate as real - tok));
      }
      return false, Min(wait, 5.0);
    }

    /** `acquire` when nobody else competes: it returns, after at most twelve naps, and sooner the
        smaller the deficit it met; `late(k)` is by how much nap `k` overslept. */
    method Acquire(arrival: real, estimate: nat, late: nat -> real) returns (naps: nat, left: real)
      requires InRange(View()) && last <= arrival && CanBeMet(View(), estimate)
      requires forall k: nat :: late(k) >= 0.0
      modifies this
      ensures InRange(View()) && arrival <= left
      ensures Granted(old(View()), left, estimate) && View() == Attempt(old(View()), left, estimate)
      ensures naps <= 12
      ensures naps > 0 ==> 5.0 * (naps - 1) as real < Deficit(Refill(old(View()), arrival), estimate)
    {
      naps, left := 0, arrival;
      if rpm == 0 && tpm == 0 {
        return;
      }
      ghost var start := View();
      ghost var owed := Deficit(Refill(start, arrival), estimate);
      AttemptKeepsRange(start, arrival, 0);
      RefillKeepsRange(start, arrival);
      DeficitBounds(Refill(start, arrival), estimate);
      var ok := false;
      while !ok
        invariant arrival <= left && last <= left && rpm == start.rpm && tpm == start.tpm
        invariant InRange(View())
        invariant !ok ==> Refill(View(), left) == Refill(start, left)
        invariant !ok ==> Deficit(Refill(start, left), estimate) == 0.0 ||
                          Deficit(Refill(start, left), estimate) + 5.0 * naps as real <= owed
        invariant naps <= 12 && (naps > 0 ==> 5.0 * (naps - 1) as real < owed)
        invariant ok ==> Granted(start, left, estimate) && View() == Attempt(start, left, estimate)
        decreases !ok, 12 - naps
      {
        ghost var b := View();
        RefillKeepsRange(b, left);
        AttemptKeepsRange(b, left, estimate);
        ghost var r := Refill(start, left);
        DeficitBounds(r, estimate);
        var nap: real;
        ok, nap := TryAcquire(left, estimate);
        if !ok {
          assert View() == r;
          var awake := left + nap + late(naps);
          NapHelps(r, estimate, awake - left);
          RefillTwice(start, left, awake);
          naps, left := naps + 1, awake;
          RefillKeepsRange(start, awake);
          DeficitBounds(Refill(start, awake), estimate);
        }
      }
    }
  }

  lemma RefillKeepsRange(b: Bucket, now: real)
    requires InRange(b) && b.last <= now
    ensures InRange(Refill(b, now))
  {
    EarnedGrows(b.rpm, 0.0, now - b.last);
    EarnedGrows(b.tpm, 0.0, now - b.last);
  }
}
