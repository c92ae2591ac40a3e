/**
 The token bucket that limits the bandwidth of all transfers together: its
 locked sections on real numbers, the system of all waiters over them, and
 the bounds on what is ever charged.
 */
module Limiter {
  import opened Basics

  const MIN_BURST := 65536.0

  /** `last` is the clock reading of the latest refill, in seconds; a rate of 0 means no limit. */
  datatype Bucket = Bucket(rate: real, burst: real, tokens: real, last: real)

  ghost predicate ValidBucket(b: Bucket) {
    if b.rate > 0.0 then b.burst == BurstFor(b.rate) && 0.0 <= b.tokens <= b.burst
    else b.rate == 0.0 && b.burst == 0.0 && b.tokens == 0.0
  }

  function BurstFor(rate: real): real {
    if rate < MIN_BURST then MIN_BURST else rate
  }

  /** What the rate allows between the latest refill and `now`. */
  function Income(b: Bucket, now: real): real {
    if b.rate > 0.0 && now > b.last then (now - b.last) * b.rate else 0.0
  }

  function Refilled(b: Bucket, now: real): Bucket {
    var full := b.tokens + Income(b, now);
    b.(tokens := if Income(b, now) > 0.0 && full > b.burst then b.burst else full, last := now)
  }

  function WithRate(b: Bucket, bytesPerSecond: int): Bucket {
    if bytesPerSecond <= 0 then Bucket(0.0, 0.0, 0.0, b.last)
    else
      var rate := bytesPerSecond as real;
      Bucket(rate, BurstFor(rate), if b.tokens > BurstFor(rate) then BurstFor(rate) else b.tokens, b.last)
  }

  /** What one attempt of a waiter ends with. */
  datatype Attempt = Unlimited | Charged(charge: real) | Short(wait: real)

  /** The bytes one attempt asks for. */
  function Charge(b: Bucket, remaining: real): real {
    if remaining > b.burst then b.burst else remaining
  }

  function TryTake(b: Bucket, remaining: real): Attempt {
    if b.rate <= 0.0 then Unlimited
    else if b.tokens >= Charge(b, remaining) then Charged(Charge(b, remaining))
    else Short((Charge(b, remaining) - b.tokens) / b.rate)
  }

  function AfterAttempt(b: Bucket, attempt: Attempt): Bucket {
    if attempt.Charged? then b.(tokens := b.tokens - attempt.charge) else b
  }

  lemma IncomeIsNotNegative(b: Bucket, now: real)
    ensures 0.0 <= Income(b, now)
  {
    if b.rate > 0.0 && now > b.last {
      Positive(now - b.last, b.rate);
    }
  }

  lemma Positive(a: real, b: real)
    requires 0.0 < a && 0.0 < b
    ensures 0.0 < a * b
  {
  }

  // ---------------------------------------------------------------------
  // The limiter as an object

  class BandwidthLimiter {
    var rate: real
    var burst: real
    var tokens: real
    var last: real

    function View(): Bucket
      reads this
    {
      Bucket(rate, burst, tokens, last)
    }

    constructor (bytesPerSecond: int, now: real)
      ensures View() == WithRate(Bucket(0.0, 0.0, 0.0, now), bytesPerSecond)
      ensures ValidBucket(View())
    {
      rate, burst, tokens, last := 0.0, 0.0, 0.0, now;
      new;
      SetRateLocked(bytesPerSecond);
    }

    method RefillLocked(now: real)
      modifies this
      ensures View() == Refilled(old(View()), now)
    {
      IncomeIsNotNegative(View(), now);
      if rate > 0.0 {
        var elapsed := now - last;
        if elapsed > 0.0 {
          Positive(elapsed, rate);
          tokens := tokens + elapsed * rate;
          if tokens > burst {
            tokens := burst;
          }
        }
      }
      last := now;
    }

    method SetRateLocked(bytesPerSecond: int)
      modifies this
      ensures View() == WithRate(old(View()), bytesPerSecond)
    {
      if bytesPerSecond <= 0 {
        rate := 0.0;
        burst := 0.0;
        tokens := 0.0;
        return;
      }
      rate := bytesPerSecond as real;
      burst := rate;
      if burst < MIN_BURST {
        burst := MIN_BURST;
      }
      if tokens > burst {
        tokens := burst;
      }
    }

    method SetBytesPerSecond(bytesPerSecond: int, now: real)
      modifies this
      ensures View() == WithRate(Refilled(old(View()), now), bytesPerSecond)
    {
      RefillLocked(now);
      SetRateLocked(bytesPerSecond);
    }

    /** The locked section of one attempt. */
    method TryTakeLocked(remaining: real, now: real) returns (attempt: Attempt)
      modifies this
      ensures var full := Refilled(old(View()), now);
              attempt == TryTake(full, remaining) && View() == AfterAttempt(full, attempt)
    {
      RefillLocked(now);
      if rate <= 0.0 {
        return Unlimited;
      }
      var charge := remaining;
      if charge > burst {
        charge := burst;
      }
      if tokens >= charge {
        tokens := tokens - charge;
        return Charged(charge);
      }
      return Short((charge - tokens) / rate);
    }

    /**
     The waiter's loop over the moments at which the limiter is used: its own attempts, rate changes, and the
     attempts of others, in any order, until all is charged, the limit is found lifted, or it is canceled
     (the moments are over). What that amounts to is stated by `WaitIsCovered`.
     */
    method WaitN(count: int, moments: seq<Moment>) returns (ok: bool, charged: real, ghost others: real)
      requires ValidBucket(View())
      modifies this
      ensures Waited(ok, charged, others, View()) == WaitOver(old(View()), count as real, moments)
    {
      hide WaitOver, TryTake, WithRate, Refilled;
      charged, others := 0.0, 0.0;
      if count <= 0 {
        WaitUnfolds(View(), count as real, moments, 0);
        return true, charged, others;
      }
      var remaining := count as real;
      var i := 0;
      assert moments[0..] == moments;
      while remaining > 0.0 && i < |moments|
        invariant 0 <= i <= |moments|
        invariant WaitOver(old(View()), count as real, moments)
                  == After(charged, others, WaitOver(View(), remaining, moments[i..]))
        decreases |moments| - i
      {
        WaitUnfolds(View(), remaining, moments, i);
        match moments[i] {
          case Changing(bytesPerSecond, now) =>
            SetBytesPerSecond(bytesPerSecond, now);
          case Others(amount, now) =>
            var attempt := TryTakeLocked(amount, now);
            others := others + Taken(attempt);
          case Attempting(now) =>
            var attempt := TryTakeLocked(remaining, now);
            if attempt.Unlimited? {
              return true, charged, others;
            }
            if attempt.Charged? {
              charged := charged + attempt.charge;
              remaining := remaining - attempt.charge;
            }
        }
        i := i + 1;
      }
      WaitUnfolds(View(), remaining, moments, i);
      ok := remaining <= 0.0;
    }
  }

  type Amount = amount: real | 0.0 < amount witness 1.0

  /** A moment at which the limiter is used. */
  datatype Moment =
    | Attempting(now: real)
    | Changing(bytesPerSecond: int, now: real)
    | Others(amount: Amount, now: real)

  /** What becomes of a wait: success, what it was charged, what others were charged meanwhile, and the bucket. */
  datatype Waited = Waited(ok: bool, charged: real, others: real, bucket: Bucket)

  function Taken(attempt: Attempt): real {
    if attempt.Charged? then attempt.charge else 0.0
  }

  function After(charged: real, others: real, rest: Waited): Waited {
    Waited(rest.ok, charged + rest.charged, others + rest.others, rest.bucket)
  }

  /** A wait for `remaining` over the moments. */
  function WaitOver(b: Bucket, remaining: real, moments: seq<Moment>): Waited
    decreases |moments|
  {
    if remaining <= 0.0 then Waited(true, 0.0, 0.0, b)
    else if moments == [] then Waited(false, 0.0, 0.0, b)
    else
      var full := Refilled(b, moments[0].now);
      match moments[0]
      case Changing(bytesPerSecond, _) => WaitOver(WithRate(full, bytesPerSecond), remaining, moments[1..])
      case Others(amount, _) =>
        var attempt := TryTake(full, amount);
        After(0.0, Taken(attempt), WaitOver(AfterAttempt(full, attempt), remaining, moments[1..]))
      case Attempting(_) =>
        var attempt := TryTake(full, remaining);
        if attempt.Unlimited? then Waited(true, 0.0, 0.0, full)
        else After(Taken(attempt), 0.0, WaitOver(AfterAttempt(full, attempt), remaining - Taken(attempt), moments[1..]))
  }

  lemma WaitUnfolds(b: Bucket, remaining: real, moments: seq<Moment>, i: nat)
    requires i <= |moments|
    ensures WaitOver(b, remaining, moments[i..])
            == if remaining <= 0.0 then Waited(true, 0.0, 0.0, b)
               else if i == |moments| then Waited(false, 0.0, 0.0, b)
               else
                 var full := Refilled(b, moments[i].now);
                 match moments[i]
                 case Changing(bytesPerSecond, _) =>
                   WaitOver(WithRate(full, bytesPerSecond), remaining, moments[i + 1..])
                 case Others(amount, _) =>
                   var attempt := TryTake(full, amount);
                   After(0.0, Taken(attempt), WaitOver(AfterAttempt(full, attempt), remaining, moments[i + 1..]))
                 case Attempting(_) =>
                   var attempt := TryTake(full, remaining);
                   if attempt.Unlimited? then Waited(true, 0.0, 0.0, full)
                   else After(Taken(attempt), 0.0,
                              WaitOver(AfterAttempt(full, attempt), remaining - Taken(attempt), moments[i + 1..]))
  {
    if i < |moments| {
      assert moments[i..][0] == moments[i] && moments[i..][1..] == moments[i + 1..];
    }
  }

  /** The bucket is limited, and no change lifts the limit. */
  predicate KeepsLimit(b: Bucket, moments: seq<Moment>) {
    b.rate > 0.0 && forall i :: 0 <= i < |moments| && moments[i].Changing? ==> 0 < moments[i].bytesPerSecond
  }

  /** The rate and the clock after a moment; the tokens do not matter here. */
  function AfterMoment(b: Bucket, moment: Moment): Bucket {
    if moment.Changing? then WithRate(b.(last := moment.now), moment.bytesPerSecond) else b.(last := moment.now)
  }

  /** What the rates in force allow over the moments. */
  ghost function Allowed(b: Bucket, moments: seq<Moment>): real
    decreases |moments|
  {
    if moments == [] then 0.0 else Income(b, moments[0].now) + Allowed(AfterMoment(b, moments[0]), moments[1..])
  }

  lemma {:induction false} AllowedDependsOnRate(a: Bucket, b: Bucket, moments: seq<Moment>)
    requires a.rate == b.rate && a.last == b.last
    ensures Allowed(a, moments) == Allowed(b, moments)
    decreases |moments|
  {
    if moments != [] {
      assert Income(a, moments[0].now) == Income(b, moments[0].now);
      AllowedDependsOnRate(AfterMoment(a, moments[0]), AfterMoment(b, moments[0]), moments[1..]);
      hide Income, WithRate;
    }
  }

  lemma {:induction false} AllowedIsNotNegative(b: Bucket, moments: seq<Moment>)
    ensures 0.0 <= Allowed(b, moments)
    decreases |moments|
  {
    if moments != [] {
      IncomeIsNotNegative(b, moments[0].now);
      AllowedIsNotNegative(AfterMoment(b, moments[0]), moments[1..]);
    }
  }

  // ---------------------------------------------------------------------
  // One section

  lemma RefillIsCovered(b: Bucket, now: real)
    requires ValidBucket(b)
    ensures ValidBucket(Refilled(b, now)) && Refilled(b, now).rate == b.rate && Refilled(b, now).burst == b.burst
    ensures b.tokens <= Refilled(b, now).tokens <= b.tokens + Income(b, now)
  {
    IncomeIsNotNegative(b, now);
  }

  /** An attempt charges no more than what is asked, and no more than the bucket held and earned. */
  lemma AttemptIsCovered(b: Bucket, remaining: real, now: real)
    requires ValidBucket(b) && 0.0 < remaining
    ensures var full := Refilled(b, now);
            var attempt := TryTake(full, remaining);
            var after := AfterAttempt(full, attempt);
            && ValidBucket(after) && after.rate == b.rate && after.burst == b.burst && after.last == now
            && (attempt.Unlimited? <==> b.rate == 0.0)
            && (attempt.Charged? ==> 0.0 < attempt.charge <= remaining)
            && Taken(attempt) + after.tokens <= b.tokens + Income(b, now)
  {
    RefillIsCovered(b, now);
  }

  /**
   What waiting promises, whatever rate changes and other waiters come in between: nothing beyond the count
   is charged, success without the limit being lifted means all of it was, a canceled wait was not paid in
   full, and all charges together stay within what the rates in force allowed.
   */
  lemma {:induction false} WaitIsCovered(b: Bucket, remaining: real, moments: seq<Moment>)
    requires ValidBucket(b) && 0.0 <= remaining
    ensures var w := WaitOver(b, remaining, moments);
            && ValidBucket(w.bucket) && 0.0 <= w.charged <= remaining && 0.0 <= w.others
            && (w.ok && KeepsLimit(b, moments) ==> w.charged == remaining)
            && (!w.ok ==> w.charged < remaining)
            && w.charged + w.others + w.bucket.tokens <= b.tokens + Allowed(b, moments)
    decreases |moments|
  {
    AllowedIsNotNegative(b, moments);
    if 0.0 < remaining && moments != [] {
      var moment, rest := moments[0], moments[1..];
      var full := Refilled(b, moment.now);
      assert forall k :: 0 <= k < |rest| ==> rest[k] == moments[k + 1];
      RefillIsCovered(b, moment.now);
      hide Refilled, TryTake, WithRate, Income, ValidBucket, BurstFor, AfterAttempt;
      match moment {
        case Changing(bytesPerSecond, now) =>
          ChangeIsCovered(b, bytesPerSecond, now);
          AllowedDependsOnRate(WithRate(full, bytesPerSecond), AfterMoment(b, moment), rest);
          WaitIsCovered(WithRate(full, bytesPerSecond), remaining, rest);
        case Others(amount, now) =>
          AttemptIsCovered(b, amount, now);
          var attempt := TryTake(full, amount);
          AllowedDependsOnRate(AfterAttempt(full, attempt), AfterMoment(b, moment), rest);
          WaitIsCovered(AfterAttempt(full, attempt), remaining, rest);
        case Attempting(now) =>
          AttemptIsCovered(b, remaining, now);
          var attempt := TryTake(full, remaining);
          AllowedIsNotNegative(AfterMoment(b, moment), rest);
          AllowedDependsOnRate(AfterAttempt(full, attempt), AfterMoment(b, moment), rest);
          WaitIsCovered(AfterAttempt(full, attempt), remaining - Taken(attempt), rest);
      }
    }
  }

  lemma ChangeIsCovered(b: Bucket, bytesPerSecond: int, now: real)
    requires ValidBucket(b)
    ensures var after := WithRate(Refilled(b, now), bytesPerSecond);
            && ValidBucket(after) && after.tokens <= Refilled(b, now).tokens
            && after.last == now && (0.0 < after.rate <==> 0 < bytesPerSecond)
            && after.rate == WithRate(b.(last := now), bytesPerSecond).rate
  {
    RefillIsCovered(b, now);
  }

  /** Waiting for the computed time is enough, if nothing else is charged meanwhile. */
  lemma WaitIsEnough(b: Bucket, remaining: real, now: real, later: real)
    requires ValidBucket(b) && 0.0 < remaining && TryTake(Refilled(b, now), remaining).Short?
    requires now + TryTake(Refilled(b, now), remaining).wait <= later
    ensures TryTake(Refilled(Refilled(b, now), later), remaining) == Charged(Charge(b, remaining))
  {
    RefillIsCovered(b, now);
    var full := Refilled(b, now);
    var charge := Charge(full, remaining);
    IncomeCovers(full, charge - full.tokens, later);
    hide Income;
    assert charge <= Refilled(full, later).tokens;
  }

  /** Without a limit the next attempt lets everybody pass, uncharged. */
  lemma LiftedLimitsLetPass(b: Bucket, remaining: real, moments: seq<Moment>)
    requires ValidBucket(b) && moments != [] && moments[0].Attempting? && b.rate == 0.0
    ensures var w := WaitOver(b, remaining, moments); w.ok && w.charged == w.others == 0.0
  {
  }

  /** The bucket after the next charge of a waiter who is alone. */
  function AfterCharge(b: Bucket, remaining: real, now: real): Bucket {
    var full := Refilled(b, now);
    match TryTake(full, remaining)
    case Short(wait) => AfterAttempt(Refilled(full, now + wait), Charged(Charge(b, remaining)))
    case _ => AfterAttempt(full, Charged(Charge(b, remaining)))
  }

  lemma ChargeComesAtOnce(b: Bucket, remaining: real, now: real, rest: seq<Moment>)
    requires 0.0 < b.rate && 0.0 < remaining && TryTake(Refilled(b, now), remaining).Charged?
    ensures var charge := Charge(b, remaining);
            WaitOver(b, remaining, [Attempting(now)] + rest)
            == After(charge, 0.0, WaitOver(AfterCharge(b, remaining, now), remaining - charge, rest))
  {
    hide Income;
    assert ([Attempting(now)] + rest)[1..] == rest;
  }

  lemma ShortAttempt(b: Bucket, remaining: real, now: real, rest: seq<Moment>)
    requires 0.0 < b.rate && 0.0 < remaining && TryTake(Refilled(b, now), remaining).Short?
    ensures WaitOver(b, remaining, [Attempting(now)] + rest) == WaitOver(Refilled(b, now), remaining, rest)
  {
    hide Income;
    assert ([Attempting(now)] + rest)[1..] == rest;
  }

  /** One charge comes at once, or after the time the attempt names. */
  lemma NextChargeComes(b: Bucket, remaining: real, now: real, rest: seq<Moment>)
    returns (attempts: seq<Moment>, after: Bucket)
    requires ValidBucket(b) && 0.0 < b.rate && 0.0 < remaining && b.last <= now
    ensures forall i :: 0 <= i < |attempts| ==> attempts[i].Attempting? && now <= attempts[i].now
    ensures ValidBucket(after) && after.rate == b.rate && after.burst == b.burst && now <= after.last
    ensures after == AfterCharge(b, remaining, now)
    ensures var charge := Charge(b, remaining);
            WaitOver(b, remaining, attempts + rest) == After(charge, 0.0, WaitOver(after, remaining - charge, rest))
  {
    RefillIsCovered(b, now);
    var full := Refilled(b, now);
    after := AfterCharge(b, remaining, now);
    hide Income, WaitOver;
    match TryTake(full, remaining) {
      case Charged(_) =>
        ChargeComesAtOnce(b, remaining, now, rest);
        attempts := [Attempting(now)];
      case Short(wait) =>
        WaitIsEnough(b, remaining, now, now + wait);
        RefillIsCovered(full, now + wait);
        ShortAttempt(b, remaining, now, [Attempting(now + wait)] + rest);
        ChargeComesAtOnce(full, remaining, now + wait, rest);
        attempts := [Attempting(now)] + [Attempting(now + wait)];
        assert attempts + rest == [Attempting(now)] + ([Attempting(now + wait)] + rest);
    }
  }

  /** A waiter who is alone and attempts again when it was told to is served, however much it needs. */
  lemma {:induction false} PatientWaitersAreServed(b: Bucket, remaining: real, now: real)
    returns (moments: seq<Moment>)
    requires ValidBucket(b) && 0.0 < b.rate && 0.0 < remaining && b.last <= now
    ensures forall i :: 0 <= i < |moments| ==> moments[i].Attempting? && now <= moments[i].now
    ensures WaitOver(b, remaining, moments).ok && WaitOver(b, remaining, moments).charged == remaining
    decreases remaining
  {
    var charge := Charge(b, remaining);
    var after := AfterCharge(b, remaining, now);
    var none, next := NextChargeComes(b, remaining, now, []);
    var rest := [];
    if charge < remaining {
      rest := PatientWaitersAreServed(after, remaining - charge, after.last);
    }
    var attempts, _ := NextChargeComes(b, remaining, now, rest);
    moments := attempts + rest;
  }

  /** Nor is it too much: before that moment the attempt is still short. */
  lemma WaitIsNeeded(b: Bucket, remaining: real, now: real, later: real)
    requires ValidBucket(b) && 0.0 < remaining && TryTake(Refilled(b, now), remaining).Short?
    requires now <= later < now + TryTake(Refilled(b, now), remaining).wait
    ensures TryTake(Refilled(Refilled(b, now), later), remaining).Short?
  {
    RefillIsCovered(b, now);
    var full := Refilled(b, now);
    var missing := Charge(full, remaining) - full.tokens;
    IncomeMisses(full, missing, later);
    RefillIsCovered(full, later);
  }

  lemma IncomeMisses(b: Bucket, missing: real, later: real)
    requires 0.0 < b.rate && 0.0 < missing && b.last <= later < b.last + missing / b.rate
    ensures Income(b, later) < missing
  {
    var elapsed, wait := later - b.last, missing / b.rate;
    assert wait * b.rate == missing;
    Positive(wait - elapsed, b.rate);
    assert (wait - elapsed) * b.rate == missing - elapsed * b.rate;
  }

  /** An attempt that is charged takes all that is asked, or a whole burst: the rate, but at least 64 KiB. */
  lemma AttemptsAreWhole(b: Bucket, remaining: real, now: real)
    requires ValidBucket(b) && 0.0 < remaining && 0.0 < b.rate
    ensures var full := Refilled(b, now);
            var whole := Least(remaining, if b.rate < 65536.0 then 65536.0 else b.rate);
            && TryTake(full, remaining)
              == (if whole <= full.tokens then Charged(whole) else Short((whole - full.tokens) / b.rate))
            && full.tokens == Least(b.tokens + Income(b, now), if b.rate < 65536.0 then 65536.0 else b.rate)
  {
    RefillIsCovered(b, now);
    hide Income;
  }

  function Least(a: real, b: real): real {
    if a <= b then a else b
  }

  /** A change of the rate keeps what was saved up, as far as the new burst allows; lifting the limit forgets it. */
  lemma RateChangesKeepTokens(b: Bucket, bytesPerSecond: int, now: real)
    requires ValidBucket(b)
    ensures var after := WithRate(Refilled(b, now), bytesPerSecond);
            var rate := bytesPerSecond as real;
            if bytesPerSecond <= 0 then after == Bucket(0.0, 0.0, 0.0, now)
            else after == Bucket(rate, if rate < 65536.0 then 65536.0 else rate,
                                 Least(Refilled(b, now).tokens, if rate < 65536.0 then 65536.0 else rate), now)
  {
  }

  lemma IncomeCovers(b: Bucket, missing: real, later: real)
    requires 0.0 < b.rate && 0.0 < missing && b.last + missing / b.rate <= later
    ensures missing <= Income(b, later)
  {
    var wait := missing / b.rate;
    assert wait * b.rate == missing;
    if wait <= 0.0 {
      ProductGrows(wait, 0.0, b.rate);
    }
    ProductGrows(wait, later - b.last, b.rate);
  }

  lemma ProductGrows(a: real, b: real, c: real)
    requires a <= b && 0.0 <= c
    ensures a * c <= b * c
  {
  }

  // ---------------------------------------------------------------------
  // All waiters together

  datatype Status = Waiting | Served | LetThrough | GaveUp

  datatype Waiter = Waiter(count: real, remaining: real, paid: real, status: Status)

  /** `supply` adds up what the rates in force allowed, `charged` what all waiters were charged. */
  datatype System = System(bucket: Bucket, charged: real, supply: real, waiters: map<nat, Waiter>)

  datatype Event =
    | Begin(id: nat, count: nat)
    | Try(id: nat, now: real)
    | SetRate(bytesPerSecond: int, now: real)
    | Cancel(id: nat)

  function TryUpdate(s: System, id: nat, now: real): System
    requires id in s.waiters
  {
    var waiter := s.waiters[id];
    var full := Refilled(s.bucket, now);
    var attempt := TryTake(full, waiter.remaining);
    var next :=
      match attempt
      case Unlimited => waiter.(status := LetThrough)
      case Charged(charge) =>
        waiter.(remaining := waiter.remaining - charge, paid := waiter.paid + charge,
                status := if waiter.remaining - charge <= 0.0 then Served else Waiting)
      case Short(_) => waiter;
    System(AfterAttempt(full, attempt), s.charged + Taken(attempt),
           s.supply + Income(s.bucket, now), s.waiters[id := next])
  }

  function Next(s: System, event: Event): Option<System> {
    match event
    case Begin(id, count) =>
      if id in s.waiters || count == 0 then None
      else Some(s.(waiters := s.waiters[id := Waiter(count as real, count as real, 0.0, Waiting)]))
    case Try(id, now) =>
      if id !in s.waiters || s.waiters[id].status != Waiting then None else Some(TryUpdate(s, id, now))
    case SetRate(bytesPerSecond, now) =>
      Some(s.(bucket := WithRate(Refilled(s.bucket, now), bytesPerSecond), supply := s.supply + Income(s.bucket, now)))
    case Cancel(id) =>
      if id !in s.waiters || s.waiters[id].status != Waiting then None
      else Some(s.(waiters := s.waiters[id := s.waiters[id].(status := GaveUp)]))
  }

  ghost predicate Leads(from: System, events: seq<Event>, to: System)
    decreases |events|
  {
    if events == [] then from == to
    else Next(from, events[0]).Some? && Leads(Next(from, events[0]).value, events[1..], to)
  }

  ghost predicate WaiterOK(w: Waiter) {
    && 0.0 <= w.remaining && 0.0 <= w.paid && w.paid + w.remaining == w.count
    && (w.status == Waiting ==> 0.0 < w.remaining)
    && (w.status == Served ==> w.remaining == 0.0)
  }

  ghost predicate Inv(s: System) {
    ValidBucket(s.bucket) && forall id :: id in s.waiters ==> WaiterOK(s.waiters[id])
  }

  /** What a step charges or saves up is covered by what the rate allowed. */
  ghost predicate Covered(s: System, after: System) {
    && after.charged + after.bucket.tokens - (s.charged + s.bucket.tokens) <= after.supply - s.supply
    && s.charged <= after.charged && s.supply <= after.supply
  }

  lemma TryKeeps(s: System, id: nat, now: real)
    requires Inv(s) && id in s.waiters && s.waiters[id].status == Waiting
    ensures Inv(TryUpdate(s, id, now)) && Covered(s, TryUpdate(s, id, now))
  {
    AttemptIsCovered(s.bucket, s.waiters[id].remaining, now);
    IncomeIsNotNegative(s.bucket, now);
  }

  lemma StepKeeps(s: System, event: Event)
    requires Inv(s) && Next(s, event).Some?
    ensures Inv(Next(s, event).value) && Covered(s, Next(s, event).value)
  {
    match event {
      case Try(id, now) => TryKeeps(s, id, now);
      case SetRate(bytesPerSecond, now) =>
        RefillIsCovered(s.bucket, now);
        IncomeIsNotNegative(s.bucket, now);
      case _ =>
    }
  }

  /** Over any run, with any rates and waiters: what was charged and what is left was allowed by the rates. */
  lemma {:induction false} RunsAreCovered(from: System, events: seq<Event>, to: System)
    requires Inv(from) && Leads(from, events, to)
    ensures Inv(to) && Covered(from, to)
    decreases |events|
  {
    if events != [] {
      hide Next, Inv;
      StepKeeps(from, events[0]);
      RunsAreCovered(Next(from, events[0]).value, events[1..], to);
    }
  }

  function Fresh(bytesPerSecond: int, now: real): System {
    System(WithRate(Bucket(0.0, 0.0, 0.0, now), bytesPerSecond), 0.0, 0.0, map[])
  }

  /** From an empty start, the bytes charged plus the tokens left never exceed what the rates allowed. */
  lemma ChargedWithinSupply(bytesPerSecond: int, start: real, events: seq<Event>, s: System)
    requires Leads(Fresh(bytesPerSecond, start), events, s)
    ensures 0.0 <= s.charged && s.charged + s.bucket.tokens <= s.supply
  {
    RunsAreCovered(Fresh(bytesPerSecond, start), events, s);
  }

  /** A waiter that was served has been charged exactly what it asked for; a waiting one no more than that. */
  lemma ServedPaysExactly(bytesPerSecond: int, start: real, events: seq<Event>, s: System, id: nat)
    requires Leads(Fresh(bytesPerSecond, start), events, s) && id in s.waiters
    ensures s.waiters[id].status == Served ==> s.waiters[id].paid == s.waiters[id].count
    ensures 0.0 <= s.waiters[id].paid <= s.waiters[id].count
  {
    RunsAreCovered(Fresh(bytesPerSecond, start), events, s);
  }

  predicate KeepsLimiting(events: seq<Event>) {
    forall i :: 0 <= i < |events| && events[i].SetRate? ==> 0 < events[i].bytesPerSecond
  }

  /** While the rate stays positive no waiter is let through uncharged, so every success was paid in full. */
  lemma {:induction false} NobodySlipsThrough(from: System, events: seq<Event>, to: System, id: nat)
    requires Inv(from) && 0.0 < from.bucket.rate && KeepsLimiting(events) && Leads(from, events, to)
    requires id in to.waiters && to.waiters[id].status == LetThrough
    ensures id in from.waiters && from.waiters[id].status == LetThrough
    decreases |events|
  {
    if events != [] {
      var next := Next(from, events[0]).value;
      StepKeeps(from, events[0]);
      StepLimits(from, events[0], id);
      assert forall i :: 0 <= i < |events[1..]| ==> events[1..][i] == events[i + 1];
      NobodySlipsThrough(next, events[1..], to, id);
    }
  }

  lemma StepLimits(s: System, event: Event, id: nat)
    requires Inv(s) && 0.0 < s.bucket.rate && Next(s, event).Some?
    requires event.SetRate? ==> 0 < event.bytesPerSecond
    ensures 0.0 < Next(s, event).value.bucket.rate
    ensures id in Next(s, event).value.waiters && Next(s, event).value.waiters[id].status == LetThrough ==>
              id in s.waiters && s.waiters[id].status == LetThrough
  {
    if event.Try? {
      AttemptIsCovered(s.bucket, s.waiters[event.id].remaining, event.now);
    }
  }

  /** No rate change, and a clock that never goes back. */
  ghost predicate Steady(last: real, events: seq<Event>)
    decreases |events|
  {
    events != [] ==>
      && !events[0].SetRate?
      && (if events[0].Try? then last <= events[0].now && Steady(events[0].now, events[1..])
          else Steady(last, events[1..]))
  }

  lemma {:induction false} SteadySupply(from: System, events: seq<Event>, to: System)
    requires Inv(from) && Leads(from, events, to) && Steady(from.bucket.last, events)
    ensures to.bucket.rate == from.bucket.rate && from.bucket.last <= to.bucket.last
    ensures to.supply - from.supply == from.bucket.rate * (to.bucket.last - from.bucket.last)
    decreases |events|
  {
    if events != [] {
      var next := Next(from, events[0]).value;
      StepKeeps(from, events[0]);
      if events[0].Try? {
        AttemptIsCovered(from.bucket, from.waiters[events[0].id].remaining, events[0].now);
        SteadySupply(next, events[1..], to);
        Distributes(from.bucket.rate, from.bucket.last, next.bucket.last, to.bucket.last);
      } else {
        SteadySupply(next, events[1..], to);
      }
    } else {
      assert from.bucket.rate * 0.0 == 0.0;
    }
  }

  lemma Distributes(rate: real, a: real, b: real, c: real)
    ensures rate * (b - a) + rate * (c - b) == rate * (c - a)
    ensures (b - a) * rate == rate * (b - a)
  {
  }

  /**
   At a fixed rate, over any interval and whatever the waiters do, at most a burst plus the rate times the interval is
   charged.
   */
  lemma FixedRateBound(from: System, events: seq<Event>, to: System)
    requires Inv(from) && 0.0 < from.bucket.rate && Leads(from, events, to) && Steady(from.bucket.last, events)
    ensures to.charged - from.charged
            <= (if from.bucket.rate < 65536.0 then 65536.0 else from.bucket.rate)
               + from.bucket.rate * (to.bucket.last - from.bucket.last)
  {
    RunsAreCovered(from, events, to);
    SteadySupply(from, events, to);
  }
}
