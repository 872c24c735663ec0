/** The bounded retry loop that getPoolAddress and queryAmountOut wrap around one RPC call.
    The RPC itself is abstracted as a total function from the attempt index ("shot") to the
    outcome of that attempt. */
module Retry {

  /** What one attempt of the RPC call produced: a value, the provider's rate-limit error
      (Util.isAlchemyExceedingError), or any other error. */
  datatype Outcome<T> = Ok(value: T) | RateLimited | Failed

  /** How the promise returned by the loop ends: resolved with the value of attempt `attempt`,
      rejected (with RejectionValue), or never settled because every attempt was rate-limited. */
  datatype Settlement<T> = Resolved(value: T, attempt: nat) | Rejected | Unsettled

  /** The wait before the next attempt: getPoolAddress sleeps Util.getAlchemyWaitingLongTime(),
      queryAmountOut sleeps Util.getAlchemyWaitingTime(). Durations are not modelled. */
  datatype Backoff = Short | Long

  /** Console diagnostics the loop emits. */
  datatype Notice =
    | GotItInShot(shotNumber: nat)  // success on a shot other than the first, numbered from 1
    | TryingAgain(shot: nat)        // rate-limited on shot > 2, about to wait
    | QueryError                    // a non-rate-limit error, about to reject

  /** The default of the `_times` parameter. */
  const DefaultTimes: nat := 10

  /** The payload passed to `reject`. */
  const RejectionValue: real := 0.0

  /** A pool address as returned by the factory's getPool call. */
  type Address = string

  ghost predicate AllRateLimited<T>(rpc: nat -> Outcome<T>, lo: nat, hi: nat)
  {
    forall j :: lo <= j < hi ==> rpc(j).RateLimited?
  }

  /** How a loop that has `times` attempts in all settles, starting from attempt `shot`. */
  function SettleFrom<T>(rpc: nat -> Outcome<T>, times: nat, shot: nat): Settlement<T>
    decreases times - shot
  {
    if times <= shot then Unsettled
    else match rpc(shot)
      case Ok(v) => Resolved(v, shot)
      case RateLimited => SettleFrom(rpc, times, shot + 1)
      case Failed => Rejected
  }

  /** How the promise of a loop with `times` attempts settles. */
  function Settle<T>(rpc: nat -> Outcome<T>, times: nat): Settlement<T>
  {
    SettleFrom(rpc, times, 0)
  }

  /** The loop never settles exactly when every attempt it makes is rate-limited. */
  lemma {:induction false} UnsettledIff<T>(rpc: nat -> Outcome<T>, times: nat, shot: nat)
    ensures SettleFrom(rpc, times, shot).Unsettled? <==> AllRateLimited(rpc, shot, times)
    decreases times - shot
  {
    if shot < times {
      if rpc(shot).RateLimited? {
        UnsettledIff(rpc, times, shot + 1);
      } else {
        assert !rpc(shot).RateLimited?;
      }
    }
  }

  /** The loop rejects exactly when some attempt within the budget fails with a
      non-rate-limit error and every attempt before it was rate-limited. */
  lemma {:induction false} RejectedIff<T>(rpc: nat -> Outcome<T>, times: nat, shot: nat)
    ensures SettleFrom(rpc, times, shot).Rejected? <==>
      exists k :: shot <= k < times && rpc(k).Failed? && AllRateLimited(rpc, shot, k)
    decreases times - shot
  {
    if shot < times {
      match rpc(shot)
      case Ok(_) =>
        forall k | shot <= k < times && rpc(k).Failed?
          ensures !AllRateLimited(rpc, shot, k)
        {
          assert !rpc(shot).RateLimited?;
        }
      case Failed =>
        assert AllRateLimited(rpc, shot, shot);
      case RateLimited =>
        RejectedIff(rpc, times, shot + 1);
        if k :| shot <= k < times && rpc(k).Failed? && AllRateLimited(rpc, shot, k) {
          assert shot + 1 <= k && AllRateLimited(rpc, shot + 1, k);
        }
        if k :| shot + 1 <= k < times && rpc(k).Failed? && AllRateLimited(rpc, shot + 1, k) {
          assert AllRateLimited(rpc, shot, k);
        }
    }
  }

  /** The loop resolves with `v` on attempt `k` exactly when attempt `k` is within the budget
      and returns `v`, and every attempt before it was rate-limited. */
  lemma {:induction false} ResolvedIff<T>(rpc: nat -> Outcome<T>, times: nat, shot: nat, v: T, k: nat)
    ensures SettleFrom(rpc, times, shot) == Resolved(v, k) <==>
      shot <= k < times && rpc(k) == Ok(v) && AllRateLimited(rpc, shot, k)
    decreases times - shot
  {
    if shot < times {
      match rpc(shot)
      case Ok(_) =>
        if shot < k { assert !rpc(shot).RateLimited?; }
      case Failed =>
        if shot < k { assert !rpc(shot).RateLimited?; }
      case RateLimited =>
        ResolvedIff(rpc, times, shot + 1, v, k);
        if shot <= k < times && rpc(k) == Ok(v) && AllRateLimited(rpc, shot, k) {
          assert shot + 1 <= k && AllRateLimited(rpc, shot + 1, k);
        }
    }
  }

  /** An operation that is rate-limited on its first two attempts and answers on the third
      resolves with that answer on attempt index 2. */
  lemma ThirdShotResolves(times: nat)
    requires 3 <= times
    ensures Settle((j: nat) => if j < 2 then RateLimited else Ok("0xpool"), times) == Resolved("0xpool", 2)
  {
    var rpc := (j: nat) => if j < 2 then RateLimited else Ok("0xpool");
    assert AllRateLimited(rpc, 0, 2);
    ResolvedIff(rpc, times, 0, "0xpool", 2);
  }

  /** The "trying again" notices of the rate-limited shots 0 .. n-1: one per shot above 2,
      in shot order. */
  function RetryNotices(n: nat): (r: seq<Notice>)
    ensures |r| == if n <= 3 then 0 else n - 3
  {
    if n <= 3 then [] else RetryNotices(n - 1) + [TryingAgain(n - 1)]
  }

  /** The notice logged by the attempt that settles the promise, if any. */
  function FinalNotice<T>(s: Settlement<T>): seq<Notice>
  {
    match s
    case Resolved(_, k) => if 0 < k then [GotItInShot(k + 1)] else []
    case Rejected => [QueryError]
    case Unsettled => []
  }

  /** The retry notices name exactly the shots above 2 and below n, and nothing else. */
  lemma {:induction false} RetryNoticesIff(n: nat)
    ensures forall k :: 0 <= k < |RetryNotices(n)| ==> RetryNotices(n)[k].TryingAgain?
    ensures forall j: nat :: TryingAgain(j) in RetryNotices(n) <==> 2 < j < n
  {
    if 3 < n {
      RetryNoticesIff(n - 1);
      var r := RetryNotices(n - 1) + [TryingAgain(n - 1)];
      assert RetryNotices(n) == r;
      forall j: nat ensures TryingAgain(j) in r <==> 2 < j < n {
        assert TryingAgain(j) in r <==> TryingAgain(j) in RetryNotices(n - 1) || j == n - 1;
      }
    }
  }

  /** What a run of the loop reports besides its settlement: how many attempts it made, the
      waits it slept and the notices it logged. */
  ghost predicate Reported<T>(rpc: nat -> Outcome<T>, times: nat, backoff: Backoff, s: Settlement<T>,
                              attempts: nat, waits: seq<Backoff>, notices: seq<Notice>)
  {
    // never more than the budget; no attempt after the one that settles the promise
    && attempts <= times
    && (s.Resolved? ==> attempts == s.attempt + 1)
    && (s.Rejected? ==> 0 < attempts && rpc(attempts - 1).Failed?)
    && (s.Unsettled? ==> attempts == times)
    // one wait per rate-limited attempt, and only for those
    && |waits| == (if s.Unsettled? then attempts else attempts - 1)
    && (forall j :: 0 <= j < |waits| ==> rpc(j).RateLimited? && waits[j] == backoff)
    // the notices, in the order they are logged (their meaning: NoticesMeaning)
    && notices == RetryNotices(|waits|) + FinalNotice(s)
  }

  /** Which notices a run logs: "trying again" for exactly the rate-limited shots above 2,
      the success notice only after a retry, numbered from 1, and the error notice exactly
      on rejection. */
  lemma NoticesMeaning<T>(s: Settlement<T>, n: nat)
    ensures var notices := RetryNotices(n) + FinalNotice(s);
      && (forall m :: GotItInShot(m) in notices <==> s.Resolved? && 0 < s.attempt && m == s.attempt + 1)
      && (QueryError in notices <==> s.Rejected?)
      && (forall j: nat :: TryingAgain(j) in notices <==> 2 < j < n)
  {
    RetryNoticesIff(n);
  }

  /** The `for (let shot in totalTimes)` loop of getPoolAddress and queryAmountOut. */
  method RetryLoop<T>(rpc: nat -> Outcome<T>, times: nat, backoff: Backoff)
    returns (s: Settlement<T>, attempts: nat, waits: seq<Backoff>, notices: seq<Notice>)
    ensures s == Settle(rpc, times)
    ensures Reported(rpc, times, backoff, s, attempts, waits, notices)
  {
    s, attempts, waits, notices := Unsettled, 0, [], [];
    var shot: nat := 0;
    while shot < times
      invariant shot <= times
      invariant s == Unsettled && attempts == shot && |waits| == shot
      invariant Settle(rpc, times) == SettleFrom(rpc, times, shot)
      invariant forall j :: 0 <= j < shot ==> rpc(j).RateLimited? && waits[j] == backoff
      invariant notices == RetryNotices(shot)
    {
      attempts := attempts + 1;
      match rpc(shot) {
        case Ok(v) =>
          if shot > 0 {
            notices := notices + [GotItInShot(shot + 1)];
          }
          s := Resolved(v, shot);
          assert notices == RetryNotices(|waits|) + FinalNotice(s);
          break;
        case RateLimited =>
          if shot > 2 {
            notices := notices + [TryingAgain(shot)];
          }
          assert notices == RetryNotices(shot + 1);
          waits := waits + [backoff];
        case Failed =>
          notices := notices + [QueryError];
          s := Rejected;
          assert notices == RetryNotices(|waits|) + FinalNotice(s);
          break;
      }
      shot := shot + 1;
    }
  }

  /** getPoolAddress: the retry loop around the factory's getPool call, waiting the long
      backoff after a rate-limit error. */
  method GetPoolAddress(lookup: nat -> Outcome<Address>, times: nat)
    returns (pool: Settlement<Address>, attempts: nat, waits: seq<Backoff>, notices: seq<Notice>)
    ensures pool == Settle(lookup, times)
    ensures Reported(lookup, times, Long, pool, attempts, waits, notices)
  {
    pool, attempts, waits, notices := RetryLoop(lookup, times, Long);
  }

  /** queryAmountOut: the retry loop around the quoter's quoteExactInputSingle call, waiting
      the short backoff after a rate-limit error. */
  method QueryAmountOut(quote: nat -> Outcome<real>, times: nat)
    returns (amountOut: Settlement<real>, attempts: nat, waits: seq<Backoff>, notices: seq<Notice>)
    ensures amountOut == Settle(quote, times)
    ensures Reported(quote, times, Short, amountOut, attempts, waits, notices)
  {
    amountOut, attempts, waits, notices := RetryLoop(quote, times, Short);
  }
}
