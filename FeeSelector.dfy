/** queryFeeOfBestRoute: walk the chain's configured fee tiers in order, skip the blacklisted
    ones, look up each remaining tier's pool, quote the tiers that have one, blacklist the
    tiers whose lookup or quote fails, and keep the first tier with the greatest quote. */
module FeeSelector {
  import opened Blacklist
  import opened Retry

  datatype Option<T> = None | Some(value: T)

  /** What a pass works against: the pair's symbols (the blacklist keys), the two RPC
      calls, per fee tier, as functions from attempt index to outcome, and the attempt budget
      of each retry loop.  The quoter address, the input amount and the token addresses and
      decimals are fixed for the pass and are folded into `quoter`. */
  datatype Env = Env(
    inSymbol: string,
    outSymbol: string,
    lookup: Fee -> nat -> Outcome<Address>,
    quoter: Fee -> nat -> Outcome<real>,
    times: nat)

  /** What `{bestFee, updatedBlacklist}` the pass returns, or Pending when one of its awaited
      retry loops never settles and the pass never returns. */
  datatype Route = Returned(bestFee: Fee, updatedBlacklist: seq<Entry>) | Pending

  /** How probing one tier turns out, when it is probed. */
  datatype Tier =
    | LookupStalled              // getPoolAddress never settles
    | LookupRejected             // getPoolAddress rejects
    | NoPool                     // the address is falsy or the zero address
    | QuoteStalled               // queryAmountOut never settles
    | QuoteRejected              // queryAmountOut rejects
    | Quoted(amount: real)       // queryAmountOut resolves with `amount`
  {
    /** The tier gets blacklisted. */
    predicate Fails() { LookupRejected? || NoPool? || QuoteRejected? }
    /** The pass hangs on this tier. */
    predicate Stalls() { LookupStalled? || QuoteStalled? }
    /** A quote is requested for this tier. */
    predicate PoolFound() { QuoteStalled? || QuoteRejected? || Quoted? }
  }

  /** The literal zero address the looked-up pool is compared against. */
  const ZeroAddress: string := "0x0000000000000000000000000000000000000000"

  /** A usable pool: truthy (non-empty) and not the zero-address sentinel. */
  predicate IsPool(address: Address)
  {
    address != "" && address != ZeroAddress
  }

  /** The outcome of probing tier `fee`. */
  function TierOf(env: Env, fee: Fee): Tier
  {
    match Settle(env.lookup(fee), env.times)
    case Unsettled => LookupStalled
    case Rejected => LookupRejected
    case Resolved(address, _) =>
      if !IsPool(address) then NoPool
      else match Settle(env.quoter(fee), env.times)
        case Unsettled => QuoteStalled
        case Rejected => QuoteRejected
        case Resolved(amount, _) => Quoted(amount)
  }

  /** A missing blacklist is treated as an empty one. */
  function OrEmpty(blacklist: Option<seq<Entry>>): seq<Entry>
  {
    if blacklist.None? then [] else blacklist.value
  }

  /** The loop's variables after some tiers: the running best, the blacklist, the fees whose
      pool was looked up and whose quote was requested, and whether an await never returned. */
  datatype Scan = Scan(
    bestFee: Fee,
    bestAmount: real,
    blacklist: seq<Entry>,
    lookups: seq<Fee>,
    quotes: seq<Fee>,
    stalled: bool)

  function Start(blacklist: seq<Entry>): Scan
  {
    Scan(0.0, 0.0, blacklist, [], [], false)
  }

  /** The `.finally` step: replace the best only on a strictly greater amount. */
  function Improve(s: Scan, fee: Fee, amount: real): Scan
  {
    if amount > s.bestAmount then s.(bestFee := fee, bestAmount := amount) else s
  }

  /** One iteration of the `for (let fee of possibleFees)` loop. */
  function Step(env: Env, s: Scan, fee: Fee): Scan
  {
    if IsBlacklisted(s.blacklist, env.inSymbol, env.outSymbol, fee) then s
    else
      var looked := s.(lookups := s.lookups + [fee]);
      var failed := looked.(blacklist := Add(s.blacklist, env.inSymbol, env.outSymbol, fee));
      match TierOf(env, fee)
      case LookupStalled => looked.(stalled := true)
      case LookupRejected => failed
      case NoPool => failed
      case QuoteStalled => looked.(quotes := s.quotes + [fee], stalled := true)
      case QuoteRejected => Improve(failed.(quotes := s.quotes + [fee]), fee, RejectionValue)
      case Quoted(amount) => Improve(looked.(quotes := s.quotes + [fee]), fee, amount)
  }

  /** The loop over the remaining tiers, stopping at the first await that never returns. */
  function Run(env: Env, fees: seq<Fee>, s: Scan): Scan
    decreases |fees|
  {
    if s.stalled || fees == [] then s else Run(env, fees[1..], Step(env, s, fees[0]))
  }

  // ---------------------------------------------------------------------------------------
  // The reference description of a pass, in terms of the configured fees and the blacklist
  // the caller passed in.

  /** A tier the pass may probe: its triple is not in the caller's blacklist. */
  ghost predicate Eligible(env: Env, bl0: seq<Entry>, fee: Fee)
  {
    !IsBlacklisted(bl0, env.inSymbol, env.outSymbol, fee)
  }

  /** A tier whose quote the pass obtains. */
  ghost predicate Valued(env: Env, bl0: seq<Entry>, fee: Fee)
  {
    Eligible(env, bl0, fee) && TierOf(env, fee).Quoted?
  }

  /** Tier `i` quotes a positive amount that no tier exceeds and that every earlier tier
      falls short of. */
  ghost predicate IsFirstMaximum(env: Env, bl0: seq<Entry>, fees: seq<Fee>, i: int)
  {
    && 0 <= i < |fees| && Valued(env, bl0, fees[i])
    && 0.0 < TierOf(env, fees[i]).amount
    && (forall j :: 0 <= j < |fees| && Valued(env, bl0, fees[j]) ==>
          TierOf(env, fees[j]).amount <= TierOf(env, fees[i]).amount)
    && (forall j :: 0 <= j < i && Valued(env, bl0, fees[j]) ==>
          TierOf(env, fees[j]).amount < TierOf(env, fees[i]).amount)
  }

  /** `bestFee` is 0 when no tier quotes a positive amount; otherwise it is the fee of the
      first tier, in configured order, whose quote is the greatest. */
  ghost predicate FirstBest(env: Env, bl0: seq<Entry>, fees: seq<Fee>, bestFee: Fee)
  {
    if forall j :: 0 <= j < |fees| && Valued(env, bl0, fees[j]) ==> TierOf(env, fees[j]).amount <= 0.0
    then bestFee == 0.0
    else exists i :: IsFirstMaximum(env, bl0, fees, i) && fees[i] == bestFee
  }

  /** An entry the pass itself added: the pair's triple for a processed eligible tier that failed. */
  ghost predicate AddedFor(env: Env, bl0: seq<Entry>, done: seq<Fee>, e: Entry)
  {
    e.inSymbol == env.inSymbol && e.outSymbol == env.outSymbol && e.fee in done
    && Eligible(env, bl0, e.fee) && TierOf(env, e.fee).Fails()
  }

  /** The blacklist after the tiers `done`: the caller's entries, then one new entry per
      eligible failing tier, never one already present. */
  ghost predicate BlacklistAfter(env: Env, bl0: seq<Entry>, done: seq<Fee>, blacklist: seq<Entry>)
  {
    && |bl0| <= |blacklist| && blacklist[..|bl0|] == bl0
    && (forall k :: |bl0| <= k < |blacklist| ==> AddedFor(env, bl0, done, blacklist[k]))
    && (forall k, k' :: |bl0| <= k < k' < |blacklist| ==> blacklist[k] != blacklist[k'])
    && (forall f :: f in done && Eligible(env, bl0, f) && TierOf(env, f).Fails() ==>
          IsBlacklisted(blacklist, env.inSymbol, env.outSymbol, f))
  }

  /** The RPC calls issued for the tiers `done`: a lookup for each eligible tier and a quote
      for each eligible tier that has a pool. */
  ghost predicate CallsAfter(env: Env, bl0: seq<Entry>, done: seq<Fee>, s: Scan)
  {
    && (forall f :: f in s.lookups <==> f in done && Eligible(env, bl0, f))
    && (forall f :: f in s.quotes <==> f in done && Eligible(env, bl0, f) && TierOf(env, f).PoolFound())
    && (s.stalled <==> exists f :: f in done && Eligible(env, bl0, f) && TierOf(env, f).Stalls())
  }

  /** Tier `i` of `done` holds the running best, and no earlier tier reached it. */
  ghost predicate BestAt(env: Env, bl0: seq<Entry>, done: seq<Fee>, i: int, bestFee: Fee, bestAmount: real)
  {
    && 0 <= i < |done| && done[i] == bestFee && Valued(env, bl0, done[i])
    && TierOf(env, done[i]).amount == bestAmount
    && forall j :: 0 <= j < i && Valued(env, bl0, done[j]) ==> TierOf(env, done[j]).amount < bestAmount
  }

  /** The running best after the tiers `done`. */
  ghost predicate BestAfter(env: Env, bl0: seq<Entry>, done: seq<Fee>, bestFee: Fee, bestAmount: real)
  {
    && 0.0 <= bestAmount
    && (bestAmount == 0.0 ==> bestFee == 0.0)
    && (forall j :: 0 <= j < |done| && Valued(env, bl0, done[j]) ==> TierOf(env, done[j]).amount <= bestAmount)
    && (0.0 < bestAmount ==> exists i :: BestAt(env, bl0, done, i, bestFee, bestAmount))
  }

  ghost predicate Inv(env: Env, bl0: seq<Entry>, done: seq<Fee>, s: Scan)
  {
    BlacklistAfter(env, bl0, done, s.blacklist) && CallsAfter(env, bl0, done, s)
    && BestAfter(env, bl0, done, s.bestFee, s.bestAmount)
  }

  /** A tier the current blacklist skips is either in the caller's blacklist or failed earlier. */
  lemma SkippedMeans(env: Env, bl0: seq<Entry>, done: seq<Fee>, blacklist: seq<Entry>, fee: Fee)
    requires BlacklistAfter(env, bl0, done, blacklist)
    requires IsBlacklisted(blacklist, env.inSymbol, env.outSymbol, fee)
    ensures !Eligible(env, bl0, fee) || (fee in done && TierOf(env, fee).Fails())
  {
    var e := Entry(env.inSymbol, env.outSymbol, fee);
    var k :| 0 <= k < |blacklist| && blacklist[k] == e;
    if k < |bl0| {
      assert bl0[k] == blacklist[..|bl0|][k] == e;
    } else {
      assert AddedFor(env, bl0, done, blacklist[k]);
    }
  }

  /** Every entry the caller passed in is still blacklisted. */
  lemma CallerEntriesKept(env: Env, bl0: seq<Entry>, done: seq<Fee>, blacklist: seq<Entry>, fee: Fee)
    requires BlacklistAfter(env, bl0, done, blacklist)
    requires !Eligible(env, bl0, fee)
    ensures IsBlacklisted(blacklist, env.inSymbol, env.outSymbol, fee)
  {
    var e := Entry(env.inSymbol, env.outSymbol, fee);
    var k :| 0 <= k < |bl0| && bl0[k] == e;
    assert blacklist[..|bl0|][k] == e;
  }

  /** The blacklist after one more tier: extended by the tier's triple exactly when the tier
      is probed and fails. */
  function NextBlacklist(env: Env, blacklist: seq<Entry>, fee: Fee): seq<Entry>
  {
    if !IsBlacklisted(blacklist, env.inSymbol, env.outSymbol, fee) && TierOf(env, fee).Fails()
    then Add(blacklist, env.inSymbol, env.outSymbol, fee)
    else blacklist
  }

  lemma AppendFailed(env: Env, bl0: seq<Entry>, done: seq<Fee>, bl: seq<Entry>, fee: Fee)
    requires BlacklistAfter(env, bl0, done, bl)
    requires !IsBlacklisted(bl, env.inSymbol, env.outSymbol, fee) && TierOf(env, fee).Fails()
    ensures BlacklistAfter(env, bl0, done + [fee], Add(bl, env.inSymbol, env.outSymbol, fee))
  {
    var done' := done + [fee];
    var e := Entry(env.inSymbol, env.outSymbol, fee);
    var bl' := bl + [e];
    assert forall f :: f in done ==> f in done';
    if !Eligible(env, bl0, fee) {
      CallerEntriesKept(env, bl0, done, bl, fee);
    }
    assert bl'[..|bl0|] == bl[..|bl0|];
    forall k | |bl0| <= k < |bl'| ensures AddedFor(env, bl0, done', bl'[k]) {
      if k < |bl| {
        assert AddedFor(env, bl0, done, bl[k]);
      }
    }
    forall k, k' | |bl0| <= k < k' < |bl'| ensures bl'[k] != bl'[k'] {
      if k' == |bl| {
        assert bl'[k] == bl[k];
      }
    }
  }

  lemma StepBlacklist(env: Env, bl0: seq<Entry>, done: seq<Fee>, bl: seq<Entry>, fee: Fee)
    requires BlacklistAfter(env, bl0, done, bl)
    ensures BlacklistAfter(env, bl0, done + [fee], NextBlacklist(env, bl, fee))
  {
    if IsBlacklisted(bl, env.inSymbol, env.outSymbol, fee) {
      SkippedMeans(env, bl0, done, bl, fee);
      forall k | |bl0| <= k < |bl| ensures AddedFor(env, bl0, done + [fee], bl[k]) {
        assert AddedFor(env, bl0, done, bl[k]);
      }
    } else if TierOf(env, fee).Fails() {
      AppendFailed(env, bl0, done, bl, fee);
    } else {
      forall k | |bl0| <= k < |bl| ensures AddedFor(env, bl0, done + [fee], bl[k]) {
        assert AddedFor(env, bl0, done, bl[k]);
      }
    }
  }

  /** What one turn of the loop does to each of the loop's variables. */
  lemma StepShape(env: Env, s: Scan, fee: Fee)
    requires !s.stalled && 0.0 <= s.bestAmount
    ensures var skip := IsBlacklisted(s.blacklist, env.inSymbol, env.outSymbol, fee);
      var t := TierOf(env, fee);
      var next := Step(env, s, fee);
      && next.lookups == (if skip then s.lookups else s.lookups + [fee])
      && next.quotes == (if !skip && t.PoolFound() then s.quotes + [fee] else s.quotes)
      && next.stalled == (!skip && t.Stalls())
      && next.blacklist == NextBlacklist(env, s.blacklist, fee)
      && (if !skip && t.Quoted? && t.amount > s.bestAmount
          then next.bestFee == fee && next.bestAmount == t.amount
          else next.bestFee == s.bestFee && next.bestAmount == s.bestAmount)
  {
    RejectedQuoteKeepsBest(s, fee);
  }

  lemma StepCalls(env: Env, bl0: seq<Entry>, done: seq<Fee>, s: Scan, fee: Fee, next: Scan)
    requires BlacklistAfter(env, bl0, done, s.blacklist) && CallsAfter(env, bl0, done, s) && !s.stalled
    requires var skip := IsBlacklisted(s.blacklist, env.inSymbol, env.outSymbol, fee);
      && next.lookups == (if skip then s.lookups else s.lookups + [fee])
      && next.quotes == (if !skip && TierOf(env, fee).PoolFound() then s.quotes + [fee] else s.quotes)
      && next.stalled == (!skip && TierOf(env, fee).Stalls())
    ensures CallsAfter(env, bl0, done + [fee], next)
  {
    if IsBlacklisted(s.blacklist, env.inSymbol, env.outSymbol, fee) {
      SkippedMeans(env, bl0, done, s.blacklist, fee);
    } else if !Eligible(env, bl0, fee) {
      CallerEntriesKept(env, bl0, done, s.blacklist, fee);
    }
  }

  lemma StepBest(env: Env, bl0: seq<Entry>, done: seq<Fee>, s: Scan, fee: Fee, next: Scan)
    requires BlacklistAfter(env, bl0, done, s.blacklist) && BestAfter(env, bl0, done, s.bestFee, s.bestAmount)
    requires var t := TierOf(env, fee);
      if !IsBlacklisted(s.blacklist, env.inSymbol, env.outSymbol, fee) && t.Quoted? && t.amount > s.bestAmount
      then next.bestFee == fee && next.bestAmount == t.amount
      else next.bestFee == s.bestFee && next.bestAmount == s.bestAmount
    ensures BestAfter(env, bl0, done + [fee], next.bestFee, next.bestAmount)
  {
    var done' := done + [fee];
    var n := |done|;
    assert done'[n] == fee;
    assert forall j :: 0 <= j < n ==> done'[j] == done[j];
    var improved := !IsBlacklisted(s.blacklist, env.inSymbol, env.outSymbol, fee)
      && TierOf(env, fee).Quoted? && TierOf(env, fee).amount > s.bestAmount;
    if IsBlacklisted(s.blacklist, env.inSymbol, env.outSymbol, fee) {
      SkippedMeans(env, bl0, done, s.blacklist, fee);
    } else if !Eligible(env, bl0, fee) {
      CallerEntriesKept(env, bl0, done, s.blacklist, fee);
    }
    if improved {
      assert BestAt(env, bl0, done', n, next.bestFee, next.bestAmount);
    } else {
      assert !Valued(env, bl0, fee) || TierOf(env, fee).amount <= s.bestAmount;
      if 0.0 < s.bestAmount {
        var i :| BestAt(env, bl0, done, i, s.bestFee, s.bestAmount);
        assert BestAt(env, bl0, done', i, next.bestFee, next.bestAmount);
      }
    }
  }

  lemma StepInv(env: Env, bl0: seq<Entry>, done: seq<Fee>, s: Scan, fee: Fee, done': seq<Fee>)
    requires Inv(env, bl0, done, s) && !s.stalled && done' == done + [fee]
    ensures Inv(env, bl0, done', Step(env, s, fee))
  {
    var next := Step(env, s, fee);
    StepShape(env, s, fee);
    StepBlacklist(env, bl0, done, s.blacklist, fee);
    StepCalls(env, bl0, done, s, fee, next);
    StepBest(env, bl0, done, s, fee, next);
  }

  /** One more turn of the loop over `fees[i..]`. */
  lemma RunFrom(env: Env, fees: seq<Fee>, i: nat, s: Scan)
    requires i < |fees| && !s.stalled
    ensures Run(env, fees[i..], s) == Run(env, fees[i + 1..], Step(env, s, fees[i]))
    ensures Step(env, s, fees[i]).stalled ==> Run(env, fees[i + 1..], Step(env, s, fees[i])) == Step(env, s, fees[i])
  {
    assert fees[i..][1..] == fees[i + 1..];
  }

  /** One turn of the loop keeps the invariant, over one more configured tier. */
  lemma AdvanceInv(env: Env, bl0: seq<Entry>, fees: seq<Fee>, i: nat, s: Scan)
    requires i < |fees| && !s.stalled && Inv(env, bl0, fees[..i], s)
    ensures Inv(env, bl0, fees[..i + 1], Step(env, s, fees[i]))
  {
    assert fees[..i + 1] == fees[..i] + [fees[i]];
    StepInv(env, bl0, fees[..i], s, fees[i], fees[..i + 1]);
  }

  lemma StartInv(env: Env, bl0: seq<Entry>)
    ensures Inv(env, bl0, [], Start(bl0))
  {
    assert bl0[..|bl0|] == bl0;
  }

  /** The whole pass, from the caller's blacklist: the tiers it got through are a prefix of
      the configured fees, all of them unless it stalled. */
  lemma PassInv(env: Env, bl0: seq<Entry>, fees: seq<Fee>) returns (done: seq<Fee>)
    ensures Inv(env, bl0, done, Run(env, fees, Start(bl0)))
    ensures forall f :: f in done ==> f in fees
    ensures !Run(env, fees, Start(bl0)).stalled ==> done == fees
  {
    StartInv(env, bl0);
    var s := Start(bl0);
    var i := 0;
    while i < |fees| && !s.stalled
      invariant i <= |fees| && Inv(env, bl0, fees[..i], s)
      invariant Run(env, fees, Start(bl0)) == Run(env, fees[i..], s)
    {
      RunFrom(env, fees, i, s);
      AdvanceInv(env, bl0, fees, i, s);
      s := Step(env, s, fees[i]);
      i := i + 1;
    }
    done := fees[..i];
    assert i == |fees| ==> done == fees && fees[i..] == [];
  }

  // ---------------------------------------------------------------------------------------
  // What a pass guarantees.

  /** No pool lookup and no quote is issued for a tier whose triple the caller blacklisted;
      a quote only follows a lookup that found a pool.  When the pass returns, every
      eligible tier was looked up. */
  lemma NoCallsForBlacklisted(env: Env, bl0: seq<Entry>, fees: seq<Fee>)
    ensures var fin := Run(env, fees, Start(bl0));
      && (forall f :: f in fin.lookups ==> f in fees && Eligible(env, bl0, f))
      && (forall f :: f in fin.quotes ==> f in fin.lookups && TierOf(env, f).PoolFound())
      && (!fin.stalled ==> forall f :: f in fees && Eligible(env, bl0, f) ==> f in fin.lookups)
  {
    var done := PassInv(env, bl0, fees);
  }

  /** One turn of the loop issues at most one lookup, for its own tier, and a quote only
      together with that lookup. */
  lemma StepCallCounts(env: Env, s: Scan, fee: Fee)
    ensures var next := Step(env, s, fee);
      || (next.lookups == s.lookups && next.quotes == s.quotes)
      || (next.lookups == s.lookups + [fee] && (next.quotes == s.quotes || next.quotes == s.quotes + [fee]))
  {
  }

  /** Counting calls over the remaining tiers: at most one lookup per remaining tier, and
      never more quotes of a fee than lookups of it. */
  lemma {:induction false} RunCallCounts(env: Env, fees: seq<Fee>, s: Scan)
    requires multiset(s.quotes) <= multiset(s.lookups)
    ensures var fin := Run(env, fees, s);
      && multiset(fin.lookups) <= multiset(s.lookups) + multiset(fees)
      && multiset(fin.quotes) <= multiset(fin.lookups)
    decreases |fees|
  {
    if !s.stalled && fees != [] {
      var next := Step(env, s, fees[0]);
      StepCallCounts(env, s, fees[0]);
      RunCallCounts(env, fees[1..], next);
      RunFrom(env, fees, 0, s);
      assert fees[0..] == fees;
      assert multiset(fees) == multiset([fees[0]]) + multiset(fees[1..]) by {
        assert fees == [fees[0]] + fees[1..];
      }
    }
  }

  /** Each configured tier is looked up at most once per occurrence in the configuration,
      and quoted at most as often as it is looked up. */
  lemma AtMostOneCallPerTier(env: Env, bl0: seq<Entry>, fees: seq<Fee>)
    ensures var fin := Run(env, fees, Start(bl0));
      multiset(fin.lookups) <= multiset(fees) && multiset(fin.quotes) <= multiset(fin.lookups)
  {
    RunCallCounts(env, fees, Start(bl0));
  }

  /** The pass hangs exactly when some tier not in the caller's blacklist has a retry loop
      that never settles. */
  lemma PendingIffStall(env: Env, bl0: seq<Entry>, fees: seq<Fee>)
    ensures Run(env, fees, Start(bl0)).stalled <==>
      exists f :: f in fees && Eligible(env, bl0, f) && TierOf(env, f).Stalls()
  {
    var done := PassInv(env, bl0, fees);
  }

  /** The returned blacklist is the caller's, extended (at its end, without repeats) by the
      triples of exactly the configured tiers that failed in this pass. */
  lemma BlacklistGrowth(env: Env, bl0: seq<Entry>, fees: seq<Fee>)
    requires !Run(env, fees, Start(bl0)).stalled
    ensures var bl := Run(env, fees, Start(bl0)).blacklist;
      && |bl0| <= |bl| && bl[..|bl0|] == bl0
      && (forall k, k' :: |bl0| <= k < k' < |bl| ==> bl[k] != bl[k'])
      && (forall k :: |bl0| <= k < |bl| ==> bl[k] !in bl0)
      && (forall a, b, f :: IsBlacklisted(bl, a, b, f) <==>
            IsBlacklisted(bl0, a, b, f)
            || (a == env.inSymbol && b == env.outSymbol && f in fees && TierOf(env, f).Fails()))
  {
    var done := PassInv(env, bl0, fees);
    var fin := Run(env, fees, Start(bl0));
    assert BlacklistAfter(env, bl0, fees, fin.blacklist);
    forall k | |bl0| <= k < |fin.blacklist| ensures fin.blacklist[k] !in bl0 {
      assert AddedFor(env, bl0, fees, fin.blacklist[k]);
    }
    forall a, b, f
      ensures IsBlacklisted(fin.blacklist, a, b, f) <==>
        IsBlacklisted(bl0, a, b, f)
        || (a == env.inSymbol && b == env.outSymbol && f in fees && TierOf(env, f).Fails())
    {
      var e := Entry(a, b, f);
      if e in fin.blacklist {
        var k :| 0 <= k < |fin.blacklist| && fin.blacklist[k] == e;
        if k < |bl0| {
          assert bl0[k] == fin.blacklist[..|bl0|][k];
        } else {
          assert AddedFor(env, bl0, fees, fin.blacklist[k]);
        }
      }
      if e in bl0 {
        var k :| 0 <= k < |bl0| && bl0[k] == e;
        assert fin.blacklist[..|bl0|][k] == e;
      }
    }
  }

  /** The returned fee is the first configured tier attaining the greatest positive quote,
      or 0 when no tier quoted a positive amount. */
  lemma BestIsFirstMaximum(env: Env, bl0: seq<Entry>, fees: seq<Fee>)
    requires !Run(env, fees, Start(bl0)).stalled
    ensures FirstBest(env, bl0, fees, Run(env, fees, Start(bl0)).bestFee)
  {
    var done := PassInv(env, bl0, fees);
    var fin := Run(env, fees, Start(bl0));
    assert BestAfter(env, bl0, fees, fin.bestFee, fin.bestAmount);
    if 0.0 < fin.bestAmount {
      var i :| BestAt(env, bl0, fees, i, fin.bestFee, fin.bestAmount);
      assert IsFirstMaximum(env, bl0, fees, i);
      assert !(forall j :: 0 <= j < |fees| && Valued(env, bl0, fees[j]) ==> TierOf(env, fees[j]).amount <= 0.0);
    }
  }

  /** FirstBest pins the fee down: it is a complete description of the returned fee. */
  lemma FirstBestUnique(env: Env, bl0: seq<Entry>, fees: seq<Fee>, a: Fee, b: Fee)
    requires FirstBest(env, bl0, fees, a) && FirstBest(env, bl0, fees, b)
    ensures a == b
  {
    if !forall j :: 0 <= j < |fees| && Valued(env, bl0, fees[j]) ==> TierOf(env, fees[j]).amount <= 0.0 {
      var i :| IsFirstMaximum(env, bl0, fees, i) && fees[i] == a;
      var i' :| IsFirstMaximum(env, bl0, fees, i') && fees[i'] == b;
      assert i == i';
    }
  }

  /** Two eligible tiers that both quote, 100 then 150: the pass returns and picks the second. */
  lemma SecondTierWins(env: Env, bl0: seq<Entry>, t1: Fee, t2: Fee)
    requires t1 != t2 && Eligible(env, bl0, t1) && Eligible(env, bl0, t2)
    requires TierOf(env, t1) == Quoted(100.0) && TierOf(env, t2) == Quoted(150.0)
    ensures !Run(env, [t1, t2], Start(bl0)).stalled
    ensures Run(env, [t1, t2], Start(bl0)).bestFee == t2
  {
    var fees := [t1, t2];
    PendingIffStall(env, bl0, fees);
    BestIsFirstMaximum(env, bl0, fees);
    assert IsFirstMaximum(env, bl0, fees, 1);
    assert FirstBest(env, bl0, fees, t2);
    FirstBestUnique(env, bl0, fees, t2, Run(env, fees, Start(bl0)).bestFee);
  }

  /** When no configured tier has a pool, the pass returns fee 0 and a blacklist that
      holds the triple of every configured tier. */
  lemma NoPoolAnywhere(env: Env, bl0: seq<Entry>, fees: seq<Fee>)
    requires forall f :: f in fees ==> TierOf(env, f) == NoPool
    ensures !Run(env, fees, Start(bl0)).stalled
    ensures Run(env, fees, Start(bl0)).bestFee == 0.0
    ensures forall f :: f in fees ==>
      IsBlacklisted(Run(env, fees, Start(bl0)).blacklist, env.inSymbol, env.outSymbol, f)
  {
    PendingIffStall(env, bl0, fees);
    BestIsFirstMaximum(env, bl0, fees);
    BlacklistGrowth(env, bl0, fees);
  }

  /** A rejected quote never moves the best: the running best is never negative. */
  lemma RejectedQuoteKeepsBest(s: Scan, fee: Fee)
    requires 0.0 <= s.bestAmount
    ensures Improve(s, fee, RejectionValue) == s
  {
  }

  // ---------------------------------------------------------------------------------------

  /** One turn of the `for (let fee of possibleFees)` loop of queryFeeOfBestRoute, on the
      loop's variables gathered in a Scan: skip a blacklisted tier; otherwise await
      getPoolAddress, blacklist the tier on a rejection or an unusable address, else await
      queryAmountOut, blacklist the tier and take 0.0 on a rejection, and keep the amount when
      it beats the best so far.  `stalled` is set when an awaited promise never settles. */
  method ProbeTier(env: Env, s: Scan, fee: Fee) returns (next: Scan)
    requires !s.stalled
    ensures next == Step(env, s, fee)
  {
    next := s;
    if !IsBlacklisted(s.blacklist, env.inSymbol, env.outSymbol, fee) {
      next := next.(lookups := next.lookups + [fee]);
      var pool, _, _, _ := GetPoolAddress(env.lookup(fee), env.times);
      match pool {
        case Unsettled =>
          // the await never returns
          next := next.(stalled := true);
        case Rejected =>
          next := next.(blacklist := Add(next.blacklist, env.inSymbol, env.outSymbol, fee));
        case Resolved(address, _) =>
          if IsPool(address) {
            next := next.(quotes := next.quotes + [fee]);
            var amountOut, _, _, _ := QueryAmountOut(env.quoter(fee), env.times);
            var currentAmountOut: real := 0.0;
            match amountOut {
              case Unsettled =>
                next := next.(stalled := true);
                return;
              case Resolved(amount, _) =>
                currentAmountOut := amount;
              case Rejected =>
                currentAmountOut := RejectionValue;
                next := next.(blacklist := Add(next.blacklist, env.inSymbol, env.outSymbol, fee));
            }
            if currentAmountOut > next.bestAmount {
              next := next.(bestFee := fee, bestAmount := currentAmountOut);
            }
          } else {
            next := next.(blacklist := Add(next.blacklist, env.inSymbol, env.outSymbol, fee));
          }
      }
    }
  }

  /** queryFeeOfBestRoute.  `lookups` and `quotes` list, in order, the fees for which
      getPoolAddress and queryAmountOut were called. */
  method QueryFeeOfBestRoute(env: Env, fees: seq<Fee>, blacklist: Option<seq<Entry>>)
    returns (r: Route, lookups: seq<Fee>, quotes: seq<Fee>)
    requires env.times == DefaultTimes
    ensures var fin := Run(env, fees, Start(OrEmpty(blacklist)));
      && (r == if fin.stalled then Pending else Returned(fin.bestFee, fin.blacklist))
      && lookups == fin.lookups && quotes == fin.quotes
    ensures forall f :: f in lookups ==> f in fees && Eligible(env, OrEmpty(blacklist), f)
    ensures forall f :: f in quotes ==> f in lookups && TierOf(env, f).PoolFound()
    ensures multiset(lookups) <= multiset(fees) && multiset(quotes) <= multiset(lookups)
    ensures r.Pending? <==> exists f :: f in fees && Eligible(env, OrEmpty(blacklist), f) && TierOf(env, f).Stalls()
    ensures r.Returned? ==> FirstBest(env, OrEmpty(blacklist), fees, r.bestFee)
    ensures r.Returned? ==> forall f :: IsBlacklisted(r.updatedBlacklist, env.inSymbol, env.outSymbol, f) <==>
      !Eligible(env, OrEmpty(blacklist), f) || (f in fees && TierOf(env, f).Fails())
  {
    // a missing blacklist is replaced by an empty one; best fee and amount start at 0
    var scan := Start(OrEmpty(blacklist));
    var i := 0;
    while i < |fees| && !scan.stalled
      invariant 0 <= i <= |fees|
      invariant Run(env, fees, Start(OrEmpty(blacklist))) == Run(env, fees[i..], scan)
    {
      RunFrom(env, fees, i, scan);
      scan := ProbeTier(env, scan, fees[i]);
      i := i + 1;
    }
    assert !scan.stalled ==> fees[i..] == [];
    r := if scan.stalled then Pending else Returned(scan.bestFee, scan.blacklist);
    lookups, quotes := scan.lookups, scan.quotes;

    var bl0 := OrEmpty(blacklist);
    NoCallsForBlacklisted(env, bl0, fees);
    AtMostOneCallPerTier(env, bl0, fees);
    PendingIffStall(env, bl0, fees);
    if !scan.stalled {
      BestIsFirstMaximum(env, bl0, fees);
      BlacklistGrowth(env, bl0, fees);
    }
  }
}
