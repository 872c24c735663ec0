# Uniswap V3 fee-tier discovery, modelled in Dafny

This project models the resilient fee-tier discovery of `UniswapV3ops.js`. It has two parts:

- the **bounded retry loop** that `getPoolAddress` and `queryAmountOut` wrap around one RPC
  call. Each attempt succeeds, hits the provider's rate limit, or fails in some other way.
  Success resolves the promise and stops. A rate-limit error sleeps and goes on to the next
  attempt. Any other error rejects with `0.0` and stops. When every attempt is rate-limited,
  the loop ends and the promise never settles;
- **`queryFeeOfBestRoute`**, which walks the chain's configured fee tiers in order. It skips
  tiers whose `(tokenIn symbol, tokenOut symbol, fee)` triple is blacklisted and looks up the
  pool of every other tier. A tier whose lookup rejects, or whose address is falsy or the zero
  address, is blacklisted. Every other tier gets a quote. A rejected quote blacklists the tier.
  The pass keeps the first tier whose quote is strictly greater than the best so far, and
  returns `{bestFee, updatedBlacklist}`.

Files:

- `Blacklist.dfy` (module `Blacklist`): the caller-owned blacklist as a sequence of entries.
  `Util.isBlacklistedUniswapV3` and `Util.addToBlacklistUniswapV3` live in `Util.js`, which is
  not part of this model. They are modelled by assumption as membership in the sequence and as
  appending to it.
- `Retry.dfy` (module `Retry`): the RPC call is a total function from attempt index ("shot")
  to `Outcome` (`Ok(v)`, `RateLimited` or `Failed`). `RetryLoop` is the loop, proved against
  the specification function `Settle`. `Settle` has three outcomes: `Resolved(v, shot)`,
  `Rejected` or `Unsettled`. Lemmas characterise each outcome exactly. The predicate
  `Reported` states what else a run reports: the attempt count, one wait per rate-limited
  attempt, and the console notices. `GetPoolAddress` and `QueryAmountOut` are the two
  instances of the loop, with the long and the short backoff.
- `FeeSelector.dfy` (module `FeeSelector`): `Env` holds the pair's symbols, the two RPC calls
  (per fee tier) and the retry budget. `TierOf` classifies how probing one tier turns out.
  `ProbeTier` is the loop body. `QueryFeeOfBestRoute` is the loop. Both are proved against
  the fold `Step`/`Run`. The lemmas relate `Run` to a reference description of the pass,
  stated in terms of the configured fees and the caller's blacklist:
  - `FirstBest`: the first tier attaining the greatest positive quote, or 0;
  - which triples end up blacklisted;
  - which tiers are looked up and quoted;
  - when the pass hangs.

An `await` on a promise that never settles never returns, so `queryFeeOfBestRoute` itself never
returns. The model shows this as the result `Pending`.

When every attempt is rate-limited the promise is never settled; the model follows the code
(`Unsettled`, and `Pending` for the pass).

## Model

| member | source | states |
|---|---|---|
| `Blacklist.Add` | UniswapV3ops.js:222-226 | adding a triple keeps every earlier entry, in order. Afterwards a triple is blacklisted exactly when it was before or it is the added one. This is the assumed contract of the unseen `Util.addToBlacklistUniswapV3`. |
| `Retry.RetryLoop` | UniswapV3ops.js:25-55 | the loop settles exactly as `Settle` says. It makes at most `times` attempts and none after the one that settles the promise. A resolution on shot `k` takes `k + 1` attempts. A rejection follows a `Failed` attempt. An unsettled run uses the whole budget. There is one wait, of the given backoff, per rate-limited attempt. The notices logged are exactly, in order, one "trying again" per rate-limited shot above 2, then the notice of the settling attempt (`FinalNotice`). |
| `Retry.NoticesMeaning` | UniswapV3ops.js:34-50 | in a run's notices, the "got it in SHOT n" notice appears exactly when a shot after the first succeeds, with n = shot + 1. The error notice appears exactly on rejection. A "trying again" notice appears for every rate-limited shot above 2 and for no other. |
| `Retry.RetryNoticesIff` | UniswapV3ops.js:42-46 | the retry notices of n rate-limited shots are all "trying again" notices and name exactly the shots above 2 and below n. |
| `Retry.GetPoolAddress` | UniswapV3ops.js:21-58 | the same contract as `RetryLoop` for the factory's `getPool` call, with every wait being the long backoff. |
| `Retry.QueryAmountOut` | UniswapV3ops.js:68-105 | the same contract as `RetryLoop` for the quoter's `quoteExactInputSingle` call, with every wait being the short backoff. |
| `Retry.UnsettledIff` | UniswapV3ops.js:26-55 | the promise never settles exactly when every attempt within the budget is rate-limited. |
| `Retry.RejectedIff` | UniswapV3ops.js:43-53 | the promise rejects exactly when some attempt within the budget fails with a non-rate-limit error and every earlier attempt was rate-limited. |
| `Retry.ResolvedIff` | UniswapV3ops.js:33-39 | the promise resolves with `v` on shot `k` exactly when `k` is within the budget, shot `k` returns `v`, and every earlier shot was rate-limited. |
| `Retry.ThirdShotResolves` | UniswapV3ops.js:26-39 | an operation rate-limited twice and then answering resolves with that answer on the third shot (index 2). |
| `FeeSelector.ProbeTier` | UniswapV3ops.js:202-228 | one turn of the loop equals `Step`. A blacklisted tier is skipped. Otherwise the tier is looked up. A rejected lookup or an unusable address blacklists it. Otherwise it is quoted. A rejected quote blacklists it and counts as `0.0`. A strictly greater amount replaces the best. A promise that never settles stalls the pass. |
| `FeeSelector.QueryFeeOfBestRoute` | UniswapV3ops.js:192-237 | the result is `Run` from an empty best and the caller's blacklist, with a missing blacklist read as empty. Lookups and quotes are issued only for tiers not in the caller's blacklist, and a quote only for a tier with a pool. No fee is looked up more often than it is configured, and none is quoted more often than it is looked up. The pass hangs exactly when some such tier's retry loop never settles. Otherwise it returns the first tier with the greatest positive quote, or 0. The returned blacklist holds a triple exactly when the caller's did or the tier is configured and failed. |
| `FeeSelector.NoCallsForBlacklisted` | UniswapV3ops.js:202-211 | every looked-up fee is configured and not in the caller's blacklist. Every quoted fee was looked up and has a pool. When the pass returns, every configured tier outside the caller's blacklist was looked up. |
| `FeeSelector.AtMostOneCallPerTier` | UniswapV3ops.js:201-212 | over a pass, the multiset of looked-up fees is contained in the multiset of configured fees (at most one lookup per tier per pass), and the multiset of quoted fees is contained in the multiset of looked-up fees. |
| `FeeSelector.RunCallCounts` | UniswapV3ops.js:201-212 | from any loop state, the remaining turns add at most one lookup per remaining tier and keep quotes within lookups, counted with multiplicity. |
| `FeeSelector.PendingIffStall` | UniswapV3ops.js:208-211 | the pass hangs exactly when some configured tier outside the caller's blacklist has a lookup or quote loop that never settles. |
| `FeeSelector.BlacklistGrowth` | UniswapV3ops.js:195-231 | the returned blacklist starts with the caller's entries. It adds no entry twice, and never one the caller's blacklist already holds. A triple is in it exactly when it was in the caller's blacklist or it belongs to a configured tier of this pair that failed its lookup or its quote. |
| `FeeSelector.BestIsFirstMaximum` | UniswapV3ops.js:198-220 | the returned fee satisfies `FirstBest`. It is 0 when no tier quoted a positive amount. Otherwise it is the fee of the first configured tier whose quote is at least every other quote and strictly above every earlier one. |
| `FeeSelector.FirstBestUnique` | UniswapV3ops.js:217-220 | `FirstBest` determines the fee uniquely, so the strict `>` makes the first maximal tier win ties. |
| `FeeSelector.SecondTierWins` | UniswapV3ops.js:201-220 | with two tiers quoting 100 and then 150, the pass returns and picks the second tier. |
| `FeeSelector.NoPoolAnywhere` | UniswapV3ops.js:208-224 | when no configured tier has a pool, the pass returns fee 0 and a blacklist that holds the triple of every configured tier. |
| `FeeSelector.RejectedQuoteKeepsBest` | UniswapV3ops.js:213-220 | while the best is non-negative (it starts at 0 and only grows), comparing the rejection value `0.0` never replaces it. |

## Left out

- `swap` (UniswapV3ops.js:268-341) is left out. It builds and broadcasts a transaction: ERC20 approval, gas pricing, signing and event callbacks, all web3 I/O.
- `getToken0AddressFromPool` and `getSlot0FromPool` are left out. They are one-shot RPC pass-throughs with no logic.
- `getAmountOut` is left out. It is unused floating-point local pricing.
- `showPoolAddress` is left out. It only prints to the console.
- `Util.assertValidInputs` is not part of this model. Its synchronous input check becomes the types of the parameters.
- The `_fee * 10**4` basis-point conversion and `Util.amountToBlockchain`/`amountFromBlockchain` are left out. The RPC functions take the fee as configured and yield amounts as opaque `real` values, of which only `>` and the starting value 0 matter.
- The durations of `Util.sleep`, `getAlchemyWaitingTime` and `getAlchemyWaitingLongTime` are left out. Only which backoff is slept is recorded.
- `Util.isAlchemyExceedingError` is left out. Its classification is the `RateLimited` tag of the input outcome.
- The contract objects and the console text (beyond which notices are logged, in which order) are left out.
- The outer `catch` at UniswapV3ops.js:232-236 is left out. It logs and then returns `bestFee`, which is declared with `let` inside the `try` block (line 199) and so is out of scope there: reaching it would throw a ReferenceError and reject the pass's promise. No modelled step throws into it; an exception from the unseen `Util` helpers or from contract construction is not modelled.
- JavaScript's `Array(_times)` throws for a negative or fractional `_times`. This is left out: the budget is a `nat`.
- `FeeSelector.QueryFeeOfBestRoute` takes the retry budget from `Env.times` and requires it to be the default of 10, which is what the source's calls use. The lemmas hold for any budget.
- Each RPC outcome depends only on the fee and the attempt index. Two calls for the same fee in one pass see the same outcomes. Provider state that changes between calls is not modelled.
