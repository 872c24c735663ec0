/** The caller-owned cache of (tokenIn symbol, tokenOut symbol, fee) triples known to have
    no Uniswap V3 pool or to fail quoting.  The two helpers that read and extend it live in
    Util.js, which is not part of this model; they are modelled here as membership in, and
    appending to, a sequence of entries. */
module Blacklist {

  /** A fee tier as configured for the chain, in percent (0.05, 0.3, 1, ...). */
  type Fee = real

  datatype Entry = Entry(inSymbol: string, outSymbol: string, fee: Fee)

  /** Util.isBlacklistedUniswapV3: is the triple already recorded? */
  predicate IsBlacklisted(blacklist: seq<Entry>, inSymbol: string, outSymbol: string, fee: Fee)
  {
    Entry(inSymbol, outSymbol, fee) in blacklist
  }

  /** Util.addToBlacklistUniswapV3: the returned cache keeps every prior entry, in order,
      and afterwards reports the new triple as blacklisted. */
  function Add(blacklist: seq<Entry>, inSymbol: string, outSymbol: string, fee: Fee): (r: seq<Entry>)
    ensures |r| == |blacklist| + 1 && r[..|blacklist|] == blacklist
    ensures IsBlacklisted(r, inSymbol, outSymbol, fee)
    ensures forall a, b, f :: IsBlacklisted(r, a, b, f) <==>
      IsBlacklisted(blacklist, a, b, f) || (a == inSymbol && b == outSymbol && f == fee)
  {
    blacklist + [Entry(inSymbol, outSymbol, fee)]
  }
}
