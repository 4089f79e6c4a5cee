/** The quote endpoint: check the query parameters, reject the Terra 2.0
    token, locate the pool, and ask it to simulate the swap of the full
    requested amount. */
module QuoteEngine {
  import opened Wrappers
  import opened Assets
  import opened PairLocator
  import SwapBuilder

  /** The pool's read-only `simulation` query: the pool contract and the
      offered asset give the `return_amount`, or `None` when the call fails. */
  type Simulator = (string, SwapBuilder.Asset) -> Option<nat>

  /** The error kinds of `quote`. The first three are answered with status
      400, a failing simulation with status 500. */
  datatype QuoteError =
    | MissingQueryParams
    | Terra2Token(fromToken: string, toToken: string, supportedTokens: seq<(string, string)>)
    | PairNotFound(fromToken: string, toToken: string, supportedTokens: seq<(string, string)>)
    | SimulationFailed

  datatype QuoteResponse =
    | QuoteOk(fromToken: string, toToken: string, amount: nat, returnAmount: nat)
    | QuoteFailed(error: QuoteError)

  /** The query names both tokens and an amount, and neither token is the
      Terra 2.0 denom: the checks before the pool lookup pass. */
  predicate QueryAccepted(fromToken: string, toToken: string, amount: Option<nat>) {
    fromToken != "" && toToken != "" && amount.Some? && fromToken != Terra2Denom && toToken != Terra2Denom
  }

  /** `quote`. `amount` is the parsed query parameter, `None` when it is
      missing or empty. */
  function Quote(factory: Factory, simulate: Simulator, fromToken: string, toToken: string, amount: Option<nat>)
    : (r: QuoteResponse)
    ensures (fromToken == "" || toToken == "" || amount.None?) <==> r == QuoteFailed(MissingQueryParams)
    ensures r.QuoteFailed? && r.error.Terra2Token? <==>
              fromToken != "" && toToken != "" && amount.Some? && (fromToken == Terra2Denom || toToken == Terra2Denom)
    ensures r.QuoteFailed? && (r.error.Terra2Token? || r.error.PairNotFound?) ==>
              r.error.fromToken == fromToken && r.error.toToken == toToken && r.error.supportedTokens == SupportedTokens
    ensures r.QuoteFailed? && r.error.PairNotFound? <==>
              QueryAccepted(fromToken, toToken, amount) && LocatePair(factory, fromToken, toToken).None?
    ensures r == QuoteFailed(SimulationFailed) <==>
              && QueryAccepted(fromToken, toToken, amount)
              && var pool := LocatePair(factory, fromToken, toToken);
              && pool.Some?
              && simulate(pool.value.contractAddr, SwapBuilder.Asset(amount.value, AssetInfoOf(fromToken))).None?
    ensures r.QuoteOk? <==>
              && QueryAccepted(fromToken, toToken, amount)
              && var pool := LocatePair(factory, fromToken, toToken);
              && pool.Some?
              && simulate(pool.value.contractAddr, SwapBuilder.Asset(amount.value, AssetInfoOf(fromToken))).Some?
    ensures r.QuoteOk? ==>
              && amount.Some?
              && r.fromToken == fromToken && r.toToken == toToken && r.amount == amount.value
              && var pool := LocatePair(factory, fromToken, toToken);
              && pool.Some?
              && simulate(pool.value.contractAddr, SwapBuilder.Asset(amount.value, AssetInfoOf(fromToken))) == Some(r.returnAmount)
  {
    if fromToken == "" || toToken == "" || amount.None? then
      QuoteFailed(MissingQueryParams)
    else if fromToken == Terra2Denom || toToken == Terra2Denom then
      QuoteFailed(Terra2Token(fromToken, toToken, SupportedTokens))
    else
      match LocatePair(factory, fromToken, toToken)
      case None => QuoteFailed(PairNotFound(fromToken, toToken, SupportedTokens))
      case Some(pair) =>
        match simulate(pair.contractAddr, SwapBuilder.Asset(amount.value, AssetInfoOf(fromToken)))
        case None => QuoteFailed(SimulationFailed)
        case Some(returnAmount) => QuoteOk(fromToken, toToken, amount.value, returnAmount)
  }

  /** Missing parameters and the Terra 2.0 token are answered without any
      call to the factory or the pool: the response does not depend on them. */
  lemma QuoteRejectsBeforeLookup(f1: Factory, f2: Factory, s1: Simulator, s2: Simulator,
                                 fromToken: string, toToken: string, amount: Option<nat>)
    requires fromToken == "" || toToken == "" || amount.None? || fromToken == Terra2Denom || toToken == Terra2Denom
    ensures Quote(f1, s1, fromToken, toToken, amount) == Quote(f2, s2, fromToken, toToken, amount)
  {
  }

  /** A pool that exists and simulates is always quoted, and the quote
      offers the gross amount: it is the simulation of exactly the amount
      that the backend's prepared swap offers. */
  lemma QuoteMatchesBackendOffer(factory: Factory, simulate: Simulator, sender: string,
                                 fromToken: string, toToken: string, amount: nat)
    requires sender != ""
    requires SwapBuilder.BackendPrepareSwap(factory, sender, fromToken, toToken, Some(amount)).BackendPrepared?
    requires var msg := SwapBuilder.BackendPrepareSwap(factory, sender, fromToken, toToken, Some(amount)).msg;
             simulate(msg.contract, msg.offer).Some?
    ensures var msg := SwapBuilder.BackendPrepareSwap(factory, sender, fromToken, toToken, Some(amount)).msg;
            Quote(factory, simulate, fromToken, toToken, Some(amount)) ==
            QuoteOk(fromToken, toToken, amount, simulate(msg.contract, msg.offer).value)
  {
  }

  /** The scenario of a Terra 2.0 quote: `uluna2` to `uusd` for 1000 is a
      validation error that names both tokens. */
  lemma QuoteTerra2Example(factory: Factory, simulate: Simulator)
    ensures Quote(factory, simulate, "uluna2", "uusd", Some(1000)) ==
            QuoteFailed(Terra2Token("uluna2", "uusd", SupportedTokens))
  {
  }
}
