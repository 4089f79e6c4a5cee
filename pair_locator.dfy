/** The pair locator `getPairAddress`: ask the Terraswap factory for the pool
    of two tokens, first in the given order and, only if that query fails,
    in the reversed order. */
module PairLocator {
  import opened Wrappers
  import opened Assets

  /** What the factory returns for a pair. `contractAddr` is "" when the
      answer carries no `contract_addr`. */
  datatype PairInfo = PairInfo(contractAddr: string)

  /** The factory's `pair` query on an ordered pair of asset infos: `None`
      when the query throws (no pool registered under that order, or any
      other failure of the call). */
  type Factory = (AssetInfo, AssetInfo) -> Option<PairInfo>

  /** The two asset infos the locator builds, in query order. */
  function Forward(token0: string, token1: string): (AssetInfo, AssetInfo) {
    (AssetInfoOf(token0), AssetInfoOf(token1))
  }

  function Swapped(p: (AssetInfo, AssetInfo)): (AssetInfo, AssetInfo) {
    (p.1, p.0)
  }

  /** The pool the locator ends with (its value-level meaning). */
  function LocatePair(factory: Factory, token0: string, token1: string): (r: Option<PairInfo>)
    ensures factory(Forward(token0, token1).0, Forward(token0, token1).1).Some? ==>
              r == factory(Forward(token0, token1).0, Forward(token0, token1).1)
    ensures factory(Forward(token0, token1).0, Forward(token0, token1).1).None? ==>
              r == factory(Forward(token0, token1).1, Forward(token0, token1).0)
    ensures r.None? <==> factory(AssetInfoOf(token0), AssetInfoOf(token1)).None?
                          && factory(AssetInfoOf(token1), AssetInfoOf(token0)).None?
  {
    var a, b := AssetInfoOf(token0), AssetInfoOf(token1);
    match factory(a, b)
    case Some(p) => Some(p)
    case None => factory(b, a)
  }

  /** `getPairAddress` as the code runs it: build `asset_infos` by pushing
      one entry per token, query the factory, and on failure query the
      reversed list. `queried` lists the queries made, in order. */
  method GetPairAddress(factory: Factory, token0: string, token1: string)
    returns (pair: Option<PairInfo>, queried: seq<(AssetInfo, AssetInfo)>)
    ensures pair == LocatePair(factory, token0, token1)
    ensures 1 <= |queried| <= 2 && queried[0] == Forward(token0, token1)
    ensures |queried| == 2 <==> factory(queried[0].0, queried[0].1).None?
    ensures |queried| == 2 ==> queried[1] == Swapped(queried[0])
    ensures pair.None? ==> |queried| == 2
  {
    var isToken0Native := IsNativeDenom(token0);
    var isToken1Native := IsNativeDenom(token1);
    var assetInfos: seq<AssetInfo> := [];
    if isToken0Native {
      assetInfos := assetInfos + [NativeToken(token0)];
    } else {
      assetInfos := assetInfos + [Token(token0)];
    }
    if isToken1Native {
      assetInfos := assetInfos + [NativeToken(token1)];
    } else {
      assetInfos := assetInfos + [Token(token1)];
    }
    queried := [(assetInfos[0], assetInfos[1])];
    var first := factory(assetInfos[0], assetInfos[1]);
    if first.Some? {
      pair := first;
      return;
    }
    var reversedAssetInfos := [assetInfos[1], assetInfos[0]];
    queried := queried + [(reversedAssetInfos[0], reversedAssetInfos[1])];
    pair := factory(reversedAssetInfos[0], reversedAssetInfos[1]);
  }

  /** A factory that registers a pool under one ordering only (or the same
      pool under both) is found from either side: the locator is symmetric
      in its two tokens. */
  lemma LocateSymmetric(factory: Factory, token0: string, token1: string)
    requires var a, b := AssetInfoOf(token0), AssetInfoOf(token1);
             factory(a, b).None? || factory(b, a).None? || factory(a, b) == factory(b, a)
    ensures LocatePair(factory, token0, token1) == LocatePair(factory, token1, token0)
  {
  }

  /** With a pool registered under exactly one ordering, both query orders
      return that pool. */
  lemma LocateOneOrdering(factory: Factory, token0: string, token1: string, pool: PairInfo)
    requires factory(AssetInfoOf(token0), AssetInfoOf(token1)) == Some(pool)
    requires factory(AssetInfoOf(token1), AssetInfoOf(token0)).None?
    ensures LocatePair(factory, token0, token1) == Some(pool)
    ensures LocatePair(factory, token1, token0) == Some(pool)
  {
  }

  /** Symmetry needs the factory's help: when both orderings are registered
      with different pools, the two query orders disagree. */
  lemma LocateAsymmetricWhenBothRegistered(factory: Factory, token0: string, token1: string)
    requires factory(AssetInfoOf(token0), AssetInfoOf(token1)).Some?
    requires factory(AssetInfoOf(token1), AssetInfoOf(token0)).Some?
    requires factory(AssetInfoOf(token0), AssetInfoOf(token1)) != factory(AssetInfoOf(token1), AssetInfoOf(token0))
    ensures LocatePair(factory, token0, token1) != LocatePair(factory, token1, token0)
  {
  }
}
