/** Asset classification and token normalisation for Terra Classic.

    A token identifier is either a native denom (a chain-level coin such as
    `uluna`) or the address of a CW20 token contract. The code tells the two
    apart by the first letter of the identifier only: an identifier that
    starts with `u` is native, anything else is a contract address. */
module Assets {
  import opened Strings

  /** The `asset_info` object of the Terraswap protocol:
      `{ native_token: { denom } }` or `{ token: { contract_addr } }`. */
  datatype AssetInfo = NativeToken(denom: string) | Token(contractAddr: string)

  /** `id.startsWith('u')` */
  predicate IsNativeDenom(id: string) {
    StartsWith(id, "u")
  }

  /** The asset info the code builds for an identifier. */
  function AssetInfoOf(id: string): (info: AssetInfo)
    ensures info.NativeToken? <==> IsNativeDenom(id)
  {
    if IsNativeDenom(id) then NativeToken(id) else Token(id)
  }

  /** The identifier an asset info carries. */
  function Identifier(info: AssetInfo): string {
    match info
    case NativeToken(d) => d
    case Token(a) => a
  }

  /** Classification loses nothing: the identifier is recovered from its
      asset info, and an asset info whose tag agrees with the prefix rule is
      rebuilt from its identifier. */
  lemma AssetInfoRoundTrip(id: string, info: AssetInfo)
    ensures Identifier(AssetInfoOf(id)) == id
    ensures (info.NativeToken? <==> IsNativeDenom(Identifier(info))) ==> AssetInfoOf(Identifier(info)) == info
  {
  }

  // ---------------------------------------------------------------------
  // Symbol to denom mapping of the mobile client

  /** A token as the mobile client holds it. */
  datatype TokenInfo = TokenInfo(symbol: string, denom: string, decimals: nat)

  /** `getTokenDenom`: five well-known symbols have a fixed denom; every
      other token travels under its own `denom`. */
  function GetTokenDenom(token: TokenInfo): string {
    if token.symbol == "LUNC" then "uluna"
    else if token.symbol == "USTC" then "uusd"
    else if token.symbol == "axlUSDC" then "uusdc"
    else if token.symbol == "axlUSDT" then "uusdt"
    else if token.symbol == "AXL" then "uaxl"
    else token.denom
  }

  /** The fixed symbol-to-denom table, as a map. */
  const FixedDenoms: map<string, string> :=
    map["LUNC" := "uluna", "USTC" := "uusd", "axlUSDC" := "uusdc", "axlUSDT" := "uusdt", "AXL" := "uaxl"]

  /** `GetTokenDenom` agrees with the table: a listed symbol gets its fixed
      denom whatever the token's own denom is, and an unlisted symbol keeps
      its own denom. Every fixed denom is native. */
  lemma GetTokenDenomTable(token: TokenInfo)
    ensures token.symbol in FixedDenoms ==> GetTokenDenom(token) == FixedDenoms[token.symbol]
    ensures token.symbol !in FixedDenoms ==> GetTokenDenom(token) == token.denom
    ensures token.symbol in FixedDenoms ==> IsNativeDenom(GetTokenDenom(token))
  {
  }

  /** The native tokens of the published token table (symbol, denom,
      decimals). */
  const PublishedNativeTokens: seq<TokenInfo> := [
    TokenInfo("LUNC", "uluna", 6),
    TokenInfo("USTC", "uusd", 6),
    TokenInfo("axlUSDC", "uusdc", 6),
    TokenInfo("axlUSDT", "uusdt", 6),
    TokenInfo("AXL", "uaxl", 6)
  ]

  /** For the tokens of the published table the fixed mapping changes
      nothing: each maps to the denom the table gives it. */
  lemma GetTokenDenomMatchesPublishedTable(k: nat)
    requires k < |PublishedNativeTokens|
    ensures GetTokenDenom(PublishedNativeTokens[k]) == PublishedNativeTokens[k].denom
  {
  }

  // ---------------------------------------------------------------------
  // Normalisation and the Terra 2.0 exclusion

  /** The Terra 2.0 Luna denom, which has no meaning on Terra Classic. */
  const Terra2Denom: string := "uluna2"

  /** `token === 'ulunc' ? 'uluna' : token` */
  function Normalize(token: string): string {
    if token == "ulunc" then "uluna" else token
  }

  /** Normalisation is idempotent, never yields the alias, changes only the
      alias, and keeps the native/contract classification. */
  lemma NormalizeProperties(token: string)
    ensures Normalize(Normalize(token)) == Normalize(token)
    ensures Normalize(token) != "ulunc"
    ensures Normalize(token) != token <==> token == "ulunc"
    ensures IsNativeDenom(Normalize(token)) <==> IsNativeDenom(token)
    ensures Normalize(token) == Terra2Denom <==> token == Terra2Denom
  {
  }

  /** The backend's `TOKENS` table, in its declaration order. */
  const SupportedTokens: seq<(string, string)> := [
    ("LUNA", "uluna"),
    ("USDC", "uusdc"),
    ("USDT", "uusdt"),
    ("KRW", "ukrw"),
    ("UST", "uusd"),
    ("LUNA2", "uluna2")
  ]

  /** Every supported denom is native, and the table the error responses
      carry lists the Terra 2.0 denom that those responses reject. */
  lemma SupportedTokensAllNative(k: nat)
    requires k < |SupportedTokens|
    ensures IsNativeDenom(SupportedTokens[k].1)
    ensures SupportedTokens[5].1 == Terra2Denom
  {
  }
}
