/** The swap record: the stored document, the raw payload it is built from,
    its closed enumerations, its defaults, and what the schema demands of a
    payload before the store accepts it. */
module SwapModel {
  import opened Wrappers
  import opened Strings

  datatype Network = TerraClassic | Ethereum | Bitcoin | Binance | Solana | Tron
  datatype Status = Pending | Completed | Failed
  /** The transaction type; `swap` is the only value. */
  datatype TxType = SwapTx

  function NetworkName(n: Network): string {
    match n
    case TerraClassic => "terra-classic"
    case Ethereum => "ethereum"
    case Bitcoin => "bitcoin"
    case Binance => "binance"
    case Solana => "solana"
    case Tron => "tron"
  }

  /** The network enumeration, in declaration order. */
  const NetworkNames: seq<string> := ["terra-classic", "ethereum", "bitcoin", "binance", "solana", "tron"]

  function ParseNetwork(s: string): (n: Option<Network>)
    ensures n.Some? <==> s in NetworkNames
  {
    if s == "terra-classic" then Some(TerraClassic)
    else if s == "ethereum" then Some(Ethereum)
    else if s == "bitcoin" then Some(Bitcoin)
    else if s == "binance" then Some(Binance)
    else if s == "solana" then Some(Solana)
    else if s == "tron" then Some(Tron)
    else None
  }

  /** A network name parses back to its network, and a parsed name is the
      name of what it parsed to. */
  lemma NetworkRoundTrip(n: Network, s: string)
    ensures ParseNetwork(NetworkName(n)) == Some(n)
    ensures ParseNetwork(s).Some? ==> NetworkName(ParseNetwork(s).value) == s
  {
  }

  function StatusName(st: Status): string {
    match st
    case Pending => "pending"
    case Completed => "completed"
    case Failed => "failed"
  }

  const StatusNames: seq<string> := ["pending", "completed", "failed"]

  function ParseStatus(s: string): (st: Option<Status>)
    ensures st.Some? <==> s in StatusNames
  {
    if s == "pending" then Some(Pending)
    else if s == "completed" then Some(Completed)
    else if s == "failed" then Some(Failed)
    else None
  }

  lemma StatusRoundTrip(st: Status, s: string)
    ensures ParseStatus(StatusName(st)) == Some(st)
    ensures ParseStatus(s).Some? ==> StatusName(ParseStatus(s).value) == s
  {
  }

  function ParseTxType(s: string): (t: Option<TxType>)
    ensures t.Some? <==> s == "swap"
  {
    if s == "swap" then Some(SwapTx) else None
  }

  /** A stored swap document. Times are milliseconds since the epoch;
      numbers are exact reals. */
  datatype SwapRecord = SwapRecord(
    walletAddress: string,
    network: Network,
    status: Status,
    txhash: string,
    timestamp: int,
    txType: TxType,
    fee: real,
    feeRate: real,
    feeCurrency: string,
    networkFee: real,
    networkFeeCurrency: string,
    currency: string,
    fromToken: string,
    fromTokenAmount: real,
    fromTokenDecimals: real,
    fromTokenSymbol: string,
    fromTokenPrice: real,
    toToken: string,
    toTokenAmount: real,
    toTokenDecimals: real,
    toTokenSymbol: string,
    toTokenPrice: real,
    contractAddress: string,
    provider: string,
    slippage: real)

  /** A swap payload as a caller sends it: any field may be absent, and the
      enumerated fields are free strings. */
  datatype SwapData = SwapData(
    walletAddress: Option<string>,
    network: Option<string>,
    status: Option<string>,
    txhash: Option<string>,
    timestamp: Option<int>,
    txType: Option<string>,
    fee: Option<real>,
    feeRate: Option<real>,
    feeCurrency: Option<string>,
    networkFee: Option<real>,
    networkFeeCurrency: Option<string>,
    currency: Option<string>,
    fromToken: Option<string>,
    fromTokenAmount: Option<real>,
    fromTokenDecimals: Option<real>,
    fromTokenSymbol: Option<string>,
    fromTokenPrice: Option<real>,
    toToken: Option<string>,
    toTokenAmount: Option<real>,
    toTokenDecimals: Option<real>,
    toTokenSymbol: Option<string>,
    toTokenPrice: Option<real>,
    contractAddress: Option<string>,
    provider: Option<string>,
    slippage: Option<real>)

  // Defaults the schema applies to an absent field.
  const DefaultNetwork: string := "terra-classic"
  const DefaultStatus: string := "pending"
  const DefaultTxType: string := "swap"
  const DefaultProvider: string := "yourwallet"
  const DefaultSlippage: real := 0.01

  /** A schema: the only thing the two published versions disagree on is
      the network enumeration. */
  datatype Schema = Schema(networks: seq<Network>)

  /** The schema published with the data model: all six networks. */
  const ModelSchema: Schema := Schema([TerraClassic, Ethereum, Bitcoin, Binance, Solana, Tron])

  /** The schema published with the backend controller: Terra Classic only. */
  const BackendSchema: Schema := Schema([TerraClassic])

  /** A required string field passes the schema when present and not empty. */
  predicate RequiredString(v: Option<string>) {
    v.Some? && v.value != ""
  }

  /** What the schema check of `save()` demands: every required string
      present and non-empty, every required number present, and every
      enumerated field (after its default) one of its values. */
  predicate SchemaAccepts(schema: Schema, d: SwapData) {
    && RequiredString(d.walletAddress)
    && RequiredString(d.txhash)
    && RequiredString(d.feeCurrency)
    && RequiredString(d.networkFeeCurrency)
    && RequiredString(d.currency)
    && RequiredString(d.fromToken)
    && RequiredString(d.fromTokenSymbol)
    && RequiredString(d.toToken)
    && RequiredString(d.toTokenSymbol)
    && RequiredString(d.contractAddress)
    && d.fee.Some? && d.feeRate.Some? && d.networkFee.Some?
    && d.fromTokenAmount.Some? && d.fromTokenDecimals.Some? && d.fromTokenPrice.Some?
    && d.toTokenAmount.Some? && d.toTokenDecimals.Some? && d.toTokenPrice.Some?
    && ParseNetwork(d.network.GetOr(DefaultNetwork)).Some?
    && ParseNetwork(d.network.GetOr(DefaultNetwork)).value in schema.networks
    && ParseStatus(d.status.GetOr(DefaultStatus)).Some?
    && ParseTxType(d.txType.GetOr(DefaultTxType)).Some?
  }

  /** `new Swap(d)` followed by the schema check of `save()`: the document
      the payload becomes, with defaults applied, or `None` when the schema
      rejects it. `now` stands for `Date.now`. */
  function ToRecord(schema: Schema, d: SwapData, now: int): (r: Option<SwapRecord>)
    ensures r.Some? <==> SchemaAccepts(schema, d)
    ensures r.Some? ==> r.value.network in schema.networks && r.value.txhash != "" && r.value.walletAddress != ""
  {
    if !SchemaAccepts(schema, d) then None
    else Some(SwapRecord(
      d.walletAddress.value,
      ParseNetwork(d.network.GetOr(DefaultNetwork)).value,
      ParseStatus(d.status.GetOr(DefaultStatus)).value,
      d.txhash.value,
      d.timestamp.GetOr(now),
      SwapTx,
      d.fee.value,
      d.feeRate.value,
      d.feeCurrency.value,
      d.networkFee.value,
      d.networkFeeCurrency.value,
      d.currency.value,
      d.fromToken.value,
      d.fromTokenAmount.value,
      d.fromTokenDecimals.value,
      d.fromTokenSymbol.value,
      d.fromTokenPrice.value,
      d.toToken.value,
      d.toTokenAmount.value,
      d.toTokenDecimals.value,
      d.toTokenSymbol.value,
      d.toTokenPrice.value,
      d.contractAddress.value,
      d.provider.GetOr(DefaultProvider),
      d.slippage.GetOr(DefaultSlippage)))
  }

  /** The payload that spells out every field of a record. */
  function FromRecord(r: SwapRecord): SwapData {
    SwapData(
      Some(r.walletAddress), Some(NetworkName(r.network)), Some(StatusName(r.status)), Some(r.txhash),
      Some(r.timestamp), Some("swap"), Some(r.fee), Some(r.feeRate), Some(r.feeCurrency),
      Some(r.networkFee), Some(r.networkFeeCurrency), Some(r.currency),
      Some(r.fromToken), Some(r.fromTokenAmount), Some(r.fromTokenDecimals), Some(r.fromTokenSymbol), Some(r.fromTokenPrice),
      Some(r.toToken), Some(r.toTokenAmount), Some(r.toTokenDecimals), Some(r.toTokenSymbol), Some(r.toTokenPrice),
      Some(r.contractAddress), Some(r.provider), Some(r.slippage))
  }

  /** What a stored record satisfies by construction: its required strings
      are non-empty and its network is one the schema allows. */
  predicate Storable(schema: Schema, r: SwapRecord) {
    && r.walletAddress != "" && r.txhash != "" && r.feeCurrency != "" && r.networkFeeCurrency != ""
    && r.currency != "" && r.fromToken != "" && r.fromTokenSymbol != "" && r.toToken != ""
    && r.toTokenSymbol != "" && r.contractAddress != ""
    && r.network in schema.networks
  }

  /** Writing a record out in full and reading it back through the schema
      gives the same record, whatever the clock says; and exactly the
      storable records survive the trip. */
  lemma RecordRoundTrip(schema: Schema, r: SwapRecord, now: int)
    ensures Storable(schema, r) ==> ToRecord(schema, FromRecord(r), now) == Some(r)
    ensures ToRecord(schema, FromRecord(r), now).Some? ==> Storable(schema, r)
  {
    NetworkRoundTrip(r.network, "");
    StatusRoundTrip(r.status, "");
    var d := FromRecord(r);
    if Storable(schema, r) {
      assert SchemaAccepts(schema, d);
      var back := ToRecord(schema, d, now).value;
      assert back.network == r.network && back.status == r.status && back.txType == r.txType;
    }
  }

  /** Absent optional fields take their defaults: network `terra-classic`,
      status `pending`, type `swap`, the current time, provider
      `yourwallet` and slippage 0.01. */
  lemma DefaultsApplied(schema: Schema, d: SwapData, now: int)
    requires d.network.None? && d.status.None? && d.txType.None? && d.timestamp.None?
    requires d.provider.None? && d.slippage.None?
    requires ToRecord(schema, d, now).Some?
    ensures var r := ToRecord(schema, d, now).value;
            && r.network == TerraClassic && r.status == Pending && r.txType == SwapTx
            && r.timestamp == now && r.provider == "yourwallet" && r.slippage == 0.01
  {
  }

  /** The backend schema stores Terra Classic swaps only; the model schema
      also accepts the five other networks. */
  lemma BackendSchemaTerraOnly(d: SwapData, now: int)
    ensures ToRecord(BackendSchema, d, now).Some? ==> ToRecord(BackendSchema, d, now).value.network == TerraClassic
    ensures ToRecord(BackendSchema, d, now).Some? ==> ToRecord(ModelSchema, d, now) == ToRecord(BackendSchema, d, now)
  {
  }

  /** The business rules the data model documents. */
  predicate BusinessRules(r: SwapRecord) {
    && 0.0 <= r.feeRate <= 1.0
    && 0.0 <= r.slippage <= 1.0
    && r.fromToken != r.toToken
    && r.fromTokenAmount > 0.0 && r.toTokenAmount > 0.0
    && r.fromTokenPrice > 0.0 && r.toTokenPrice > 0.0
    && IsWholeNumber(r.fromTokenDecimals) && 0.0 <= r.fromTokenDecimals <= 18.0
    && IsWholeNumber(r.toTokenDecimals) && 0.0 <= r.toTokenDecimals <= 18.0
  }

  predicate IsWholeNumber(x: real) {
    x == x.Floor as real
  }

  // ---------------------------------------------------------------------
  // The list response of the data model

  /** `{ change, isPositive }` */
  datatype PercentChange = PercentChange(change: real, isPositive: bool)

  /** `mostUsedToken` when not null. */
  datatype SymbolCount = SymbolCount(symbol: string, count: nat)

  datatype SwapListResponse = SwapListResponse(
    swaps: seq<SwapRecord>,
    totalCount: nat,
    percentageChangeTotalValue: PercentChange,
    percentageChangeTotalFee: PercentChange,
    mostUsedToken: Option<SymbolCount>)
}
