/** Swap preparation: build the unsigned messages for a Terraswap swap.

    The mobile client's `prepareSwap` carves a 0.85% commission out of the
    amount and returns two messages: the swap itself, offering the net
    amount to the pool, then a bank send of the commission. The backend's
    `prepareSwap` returns one swap message offering the full amount. */
module SwapBuilder {
  import opened Wrappers
  import opened Assets
  import opened PairLocator

  /** A coin `{ denom: amount }`. */
  datatype Coin = Coin(denom: string, amount: nat)

  /** The `offer_asset` of a swap or simulation. */
  datatype Asset = Asset(amount: nat, info: AssetInfo)

  /** The two on-chain messages the code builds. */
  datatype Msg =
    | ExecuteContract(sender: string, contract: string, offer: Asset, coins: seq<Coin>)
    | Send(fromAddress: string, toAddress: string, amount: seq<Coin>)

  /** The coins attached to a swap of `amount` of `denom`: native assets
      travel as attached funds, contract tokens attach nothing. */
  function AttachedCoins(denom: string, amount: nat): seq<Coin> {
    if IsNativeDenom(denom) then [Coin(denom, amount)] else []
  }

  /** The Terraswap `swap` execute message to `pool` offering `amount`. */
  function SwapMessage(sender: string, pool: string, denom: string, amount: nat): Msg {
    ExecuteContract(sender, pool, Asset(amount, AssetInfoOf(denom)), AttachedCoins(denom, amount))
  }

  // ---------------------------------------------------------------------
  // Mobile variant

  const CommissionAddress: string := "terra1exnef0wrmf864tczt7m7ykvc70juh8p5er9rdj"

  /** The commission rate 0.0085, as the fraction 85 / 10000. */
  const CommissionNumerator: nat := 85
  const CommissionDenominator: nat := 10000

  /** `Math.floor(amount * 0.0085)` in exact arithmetic: the largest whole
      number of units not above amount·0.0085. */
  function Commission(amount: nat): (c: nat)
    ensures c * CommissionDenominator <= amount * CommissionNumerator < (c + 1) * CommissionDenominator
    ensures c <= amount
  {
    amount * CommissionNumerator / CommissionDenominator
  }

  /** The error kinds of the mobile `prepareSwap`. */
  datatype PrepareError =
    | MissingParams
    | Terra2Token(fromToken: string, toToken: string)
    | PairNotFound(fromToken: string, toToken: string)

  datatype PrepareResult = Prepared(msgs: seq<Msg>) | PrepareFailed(error: PrepareError)

  /** The shape of a prepared swap: exactly two messages, the swap to
      `pool` offering `amount` minus the commission (with the offered coins
      attached iff `denom` is native), then a send of the commission in
      `denom` from the sender to the commission address. */
  predicate IsCommissionedSwap(msgs: seq<Msg>, sender: string, pool: string, denom: string, amount: nat) {
    && |msgs| == 2
    && msgs[0].ExecuteContract?
    && msgs[1].Send?
    && var net, fee := msgs[0].offer.amount, msgs[1].amount;
    && msgs[0].sender == sender
    && msgs[0].contract == pool && pool != ""
    && msgs[0].offer.info == AssetInfoOf(denom)
    && msgs[0].coins == (if IsNativeDenom(denom) then [Coin(denom, net)] else [])
    && msgs[1].fromAddress == sender
    && msgs[1].toAddress == CommissionAddress
    && fee == [Coin(denom, Commission(amount))]
    && net + Commission(amount) == amount
  }

  /** The mobile `prepareSwap`. `amount` is the parsed amount string;
      `None` stands for a missing or empty one. */
  function PrepareSwap(factory: Factory, sender: string, fromToken: string, toToken: string, amount: Option<nat>): (r: PrepareResult)
    ensures (sender == "" || fromToken == "" || toToken == "" || amount.None?) <==> r == PrepareFailed(MissingParams)
    ensures r.PrepareFailed? && r.error.Terra2Token? <==>
              sender != "" && fromToken != "" && toToken != "" && amount.Some? &&
              (Normalize(fromToken) == Terra2Denom || Normalize(toToken) == Terra2Denom)
    ensures r.PrepareFailed? && r.error.PairNotFound? ==>
              r.error == PairNotFound(Normalize(fromToken), Normalize(toToken))
    ensures r.PrepareFailed? && r.error.PairNotFound? <==>
              && sender != "" && fromToken != "" && toToken != "" && amount.Some?
              && Normalize(fromToken) != Terra2Denom && Normalize(toToken) != Terra2Denom
              && var pool := LocatePair(factory, Normalize(fromToken), Normalize(toToken));
              && (pool.None? || pool.value.contractAddr == "")
    ensures r.Prepared? ==>
              && amount.Some?
              && var pool := LocatePair(factory, Normalize(fromToken), Normalize(toToken));
              && pool.Some?
              && IsCommissionedSwap(r.msgs, sender, pool.value.contractAddr, Normalize(fromToken), amount.value)
  {
    if sender == "" || fromToken == "" || toToken == "" || amount.None? then
      PrepareFailed(MissingParams)
    else
      var from, to := Normalize(fromToken), Normalize(toToken);
      if from == Terra2Denom || to == Terra2Denom then
        PrepareFailed(Terra2Token(from, to))
      else
        var commission := Commission(amount.value);
        var swapAmount := amount.value - commission;
        match LocatePair(factory, from, to)
        case None => PrepareFailed(PairNotFound(from, to))
        case Some(pair) =>
          if pair.contractAddr == "" then PrepareFailed(PairNotFound(from, to))
          else
            Prepared([SwapMessage(sender, pair.contractAddr, from, swapAmount),
                      Send(sender, CommissionAddress, [Coin(from, commission)])])
  }

  /** Preparation fails only for the documented reasons: with all
      parameters present, no Terra 2.0 token, and a pool with an address,
      the swap is prepared. */
  lemma PrepareSucceedsWhenPoolExists(factory: Factory, sender: string, fromToken: string, toToken: string, amount: nat)
    requires sender != "" && fromToken != "" && toToken != ""
    requires Normalize(fromToken) != Terra2Denom && Normalize(toToken) != Terra2Denom
    requires var pool := LocatePair(factory, Normalize(fromToken), Normalize(toToken));
             pool.Some? && pool.value.contractAddr != ""
    ensures PrepareSwap(factory, sender, fromToken, toToken, Some(amount)).Prepared?
  {
  }

  /** The rejections happen before any pair lookup: a missing parameter or
      a Terra 2.0 token gives the same answer whatever the factory says. */
  lemma PrepareRejectsBeforeLookup(f1: Factory, f2: Factory, sender: string, fromToken: string, toToken: string, amount: Option<nat>)
    requires sender == "" || fromToken == "" || toToken == "" || amount.None?
             || Normalize(fromToken) == Terra2Denom || Normalize(toToken) == Terra2Denom
    ensures PrepareSwap(f1, sender, fromToken, toToken, amount) == PrepareSwap(f2, sender, fromToken, toToken, amount)
  {
  }

  /** Commission is carved out of the amount, never added on top, and
      never exceeds the amount times the rate. */
  lemma {:induction false} CommissionCarvedOut(amount: nat)
    ensures Commission(amount) + (amount - Commission(amount)) == amount
    ensures (Commission(amount) as real) <= (amount as real) * 0.0085
    ensures (amount as real) * 0.0085 < (Commission(amount) as real) + 1.0
  {
    var c := Commission(amount);
    assert c * 10000 <= amount * 85 < (c + 1) * 10000;
    assert (c * 10000) as real <= (amount * 85) as real;
    assert (amount * 85) as real < ((c + 1) * 10000) as real;
  }

  /** The commission grows with the amount. */
  lemma {:induction false} CommissionMonotone(a: nat, b: nat)
    requires a <= b
    ensures Commission(a) <= Commission(b)
  {
    assert a * CommissionNumerator <= b * CommissionNumerator;
  }

  /** The worked example: 1 000 000 uluna from addr1 to uusd gives a
      commission of 8 500 and a swap of 991 500, in that message order. */
  lemma PrepareExample(factory: Factory, pool: string)
    requires pool != ""
    requires factory(NativeToken("uluna"), NativeToken("uusd")) == Some(PairInfo(pool))
    ensures PrepareSwap(factory, "addr1", "uluna", "uusd", Some(1000000)) ==
            Prepared([ExecuteContract("addr1", pool, Asset(991500, NativeToken("uluna")), [Coin("uluna", 991500)]),
                      Send("addr1", CommissionAddress, [Coin("uluna", 8500)])])
  {
    assert Commission(1000000) == 8500;
  }

  /** The alias `ulunc` is swapped as `uluna` on either side. */
  lemma PrepareNormalisesAlias(factory: Factory, sender: string, amount: Option<nat>, other: string)
    ensures PrepareSwap(factory, sender, "ulunc", other, amount) == PrepareSwap(factory, sender, "uluna", other, amount)
    ensures PrepareSwap(factory, sender, other, "ulunc", amount) == PrepareSwap(factory, sender, other, "uluna", amount)
  {
  }

  /** The commission address the confirmation screen sends to; it is not
      the one `prepareSwap` uses. */
  const ScreenCommissionAddress: string := "terra1ju57wgjpxn7h86sgt5tzwe9kf60fj9pm225rqk"

  /** The confirmation screen's own commission on an integer amount:
      `Math.floor(amountNum * 0.0085)`, computed on reals. */
  function ConfirmScreenCommission(amountNum: nat): nat {
    ((amountNum as real) * 0.0085).Floor
  }

  /** The commission send the confirmation screen signs next to the swap. */
  function ConfirmScreenCommissionSend(sender: string, denom: string, amountNum: nat): Msg {
    Send(sender, ScreenCommissionAddress, [Coin(denom, ConfirmScreenCommission(amountNum))])
  }

  /** The screen's real-valued floor is the exact integer commission. */
  lemma ConfirmScreenFloorAgrees(amountNum: nat)
    ensures ConfirmScreenCommission(amountNum) == Commission(amountNum)
  {
    CommissionCarvedOut(amountNum);
  }

  /** The commission send the screen signs carries the same coins, from the
      same sender, as the second message of `prepareSwap`, but it goes to a
      different address. */
  lemma ConfirmScreenSendMatchesPrepare(factory: Factory, sender: string, fromToken: string, toToken: string, amount: nat)
    requires PrepareSwap(factory, sender, fromToken, toToken, Some(amount)).Prepared?
    ensures var prepared := PrepareSwap(factory, sender, fromToken, toToken, Some(amount)).msgs[1];
            var screen := ConfirmScreenCommissionSend(sender, Normalize(fromToken), amount);
            && screen.Send? && prepared.Send?
            && screen.fromAddress == prepared.fromAddress
            && screen.amount == prepared.amount
            && screen.toAddress != prepared.toAddress
  {
    ConfirmScreenFloorAgrees(amount);
    assert ScreenCommissionAddress[6] != CommissionAddress[6];
  }

  // ---------------------------------------------------------------------
  // Backend variant

  /** The error kinds of the backend `prepareSwap`. Both rejections carry
      the `TOKENS` table as `supportedTokens`. */
  datatype BackendPrepareError =
    | BackendMissingParams
    | BackendTerra2Token(fromToken: string, toToken: string, supportedTokens: seq<(string, string)>)
    | BackendPairNotFound(fromToken: string, toToken: string, supportedTokens: seq<(string, string)>)

  datatype BackendPrepareResult = BackendPrepared(msg: Msg) | BackendPrepareFailed(error: BackendPrepareError)

  /** The backend `prepareSwap`: no alias normalisation and no commission.
      One execute message offers the full amount, with the same amount
      attached as coins iff the from-token is native. */
  function BackendPrepareSwap(factory: Factory, sender: string, fromToken: string, toToken: string, amount: Option<nat>)
    : (r: BackendPrepareResult)
    ensures (sender == "" || fromToken == "" || toToken == "" || amount.None?) <==> r == BackendPrepareFailed(BackendMissingParams)
    ensures r.BackendPrepareFailed? && r.error.BackendTerra2Token? <==>
              sender != "" && fromToken != "" && toToken != "" && amount.Some? &&
              (fromToken == Terra2Denom || toToken == Terra2Denom)
    ensures r.BackendPrepareFailed? && !r.error.BackendMissingParams? ==> r.error.supportedTokens == SupportedTokens
    ensures r.BackendPrepared? <==>
              && sender != "" && fromToken != "" && toToken != "" && amount.Some?
              && fromToken != Terra2Denom && toToken != Terra2Denom
              && var pool := LocatePair(factory, fromToken, toToken);
              && pool.Some? && pool.value.contractAddr != ""
    ensures r.BackendPrepareFailed? && r.error.BackendPairNotFound? ==>
              r.error.fromToken == fromToken && r.error.toToken == toToken
    ensures r.BackendPrepared? ==>
              && amount.Some?
              && var pool := LocatePair(factory, fromToken, toToken);
              && pool.Some? && pool.value.contractAddr != ""
              && r.msg.ExecuteContract?
              && r.msg.sender == sender
              && r.msg.contract == pool.value.contractAddr
              && r.msg.offer == Asset(amount.value, AssetInfoOf(fromToken))
              && (IsNativeDenom(fromToken) <==> r.msg.coins == [Coin(fromToken, amount.value)])
              && (!IsNativeDenom(fromToken) <==> r.msg.coins == [])
  {
    if sender == "" || fromToken == "" || toToken == "" || amount.None? then
      BackendPrepareFailed(BackendMissingParams)
    else if fromToken == Terra2Denom || toToken == Terra2Denom then
      BackendPrepareFailed(BackendTerra2Token(fromToken, toToken, SupportedTokens))
    else
      match LocatePair(factory, fromToken, toToken)
      case None => BackendPrepareFailed(BackendPairNotFound(fromToken, toToken, SupportedTokens))
      case Some(pair) =>
        if pair.contractAddr == "" then BackendPrepareFailed(BackendPairNotFound(fromToken, toToken, SupportedTokens))
        else BackendPrepared(SwapMessage(sender, pair.contractAddr, fromToken, amount.value))
  }

  /** The two variants differ exactly by the commission: for the same
      (already normalised) request, the mobile swap message offers the
      backend's amount minus the commission, to the same pool. */
  lemma MobileOffersBackendAmountLessCommission(factory: Factory, sender: string, fromToken: string, toToken: string, amount: nat)
    requires Normalize(fromToken) == fromToken && Normalize(toToken) == toToken
    requires BackendPrepareSwap(factory, sender, fromToken, toToken, Some(amount)).BackendPrepared?
    ensures var m := PrepareSwap(factory, sender, fromToken, toToken, Some(amount));
            var b := BackendPrepareSwap(factory, sender, fromToken, toToken, Some(amount));
            && m.Prepared?
            && m.msgs[0].contract == b.msg.contract
            && m.msgs[0].offer.amount == b.msg.offer.amount - Commission(amount)
            && m.msgs[0].offer.info == b.msg.offer.info
  {
  }
}
