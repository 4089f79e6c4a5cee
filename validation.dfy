/** Record validation `validateSwapData`: walk the required fields, then a
    chain of range checks, and collect one error per failed check. A check
    on an optional field only fires when the field is truthy (present, and
    not "" or 0). */
module Validation {
  import opened Wrappers
  import opened Strings
  import opened SwapModel

  /** The fields `validateSwapData` requires, in its order. */
  datatype FieldName =
    | WalletAddress | TxHash | FromToken | ToToken
    | FromTokenAmount | ToTokenAmount | FromTokenSymbol | ToTokenSymbol

  const RequiredFields: seq<FieldName> :=
    [WalletAddress, TxHash, FromToken, ToToken, FromTokenAmount, ToTokenAmount, FromTokenSymbol, ToTokenSymbol]

  predicate TruthyString(v: Option<string>) {
    v.Some? && v.value != ""
  }

  predicate TruthyNumber(v: Option<real>) {
    v.Some? && v.value != 0.0
  }

  /** `!!swapData[field]` */
  predicate Truthy(d: SwapData, f: FieldName) {
    match f
    case WalletAddress => TruthyString(d.walletAddress)
    case TxHash => TruthyString(d.txhash)
    case FromToken => TruthyString(d.fromToken)
    case ToToken => TruthyString(d.toToken)
    case FromTokenAmount => TruthyNumber(d.fromTokenAmount)
    case ToTokenAmount => TruthyNumber(d.toTokenAmount)
    case FromTokenSymbol => TruthyString(d.fromTokenSymbol)
    case ToTokenSymbol => TruthyString(d.toTokenSymbol)
  }

  datatype ValidationError =
    | MissingField(field: FieldName)
    | InvalidWalletAddress
    | InvalidTxHashLength
    | FromAmountNotPositive
    | ToAmountNotPositive
    | FromDecimalsOutOfRange
    | ToDecimalsOutOfRange
    | FromPriceNotPositive
    | ToPriceNotPositive
    | NegativeFee
    | FeeRateOutOfRange
    | SlippageOutOfRange
    | InvalidNetwork
    | InvalidStatus
    | SameToken

  /** One "Missing required field" error per falsy field of `fields`, in
      order. */
  function MissingErrors(d: SwapData, fields: seq<FieldName>): seq<ValidationError>
    decreases |fields|
  {
    if fields == [] then []
    else
      var last := fields[|fields| - 1];
      MissingErrors(d, fields[..|fields| - 1]) + (if Truthy(d, last) then [] else [MissingField(last)])
  }

  function Flag(c: bool, e: ValidationError): seq<ValidationError> {
    if c then [e] else []
  }

  predicate OutOfUnitRange(x: real) {
    x < 0.0 || x > 1.0
  }

  predicate OutOfDecimalsRange(x: real) {
    x < 0.0 || x > 18.0
  }

  /** Wallet address and transaction hash format. */
  function IdentityErrors(d: SwapData): (e: seq<ValidationError>)
    ensures e == [] <==>
              && (TruthyString(d.walletAddress) ==> StartsWith(d.walletAddress.value, "terra1"))
              && (TruthyString(d.txhash) ==> |d.txhash.value| >= 64)
  {
    Flag(TruthyString(d.walletAddress) && !StartsWith(d.walletAddress.value, "terra1"), InvalidWalletAddress)
    + Flag(TruthyString(d.txhash) && |d.txhash.value| < 64, InvalidTxHashLength)
  }

  /** Both amounts strictly positive. */
  function AmountErrors(d: SwapData): (e: seq<ValidationError>)
    ensures e == [] <==>
              && (TruthyNumber(d.fromTokenAmount) ==> d.fromTokenAmount.value > 0.0)
              && (TruthyNumber(d.toTokenAmount) ==> d.toTokenAmount.value > 0.0)
  {
    Flag(TruthyNumber(d.fromTokenAmount) && d.fromTokenAmount.value <= 0.0, FromAmountNotPositive)
    + Flag(TruthyNumber(d.toTokenAmount) && d.toTokenAmount.value <= 0.0, ToAmountNotPositive)
  }

  /** Both decimal counts within [0, 18]. */
  function DecimalsErrors(d: SwapData): (e: seq<ValidationError>)
    ensures e == [] <==>
              && (TruthyNumber(d.fromTokenDecimals) ==> 0.0 <= d.fromTokenDecimals.value <= 18.0)
              && (TruthyNumber(d.toTokenDecimals) ==> 0.0 <= d.toTokenDecimals.value <= 18.0)
  {
    Flag(TruthyNumber(d.fromTokenDecimals) && OutOfDecimalsRange(d.fromTokenDecimals.value), FromDecimalsOutOfRange)
    + Flag(TruthyNumber(d.toTokenDecimals) && OutOfDecimalsRange(d.toTokenDecimals.value), ToDecimalsOutOfRange)
  }

  /** Both prices strictly positive. */
  function PriceErrors(d: SwapData): (e: seq<ValidationError>)
    ensures e == [] <==>
              && (TruthyNumber(d.fromTokenPrice) ==> d.fromTokenPrice.value > 0.0)
              && (TruthyNumber(d.toTokenPrice) ==> d.toTokenPrice.value > 0.0)
  {
    Flag(TruthyNumber(d.fromTokenPrice) && d.fromTokenPrice.value <= 0.0, FromPriceNotPositive)
    + Flag(TruthyNumber(d.toTokenPrice) && d.toTokenPrice.value <= 0.0, ToPriceNotPositive)
  }

  /** Fee not negative, fee rate within [0, 1]. */
  function FeeErrors(d: SwapData): (e: seq<ValidationError>)
    ensures e == [] <==>
              && (TruthyNumber(d.fee) ==> d.fee.value >= 0.0)
              && (TruthyNumber(d.feeRate) ==> 0.0 <= d.feeRate.value <= 1.0)
  {
    Flag(TruthyNumber(d.fee) && d.fee.value < 0.0, NegativeFee)
    + Flag(TruthyNumber(d.feeRate) && OutOfUnitRange(d.feeRate.value), FeeRateOutOfRange)
  }

  /** Network and status among the enumerated names. */
  function EnumErrors(d: SwapData): (e: seq<ValidationError>)
    ensures e == [] <==>
              && (TruthyString(d.network) ==> d.network.value in NetworkNames)
              && (TruthyString(d.status) ==> d.status.value in StatusNames)
  {
    Flag(TruthyString(d.network) && d.network.value !in NetworkNames, InvalidNetwork)
    + Flag(TruthyString(d.status) && d.status.value !in StatusNames, InvalidStatus)
  }

  /** Slippage within [0, 1]. */
  function SlippageErrors(d: SwapData): (e: seq<ValidationError>)
    ensures e == [] <==> (TruthyNumber(d.slippage) ==> 0.0 <= d.slippage.value <= 1.0)
  {
    Flag(TruthyNumber(d.slippage) && OutOfUnitRange(d.slippage.value), SlippageOutOfRange)
  }

  /** Two different tokens. */
  function PairErrors(d: SwapData): (e: seq<ValidationError>)
    ensures e == [] <==> d.fromToken != d.toToken
  {
    Flag(d.fromToken == d.toToken, SameToken)
  }

  /** The error list `validateSwapData` accumulates, in its order. */
  function ValidationErrors(d: SwapData): seq<ValidationError> {
    MissingErrors(d, RequiredFields) + IdentityErrors(d) + AmountErrors(d) + DecimalsErrors(d) + PriceErrors(d)
    + FeeErrors(d) + SlippageErrors(d) + EnumErrors(d) + PairErrors(d)
  }

  // Each group of checks of `validateSwapData`, pushing onto `errors`.

  method CheckIdentity(d: SwapData, errors: seq<ValidationError>) returns (errors': seq<ValidationError>)
    ensures errors' == errors + IdentityErrors(d)
  {
    errors' := errors;
    if TruthyString(d.walletAddress) && !StartsWith(d.walletAddress.value, "terra1") {
      errors' := errors' + [InvalidWalletAddress];
    }
    if TruthyString(d.txhash) && |d.txhash.value| < 64 {
      errors' := errors' + [InvalidTxHashLength];
    }
    assert errors + IdentityErrors(d) == errors + Flag(TruthyString(d.walletAddress) && !StartsWith(d.walletAddress.value, "terra1"), InvalidWalletAddress) + Flag(TruthyString(d.txhash) && |d.txhash.value| < 64, InvalidTxHashLength);
  }

  method CheckAmounts(d: SwapData, errors: seq<ValidationError>) returns (errors': seq<ValidationError>)
    ensures errors' == errors + AmountErrors(d)
  {
    errors' := errors;
    if TruthyNumber(d.fromTokenAmount) && d.fromTokenAmount.value <= 0.0 {
      errors' := errors' + [FromAmountNotPositive];
    }
    if TruthyNumber(d.toTokenAmount) && d.toTokenAmount.value <= 0.0 {
      errors' := errors' + [ToAmountNotPositive];
    }
    assert errors + AmountErrors(d) == errors + Flag(TruthyNumber(d.fromTokenAmount) && d.fromTokenAmount.value <= 0.0, FromAmountNotPositive) + Flag(TruthyNumber(d.toTokenAmount) && d.toTokenAmount.value <= 0.0, ToAmountNotPositive);
  }

  method CheckDecimals(d: SwapData, errors: seq<ValidationError>) returns (errors': seq<ValidationError>)
    ensures errors' == errors + DecimalsErrors(d)
  {
    errors' := errors;
    if TruthyNumber(d.fromTokenDecimals) && OutOfDecimalsRange(d.fromTokenDecimals.value) {
      errors' := errors' + [FromDecimalsOutOfRange];
    }
    if TruthyNumber(d.toTokenDecimals) && OutOfDecimalsRange(d.toTokenDecimals.value) {
      errors' := errors' + [ToDecimalsOutOfRange];
    }
    assert errors + DecimalsErrors(d) == errors + Flag(TruthyNumber(d.fromTokenDecimals) && OutOfDecimalsRange(d.fromTokenDecimals.value), FromDecimalsOutOfRange) + Flag(TruthyNumber(d.toTokenDecimals) && OutOfDecimalsRange(d.toTokenDecimals.value), ToDecimalsOutOfRange);
  }

  method CheckPrices(d: SwapData, errors: seq<ValidationError>) returns (errors': seq<ValidationError>)
    ensures errors' == errors + PriceErrors(d)
  {
    errors' := errors;
    if TruthyNumber(d.fromTokenPrice) && d.fromTokenPrice.value <= 0.0 {
      errors' := errors' + [FromPriceNotPositive];
    }
    if TruthyNumber(d.toTokenPrice) && d.toTokenPrice.value <= 0.0 {
      errors' := errors' + [ToPriceNotPositive];
    }
    assert errors + PriceErrors(d) == errors + Flag(TruthyNumber(d.fromTokenPrice) && d.fromTokenPrice.value <= 0.0, FromPriceNotPositive) + Flag(TruthyNumber(d.toTokenPrice) && d.toTokenPrice.value <= 0.0, ToPriceNotPositive);
  }

  method CheckFees(d: SwapData, errors: seq<ValidationError>) returns (errors': seq<ValidationError>)
    ensures errors' == errors + FeeErrors(d)
  {
    errors' := errors;
    if TruthyNumber(d.fee) && d.fee.value < 0.0 {
      errors' := errors' + [NegativeFee];
    }
    if TruthyNumber(d.feeRate) && OutOfUnitRange(d.feeRate.value) {
      errors' := errors' + [FeeRateOutOfRange];
    }
    assert errors + FeeErrors(d) == errors + Flag(TruthyNumber(d.fee) && d.fee.value < 0.0, NegativeFee) + Flag(TruthyNumber(d.feeRate) && OutOfUnitRange(d.feeRate.value), FeeRateOutOfRange);
  }

  method CheckSlippage(d: SwapData, errors: seq<ValidationError>) returns (errors': seq<ValidationError>)
    ensures errors' == errors + SlippageErrors(d)
  {
    errors' := errors;
    if TruthyNumber(d.slippage) && OutOfUnitRange(d.slippage.value) {
      errors' := errors' + [SlippageOutOfRange];
    }
  }

  method CheckEnums(d: SwapData, errors: seq<ValidationError>) returns (errors': seq<ValidationError>)
    ensures errors' == errors + EnumErrors(d)
  {
    errors' := errors;
    if TruthyString(d.network) && d.network.value !in NetworkNames {
      errors' := errors' + [InvalidNetwork];
    }
    if TruthyString(d.status) && d.status.value !in StatusNames {
      errors' := errors' + [InvalidStatus];
    }
    assert errors + EnumErrors(d) == errors + Flag(TruthyString(d.network) && d.network.value !in NetworkNames, InvalidNetwork) + Flag(TruthyString(d.status) && d.status.value !in StatusNames, InvalidStatus);
  }

  method CheckPair(d: SwapData, errors: seq<ValidationError>) returns (errors': seq<ValidationError>)
    ensures errors' == errors + PairErrors(d)
  {
    errors' := errors;
    if d.fromToken == d.toToken {
      errors' := errors' + [SameToken];
    }
  }

  /** `validateSwapData` as the code runs it: a loop over the required
      fields and a chain of checks, each pushing onto `errors`. */
  method ValidateSwapData(d: SwapData) returns (isValid: bool, errors: seq<ValidationError>)
    ensures errors == ValidationErrors(d)
    ensures isValid <==> errors == []
  {
    errors := [];
    for i := 0 to |RequiredFields|
      invariant errors == MissingErrors(d, RequiredFields[..i])
    {
      var field := RequiredFields[i];
      assert RequiredFields[..i + 1][..i] == RequiredFields[..i];
      if !Truthy(d, field) {
        errors := errors + [MissingField(field)];
      }
    }
    assert RequiredFields[..|RequiredFields|] == RequiredFields;

    errors := CheckIdentity(d, errors);
    errors := CheckAmounts(d, errors);
    errors := CheckDecimals(d, errors);
    errors := CheckPrices(d, errors);
    errors := CheckFees(d, errors);
    errors := CheckSlippage(d, errors);
    errors := CheckEnums(d, errors);
    errors := CheckPair(d, errors);
    isValid := |errors| == 0;
  }

  /** The missing-field errors of a list of fields are exactly its falsy
      fields. */
  lemma {:induction false} MissingErrorsExactly(d: SwapData, fields: seq<FieldName>, e: ValidationError)
    ensures e in MissingErrors(d, fields) <==> e.MissingField? && e.field in fields && !Truthy(d, e.field)
    ensures MissingErrors(d, fields) == [] <==> forall k :: 0 <= k < |fields| ==> Truthy(d, fields[k])
    decreases |fields|
  {
    if fields != [] {
      var init := fields[..|fields| - 1];
      MissingErrorsExactly(d, init, e);
      assert fields == init + [fields[|fields| - 1]];
      assert forall k :: 0 <= k < |init| ==> init[k] == fields[k];
    }
  }

  /** How often `e` occurs in `s`. */
  function Occurrences(s: seq<ValidationError>, e: ValidationError): nat
    decreases |s|
  {
    if s == [] then 0
    else Occurrences(s[..|s| - 1], e) + (if s[|s| - 1] == e then 1 else 0)
  }

  lemma {:induction false} OccurrencesAppend(a: seq<ValidationError>, b: seq<ValidationError>, e: ValidationError)
    ensures Occurrences(a + b, e) == Occurrences(a, e) + Occurrences(b, e)
    decreases |b|
  {
    if b == [] {
      assert a + b == a;
    } else {
      assert (a + b)[..|a + b| - 1] == a + b[..|b| - 1];
      OccurrencesAppend(a, b[..|b| - 1], e);
    }
  }

  lemma {:induction false} OccurrencesMember(s: seq<ValidationError>, e: ValidationError)
    ensures e in s <==> Occurrences(s, e) > 0
    decreases |s|
  {
    if s != [] {
      var init := s[..|s| - 1];
      OccurrencesMember(init, e);
      assert s == init + [s[|s| - 1]];
    }
  }

  /** A list of distinct fields gets at most one missing-field error per
      field: exactly one for each of its falsy fields. */
  lemma {:induction false} MissingOnce(d: SwapData, fields: seq<FieldName>, e: ValidationError)
    requires forall i, j :: 0 <= i < j < |fields| ==> fields[i] != fields[j]
    ensures Occurrences(MissingErrors(d, fields), e) ==
              if e.MissingField? && e.field in fields && !Truthy(d, e.field) then 1 else 0
    decreases |fields|
  {
    if fields != [] {
      var init := fields[..|fields| - 1];
      var last := fields[|fields| - 1];
      assert fields == init + [last];
      MissingOnce(d, init, e);
      OccurrencesAppend(MissingErrors(d, init), if Truthy(d, last) then [] else [MissingField(last)], e);
      assert last !in init by {
        forall i | 0 <= i < |init| ensures init[i] != last {
          assert init[i] == fields[i];
        }
      }
    }
  }

  /** Every field of the payload that `validateSwapData` requires is one of
      the required fields. */
  lemma AllFieldsRequired(f: FieldName)
    ensures f in RequiredFields
  {
  }

  /** One "Missing required field" error is reported for a field iff that
      field is falsy. */
  lemma MissingFieldIff(d: SwapData, f: FieldName)
    ensures MissingField(f) in ValidationErrors(d) <==> !Truthy(d, f)
  {
    MissingErrorsExactly(d, RequiredFields, MissingField(f));
    AllFieldsRequired(f);
    var e := MissingField(f);
    assert e !in IdentityErrors(d) && e !in AmountErrors(d) && e !in DecimalsErrors(d) && e !in PriceErrors(d);
    assert e !in FeeErrors(d) && e !in SlippageErrors(d) && e !in EnumErrors(d) && e !in PairErrors(d);
  }

  /** A payload whose from-token equals its to-token is always flagged, and
      only such a payload gets that error. */
  lemma SameTokenFlagged(d: SwapData)
    ensures SameToken in ValidationErrors(d) <==> d.fromToken == d.toToken
  {
    MissingErrorsExactly(d, RequiredFields, SameToken);
    var e := SameToken;
    assert e !in IdentityErrors(d) && e !in AmountErrors(d) && e !in DecimalsErrors(d) && e !in PriceErrors(d);
    assert e !in FeeErrors(d) && e !in SlippageErrors(d) && e !in EnumErrors(d);
  }

  /** The condition under which each error is due, stated one error at a
      time: a check on an optional field fires only for a truthy value. */
  predicate Violates(d: SwapData, e: ValidationError) {
    match e
    case MissingField(f) => !Truthy(d, f)
    case InvalidWalletAddress => TruthyString(d.walletAddress) && !StartsWith(d.walletAddress.value, "terra1")
    case InvalidTxHashLength => TruthyString(d.txhash) && |d.txhash.value| < 64
    case FromAmountNotPositive => TruthyNumber(d.fromTokenAmount) && d.fromTokenAmount.value <= 0.0
    case ToAmountNotPositive => TruthyNumber(d.toTokenAmount) && d.toTokenAmount.value <= 0.0
    case FromDecimalsOutOfRange => TruthyNumber(d.fromTokenDecimals) && !(0.0 <= d.fromTokenDecimals.value <= 18.0)
    case ToDecimalsOutOfRange => TruthyNumber(d.toTokenDecimals) && !(0.0 <= d.toTokenDecimals.value <= 18.0)
    case FromPriceNotPositive => TruthyNumber(d.fromTokenPrice) && d.fromTokenPrice.value <= 0.0
    case ToPriceNotPositive => TruthyNumber(d.toTokenPrice) && d.toTokenPrice.value <= 0.0
    case NegativeFee => TruthyNumber(d.fee) && d.fee.value < 0.0
    case FeeRateOutOfRange => TruthyNumber(d.feeRate) && !(0.0 <= d.feeRate.value <= 1.0)
    case SlippageOutOfRange => TruthyNumber(d.slippage) && !(0.0 <= d.slippage.value <= 1.0)
    case InvalidNetwork => TruthyString(d.network) && d.network.value !in NetworkNames
    case InvalidStatus => TruthyString(d.status) && d.status.value !in StatusNames
    case SameToken => d.fromToken == d.toToken
  }

  function Times(c: bool): nat {
    if c then 1 else 0
  }

  /** The two checks of a group, pushed in order, report each of their
      errors at most once. */
  lemma FlagsOccur(c1: bool, e1: ValidationError, c2: bool, e2: ValidationError, e: ValidationError)
    requires e1 != e2
    ensures Occurrences(Flag(c1, e1) + Flag(c2, e2), e) == Times(e == e1 && c1) + Times(e == e2 && c2)
  {
    OccurrencesAppend(Flag(c1, e1), Flag(c2, e2), e);
    assert Occurrences(Flag(c1, e1), e) == Times(e == e1 && c1) by {
      if c1 {
        assert Flag(c1, e1)[..0] == [];
      }
    }
    assert Occurrences(Flag(c2, e2), e) == Times(e == e2 && c2) by {
      if c2 {
        assert Flag(c2, e2)[..0] == [];
      }
    }
  }

  lemma FlagOccurs(c: bool, e1: ValidationError, e: ValidationError)
    ensures Occurrences(Flag(c, e1), e) == Times(e == e1 && c)
  {
    if c {
      assert Flag(c, e1)[..0] == [];
    }
  }

  lemma RequiredFieldsDistinct()
    ensures forall i, j :: 0 <= i < j < |RequiredFields| ==> RequiredFields[i] != RequiredFields[j]
  {
  }

  lemma RequiredReported(d: SwapData, e: ValidationError)
    ensures Occurrences(MissingErrors(d, RequiredFields), e) == Times(e.MissingField? && !Truthy(d, e.field))
  {
    RequiredFieldsDistinct();
    MissingOnce(d, RequiredFields, e);
    if e.MissingField? {
      AllFieldsRequired(e.field);
    }
  }

  /** Each group of checks reports each of its errors once when that error
      is due, and nothing else. */
  lemma IdentityReported(d: SwapData, e: ValidationError)
    ensures Occurrences(IdentityErrors(d), e) == Times(e == InvalidWalletAddress && Violates(d, InvalidWalletAddress)) + Times(e == InvalidTxHashLength && Violates(d, InvalidTxHashLength))
  {
    var c1 := TruthyString(d.walletAddress) && !StartsWith(d.walletAddress.value, "terra1");
    assert Violates(d, InvalidWalletAddress) == c1;
    var c2 := TruthyString(d.txhash) && |d.txhash.value| < 64;
    assert Violates(d, InvalidTxHashLength) == c2;
    assert IdentityErrors(d) == Flag(c1, InvalidWalletAddress) + Flag(c2, InvalidTxHashLength);
    FlagsOccur(c1, InvalidWalletAddress, c2, InvalidTxHashLength, e);
  }

  lemma AmountReported(d: SwapData, e: ValidationError)
    ensures Occurrences(AmountErrors(d), e) == Times(e == FromAmountNotPositive && Violates(d, FromAmountNotPositive)) + Times(e == ToAmountNotPositive && Violates(d, ToAmountNotPositive))
  {
    var c1 := TruthyNumber(d.fromTokenAmount) && d.fromTokenAmount.value <= 0.0;
    assert Violates(d, FromAmountNotPositive) == c1;
    var c2 := TruthyNumber(d.toTokenAmount) && d.toTokenAmount.value <= 0.0;
    assert Violates(d, ToAmountNotPositive) == c2;
    assert AmountErrors(d) == Flag(c1, FromAmountNotPositive) + Flag(c2, ToAmountNotPositive);
    FlagsOccur(c1, FromAmountNotPositive, c2, ToAmountNotPositive, e);
  }

  lemma DecimalsReported(d: SwapData, e: ValidationError)
    ensures Occurrences(DecimalsErrors(d), e) == Times(e == FromDecimalsOutOfRange && Violates(d, FromDecimalsOutOfRange)) + Times(e == ToDecimalsOutOfRange && Violates(d, ToDecimalsOutOfRange))
  {
    var c1 := TruthyNumber(d.fromTokenDecimals) && OutOfDecimalsRange(d.fromTokenDecimals.value);
    assert Violates(d, FromDecimalsOutOfRange) == c1;
    var c2 := TruthyNumber(d.toTokenDecimals) && OutOfDecimalsRange(d.toTokenDecimals.value);
    assert Violates(d, ToDecimalsOutOfRange) == c2;
    assert DecimalsErrors(d) == Flag(c1, FromDecimalsOutOfRange) + Flag(c2, ToDecimalsOutOfRange);
    FlagsOccur(c1, FromDecimalsOutOfRange, c2, ToDecimalsOutOfRange, e);
  }

  lemma PriceReported(d: SwapData, e: ValidationError)
    ensures Occurrences(PriceErrors(d), e) == Times(e == FromPriceNotPositive && Violates(d, FromPriceNotPositive)) + Times(e == ToPriceNotPositive && Violates(d, ToPriceNotPositive))
  {
    var c1 := TruthyNumber(d.fromTokenPrice) && d.fromTokenPrice.value <= 0.0;
    assert Violates(d, FromPriceNotPositive) == c1;
    var c2 := TruthyNumber(d.toTokenPrice) && d.toTokenPrice.value <= 0.0;
    assert Violates(d, ToPriceNotPositive) == c2;
    assert PriceErrors(d) == Flag(c1, FromPriceNotPositive) + Flag(c2, ToPriceNotPositive);
    FlagsOccur(c1, FromPriceNotPositive, c2, ToPriceNotPositive, e);
  }

  lemma FeeReported(d: SwapData, e: ValidationError)
    ensures Occurrences(FeeErrors(d), e) == Times(e == NegativeFee && Violates(d, NegativeFee)) + Times(e == FeeRateOutOfRange && Violates(d, FeeRateOutOfRange))
  {
    var c1 := TruthyNumber(d.fee) && d.fee.value < 0.0;
    assert Violates(d, NegativeFee) == c1;
    var c2 := TruthyNumber(d.feeRate) && OutOfUnitRange(d.feeRate.value);
    assert Violates(d, FeeRateOutOfRange) == c2;
    assert FeeErrors(d) == Flag(c1, NegativeFee) + Flag(c2, FeeRateOutOfRange);
    FlagsOccur(c1, NegativeFee, c2, FeeRateOutOfRange, e);
  }

  lemma SlippageReported(d: SwapData, e: ValidationError)
    ensures Occurrences(SlippageErrors(d), e) == Times(e == SlippageOutOfRange && Violates(d, SlippageOutOfRange))
  {
    var c1 := TruthyNumber(d.slippage) && OutOfUnitRange(d.slippage.value);
    assert Violates(d, SlippageOutOfRange) == c1;
    assert SlippageErrors(d) == Flag(c1, SlippageOutOfRange);
    FlagOccurs(c1, SlippageOutOfRange, e);
  }

  lemma EnumReported(d: SwapData, e: ValidationError)
    ensures Occurrences(EnumErrors(d), e) == Times(e == InvalidNetwork && Violates(d, InvalidNetwork)) + Times(e == InvalidStatus && Violates(d, InvalidStatus))
  {
    var c1 := TruthyString(d.network) && d.network.value !in NetworkNames;
    assert Violates(d, InvalidNetwork) == c1;
    var c2 := TruthyString(d.status) && d.status.value !in StatusNames;
    assert Violates(d, InvalidStatus) == c2;
    assert EnumErrors(d) == Flag(c1, InvalidNetwork) + Flag(c2, InvalidStatus);
    FlagsOccur(c1, InvalidNetwork, c2, InvalidStatus, e);
  }

  lemma PairReported(d: SwapData, e: ValidationError)
    ensures Occurrences(PairErrors(d), e) == Times(e == SameToken && Violates(d, SameToken))
  {
    var c1 := d.fromToken == d.toToken;
    assert Violates(d, SameToken) == c1;
    assert PairErrors(d) == Flag(c1, SameToken);
    FlagOccurs(c1, SameToken, e);
  }

  /** The occurrences in the error list are those of the groups' lists. */
  lemma ErrorsByGroup(d: SwapData, e: ValidationError)
    ensures Occurrences(ValidationErrors(d), e) ==
              Occurrences(MissingErrors(d, RequiredFields), e) + Occurrences(IdentityErrors(d), e)
              + Occurrences(AmountErrors(d), e) + Occurrences(DecimalsErrors(d), e)
              + Occurrences(PriceErrors(d), e) + Occurrences(FeeErrors(d), e)
              + Occurrences(SlippageErrors(d), e) + Occurrences(EnumErrors(d), e)
              + Occurrences(PairErrors(d), e)
  {
    var s1 := MissingErrors(d, RequiredFields);
    var s2 := s1 + IdentityErrors(d);
    var s3 := s2 + AmountErrors(d);
    var s4 := s3 + DecimalsErrors(d);
    var s5 := s4 + PriceErrors(d);
    var s6 := s5 + FeeErrors(d);
    var s7 := s6 + SlippageErrors(d);
    var s8 := s7 + EnumErrors(d);
    OccurrencesAppend(s1, IdentityErrors(d), e);
    OccurrencesAppend(s2, AmountErrors(d), e);
    OccurrencesAppend(s3, DecimalsErrors(d), e);
    OccurrencesAppend(s4, PriceErrors(d), e);
    OccurrencesAppend(s5, FeeErrors(d), e);
    OccurrencesAppend(s6, SlippageErrors(d), e);
    OccurrencesAppend(s7, EnumErrors(d), e);
    OccurrencesAppend(s8, PairErrors(d), e);
    assert ValidationErrors(d) == s8 + PairErrors(d);
  }

  /** Every error `validateSwapData` can report is reported exactly once
      when its condition holds, and not at all otherwise. */
  lemma ReportedOnceIffViolated(d: SwapData, e: ValidationError)
    ensures Occurrences(ValidationErrors(d), e) == Times(Violates(d, e))
    ensures e in ValidationErrors(d) <==> Violates(d, e)
  {
    ErrorsByGroup(d, e);
    RequiredReported(d, e);
    IdentityReported(d, e);
    AmountReported(d, e);
    DecimalsReported(d, e);
    PriceReported(d, e);
    FeeReported(d, e);
    SlippageReported(d, e);
    EnumReported(d, e);
    PairReported(d, e);
    OccurrencesMember(ValidationErrors(d), e);
  }

  /** The rules, stated directly: every required field truthy and every
      guarded range check satisfied. */
  predicate RulesHold(d: SwapData) {
    && (forall f: FieldName :: Truthy(d, f))
    && TruthyString(d.walletAddress) && StartsWith(d.walletAddress.value, "terra1")
    && TruthyString(d.txhash) && |d.txhash.value| >= 64
    && TruthyNumber(d.fromTokenAmount) && d.fromTokenAmount.value > 0.0
    && TruthyNumber(d.toTokenAmount) && d.toTokenAmount.value > 0.0
    && (TruthyNumber(d.fromTokenDecimals) ==> 0.0 <= d.fromTokenDecimals.value <= 18.0)
    && (TruthyNumber(d.toTokenDecimals) ==> 0.0 <= d.toTokenDecimals.value <= 18.0)
    && (TruthyNumber(d.fromTokenPrice) ==> d.fromTokenPrice.value > 0.0)
    && (TruthyNumber(d.toTokenPrice) ==> d.toTokenPrice.value > 0.0)
    && (TruthyNumber(d.fee) ==> d.fee.value >= 0.0)
    && (TruthyNumber(d.feeRate) ==> 0.0 <= d.feeRate.value <= 1.0)
    && (TruthyNumber(d.slippage) ==> 0.0 <= d.slippage.value <= 1.0)
    && (TruthyString(d.network) ==> d.network.value in NetworkNames)
    && (TruthyString(d.status) ==> d.status.value in StatusNames)
    && d.fromToken != d.toToken
  }

  /** `isValid` holds exactly when the rules hold. */
  lemma ValidIffRulesHold(d: SwapData)
    ensures ValidationErrors(d) == [] <==> RulesHold(d)
  {
    var missing := MissingErrors(d, RequiredFields);
    assert |ValidationErrors(d)| ==
           |missing| + |IdentityErrors(d)| + |AmountErrors(d)| + |DecimalsErrors(d)| + |PriceErrors(d)|
           + |FeeErrors(d)| + |SlippageErrors(d)| + |EnumErrors(d)| + |PairErrors(d)|;
    assert (forall f: FieldName :: Truthy(d, f)) ==>
             Truthy(d, WalletAddress) && Truthy(d, TxHash) && Truthy(d, FromTokenAmount) && Truthy(d, ToTokenAmount);
    MissingErrorsExactly(d, RequiredFields, SameToken);
    assert missing == [] <==> forall f: FieldName :: Truthy(d, f) by {
      if missing == [] {
        forall f: FieldName ensures Truthy(d, f) {
          AllFieldsRequired(f);
          var k :| 0 <= k < |RequiredFields| && RequiredFields[k] == f;
        }
      }
    }
  }

  /** A payload that passes validation and the schema stores a record that
      meets the documented business rules on token pair, amounts, fee rate,
      slippage and decimal range; prices are only known not to be
      negative. */
  lemma ValidatedRecordRules(schema: Schema, d: SwapData, now: int)
    requires ValidationErrors(d) == []
    requires ToRecord(schema, d, now).Some?
    ensures var r := ToRecord(schema, d, now).value;
            && r.fromToken != r.toToken
            && r.fromTokenAmount > 0.0 && r.toTokenAmount > 0.0
            && 0.0 <= r.feeRate <= 1.0 && 0.0 <= r.slippage <= 1.0
            && 0.0 <= r.fromTokenDecimals <= 18.0 && 0.0 <= r.toTokenDecimals <= 18.0
            && r.fromTokenPrice >= 0.0 && r.toTokenPrice >= 0.0
  {
    ValidIffRulesHold(d);
  }

  /** A complete, valid Terra Classic payload with the given from-token price. */
  function SamplePayload(fromTokenPrice: real): SwapData {
    SwapData(
      Some("terra1" + "exnef0wrmf864tczt7m7ykvc70juh8p5er9rdj"), Some("terra-classic"), Some("completed"),
      Some(seq(64, _ => 'A')), Some(0), Some("swap"),
      Some(0.0085), Some(0.0085), Some("LUNC"), Some(0.001), Some("LUNC"), Some("LUNC"),
      Some("uluna"), Some(1000.0), Some(6.0), Some("LUNC"), Some(fromTokenPrice),
      Some("uusd"), Some(0.1), Some(6.0), Some("USTC"), Some(1.0),
      Some("terra1jkndu9w5attpz09ut02sgey5dd3e8sq5watzm0"), Some("yourwallet"), Some(0.01))
  }

  /** The price checks run only on truthy prices, and 0 is falsy: a payload
      whose from-token price is 0 passes validation and the schema, and the
      record it becomes does not meet the positive-price condition of the
      business rules. The two checks are separate layers and disagree on
      this one value. */
  lemma ZeroPricePassesValidation(now: int)
    ensures ValidationErrors(SamplePayload(0.0)) == []
    ensures ToRecord(ModelSchema, SamplePayload(0.0), now).Some?
    ensures !BusinessRules(ToRecord(ModelSchema, SamplePayload(0.0), now).value)
  {
    var d := SamplePayload(0.0);
    assert ("terra1" + "exnef0wrmf864tczt7m7ykvc70juh8p5er9rdj")[..6] == "terra1";
    assert d.fromToken != d.toToken;
    assert forall f: FieldName :: Truthy(d, f);
    ValidIffRulesHold(d);
  }

  // ---------------------------------------------------------------------
  // The simpler validation of the first `createValidatedSwap`

  datatype BasicError = BasicMissingField(field: FieldName) | AmountsNotPositive | SlippageNotInRange

  const BasicRequiredFields: seq<FieldName> := [WalletAddress, TxHash, FromToken, ToToken]

  /** All fields before position `k` are truthy. */
  predicate TruthyBefore(d: SwapData, fields: seq<FieldName>, k: int)
    requires 0 <= k <= |fields|
  {
    forall j :: 0 <= j < k ==> Truthy(d, fields[j])
  }

  /** The first falsy field of `fields`, if any. */
  function FirstFalsy(d: SwapData, fields: seq<FieldName>): (r: Option<FieldName>)
    ensures r.Some? ==> r.value in fields && !Truthy(d, r.value)
    ensures r.None? ==> forall k :: 0 <= k < |fields| ==> Truthy(d, fields[k])
    ensures forall k :: 0 <= k < |fields| && !Truthy(d, fields[k]) && TruthyBefore(d, fields, k) ==> r == Some(fields[k])
    decreases |fields|
  {
    if fields == [] then None
    else if !Truthy(d, fields[0]) then Some(fields[0])
    else FirstFalsy(d, fields[1..])
  }

  /** The checks of the first `createValidatedSwap`, which throws at the
      first failure: a missing required field, then a non-positive amount,
      then a slippage outside [0, 1]. A comparison with an absent number is
      false in JavaScript, so absent amounts and slippage pass. */
  function BasicCheck(d: SwapData): (r: Option<BasicError>)
    ensures r.None? <==>
              && (forall k :: 0 <= k < |BasicRequiredFields| ==> Truthy(d, BasicRequiredFields[k]))
              && !(d.fromTokenAmount.Some? && d.fromTokenAmount.value <= 0.0)
              && !(d.toTokenAmount.Some? && d.toTokenAmount.value <= 0.0)
              && !(d.slippage.Some? && OutOfUnitRange(d.slippage.value))
    ensures forall k :: 0 <= k < |BasicRequiredFields| && !Truthy(d, BasicRequiredFields[k]) && TruthyBefore(d, BasicRequiredFields, k) ==>
              r == Some(BasicMissingField(BasicRequiredFields[k]))
    ensures (forall k :: 0 <= k < |BasicRequiredFields| ==> Truthy(d, BasicRequiredFields[k])) ==>
              && ((d.fromTokenAmount.Some? && d.fromTokenAmount.value <= 0.0) || (d.toTokenAmount.Some? && d.toTokenAmount.value <= 0.0)
                  <==> r == Some(AmountsNotPositive))
              && (r == Some(SlippageNotInRange) <==>
                    && !(d.fromTokenAmount.Some? && d.fromTokenAmount.value <= 0.0)
                    && !(d.toTokenAmount.Some? && d.toTokenAmount.value <= 0.0)
                    && d.slippage.Some? && OutOfUnitRange(d.slippage.value))
  {
    match FirstFalsy(d, BasicRequiredFields)
    case Some(f) => Some(BasicMissingField(f))
    case None =>
      if (d.fromTokenAmount.Some? && d.fromTokenAmount.value <= 0.0)
         || (d.toTokenAmount.Some? && d.toTokenAmount.value <= 0.0) then Some(AmountsNotPositive)
      else if d.slippage.Some? && OutOfUnitRange(d.slippage.value) then Some(SlippageNotInRange)
      else None
  }

  /** The full validator is stricter than the simple one: whatever passes
      `validateSwapData` passes the first `createValidatedSwap`'s checks. */
  lemma FullValidationImpliesBasic(d: SwapData)
    requires ValidationErrors(d) == []
    ensures BasicCheck(d).None?
  {
    ValidIffRulesHold(d);
  }
}
