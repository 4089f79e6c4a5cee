/** The fee endpoint `feeCalculate` and its helper `calculateFee`, in exact
    decimal arithmetic. */
module Fees {
  import opened Wrappers
  import SwapBuilder

  const CommissionRate: real := 0.0085
  const NetworkFee: real := 0.001

  datatype FeeBreakdown = FeeBreakdown(commission: real, networkFee: real, totalFee: real, commissionRate: real, amount: real)

  /** `calculateFee`: the commission is the amount times the rate, the
      network fee is fixed, and the total is their sum. */
  function CalculateFee(amount: real): (f: FeeBreakdown)
    ensures f.amount == amount && f.commissionRate == CommissionRate && f.networkFee == NetworkFee
    ensures f.totalFee - f.networkFee == f.commission
    ensures amount != 0.0 ==> f.commission / amount == CommissionRate
    ensures amount > 0.0 ==> 0.0 < f.commission < amount && f.totalFee > NetworkFee
  {
    var commission := amount * CommissionRate;
    FeeBreakdown(commission, NetworkFee, commission + NetworkFee, CommissionRate, amount)
  }

  /** Fees are linear in the amount: the commission of a sum is the sum of
      the commissions. */
  lemma CalculateFeeAdditive(a: real, b: real)
    ensures CalculateFee(a + b).commission == CalculateFee(a).commission + CalculateFee(b).commission
  {
  }

  /** The integer commission the swap builder carves out is the floor of
      this exact commission. */
  lemma {:induction false} IntegerCommissionIsFloor(amount: nat)
    ensures (SwapBuilder.Commission(amount) as real) <= CalculateFee(amount as real).commission
    ensures CalculateFee(amount as real).commission < (SwapBuilder.Commission(amount) as real) + 1.0
  {
    SwapBuilder.CommissionCarvedOut(amount);
  }

  datatype FeeError = MissingParams | InvalidAmount

  datatype FeeResponse = FeeOk(fee: FeeBreakdown) | FeeRejected(error: FeeError)

  /** `feeCalculate`. `amount` is the parsed `amount` field, `None` when it
      is missing or empty; `fromToken` is "" when missing. */
  function FeeCalculate(amount: Option<real>, fromToken: string): (r: FeeResponse)
    ensures (amount.None? || fromToken == "") <==> r == FeeRejected(MissingParams)
    ensures r == FeeRejected(InvalidAmount) <==> amount.Some? && fromToken != "" && amount.value <= 0.0
    ensures r.FeeOk? <==> amount.Some? && fromToken != "" && amount.value > 0.0
    ensures r.FeeOk? ==> r.fee == CalculateFee(amount.value)
  {
    if amount.None? || fromToken == "" then FeeRejected(MissingParams)
    else if amount.value <= 0.0 then FeeRejected(InvalidAmount)
    else FeeOk(CalculateFee(amount.value))
  }
}
