/** The settlement view of a position slice against a refreshed market, shared by the
    liquidation gate and by settlement. */
module Evaluations {
  import opened FixedPoint
  import opened Types
  import opened RiskMath

  datatype Evaluation = Evaluation(
    pnl: int, borrowFee: int, fundingFee: int,
    effectiveFunding: int, protocolCut: int, effectiveHealth: int)

  function PayerOi(market: Market, isLong: bool): int {
    if isLong then market.shortOi else market.longOi
  }

  function ReceiverOi(market: Market, isLong: bool): int {
    if isLong then market.longOi else market.shortOi
  }

  /** A receiver's funding scaled by payer over receiver open interest, so that the
      receivers together cannot take more than the payers owe. */
  function ZeroSumFunding(market: Market, isLong: bool, fundingFee: int): int {
    var payerOi, receiverOi := PayerOi(market, isLong), ReceiverOi(market, isLong);
    if fundingFee <= 0 then fundingFee
    else if receiverOi <= 0 then 0
    else if payerOi >= receiverOi then fundingFee
    else TDiv(fundingFee * payerOi, receiverOi)
  }

  function Evaluate(market: Market, markPrice: int, pos: Position, size: int, collateral: int,
                    fundingCutBps: int): Evaluation
  {
    var pnl := UnrealizedPnl(size, pos.entryPrice, markPrice, pos.isLong);
    var borrowFee := BorrowFee(size, pos.entryBorrowIndex, market.accBorrowIndex);
    var fundingFee := FundingFee(size, pos.entryFundingIndex, market.accFundingIndex, pos.isLong);
    var zeroSum := ZeroSumFunding(market, pos.isLong, fundingFee);
    var cut := if zeroSum > 0 then TDiv(zeroSum * fundingCutBps, BPS) else 0;
    var effective := zeroSum - cut;
    Evaluation(pnl, borrowFee, fundingFee, effective, cut, collateral + pnl - borrowFee + effective)
  }

  /** What the liquidation gate compares health against. */
  function LiquidationThreshold(collateral: int, thresholdBps: int): int {
    TDiv(collateral * thresholdBps, BPS)
  }

  predicate Liquidatable(market: Market, markPrice: int, pos: Position, fundingCutBps: int, thresholdBps: int) {
    Evaluate(market, markPrice, pos, pos.size, pos.collateral, fundingCutBps).effectiveHealth
    < LiquidationThreshold(pos.collateral, thresholdBps)
  }

  lemma ThresholdBounds(collateral: int, thresholdBps: int)
    requires collateral >= 0 && 0 <= thresholdBps <= 1_000
    ensures 0 <= LiquidationThreshold(collateral, thresholdBps) <= collateral / 10
    ensures Truncates(collateral * thresholdBps, BPS, LiquidationThreshold(collateral, thresholdBps))
  {
    hide TDiv;
    MulLe(0, thresholdBps, collateral);
    MulLe(thresholdBps, 1_000, collateral);
    TDivBounds(collateral * thresholdBps, BPS);
  }

  /** Scaling never flips or enlarges a funding accrual. */
  lemma ZeroSumBounds(market: Market, isLong: bool, fundingFee: int)
    requires market.longOi >= 0 && market.shortOi >= 0
    ensures fundingFee <= 0 ==> ZeroSumFunding(market, isLong, fundingFee) == fundingFee
    ensures fundingFee > 0 ==> 0 <= ZeroSumFunding(market, isLong, fundingFee) <= fundingFee
  {
    hide TDiv;
    var payerOi, receiverOi := PayerOi(market, isLong), ReceiverOi(market, isLong);
    if fundingFee > 0 && 0 <= payerOi < receiverOi {
      MulLe(0, payerOi, fundingFee);
      MulLe(payerOi, receiverOi, fundingFee);
      TDivBounds(fundingFee * payerOi, receiverOi);
      MultiplesOrdered(TDiv(fundingFee * payerOi, receiverOi), fundingFee, receiverOi);
    }
  }

  /** The identities settlement relies on: effective health decomposes exactly, the
      protocol cut is never negative, and borrow is never negative once the market index
      has passed the entry index. */
  lemma EvaluationFacts(market: Market, markPrice: int, pos: Position, size: int, collateral: int,
                        fundingCutBps: int)
    requires market.longOi >= 0 && market.shortOi >= 0
    requires 0 <= fundingCutBps <= BPS
    ensures var ev := Evaluate(market, markPrice, pos, size, collateral, fundingCutBps);
            && ev.effectiveHealth == collateral + ev.pnl - ev.borrowFee + ev.effectiveFunding
            && 0 <= ev.protocolCut
            && (ev.fundingFee <= 0 ==> ev.effectiveFunding == ev.fundingFee && ev.protocolCut == 0)
            && (ev.fundingFee >= 0 ==> 0 <= ev.effectiveFunding <= ev.fundingFee - ev.protocolCut)
            && (size >= 0 && pos.entryBorrowIndex <= market.accBorrowIndex ==> ev.borrowFee >= 0)
  {
    hide TDiv, BorrowFee, FundingFee, UnrealizedPnl, ZeroSumFunding;
    var fundingFee := FundingFee(size, pos.entryFundingIndex, market.accFundingIndex, pos.isLong);
    var zeroSum := ZeroSumFunding(market, pos.isLong, fundingFee);
    ZeroSumBounds(market, pos.isLong, fundingFee);
    if zeroSum > 0 {
      ShareBounds(zeroSum, fundingCutBps);
    }
    if size >= 0 && pos.entryBorrowIndex <= market.accBorrowIndex {
      BorrowFeeMonotone(size, pos.entryBorrowIndex, market.accBorrowIndex, market.accBorrowIndex);
    }
  }

  /** What a slice settles, part by part and without dividing: the price move's share of the
      size, the index moves' shares, a receiver's funding scaled down to what the payers of
      its market owe, and the protocol's cut of what is left. */
  lemma EvaluationExact(market: Market, markPrice: int, pos: Position, size: int, collateral: int,
                        fundingCutBps: int)
    requires pos.entryPrice > 0
    ensures var ev := Evaluate(market, markPrice, pos, size, collateral, fundingCutBps);
            var gain := if pos.isLong then markPrice - pos.entryPrice else pos.entryPrice - markPrice;
            var against := (market.accFundingIndex - pos.entryFundingIndex) * size;
            && Truncates(size * gain, pos.entryPrice, ev.pnl)
            && Truncates((market.accBorrowIndex - pos.entryBorrowIndex) * size, INDEX_PRECISION, ev.borrowFee)
            && Truncates(if pos.isLong then -against else against, INDEX_PRECISION, ev.fundingFee)
            && SharesFunding(market, pos.isLong, ev, fundingCutBps)
            && ev.effectiveHealth == collateral + ev.pnl - ev.borrowFee + ev.effectiveFunding
  {
    hide TDiv, UnrealizedPnl, BorrowFee, FundingFee;
    PositionPnlExact(size, pos.entryPrice, markPrice, pos.isLong);
    BorrowFeeExact(size, pos.entryBorrowIndex, market.accBorrowIndex);
    FundingFeeExact(size, pos.entryFundingIndex, market.accFundingIndex, pos.isLong);
    var fundingFee := FundingFee(size, pos.entryFundingIndex, market.accFundingIndex, pos.isLong);
    var payer, receiver := PayerOi(market, pos.isLong), ReceiverOi(market, pos.isLong);
    var zeroSum := ZeroSumFunding(market, pos.isLong, fundingFee);
    if receiver > 0 {
      TDivBounds(fundingFee * payer, receiver);
    }
    TDivBounds(zeroSum * fundingCutBps, BPS);
  }

  /** How a position's raw funding is split into what it settles and the protocol's cut. */
  predicate SharesFunding(market: Market, isLong: bool, ev: Evaluation, cutBps: int) {
    var payer := if isLong then market.shortOi else market.longOi;
    var receiver := if isLong then market.longOi else market.shortOi;
    var shared := ev.effectiveFunding + ev.protocolCut;
    && (ev.fundingFee <= 0 || payer >= receiver > 0 ==> shared == ev.fundingFee)
    && (ev.fundingFee > 0 && receiver <= 0 ==> shared == 0)
    && (ev.fundingFee > 0 && payer < receiver && receiver > 0 ==> Truncates(ev.fundingFee * payer, receiver, shared))
    && (if shared > 0 then Truncates(shared * cutBps, BPS, ev.protocolCut) else ev.protocolCut == 0)
  }

  // ----- Zero-sum funding across a whole market -----

  function SizeOnSide(ps: seq<Position>, isLong: bool): int {
    if ps == [] then 0
    else (if ps[0].isLong == isLong then ps[0].size else 0) + SizeOnSide(ps[1..], isLong)
  }

  function EffectiveFunding(market: Market, pos: Position, fundingCutBps: int): int {
    Evaluate(market, 0, pos, pos.size, pos.collateral, fundingCutBps).effectiveFunding
  }

  /** Total effective funding credited to the positions of a market. */
  function FundingReceived(market: Market, ps: seq<Position>, cutBps: int): int {
    if ps == [] then 0
    else Max(0, EffectiveFunding(market, ps[0], cutBps)) + FundingReceived(market, ps[1..], cutBps)
  }

  /** Total effective funding debited from the positions of a market. */
  function FundingPaid(market: Market, ps: seq<Position>, cutBps: int): int {
    if ps == [] then 0
    else Max(0, -EffectiveFunding(market, ps[0], cutBps)) + FundingPaid(market, ps[1..], cutBps)
  }

  function Count(ps: seq<Position>, isLong: bool): nat {
    if ps == [] then 0 else (if ps[0].isLong == isLong then 1 else 0) + Count(ps[1..], isLong)
  }

  /** Positive sizes sharing one entry funding index. */
  predicate SameEntry(ps: seq<Position>, entry: int) {
    forall i :: 0 <= i < |ps| ==> ps[i].size > 0 && ps[i].entryFundingIndex == entry
  }

  lemma {:induction false} SizeOnSideNonNegative(ps: seq<Position>, entry: int, isLong: bool)
    requires SameEntry(ps, entry)
    ensures SizeOnSide(ps, isLong) >= Count(ps, isLong)
    ensures Count(ps, isLong) == 0 ==> SizeOnSide(ps, isLong) == 0
  {
    if ps != [] {
      SizeOnSideNonNegative(ps[1..], entry, isLong);
    }
  }

  /** A funding accrual is the same magnitude for both directions: payers owe what
      receivers of the same size are owed before scaling. */
  lemma FundingMagnitude(size: int, entry: int, index: int, isLong: bool, payLong: bool) returns (gain: int)
    requires size > 0
    requires payLong ==> index >= entry
    requires !payLong ==> index <= entry
    ensures FundingFee(size, entry, index, isLong) == if isLong == payLong then -gain else gain
    ensures gain >= 0
    ensures INDEX_PRECISION * gain <= Abs(index - entry) * size < INDEX_PRECISION * gain + INDEX_PRECISION
  {
    hide TDiv;
    var delta := Abs(index - entry);
    MulLe(0, delta, size);
    gain := TDiv(delta * size, INDEX_PRECISION);
    TDivBounds(delta * size, INDEX_PRECISION);
    TDivNegate(delta * size, INDEX_PRECISION);
    if index - entry != delta {
      Distribute(0, delta, size);
      assert (index - entry) * size == (0 - delta) * size;
    }
  }

  /** One position's funding: a payer owes its accrual up to one unit, a receiver gets at
      most its share of it. */
  lemma FundingOfOne(market: Market, pos: Position, entry: int, cutBps: int, payLong: bool)
    requires market.longOi >= 0 && market.shortOi >= 0 && 0 <= cutBps <= BPS
    requires pos.size > 0 && pos.entryFundingIndex == entry
    requires payLong ==> market.accFundingIndex >= entry
    requires !payLong ==> market.accFundingIndex <= entry
    ensures var delta := Abs(market.accFundingIndex - entry);
            var f := EffectiveFunding(market, pos, cutBps);
            if pos.isLong == payLong then
              f <= 0 && pos.size * delta <= (1 - f) * INDEX_PRECISION - 1
            else
              && 0 <= f
              && f * (INDEX_PRECISION * ReceiverOi(market, pos.isLong))
                 <= pos.size * (delta * Min(PayerOi(market, pos.isLong), ReceiverOi(market, pos.isLong)))
  {
    hide TDiv, ZeroSumFunding, UnrealizedPnl, BorrowFee, FundingFee, Abs, Min;
    var delta := Abs(market.accFundingIndex - entry);
    var gain := FundingMagnitude(pos.size, entry, market.accFundingIndex, pos.isLong, payLong);
    var f := EffectiveFunding(market, pos, cutBps);
    EvaluationFacts(market, 0, pos, pos.size, pos.collateral, cutBps);
    if pos.isLong == payLong {
      Distribute(1, f, INDEX_PRECISION);
      assert f == -gain;
    } else {
      ReceiverBound(market, pos.isLong, gain, f, delta * pos.size, cutBps);
      Regroup(delta, pos.size, Min(PayerOi(market, pos.isLong), ReceiverOi(market, pos.isLong)));
    }
  }

  lemma ReceiverBound(market: Market, isLong: bool, gain: int, f: int, owed: int, cutBps: int)
    requires market.longOi >= 0 && market.shortOi >= 0 && 0 <= cutBps <= BPS
    requires gain >= 0 && INDEX_PRECISION * gain <= owed
    requires var z := ZeroSumFunding(market, isLong, gain);
             f == z - (if z > 0 then TDiv(z * cutBps, BPS) else 0)
    ensures f * (INDEX_PRECISION * ReceiverOi(market, isLong))
            <= owed * Min(PayerOi(market, isLong), ReceiverOi(market, isLong))
  {
    hide TDiv, ZeroSumFunding;
    var z := ZeroSumFunding(market, isLong, gain);
    var receiver, least := ReceiverOi(market, isLong), Min(PayerOi(market, isLong), ReceiverOi(market, isLong));
    ZeroSumBounds(market, isLong, gain);
    if z > 0 {
      ShareBounds(z, cutBps);
    }
    ScaledReceiver(market, isLong, gain);
    ChainedShare(f, z, gain, owed, receiver, least);
  }

  lemma ChainedShare(f: int, z: int, gain: int, owed: int, receiver: int, least: int)
    requires f <= z && receiver >= 0 && least >= 0
    requires z * receiver <= gain * least && INDEX_PRECISION * gain <= owed
    ensures f * (INDEX_PRECISION * receiver) <= owed * least
  {
    MulLe(f, z, receiver);
    MulLe(f * receiver, gain * least, INDEX_PRECISION);
    MulLe(INDEX_PRECISION * gain, owed, least);
    Regroup(f, INDEX_PRECISION, receiver);
    Regroup(INDEX_PRECISION, gain, least);
  }

  /** The scaled accrual never exceeds the payer-to-receiver share. */
  lemma ScaledReceiver(market: Market, isLong: bool, gain: int)
    requires market.longOi >= 0 && market.shortOi >= 0 && gain >= 0
    ensures ZeroSumFunding(market, isLong, gain) * ReceiverOi(market, isLong)
            <= gain * Min(PayerOi(market, isLong), ReceiverOi(market, isLong))
  {
    hide TDiv;
    var payer, receiver := PayerOi(market, isLong), ReceiverOi(market, isLong);
    if gain > 0 && 0 <= payer < receiver {
      MulLe(0, payer, gain);
      TDivBounds(gain * payer, receiver);
    }
  }

  /** Both sides summed: receivers stay under their share of the accrual, and payers
      owe it up to one unit each. */
  lemma {:induction false} FundingSums(market: Market, ps: seq<Position>, entry: int, cutBps: int, payLong: bool)
    requires market.longOi >= 0 && market.shortOi >= 0 && 0 <= cutBps <= BPS
    requires SameEntry(ps, entry)
    requires payLong ==> market.accFundingIndex >= entry
    requires !payLong ==> market.accFundingIndex <= entry
    ensures var delta := Abs(market.accFundingIndex - entry);
            var payer, receiver := PayerOi(market, !payLong), ReceiverOi(market, !payLong);
            var paid, received := FundingPaid(market, ps, cutBps), FundingReceived(market, ps, cutBps);
            && received >= 0 && paid >= 0
            && received * (INDEX_PRECISION * receiver) <= SizeOnSide(ps, !payLong) * (delta * Min(payer, receiver))
            && SizeOnSide(ps, payLong) * delta <= (paid + Count(ps, payLong)) * INDEX_PRECISION - Count(ps, payLong)
  {
    hide EffectiveFunding, Min, Abs, PayerOi, ReceiverOi;
    if ps != [] {
      var p, rest := ps[0], ps[1..];
      FundingSums(market, rest, entry, cutBps, payLong);
      FundingOfOne(market, p, entry, cutBps, payLong);
      var delta := Abs(market.accFundingIndex - entry);
      var f := EffectiveFunding(market, p, cutBps);
      if p.isLong == payLong {
        Distribute(p.size, SizeOnSide(rest, payLong), delta);
      } else {
        var least := Min(PayerOi(market, !payLong), ReceiverOi(market, !payLong));
        Distribute(f, FundingReceived(market, rest, cutBps), INDEX_PRECISION * ReceiverOi(market, !payLong));
        Distribute(p.size, SizeOnSide(rest, !payLong), delta * least);
      }
    }
  }

  /** For any positions that make up a market's open interest and share one entry
      funding index, the funding received is less than the funding paid plus one unit per
      payer, and nothing is received when there is no payer. */
  lemma FundingIsZeroSum(market: Market, ps: seq<Position>, entry: int, cutBps: int)
    requires SameEntry(ps, entry) && 0 <= cutBps <= BPS
    requires market.longOi == SizeOnSide(ps, true) && market.shortOi == SizeOnSide(ps, false)
    ensures var payers := Count(ps, market.accFundingIndex >= entry);
            var received, paid := FundingReceived(market, ps, cutBps), FundingPaid(market, ps, cutBps);
            && (payers > 0 ==> received < paid + payers)
            && (payers == 0 ==> received == 0)
  {
    var payLong := market.accFundingIndex >= entry;
    SizeOnSideNonNegative(ps, entry, true);
    SizeOnSideNonNegative(ps, entry, false);
    FundingSums(market, ps, entry, cutBps, payLong);
    if SizeOnSide(ps, !payLong) > 0 {
      CompareFunding(FundingReceived(market, ps, cutBps), FundingPaid(market, ps, cutBps), Count(ps, payLong),
                     SizeOnSide(ps, payLong), SizeOnSide(ps, !payLong), Abs(market.accFundingIndex - entry));
    } else {
      NoReceivers(market, ps, cutBps, payLong, entry);
    }
  }

  lemma CompareFunding(received: nat, paid: nat, payers: nat, payer: int, receiver: int, delta: nat)
    requires receiver > 0 && payer >= 0 && (payers == 0 ==> payer == 0)
    requires received * (INDEX_PRECISION * receiver) <= receiver * (delta * Min(payer, receiver))
    requires payer * delta <= (paid + payers) * INDEX_PRECISION - payers
    ensures payers > 0 ==> received < paid + payers
    ensures payers == 0 ==> received == 0
  {
    var least := Min(payer, receiver);
    assert received * (INDEX_PRECISION * receiver) == receiver * (received * INDEX_PRECISION);
    MultiplesOrdered(received * INDEX_PRECISION, delta * least, receiver);
    MulLe(least, payer, delta);
    if payers == 0 {
      assert delta * payer == 0;
    }
  }

  lemma {:induction false} NoReceivers(market: Market, ps: seq<Position>, cutBps: int, payLong: bool, entry: int)
    requires market.longOi >= 0 && market.shortOi >= 0 && 0 <= cutBps <= BPS
    requires SameEntry(ps, entry)
    requires payLong ==> market.accFundingIndex >= entry
    requires !payLong ==> market.accFundingIndex <= entry
    requires SizeOnSide(ps, !payLong) == 0
    ensures FundingReceived(market, ps, cutBps) == 0 && FundingPaid(market, ps, cutBps) >= 0
  {
    hide Evaluate;
    if ps != [] {
      SizeOnSideNonNegative(ps[1..], entry, !payLong);
      FundingOfOne(market, ps[0], entry, cutBps, payLong);
      NoReceivers(market, ps[1..], cutBps, payLong, entry);
    }
  }
}
