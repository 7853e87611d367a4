/**
  What a creator is entitled to (src/modules/payments/domain/earnings-calculator.ts) and what the
  platform charges (src/modules/entitlements/services/entitlements.service.ts).
 */
module Entitlement {
  import opened Outcomes
  import opened Money

  datatype RewardType = PerView | FixedPerItem

  const VIEWS_PER_REWARD_UNIT := 1000
  const BASIS_POINTS := 10000

  datatype EntitlementError = NegativeViews | BadMoney(cause: MoneyError)

  datatype EntitlementInput =
    EntitlementInput(rewardType: RewardType, reward: Money, views: int, maxPerCreator: Option<Money>)

  /** Division that rounds toward zero. */
  function Truncate(numerator: int, denominator: int): int
    requires 0 < denominator
  {
    if 0 <= numerator then numerator / denominator else -(-numerator / denominator)
  }

  function GrossMinor(rewardType: RewardType, rewardMinor: int, views: int): int
  {
    match rewardType
    case FixedPerItem => rewardMinor
    case PerView => Truncate(rewardMinor * views, VIEWS_PER_REWARD_UNIT)
  }

  function CalculateCreatorEntitlement(input: EntitlementInput): Result<Money, EntitlementError>
  {
    if input.views < 0 then Err(NegativeViews)
    else
      var gross := Of(GrossMinor(input.rewardType, input.reward.amountMinor, input.views), input.reward.currencyCode);
      if gross.Err? then Err(BadMoney(gross.error))
      else
        match input.maxPerCreator
        case None => Ok(gross.value)
        case Some(cap) =>
          var capped := Min(gross.value, cap);
          if capped.Err? then Err(BadMoney(capped.error)) else Ok(capped.value)
  }

  /** Never more than the rate promises, never a whole unit less. */
  lemma PerViewRoundsDown(rate: nat, views: nat)
    ensures
      var earned := GrossMinor(PerView, rate, views);
      0 <= earned && 1000 * earned <= rate * views < 1000 * (earned + 1)
  {
    assert 0 <= rate * views;
  }

  lemma Distribute(rate: nat, first: nat, second: nat)
    ensures rate * (first + second) == rate * first + rate * second
  {
  }

  /** Reading more views, at once or in two parts, differs by at most one minor unit. */
  lemma SplitViews(rate: nat, first: nat, second: nat)
    ensures
      var together := GrossMinor(PerView, rate, first + second);
      var apart := GrossMinor(PerView, rate, first) + GrossMinor(PerView, rate, second);
      apart <= together <= apart + 1
  {
    PerViewRoundsDown(rate, first);
    PerViewRoundsDown(rate, second);
    PerViewRoundsDown(rate, first + second);
    Distribute(rate, first, second);
  }

  /** More views never lower an entitlement, for either reward type and under any cap. */
  lemma EntitlementIsMonotone(input: EntitlementInput, moreViews: int)
    requires 0 <= input.reward.amountMinor && 0 <= input.views <= moreViews
    requires CalculateCreatorEntitlement(input).Ok?
    ensures CalculateCreatorEntitlement(input.(views := moreViews)).Ok?
    ensures CalculateCreatorEntitlement(input).value.amountMinor
            <= CalculateCreatorEntitlement(input.(views := moreViews)).value.amountMinor
  {
    SplitViews(input.reward.amountMinor, input.views, moreViews - input.views);
    PerViewRoundsDown(input.reward.amountMinor, moreViews - input.views);
  }

  /** When an entitlement exists at all, and how the cap bounds it. */
  lemma EntitlementWithinCap(input: EntitlementInput)
    ensures CalculateCreatorEntitlement(input).Ok? <==>
            && 0 <= input.views
            && IsCurrencyCode(input.reward.currencyCode)
            && (input.maxPerCreator.Some? ==> input.maxPerCreator.value.currencyCode == input.reward.currencyCode)
    ensures CalculateCreatorEntitlement(input).Ok? ==>
              var entitled := CalculateCreatorEntitlement(input).value;
              var gross := GrossMinor(input.rewardType, input.reward.amountMinor, input.views);
              && entitled.currencyCode == input.reward.currencyCode
              && entitled.amountMinor <= gross
              && (input.maxPerCreator.Some? ==> entitled.amountMinor <= input.maxPerCreator.value.amountMinor)
              && (entitled.amountMinor == gross
                  || (input.maxPerCreator.Some? && entitled == input.maxPerCreator.value))
  {
  }

  /** A rate and a view count that fit 31 bits give a total a double holds exactly. */
  lemma EntitlementIsExactInADouble(rate: nat, views: nat)
    requires rate < 0x8000_0000 && views < 0x8000_0000
    ensures 0 <= GrossMinor(PerView, rate, views) < 0x20_0000_0000_0000
  {
    PerViewRoundsDown(rate, views);
    ProductBound(rate, views, 0x8000_0000);
  }

  lemma ProductBound(first: nat, second: nat, limit: nat)
    requires first < limit && second < limit
    ensures first * second <= limit * limit
  {
    assert first * second <= first * limit;
    assert first * limit <= limit * limit;
  }

  /** A plan's platform fee. */
  type Bps = bps: nat | bps <= BASIS_POINTS

  /** `Math.round` of budget times basis points over ten thousand: half a unit rounds up. */
  function FeeMinor(budgetMinor: int, feeBps: int): int
  {
    (2 * budgetMinor * feeBps + BASIS_POINTS) / (2 * BASIS_POINTS)
  }

  /** The fee is the one integer nearest the exact share of ten thousand, upwards on a tie. */
  lemma FeeIsNearest(budgetMinor: int, feeBps: int, fee: int)
    ensures fee == FeeMinor(budgetMinor, feeBps) <==>
            -10000 <= 2 * (budgetMinor * feeBps - 10000 * fee) < 10000
  {
    var share := budgetMinor * feeBps;
    assert 2 * budgetMinor * feeBps == 2 * share;
  }

  /** A plan's fee is never negative and never exceeds the budget it is charged on. */
  lemma FeeWithinBudget(budgetMinor: nat, feeBps: Bps)
    ensures 0 <= FeeMinor(budgetMinor, feeBps) <= budgetMinor
  {
    var share := budgetMinor * feeBps;
    assert 2 * budgetMinor * feeBps == 2 * share;
    assert share <= budgetMinor * BASIS_POINTS;
  }

  // A campaign's terms applied to a creator's views.

  datatype Terms = Terms(rewardType: RewardType, reward: nat, cap: Option<nat>)

  /** The `entitledMinor` of a settlement pass; terms and cap are in the campaign's one currency. */
  function EntitledMinor(terms: Terms, views: nat): (entitled: int)
    ensures 0 <= entitled
    ensures terms.cap.Some? ==> entitled <= terms.cap.value
  {
    var cap := if terms.cap.None? then None else Some(Money(terms.cap.value, "USD"));
    var input := EntitlementInput(terms.rewardType, Money(terms.reward, "USD"), views, cap);
    assert CalculateCreatorEntitlement(input).Ok? by { EntitlementWithinCap(input); }
    assert 0 <= terms.reward * views;
    CalculateCreatorEntitlement(input).value.amountMinor
  }

  /**
    What these terms promise for so many views, told without the calculator: the flat reward, or the reward per
    thousand views rounded down, and never more than the cap.
   */
  predicate Promised(terms: Terms, views: nat, amount: int)
  {
    && (terms.cap.Some? ==> amount <= terms.cap.value)
    && match terms.rewardType
       case FixedPerItem => amount <= terms.reward && (amount == terms.reward || terms.cap == Some(amount))
       case PerView =>
         && 1000 * amount <= terms.reward * views
         && (terms.reward * views < 1000 * (amount + 1) || terms.cap == Some(amount))
  }

  /** Exactly one amount is promised, and it is what the pass reads as the entitlement. */
  lemma EntitledIsPromised(terms: Terms, views: nat, amount: int)
    ensures Promised(terms, views, amount) <==> amount == EntitledMinor(terms, views)
  {
    PerViewRoundsDown(terms.reward, views);
  }
}
