/** Amounts in integer minor units with a currency code (src/modules/payments/domain/money.ts). */
module Money {
  import opened Outcomes

  datatype MoneyError = InvalidCurrency | MismatchedCurrencies

  datatype Money = Money(amountMinor: int, currencyCode: string)

  /** Exactly three letters A to Z. */
  predicate IsCurrencyCode(code: string)
  {
    |code| == 3 && forall i :: 0 <= i < 3 ==> 'A' <= code[i] <= 'Z'
  }

  function Of(amountMinor: int, currencyCode: string): Result<Money, MoneyError>
  {
    if IsCurrencyCode(currencyCode) then Ok(Money(amountMinor, currencyCode)) else Err(InvalidCurrency)
  }

  function Add(first: Money, second: Money): Result<Money, MoneyError>
  {
    if first.currencyCode != second.currencyCode then Err(MismatchedCurrencies)
    else Of(first.amountMinor + second.amountMinor, first.currencyCode)
  }

  function Min(first: Money, second: Money): Result<Money, MoneyError>
  {
    if first.currencyCode != second.currencyCode then Err(MismatchedCurrencies)
    else if first.amountMinor <= second.amountMinor then Ok(first) else Ok(second)
  }
}
