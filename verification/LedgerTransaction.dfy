/**
  A balanced set of postings (src/modules/payments/domain/ledger-transaction.ts). `Create` is the
  code: filter each side, fold it with `Add`, compare the totals. The lemmas relate it to two
  independent notions, one currency throughout and a signed total of zero.
 */
module LedgerTransactions {
  import opened Outcomes
  import opened Sums
  import opened Money

  datatype Direction = Debit | Credit

  datatype TransactionType =
    | CampaignFunding
    | EarningAccrual
    | Withdrawal
    | CampaignRefund
    | WalletTopUp
    | WalletFunding
    | WalletReturn

  /** What a transaction refers to: a table row, or a creator's running total after a credit. */
  datatype Reference = RowReference(id: nat) | EarningReference(campaign: nat, creator: nat, total: int)

  datatype PostingLine = PostingLine(accountId: nat, direction: Direction, amount: Money)

  datatype LedgerTransaction =
    LedgerTransaction(txType: TransactionType, reference: Option<Reference>, lines: seq<PostingLine>)

  datatype LedgerError = TooFewLines | BadMoney(cause: MoneyError) | Unbalanced

  const MIN_LINES := 2

  function Side(lines: seq<PostingLine>, direction: Direction): seq<PostingLine>
  {
    if lines == [] then []
    else if lines[0].direction == direction then [lines[0]] + Side(lines[1..], direction)
    else Side(lines[1..], direction)
  }

  function Fold(sum: Money, lines: seq<PostingLine>): Result<Money, MoneyError>
    decreases lines
  {
    if lines == [] then Ok(sum)
    else
      var next := Add(sum, lines[0].amount);
      if next.Err? then next else Fold(next.value, lines[1..])
  }

  function Total(lines: seq<PostingLine>, direction: Direction, currencyCode: string): Result<Money, MoneyError>
  {
    var zero := Of(0, currencyCode);
    if zero.Err? then zero else Fold(zero.value, Side(lines, direction))
  }

  function Create(txType: TransactionType, reference: Option<Reference>, lines: seq<PostingLine>)
    : Result<LedgerTransaction, LedgerError>
  {
    if |lines| < MIN_LINES then Err(TooFewLines)
    else
      var currencyCode := lines[0].amount.currencyCode;
      var debits := Total(lines, Debit, currencyCode);
      if debits.Err? then Err(BadMoney(debits.error))
      else
        var credits := Total(lines, Credit, currencyCode);
        if credits.Err? then Err(BadMoney(credits.error))
        else if debits.value.amountMinor != credits.value.amountMinor then Err(Unbalanced)
        else Ok(LedgerTransaction(txType, reference, lines))
  }

  // The independent reading of "balanced".

  predicate InCurrency(lines: seq<PostingLine>, currencyCode: string)
  {
    forall i :: 0 <= i < |lines| ==> lines[i].amount.currencyCode == currencyCode
  }

  function Signed(line: PostingLine): int
  {
    if line.direction == Credit then line.amount.amountMinor else -line.amount.amountMinor
  }

  function Net(lines: seq<PostingLine>): int
  {
    Sum(lines, Signed)
  }

  predicate HasSide(lines: seq<PostingLine>, direction: Direction)
  {
    exists i :: 0 <= i < |lines| && lines[i].direction == direction
  }

  function AmountOn(direction: Direction): PostingLine -> int
  {
    (line: PostingLine) => if line.direction == direction then line.amount.amountMinor else 0
  }

  predicate Balanced(lines: seq<PostingLine>)
  {
    && 2 <= |lines|
    && IsCurrencyCode(lines[0].amount.currencyCode)
    && InCurrency(lines, lines[0].amount.currencyCode)
    && Net(lines) == 0
  }

  lemma {:induction false} SumFromFront(lines: seq<PostingLine>, weight: PostingLine -> int)
    requires lines != []
    ensures Sum(lines, weight) == weight(lines[0]) + Sum(lines[1..], weight)
  {
    SumConcat([lines[0]], lines[1..], weight);
    assert [lines[0]] + lines[1..] == lines;
    assert Sum([lines[0]], weight) == Sum([], weight) + weight(lines[0]) by { SumAppend([], lines[0], weight); }
  }

  /** Folding a side succeeds exactly when that side is in the accumulator's currency. */
  lemma {:induction false} FoldSide(sum: Money, lines: seq<PostingLine>, direction: Direction)
    requires IsCurrencyCode(sum.currencyCode)
    ensures Fold(sum, Side(lines, direction)).Ok? <==>
            forall i :: 0 <= i < |lines| && lines[i].direction == direction ==>
                          lines[i].amount.currencyCode == sum.currencyCode
    ensures Fold(sum, Side(lines, direction)).Ok? ==>
              Fold(sum, Side(lines, direction)).value
              == Money(sum.amountMinor + Sum(lines, AmountOn(direction)), sum.currencyCode)
    decreases lines
  {
    if lines != [] {
      var rest := lines[1..];
      SumFromFront(lines, AmountOn(direction));
      if lines[0].direction == direction {
        assert Side(lines, direction)[1..] == Side(rest, direction);
        if lines[0].amount.currencyCode == sum.currencyCode {
          FoldSide(Money(sum.amountMinor + lines[0].amount.amountMinor, sum.currencyCode), rest, direction);
          assert forall i :: 0 < i < |lines| ==> lines[i] == rest[i - 1];
        }
      } else {
        FoldSide(sum, rest, direction);
        assert forall i :: 0 < i < |lines| ==> lines[i] == rest[i - 1];
        assert forall i :: 0 <= i < |rest| ==> rest[i] == lines[i + 1];
      }
    }
  }

  /** The core invariant: a transaction exists exactly for balanced lines in one valid currency. */
  lemma CreateAcceptsExactlyBalanced(txType: TransactionType, reference: Option<Reference>, lines: seq<PostingLine>)
    ensures Create(txType, reference, lines).Ok? <==> Balanced(lines)
    ensures Create(txType, reference, lines).Ok? ==>
              Create(txType, reference, lines).value == LedgerTransaction(txType, reference, lines)
  {
    if MIN_LINES <= |lines| && IsCurrencyCode(lines[0].amount.currencyCode) {
      var zero := Money(0, lines[0].amount.currencyCode);
      FoldSide(zero, lines, Debit);
      FoldSide(zero, lines, Credit);
      SumSplit(lines, AmountOn(Credit), Signed, AmountOn(Debit));
    }
  }

  /** The reason given for a refusal. */
  lemma CreateErrors(txType: TransactionType, reference: Option<Reference>, lines: seq<PostingLine>)
    requires Create(txType, reference, lines).Err?
    ensures Create(txType, reference, lines).error ==
            if |lines| < 2 then TooFewLines
            else if !IsCurrencyCode(lines[0].amount.currencyCode) then BadMoney(InvalidCurrency)
            else if !InCurrency(lines, lines[0].amount.currencyCode) then BadMoney(MismatchedCurrencies)
            else Unbalanced
  {
    if MIN_LINES <= |lines| && IsCurrencyCode(lines[0].amount.currencyCode) {
      var zero := Money(0, lines[0].amount.currencyCode);
      FoldSide(zero, lines, Debit);
      FoldSide(zero, lines, Credit);
      FoldFailsByMismatch(zero, Side(lines, Debit));
      FoldFailsByMismatch(zero, Side(lines, Credit));
    }
  }

  lemma {:induction false} FoldFailsByMismatch(sum: Money, lines: seq<PostingLine>)
    requires IsCurrencyCode(sum.currencyCode)
    ensures Fold(sum, lines).Err? ==> Fold(sum, lines).error == MismatchedCurrencies
    decreases lines
  {
    if lines != [] && Add(sum, lines[0].amount).Ok? {
      FoldFailsByMismatch(Add(sum, lines[0].amount).value, lines[1..]);
    }
  }

  /**
    An accepted transaction lacks a debit or lacks a credit exactly when every amount on its one side
    adds up to nothing; positive amounts rule that out.
   */
  lemma OneSidedOnlyWhenEmpty(lines: seq<PostingLine>)
    requires 2 <= |lines|
    requires IsCurrencyCode(lines[0].amount.currencyCode) && InCurrency(lines, lines[0].amount.currencyCode)
    requires !HasSide(lines, Debit) || !HasSide(lines, Credit)
    ensures Balanced(lines) <==> Sum(lines, (line: PostingLine) => line.amount.amountMinor) == 0
    ensures (forall i :: 0 <= i < |lines| ==> 0 < lines[i].amount.amountMinor) ==> !Balanced(lines)
  {
    var amounts := (line: PostingLine) => line.amount.amountMinor;
    if HasSide(lines, Credit) {
      SumSame(lines, amounts, Signed);
    } else {
      SumSplit(lines, (line: PostingLine) => 0, amounts, Signed);
      SumZero(lines, (line: PostingLine) => 0);
    }
    if forall i :: 0 <= i < |lines| ==> 0 < lines[i].amount.amountMinor {
      SumCovers(lines, 0, amounts);
    }
  }

  /** Two zero debits are accepted, although the refusal message asks for a debit and a credit. */
  lemma ZeroDebitsAreAccepted(accountId: nat)
    ensures
      var line := PostingLine(accountId, Debit, Money(0, "USD"));
      Create(CampaignFunding, None, [line, line]).Ok? && !HasSide([line, line], Credit)
  {
    var line := PostingLine(accountId, Debit, Money(0, "USD"));
    SumZero([line, line], Signed);
    CreateAcceptsExactlyBalanced(CampaignFunding, None, [line, line]);
  }
}
