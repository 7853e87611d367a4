/**
  The double-entry ledger: account resolution, append-only entries and derived balances
  (src/modules/payments/infrastructure/prisma-ledger.repository.ts), and the service postings built on
  them (src/modules/payments/application/ledger.service.ts).

  A journal is the abstract reading of the entries table: every entry with its account named by the
  key that identifies it instead of by a generated id.
 */
module Ledger {
  import opened Outcomes
  import opened Sums
  import opened Money
  import opened LedgerTransactions

  datatype OwnerType = Organization | Creator | OrganizationWallet

  datatype SystemKey = PlatformFundingSource | PlatformPayoutSource | PlatformFeeRevenue

  datatype AccountSpec =
    | OwnerSpec(ownerType: OwnerType, ownerId: nat, currencyCode: string)
    | PlatformSpec(systemKey: SystemKey, currencyCode: string)

  /** The unique index an account is looked up by; a platform account is one row for all currencies. */
  datatype AccountKey = OwnerAccount(ownerType: OwnerType, ownerId: nat, currencyCode: string)
                      | PlatformAccount(systemKey: SystemKey)

  function KeyOf(spec: AccountSpec): AccountKey
  {
    match spec
    case OwnerSpec(ownerType, ownerId, currencyCode) => OwnerAccount(ownerType, ownerId, currencyCode)
    case PlatformSpec(systemKey, _) => PlatformAccount(systemKey)
  }

  datatype Posting = Posting(spec: AccountSpec, direction: Direction, amount: Money)

  datatype Entry = Entry(txType: TransactionType, reference: Option<Reference>, line: PostingLine)

  datatype JournalLine = JournalLine(
    txType: TransactionType, reference: Option<Reference>, account: AccountKey, direction: Direction, amount: Money)

  // Derived figures over a journal.

  function SideWeight(account: AccountKey, direction: Direction): JournalLine -> int
  {
    (line: JournalLine) =>
      if line.account == account && line.direction == direction then line.amount.amountMinor else 0
  }

  function SideTotal(journal: seq<JournalLine>, account: AccountKey, direction: Direction): int
  {
    Sum(journal, SideWeight(account, direction))
  }

  function Balance(journal: seq<JournalLine>, account: AccountKey): int
  {
    SideTotal(journal, account, Credit) - SideTotal(journal, account, Debit)
  }

  lemma BalanceConcat(first: seq<JournalLine>, second: seq<JournalLine>, account: AccountKey)
    ensures SideTotal(first + second, account, Credit)
        == SideTotal(first, account, Credit) + SideTotal(second, account, Credit)
    ensures SideTotal(first + second, account, Debit)
        == SideTotal(first, account, Debit) + SideTotal(second, account, Debit)
    ensures Balance(first + second, account) == Balance(first, account) + Balance(second, account)
  {
    SumConcat(first, second, SideWeight(account, Credit));
    SumConcat(first, second, SideWeight(account, Debit));
  }

  // The postings of each service call.

  function FundingPostings(organization: nat, amount: Money): seq<Posting>
  {
    [Posting(OwnerSpec(Organization, organization, amount.currencyCode), Credit, amount),
     Posting(PlatformSpec(PlatformFundingSource, amount.currencyCode), Debit, amount)]
  }

  function RefundPostings(organization: nat, amount: Money): seq<Posting>
  {
    [Posting(OwnerSpec(Organization, organization, amount.currencyCode), Debit, amount),
     Posting(PlatformSpec(PlatformFundingSource, amount.currencyCode), Credit, amount)]
  }

  function TopUpPostings(organization: nat, amount: Money): seq<Posting>
  {
    [Posting(OwnerSpec(OrganizationWallet, organization, amount.currencyCode), Credit, amount),
     Posting(PlatformSpec(PlatformFundingSource, amount.currencyCode), Debit, amount)]
  }

  function WalletFundingPostings(organization: nat, budget: Money, fee: Money): seq<Posting>
  {
    [Posting(OwnerSpec(OrganizationWallet, organization, budget.currencyCode), Debit,
             Money(budget.amountMinor + fee.amountMinor, budget.currencyCode)),
     Posting(OwnerSpec(Organization, organization, budget.currencyCode), Credit, budget)]
    + if 0 < fee.amountMinor
      then [Posting(PlatformSpec(PlatformFeeRevenue, fee.currencyCode), Credit, fee)]
      else []
  }

  function ReturnPostings(organization: nat, amount: Money): seq<Posting>
  {
    [Posting(OwnerSpec(Organization, organization, amount.currencyCode), Debit, amount),
     Posting(OwnerSpec(OrganizationWallet, organization, amount.currencyCode), Credit, amount)]
  }

  function EarningPostings(organization: nat, creator: nat, amount: Money): seq<Posting>
  {
    [Posting(OwnerSpec(Organization, organization, amount.currencyCode), Debit, amount),
     Posting(OwnerSpec(Creator, creator, amount.currencyCode), Credit, amount)]
  }

  function WithdrawalPostings(creator: nat, amount: Money): seq<Posting>
  {
    [Posting(OwnerSpec(Creator, creator, amount.currencyCode), Debit, amount),
     Posting(PlatformSpec(PlatformPayoutSource, amount.currencyCode), Credit, amount)]
  }

  /** The journal lines a successful `postBalanced` adds. */
  function Journalled(txType: TransactionType, reference: Option<Reference>, postings: seq<Posting>)
    : (lines: seq<JournalLine>)
    ensures |lines| == |postings|
  {
    seq(|postings|, i requires 0 <= i < |postings| =>
      JournalLine(txType, reference, KeyOf(postings[i].spec), postings[i].direction, postings[i].amount))
  }

  /** What one posting adds to one side of an account. */
  function Hit(account: AccountKey, direction: Direction): Posting -> int
  {
    (posting: Posting) =>
      if KeyOf(posting.spec) == account && posting.direction == direction then posting.amount.amountMinor else 0
  }

  lemma {:induction false} JournalledSide(
    txType: TransactionType, reference: Option<Reference>, postings: seq<Posting>,
    account: AccountKey, direction: Direction)
    ensures SideTotal(Journalled(txType, reference, postings), account, direction)
            == Sum(postings, Hit(account, direction))
  {
    if postings != [] {
      var n := |postings| - 1;
      JournalledSide(txType, reference, postings[..n], account, direction);
      assert Journalled(txType, reference, postings)[..n] == Journalled(txType, reference, postings[..n]);
    }
  }

  /** Posting adds to each side of each account what the postings say, and nothing else. */
  lemma PostingEffect(
    journal: seq<JournalLine>, txType: TransactionType, reference: Option<Reference>, postings: seq<Posting>,
    account: AccountKey, direction: Direction)
    ensures SideTotal(journal + Journalled(txType, reference, postings), account, direction)
            == SideTotal(journal, account, direction) + Sum(postings, Hit(account, direction))
    ensures |postings| == 2 ==>
              Sum(postings, Hit(account, direction))
              == Hit(account, direction)(postings[0]) + Hit(account, direction)(postings[1])
    ensures |postings| == 3 ==>
              Sum(postings, Hit(account, direction))
              == Hit(account, direction)(postings[0]) + Hit(account, direction)(postings[1])
                 + Hit(account, direction)(postings[2])
  {
    JournalledSide(txType, reference, postings, account, direction);
    SumConcat(journal, Journalled(txType, reference, postings), SideWeight(account, direction));
    if |postings| == 2 {
      SumOfPair(postings, Hit(account, direction));
    } else if |postings| == 3 {
      assert postings == postings[..2] + [postings[2]];
      SumOfPair(postings[..2], Hit(account, direction));
      SumAppend(postings[..2], postings[2], Hit(account, direction));
    }
  }

  lemma SumOfPair<T>(rows: seq<T>, weight: T -> int)
    requires |rows| == 2
    ensures Sum(rows, weight) == weight(rows[0]) + weight(rows[1])
  {
    assert rows == [rows[0], rows[1]];
    SumOfTwo(rows[0], rows[1], weight);
  }

  // What `LedgerTransaction.create` demands, read on postings: account ids play no part in it.

  function SignedPosting(posting: Posting): int
  {
    if posting.direction == Credit then posting.amount.amountMinor else -posting.amount.amountMinor
  }

  predicate BalancedPostings(postings: seq<Posting>)
  {
    && 2 <= |postings|
    && IsCurrencyCode(postings[0].amount.currencyCode)
    && (forall i :: 0 <= i < |postings| ==> postings[i].amount.currencyCode == postings[0].amount.currencyCode)
    && Sum(postings, SignedPosting) == 0
  }

  lemma {:induction false} PostingsNetAsLines(postings: seq<Posting>, lines: seq<PostingLine>)
    requires |lines| == |postings|
    requires forall i :: 0 <= i < |postings| ==>
                           lines[i].direction == postings[i].direction && lines[i].amount == postings[i].amount
    ensures Net(lines) == Sum(postings, SignedPosting)
  {
    if lines != [] {
      PostingsNetAsLines(postings[..|postings| - 1], lines[..|lines| - 1]);
    }
  }

  lemma SumOfTwo<T>(first: T, second: T, weight: T -> int)
    ensures Sum([first, second], weight) == weight(first) + weight(second)
  {
    SumAppend([], first, weight);
    SumAppend([first], second, weight);
    assert [] + [first] == [first] && [first] + [second] == [first, second];
  }

  /** Every two-sided posting balances for any amount in a valid currency. */
  lemma SimplePostingsBalance(organization: nat, creator: nat, amount: Money)
    requires IsCurrencyCode(amount.currencyCode)
    ensures BalancedPostings(FundingPostings(organization, amount))
    ensures BalancedPostings(RefundPostings(organization, amount))
    ensures BalancedPostings(TopUpPostings(organization, amount))
    ensures BalancedPostings(ReturnPostings(organization, amount))
    ensures BalancedPostings(EarningPostings(organization, creator, amount))
    ensures BalancedPostings(WithdrawalPostings(creator, amount))
  {
    forall first, second | SignedPosting(first) == -SignedPosting(second)
      ensures Sum([first, second], SignedPosting) == 0
    {
      SumOfTwo(first, second, SignedPosting);
    }
  }

  /**
    A wallet funding balances exactly when the fee is not negative and, if there is one, it is in the
    budget's currency; a zero fee drops the platform line.
   */
  lemma WalletFundingBalances(organization: nat, budget: Money, fee: Money)
    requires IsCurrencyCode(budget.currencyCode)
    ensures BalancedPostings(WalletFundingPostings(organization, budget, fee)) <==>
            0 <= fee.amountMinor && (0 < fee.amountMinor ==> fee.currencyCode == budget.currencyCode)
  {
    var postings := WalletFundingPostings(organization, budget, fee);
    SumOfTwo(postings[0], postings[1], SignedPosting);
    if 0 < fee.amountMinor {
      SumAppend(postings[..2], postings[2], SignedPosting);
      assert postings == postings[..2] + [postings[2]];
      assert postings[..2] == [postings[0], postings[1]];
    } else {
      assert postings == [postings[0], postings[1]];
    }
  }

  /**
    What a wallet funding does to each account: the wallet pays budget and fee, the brand is credited the budget
    and fee revenue the fee, and nothing else moves.
   */
  lemma WalletFundingMoves(organization: nat, budget: Money, fee: Money, account: AccountKey, direction: Direction)
    requires 0 <= fee.amountMinor
    ensures Sum(WalletFundingPostings(organization, budget, fee), Hit(account, direction)) ==
            if account == OwnerAccount(OrganizationWallet, organization, budget.currencyCode) && direction == Debit
            then budget.amountMinor + fee.amountMinor
            else if account == OwnerAccount(Organization, organization, budget.currencyCode) && direction == Credit
            then budget.amountMinor
            else if account == PlatformAccount(PlatformFeeRevenue) && direction == Credit then fee.amountMinor
            else 0
  {
    PostingEffect([], TransactionType.WalletFunding, None, WalletFundingPostings(organization, budget, fee), account,
                  direction);
  }

  // A platform account is found by its system key alone, so one account serves every currency.

  /** What one line adds to an account's balance, if it is in this currency. */
  function NetIn(account: AccountKey, currencyCode: string): JournalLine -> int
  {
    (line: JournalLine) =>
      if line.account != account || line.amount.currencyCode != currencyCode then 0
      else if line.direction == Credit then line.amount.amountMinor
      else -line.amount.amountMinor
  }

  /** An account's balance counting only the lines in one currency. */
  function BalanceIn(journal: seq<JournalLine>, account: AccountKey): string -> int
  {
    (currencyCode: string) => Sum(journal, NetIn(account, currencyCode))
  }

  function CurrenciesOf(journal: seq<JournalLine>): set<string>
  {
    set line | line in journal :: line.amount.currencyCode
  }

  lemma {:induction false} BalanceByCurrency(journal: seq<JournalLine>, account: AccountKey, currencies: set<string>)
    requires CurrenciesOf(journal) <= currencies
    ensures Balance(journal, account) == SetSum(currencies, BalanceIn(journal, account))
  {
    if journal == [] {
      SetSumZero(currencies, BalanceIn([], account));
    } else {
      var n := |journal| - 1;
      var line, currency := journal[n], journal[n].amount.currencyCode;
      forall earlier | earlier in journal[..n] ensures earlier.amount.currencyCode in CurrenciesOf(journal) {
        assert earlier in journal;
      }
      BalanceByCurrency(journal[..n], account, currencies);
      assert line in journal && currency in currencies;
      SetSumRemove(currencies, currency, BalanceIn(journal, account));
      SetSumRemove(currencies, currency, BalanceIn(journal[..n], account));
      SetSumSame(currencies - {currency}, BalanceIn(journal, account), BalanceIn(journal[..n], account));
    }
  }

  /**
    Whatever was posted, a platform account's balance, asked for in any currency, adds up its nets in all of
    them; it is right for the currency asked for exactly when the others net to nothing together.
   */
  lemma PlatformAccountMixesCurrencies(journal: seq<JournalLine>, key: SystemKey, currencyCode: string)
    ensures
      var account := KeyOf(PlatformSpec(key, currencyCode));
      && Balance(journal, account) == SetSum(CurrenciesOf(journal), BalanceIn(journal, account))
      && (Balance(journal, account) == BalanceIn(journal, account)(currencyCode)
          <==> SetSum(CurrenciesOf(journal) - {currencyCode}, BalanceIn(journal, account)) == 0)
  {
    var account := KeyOf(PlatformSpec(key, currencyCode));
    var all := CurrenciesOf(journal) + {currencyCode};
    BalanceByCurrency(journal, account, CurrenciesOf(journal));
    BalanceByCurrency(journal, account, all);
    SetSumRemove(all, currencyCode, BalanceIn(journal, account));
    assert all - {currencyCode} == CurrenciesOf(journal) - {currencyCode};
  }

  /**
    Two fundings in two currencies debit the same account, whose balance adds up minor units of both, while
    the brand's accounts stay apart.
   */
  lemma TwoCurrenciesMeet(organization: nat, first: Money, second: Money, currencyCode: string)
    requires first.currencyCode != second.currencyCode
    ensures
      var journal := Journalled(CampaignFunding, None, FundingPostings(organization, first))
                     + Journalled(CampaignFunding, None, FundingPostings(organization, second));
      && Balance(journal, KeyOf(PlatformSpec(PlatformFundingSource, currencyCode)))
         == -(first.amountMinor + second.amountMinor)
      && Balance(journal, OwnerAccount(Organization, organization, first.currencyCode)) == first.amountMinor
      && Balance(journal, OwnerAccount(Organization, organization, second.currencyCode)) == second.amountMinor
  {
    var one := Journalled(CampaignFunding, None, FundingPostings(organization, first));
    var other := Journalled(CampaignFunding, None, FundingPostings(organization, second));
    forall account, direction
      ensures SideTotal(one + other, account, direction)
          == FundingSide(organization, first, account, direction)
             + FundingSide(organization, second, account, direction)
    {
      assert [] + one == one;
      PostingEffect([], CampaignFunding, None, FundingPostings(organization, first), account, direction);
      PostingEffect(one, CampaignFunding, None, FundingPostings(organization, second), account, direction);
    }
  }

  /** What one funding adds to one side of an account. */
  function FundingSide(organization: nat, amount: Money, account: AccountKey, direction: Direction): int
  {
    Hit(account, direction)(FundingPostings(organization, amount)[0])
    + Hit(account, direction)(FundingPostings(organization, amount)[1])
  }

  // The stored form.

  predicate AccountsDistinct(accounts: seq<AccountKey>)
  {
    forall i, j :: 0 <= i < j < |accounts| ==> accounts[i] != accounts[j]
  }

  predicate EntriesResolve(accounts: seq<AccountKey>, entries: seq<Entry>)
  {
    forall i :: 0 <= i < |entries| ==> entries[i].line.accountId < |accounts|
  }

  function View(accounts: seq<AccountKey>, entries: seq<Entry>): (journal: seq<JournalLine>)
    requires EntriesResolve(accounts, entries)
    ensures |journal| == |entries|
  {
    seq(|entries|, i requires 0 <= i < |entries| =>
      JournalLine(entries[i].txType, entries[i].reference, accounts[entries[i].line.accountId],
                  entries[i].line.direction, entries[i].line.amount))
  }

  function EntrySide(accountId: nat, direction: Direction): Entry -> int
  {
    (entry: Entry) =>
      if entry.line.accountId == accountId && entry.line.direction == direction then entry.line.amount.amountMinor
      else 0
  }

  function SumByDirection(entries: seq<Entry>, accountId: nat, direction: Direction): int
  {
    Sum(entries, EntrySide(accountId, direction))
  }

  function StoredBalance(entries: seq<Entry>, accountId: nat): int
  {
    SumByDirection(entries, accountId, Credit) - SumByDirection(entries, accountId, Debit)
  }

  /** Entries grouped by account id give the figures of the account with that key, because keys are unique. */
  lemma {:induction false} StoredSideIsJournalSide(
    accounts: seq<AccountKey>, entries: seq<Entry>, accountId: nat, direction: Direction)
    requires AccountsDistinct(accounts) && EntriesResolve(accounts, entries) && accountId < |accounts|
    ensures SumByDirection(entries, accountId, direction)
            == SideTotal(View(accounts, entries), accounts[accountId], direction)
  {
    if entries != [] {
      var n := |entries| - 1;
      StoredSideIsJournalSide(accounts, entries[..n], accountId, direction);
      assert View(accounts, entries)[..n] == View(accounts, entries[..n]);
    }
  }

  // Trial balance.

  function EntryIn(currencyCode: string): Entry -> int
  {
    (entry: Entry) => if entry.line.amount.currencyCode == currencyCode then Signed(entry.line) else 0
  }

  ghost predicate TrialBalance(entries: seq<Entry>)
  {
    forall currencyCode: string :: Sum(entries, EntryIn(currencyCode)) == 0
  }

  function Recorded(transaction: LedgerTransaction): seq<Entry>
  {
    seq(|transaction.lines|, i requires 0 <= i < |transaction.lines| =>
      Entry(transaction.txType, transaction.reference, transaction.lines[i]))
  }

  lemma {:induction false} RecordedNet(transaction: LedgerTransaction, currencyCode: string)
    requires InCurrency(transaction.lines, currencyCode)
    ensures Sum(Recorded(transaction), EntryIn(currencyCode)) == Net(transaction.lines)
    ensures forall other: string :: other != currencyCode ==> Sum(Recorded(transaction), EntryIn(other)) == 0
    decreases |transaction.lines|
  {
    forall other: string | other != currencyCode ensures Sum(Recorded(transaction), EntryIn(other)) == 0 {
      SumZero(Recorded(transaction), EntryIn(other));
    }
    if transaction.lines != [] {
      var n := |transaction.lines| - 1;
      var shorter := transaction.(lines := transaction.lines[..n]);
      RecordedNet(shorter, currencyCode);
      assert Recorded(transaction)[..n] == Recorded(shorter);
    }
  }

  lemma PostingKeepsTrialBalance(entries: seq<Entry>, transaction: LedgerTransaction)
    requires TrialBalance(entries) && Balanced(transaction.lines)
    ensures TrialBalance(entries + Recorded(transaction))
  {
    RecordedNet(transaction, transaction.lines[0].amount.currencyCode);
    forall currencyCode: string ensures Sum(entries + Recorded(transaction), EntryIn(currencyCode)) == 0 {
      SumConcat(entries, Recorded(transaction), EntryIn(currencyCode));
    }
  }

  function TotalOfBalances(entries: seq<Entry>, accountCount: nat): int
  {
    if accountCount == 0 then 0
    else TotalOfBalances(entries, accountCount - 1) + StoredBalance(entries, accountCount - 1)
  }

  lemma {:induction false} TotalOfBalancesAppend(entries: seq<Entry>, entry: Entry, accountCount: nat)
    ensures TotalOfBalances(entries + [entry], accountCount) ==
            TotalOfBalances(entries, accountCount)
            + if entry.line.accountId < accountCount then Signed(entry.line) else 0
  {
    if accountCount > 0 {
      TotalOfBalancesAppend(entries, entry, accountCount - 1);
      SumAppend(entries, entry, EntrySide(accountCount - 1, Credit));
      SumAppend(entries, entry, EntrySide(accountCount - 1, Debit));
    }
  }

  lemma {:induction false} TotalOfBalancesIsNet(entries: seq<Entry>, accountCount: nat)
    requires forall i :: 0 <= i < |entries| ==> entries[i].line.accountId < accountCount
    ensures TotalOfBalances(entries, accountCount) == Sum(entries, (entry: Entry) => Signed(entry.line))
  {
    if entries == [] {
      EmptyBalances(accountCount);
    } else {
      var n := |entries| - 1;
      TotalOfBalancesIsNet(entries[..n], accountCount);
      TotalOfBalancesAppend(entries[..n], entries[n], accountCount);
      assert entries[..n] + [entries[n]] == entries;
    }
  }

  lemma {:induction false} EmptyBalances(accountCount: nat)
    ensures TotalOfBalances([], accountCount) == 0
  {
    if accountCount > 0 {
      EmptyBalances(accountCount - 1);
    }
  }

  function PostAll(entries: seq<Entry>, transactions: seq<LedgerTransaction>): seq<Entry>
    decreases transactions
  {
    if transactions == [] then entries
    else PostAll(entries + Recorded(transactions[0]), transactions[1..])
  }

  /** Debits equal credits in every currency, after any sequence of accepted transactions. */
  lemma {:induction false} TrialBalanceOverAnyRun(entries: seq<Entry>, transactions: seq<LedgerTransaction>)
    requires TrialBalance(entries)
    requires forall i :: 0 <= i < |transactions| ==>
                           Create(transactions[i].txType, transactions[i].reference, transactions[i].lines).Ok?
    ensures TrialBalance(PostAll(entries, transactions))
    decreases transactions
  {
    if transactions != [] {
      var first := transactions[0];
      CreateAcceptsExactlyBalanced(first.txType, first.reference, first.lines);
      PostingKeepsTrialBalance(entries, first);
      TrialBalanceOverAnyRun(entries + Recorded(first), transactions[1..]);
    }
  }

  lemma {:induction false} NetOfAllTransactions(entries: seq<Entry>, transactions: seq<LedgerTransaction>)
    requires forall i :: 0 <= i < |transactions| ==> Balanced(transactions[i].lines)
    ensures Sum(PostAll(entries, transactions), (entry: Entry) => Signed(entry.line))
            == Sum(entries, (entry: Entry) => Signed(entry.line))
    decreases transactions
  {
    if transactions != [] {
      var signed := (entry: Entry) => Signed(entry.line);
      NetOfAllTransactions(entries + Recorded(transactions[0]), transactions[1..]);
      SumConcat(entries, Recorded(transactions[0]), signed);
      var code := transactions[0].lines[0].amount.currencyCode;
      RecordedNet(transactions[0], code);
      SumSame(Recorded(transactions[0]), signed, EntryIn(code));
    }
  }

  /** The derived balances of all accounts, platform accounts included, cancel out. */
  lemma AllBalancesCancel(transactions: seq<LedgerTransaction>, accountCount: nat)
    requires forall i :: 0 <= i < |transactions| ==>
                           Create(transactions[i].txType, transactions[i].reference, transactions[i].lines).Ok?
    requires forall i :: 0 <= i < |PostAll([], transactions)| ==>
                           PostAll([], transactions)[i].line.accountId < accountCount
    ensures TotalOfBalances(PostAll([], transactions), accountCount) == 0
  {
    forall i | 0 <= i < |transactions| ensures Balanced(transactions[i].lines) {
      CreateAcceptsExactlyBalanced(transactions[i].txType, transactions[i].reference, transactions[i].lines);
    }
    NetOfAllTransactions([], transactions);
    TotalOfBalancesIsNet(PostAll([], transactions), accountCount);
  }

  /** Each line carries the id of its posting's account. */
  ghost predicate Resolves(accounts: seq<AccountKey>, lines: seq<PostingLine>, postings: seq<Posting>)
  {
    && |lines| == |postings|
    && forall i :: 0 <= i < |lines| ==>
                     && lines[i].accountId < |accounts|
                     && accounts[lines[i].accountId] == KeyOf(postings[i].spec)
                     && lines[i].direction == postings[i].direction
                     && lines[i].amount == postings[i].amount
  }

  lemma ResolvedBalance(accounts: seq<AccountKey>, lines: seq<PostingLine>, postings: seq<Posting>)
    requires Resolves(accounts, lines, postings)
    ensures Balanced(lines) <==> BalancedPostings(postings)
  {
    PostingsNetAsLines(postings, lines);
    if Balanced(lines) {
      forall i | 0 <= i < |postings|
        ensures postings[i].amount.currencyCode == postings[0].amount.currencyCode
      {
        assert lines[i].amount.currencyCode == lines[0].amount.currencyCode;
      }
    }
  }

  lemma ViewOfRecorded(
    accounts: seq<AccountKey>, entries: seq<Entry>, transaction: LedgerTransaction, postings: seq<Posting>)
    requires EntriesResolve(accounts, entries) && Resolves(accounts, transaction.lines, postings)
    ensures EntriesResolve(accounts, entries + Recorded(transaction))
    ensures View(accounts, entries + Recorded(transaction))
            == View(accounts, entries) + Journalled(transaction.txType, transaction.reference, postings)
  {
  }

  /** Accounts and entries as tables; an account's id is its position. */
  class LedgerService {
    var accounts: seq<AccountKey>
    var entries: seq<Entry>

    ghost predicate Valid()
      reads this
    {
      AccountsDistinct(accounts) && EntriesResolve(accounts, entries) && TrialBalance(entries)
    }

    ghost function Journal(): seq<JournalLine>
      reads this
      requires Valid()
    {
      View(accounts, entries)
    }

    constructor ()
      ensures Valid() && Journal() == []
    {
      accounts, entries := [], [];
    }

    /** Finds the account or creates it; either way the same key always has the same id. */
    method ResolveAccountId(spec: AccountSpec) returns (accountId: nat)
      requires Valid()
      modifies `accounts
      ensures Valid() && Journal() == old(Journal())
      ensures accountId < |accounts| && accounts[accountId] == KeyOf(spec)
      ensures old(accounts) <= accounts && accounts[|old(accounts)|..] <= [KeyOf(spec)]
      ensures KeyOf(spec) in old(accounts) ==> accounts == old(accounts)
    {
      var found := FindBy(accounts, (key: AccountKey) => key, KeyOf(spec));
      if found.Some? {
        accountId := found.value;
      } else {
        accountId := |accounts|;
        accounts := accounts + [KeyOf(spec)];
      }
    }

    method Post(transaction: LedgerTransaction)
      requires Valid() && Balanced(transaction.lines)
      requires forall i :: 0 <= i < |transaction.lines| ==> transaction.lines[i].accountId < |accounts|
      modifies `entries
      ensures Valid() && entries == old(entries) + Recorded(transaction)
    {
      PostingKeepsTrialBalance(entries, transaction);
      entries := entries + Recorded(transaction);
    }

    method BalanceMinor(accountId: nat) returns (balance: int)
      requires Valid()
      ensures accountId < |accounts| ==> balance == Balance(Journal(), accounts[accountId])
      ensures |accounts| <= accountId ==> balance == 0
    {
      var credited := SumByDirection(entries, accountId, Credit);
      var debited := SumByDirection(entries, accountId, Debit);
      balance := credited - debited;
      if accountId < |accounts| {
        StoredSideIsJournalSide(accounts, entries, accountId, Credit);
        StoredSideIsJournalSide(accounts, entries, accountId, Debit);
      } else {
        SumZero(entries, EntrySide(accountId, Credit));
        SumZero(entries, EntrySide(accountId, Debit));
      }
    }

    method ResolveLines(postings: seq<Posting>) returns (lines: seq<PostingLine>)
      requires Valid()
      modifies `accounts
      ensures Valid() && Journal() == old(Journal())
      ensures Resolves(accounts, lines, postings)
    {
      lines := [];
      for i := 0 to |postings|
        invariant Valid() && Journal() == old(Journal())
        invariant Resolves(accounts, lines, postings[..i])
      {
        var accountId := ResolveAccountId(postings[i].spec);
        lines := lines + [PostingLine(accountId, postings[i].direction, postings[i].amount)];
      }
      assert postings[..|postings|] == postings;
    }

    /** Resolves every account, then posts all lines or none. */
    method PostBalanced(txType: TransactionType, reference: Option<Reference>, postings: seq<Posting>)
      returns (result: Result<(), LedgerError>)
      requires Valid()
      modifies this
      ensures Valid()
      ensures result.Ok? <==> BalancedPostings(postings)
      ensures Journal() == old(Journal()) + if result.Ok? then Journalled(txType, reference, postings) else []
    {
      var lines := ResolveLines(postings);
      CreateAcceptsExactlyBalanced(txType, reference, lines);
      ResolvedBalance(accounts, lines, postings);
      var transaction := Create(txType, reference, lines);
      if transaction.Ok? {
        ViewOfRecorded(accounts, entries, transaction.value, postings);
        Post(transaction.value);
        result := Ok(());
      } else {
        result := Err(transaction.error);
      }
    }

    method WalletBalanceMinor(organization: nat, currencyCode: string) returns (balance: int)
      requires Valid()
      modifies `accounts
      ensures Valid() && Journal() == old(Journal())
      ensures balance == Balance(Journal(), OwnerAccount(OrganizationWallet, organization, currencyCode))
    {
      var accountId := ResolveAccountId(OwnerSpec(OrganizationWallet, organization, currencyCode));
      balance := BalanceMinor(accountId);
    }

    method CreatorBalanceMinor(creator: nat, currencyCode: string) returns (balance: int)
      requires Valid()
      modifies `accounts
      ensures Valid() && Journal() == old(Journal())
      ensures balance == Balance(Journal(), OwnerAccount(Creator, creator, currencyCode))
    {
      var accountId := ResolveAccountId(OwnerSpec(Creator, creator, currencyCode));
      balance := BalanceMinor(accountId);
    }
  }
}
