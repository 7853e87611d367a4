/**
  The `creatorEarning` table, one row per campaign and creator, and the conditional writes on it
  (src/modules/payments/application/earnings-settlement.service.ts:258-299).
 */
module EarningTable {
  import opened Outcomes
  import opened Sums

  /** The unique index. */
  datatype EarningKey = EarningKey(campaign: nat, creator: nat)

  datatype Earning = Earning(accrued: int, currency: string)

  type Earnings = map<EarningKey, Earning>

  /** The stored row, or nothing. */
  function RowAt(rows: Earnings, key: EarningKey): Option<Earning>
  {
    if key in rows then Some(rows[key]) else None
  }

  /** The stored running total, or nothing. */
  function Lookup(rows: Earnings, key: EarningKey): Option<int>
  {
    if key in rows then Some(rows[key].accrued) else None
  }

  /** The running total as a pass reads it: 0 without a row. */
  function Accrued(rows: Earnings, key: EarningKey): int
  {
    if key in rows then rows[key].accrued else 0
  }

  /** `updateMany` guarded by the expected total: the table after it and whether a row matched. */
  function UpdateMany(rows: Earnings, key: EarningKey, expected: int, total: int): (Earnings, bool)
  {
    if Lookup(rows, key) == Some(expected) then (rows[key := rows[key].(accrued := total)], true)
    else (rows, false)
  }

  /** `create`, refused by the unique index when the row exists. */
  function CreateFirst(rows: Earnings, key: EarningKey, total: int, currency: string): (Earnings, bool)
  {
    if key in rows then (rows, false) else (rows[key := Earning(total, currency)], true)
  }

  /** The claim with nothing in between its two statements. */
  function Claim(rows: Earnings, key: EarningKey, currency: string, expected: int, total: int): (Earnings, bool)
  {
    var (updated, matched) := UpdateMany(rows, key, expected, total);
    if matched then (updated, true)
    else if expected != 0 then (rows, false)
    else CreateFirst(rows, key, total, currency)
  }

  /** A claim is won exactly when the running total still is what the pass read. */
  lemma ClaimWinsOnlyUnchanged(rows: Earnings, key: EarningKey, currency: string, expected: int, total: int)
    ensures
      var (after, won) := Claim(rows, key, currency, expected, total);
      && (won <==> Accrued(rows, key) == expected)
      && (forall other :: other != key ==> RowAt(after, other) == RowAt(rows, other))
      && Lookup(after, key) == (if won then Some(total) else Lookup(rows, key))
  {
  }

  // Aggregates over the table.

  /** Which rows an aggregate covers, by key and currency. */
  type Filter = (EarningKey, string) -> bool

  function Contribution(rows: Earnings, filter: Filter): EarningKey -> int
  {
    (key: EarningKey) => if key in rows && filter(key, rows[key].currency) then rows[key].accrued else 0
  }

  ghost function SumAccrued(rows: Earnings, filter: Filter): int
  {
    SetSum(rows.Keys, Contribution(rows, filter))
  }

  function OfCampaign(campaign: nat): Filter
  {
    (key: EarningKey, currency: string) => key.campaign == campaign
  }

  ghost function CampaignAccrued(rows: Earnings, campaign: nat): int
  {
    SumAccrued(rows, OfCampaign(campaign))
  }

  /** Writing one row moves an aggregate by the change of that row alone. */
  lemma WriteMovesSums(rows: Earnings, key: EarningKey, row: Earning, filter: Filter)
    ensures
      SumAccrued(rows[key := row], filter)
      == SumAccrued(rows, filter)
         - Contribution(rows, filter)(key)
         + (if filter(key, row.currency) then row.accrued else 0)
  {
    var after := rows[key := row];
    var rest := rows.Keys - {key};
    SetSumSame(rest, Contribution(rows, filter), Contribution(after, filter));
    SetSumRemove(after.Keys, key, Contribution(after, filter));
    assert after.Keys - {key} == rest;
    if key in rows {
      SetSumRemove(rows.Keys, key, Contribution(rows, filter));
    } else {
      assert rest == rows.Keys;
    }
  }

  ghost predicate CurrencyOf(rows: Earnings, campaign: nat, currency: string)
  {
    forall key :: key in rows && key.campaign == campaign ==> rows[key].currency == currency
  }

  /** Every aggregate that covers the claimed row moves by the claimed amount, every other stays. */
  lemma ClaimMovesSums(
    rows: Earnings, key: EarningKey, currency: string, expected: int, total: int, filter: Filter)
    requires CurrencyOf(rows, key.campaign, currency)
    ensures
      var (after, won) := Claim(rows, key, currency, expected, total);
      && CurrencyOf(after, key.campaign, currency)
      && SumAccrued(after, filter) ==
         SumAccrued(rows, filter) + if won && filter(key, currency) then total - expected else 0
  {
    WriteMovesSums(rows, key, Earning(total, currency), filter);
    if key in rows {
      assert rows[key].(accrued := total) == Earning(total, currency);
    }
  }
}
