/**
  One settlement pass over a campaign, run without interference
  (src/modules/payments/application/earnings-settlement.service.ts:143-189, 206-215, 228-256).

  `SettleUpTo` is the loop after some number of creators. The lemmas compare it with what the service
  promises: the credited total, work conservation, idempotence, no drift.
 */
module Settlement {
  import opened Outcomes
  import opened Sums
  import opened EarningTable

  /** What a pass has read apart from the running totals; `entitled` is each creator's total entitlement. */
  datatype Pass = Pass(
    campaign: nat, currency: string, creatorIds: seq<nat>, entitled: nat -> int, views: nat -> nat, paused: set<nat>)

  datatype Credit = Credit(creator: nat, amount: int, total: int)

  datatype CreatorSettlement =
    CreatorSettlement(creator: nat, views: nat, accrued: int, creditedNow: int, paused: bool)

  /** The loop's variables. A pass is aborted once a ledger posting has thrown. */
  datatype Progress = Progress(
    rows: Earnings, budget: int, credits: seq<Credit>, creators: seq<CreatorSettlement>, aborted: bool)

  function Max(a: int, b: int): int
  {
    if a < b then b else a
  }

  function Min(a: int, b: int): int
  {
    if a < b then a else b
  }

  function CreditMinor(pass: Pass, creator: nat, already: int, budget: int): int
  {
    if creator in pass.paused then 0 else Max(0, Min(pass.entitled(creator) - already, budget))
  }

  /** What `accrue` leaves behind: it claims, posts, and gives the claim back if the posting throws. */
  datatype Accrual = Accrual(rows: Earnings, credited: bool, threw: bool)

  function Accrue(rows: Earnings, key: EarningKey, currency: string, credit: int, previous: int,
      postFails: bool): Accrual
  {
    var claim := Claim(rows, key, currency, previous, previous + credit);
    if !claim.1 then Accrual(rows, false, false)
    else if postFails then Accrual(Claim(claim.0, key, currency, previous + credit, previous).0, false, true)
    else Accrual(claim.0, true, false)
  }

  function Report(pass: Pass, progress: Progress, creator: nat, already: int, now: int): Progress
  {
    progress.(budget := progress.budget - now,
              creators := progress.creators + [CreatorSettlement(creator, pass.views(creator), already + now, now,
                                                                 creator in pass.paused)])
  }

  function SettleOne(pass: Pass, snapshot: Earnings, progress: Progress, creator: nat, postFails: bool): Progress
  {
    var key := EarningKey(pass.campaign, creator);
    var already := Accrued(snapshot, key);
    var credit := CreditMinor(pass, creator, already, progress.budget);
    if credit <= 0 then Report(pass, progress, creator, already, 0)
    else
      var accrual := Accrue(progress.rows, key, pass.currency, credit, already, postFails);
      if accrual.threw then progress.(rows := accrual.rows, aborted := true)
      else if accrual.credited then
        var credits := progress.credits + [Credit(creator, credit, already + credit)];
        Report(pass, progress.(rows := accrual.rows, credits := credits), creator, already, credit)
      else Report(pass, progress, creator, already, 0)
  }

  function Start(rows: Earnings, budget: int): Progress
  {
    Progress(rows, budget, [], [], false)
  }

  /** The loop after the first `n` creators; the posting for the creator at `failAt` throws. */
  function SettleUpTo(pass: Pass, rows: Earnings, budget: int, failAt: Option<nat>, n: nat): Progress
    requires n <= |pass.creatorIds|
  {
    if n == 0 then Start(rows, budget)
    else
      var before := SettleUpTo(pass, rows, budget, failAt, n - 1);
      if before.aborted then before
      else SettleOne(pass, rows, before, pass.creatorIds[n - 1], failAt == Some(n - 1))
  }

  function Settle(pass: Pass, rows: Earnings, budget: int, failAt: Option<nat>): Progress
  {
    SettleUpTo(pass, rows, budget, failAt, |pass.creatorIds|)
  }

  // What a pass ought to do.

  function Want(pass: Pass, rows: Earnings): nat -> int
  {
    (creator: nat) =>
      if creator in pass.paused then 0
          else Max(0, pass.entitled(creator) - Accrued(rows, EarningKey(pass.campaign, creator)))
  }

  function Gain(pass: Pass, before: Earnings, after: Earnings, creator: nat): int
  {
    Accrued(after, EarningKey(pass.campaign, creator)) - Accrued(before, EarningKey(pass.campaign, creator))
  }

  function AmountOf(): Credit -> int
  {
    (credit: Credit) => credit.amount
  }

  function AmountWhere(campaign: nat, currency: string, filter: Filter): Credit -> int
  {
    (credit: Credit) => if filter(EarningKey(campaign, credit.creator), currency) then credit.amount else 0
  }

  /** The budget spent is the credits made. */
  ghost predicate SoundMoney(budget: int, progress: Progress)
  {
    && Sum(progress.credits, AmountOf()) == budget - progress.budget
    && (forall i :: 0 <= i < |progress.credits| ==> 0 < progress.credits[i].amount)
    && Min(budget, 0) <= progress.budget <= budget
  }

  /** No total moves beyond what is owed, and none outside the campaign. */
  ghost predicate SoundTotals(pass: Pass, rows: Earnings, progress: Progress)
  {
    && CurrencyOf(progress.rows, pass.campaign, pass.currency)
    && (forall u: nat :: 0 <= Gain(pass, rows, progress.rows, u) <= Want(pass, rows)(u))
    && (forall key: EarningKey :: key.campaign != pass.campaign ==> RowAt(progress.rows, key) == RowAt(rows, key))
  }

  /** Facts every prefix of a pass satisfies, aborted or not. */
  ghost predicate Sound(pass: Pass, rows: Earnings, budget: int, progress: Progress)
  {
    SoundMoney(budget, progress) && SoundTotals(pass, rows, progress)
  }

  /** What `accrue` does to the table, told by the running totals. */
  lemma AccrueEffect(rows: Earnings, key: EarningKey, currency: string, credit: int, previous: int, postFails: bool)
    ensures
      var accrual := Accrue(rows, key, currency, credit, previous, postFails);
      var won := Accrued(rows, key) == previous;
      && accrual.threw == (won && postFails)
      && accrual.credited == (won && !postFails)
      && Moves(rows, accrual.rows, key, if accrual.credited then credit else 0)
  {
  }

  /** A claim given back leaves every aggregate where it was. */
  lemma GivenBackRestoresSums(
    rows: Earnings, claimed: Earnings, key: EarningKey, currency: string, credit: int, previous: int, filter: Filter)
    requires CurrencyOf(rows, key.campaign, currency)
    requires Claim(rows, key, currency, previous, previous + credit) == (claimed, true)
    ensures
      var back := Claim(claimed, key, currency, previous + credit, previous).0;
      CurrencyOf(back, key.campaign, currency) && SumAccrued(back, filter) == SumAccrued(rows, filter)
  {
    var total := previous + credit;
    ClaimMovesSums(rows, key, currency, previous, total, filter);
    assert Accrued(claimed, key) == total;
    ClaimMovesSums(claimed, key, currency, total, previous, filter);
    ClaimWinsOnlyUnchanged(claimed, key, currency, total, previous);
  }

  /** What `accrue` does to any aggregate. */
  lemma AccrueMovesSums(
    rows: Earnings, key: EarningKey, currency: string, credit: int, previous: int, postFails: bool, filter: Filter)
    requires CurrencyOf(rows, key.campaign, currency)
    ensures
      var accrual := Accrue(rows, key, currency, credit, previous, postFails);
      && CurrencyOf(accrual.rows, key.campaign, currency)
      && SumAccrued(accrual.rows, filter)
         == SumAccrued(rows, filter) + if accrual.credited && filter(key, currency) then credit else 0
  {
    var (claimed, won) := Claim(rows, key, currency, previous, previous + credit);
    if won && postFails {
      GivenBackRestoresSums(rows, claimed, key, currency, credit, previous, filter);
    } else {
      ClaimMovesSums(rows, key, currency, previous, previous + credit, filter);
      assert !won ==> claimed == rows;
    }
  }

  /** Only this running total moved, by this much. */
  ghost predicate Moves(before: Earnings, after: Earnings, key: EarningKey, amount: int)
  {
    && Accrued(after, key) == Accrued(before, key) + amount
    && forall other :: other != key ==> RowAt(after, other) == RowAt(before, other)
  }

  /** The credit one turn makes. */
  function Now(pass: Pass, snapshot: Earnings, progress: Progress, creator: nat, postFails: bool): int
  {
    var key := EarningKey(pass.campaign, creator);
    if Accrued(progress.rows, key) == Accrued(snapshot, key) && !postFails
    then CreditMinor(pass, creator, Accrued(snapshot, key), progress.budget) else 0
  }

  /** One creator's turn, told by the running totals, the budget and the credits. */
  lemma SettleOneEffect(
    pass: Pass, snapshot: Earnings, progress: Progress, creator: nat, postFails: bool, filter: Filter)
    requires CurrencyOf(progress.rows, pass.campaign, pass.currency) && !progress.aborted
    ensures
      var after := SettleOne(pass, snapshot, progress, creator, postFails);
      var key := EarningKey(pass.campaign, creator);
      var already := Accrued(snapshot, key);
      var now := Now(pass, snapshot, progress, creator, postFails);
      && CurrencyOf(after.rows, pass.campaign, pass.currency)
      && Moves(progress.rows, after.rows, key, now)
      && after.budget == progress.budget - now
      && after.credits == (if 0 < now then progress.credits + [Credit(creator, now, already + now)]
          else progress.credits)
      && (after.aborted ==> postFails)
      && (!after.aborted ==>
            after == Report(pass, progress.(rows := after.rows, credits := after.credits), creator, already, now)
            && (postFails && Accrued(progress.rows, key) == already ==>
                  CreditMinor(pass, creator, already, progress.budget) == 0))
      && SumAccrued(after.rows, filter)
         == SumAccrued(progress.rows, filter) + if filter(key, pass.currency) then now else 0
  {
    var key := EarningKey(pass.campaign, creator);
    var already := Accrued(snapshot, key);
    var credit := CreditMinor(pass, creator, already, progress.budget);
    AccrueEffect(progress.rows, key, pass.currency, credit, already, postFails);
    AccrueMovesSums(progress.rows, key, pass.currency, credit, already, postFails, filter);
  }

  lemma OneTurnKeepsMoney(pass: Pass, rows: Earnings, budget: int, before: Progress, creator: nat, postFails: bool)
    requires CurrencyOf(before.rows, pass.campaign, pass.currency)
    requires SoundMoney(budget, before) && !before.aborted
    ensures SoundMoney(budget, SettleOne(pass, rows, before, creator, postFails))
  {
    SettleOneEffect(pass, rows, before, creator, postFails, OfCampaign(pass.campaign));
    var now := Now(pass, rows, before, creator, postFails);
    if 0 < now {
      SumAppend(before.credits, Credit(creator, now, Accrued(rows, EarningKey(pass.campaign, creator)) + now),
          AmountOf());
    }
  }

  lemma OneTurnKeepsTotals(pass: Pass, rows: Earnings, before: Progress, creator: nat, postFails: bool)
    requires SoundTotals(pass, rows, before) && !before.aborted
    ensures SoundTotals(pass, rows, SettleOne(pass, rows, before, creator, postFails))
  {
    SettleOneEffect(pass, rows, before, creator, postFails, OfCampaign(pass.campaign));
    var after := SettleOne(pass, rows, before, creator, postFails);
    assert 0 <= Gain(pass, rows, before.rows, creator) <= Want(pass, rows)(creator);
    forall u: nat ensures 0 <= Gain(pass, rows, after.rows, u) <= Want(pass, rows)(u) {
      assert 0 <= Gain(pass, rows, before.rows, u) <= Want(pass, rows)(u);
      if u != creator {
        assert RowAt(after.rows, EarningKey(pass.campaign, u)) == RowAt(before.rows, EarningKey(pass.campaign, u));
      }
    }
  }

  lemma {:induction false} PassIsSound(pass: Pass, rows: Earnings, budget: int, failAt: Option<nat>, n: nat)
    requires n <= |pass.creatorIds| && CurrencyOf(rows, pass.campaign, pass.currency)
    ensures Sound(pass, rows, budget, SettleUpTo(pass, rows, budget, failAt, n))
  {
    if n > 0 {
      PassIsSound(pass, rows, budget, failAt, n - 1);
      var before := SettleUpTo(pass, rows, budget, failAt, n - 1);
      if !before.aborted {
        OneTurnKeepsMoney(pass, rows, budget, before, pass.creatorIds[n - 1], failAt == Some(n - 1));
        OneTurnKeepsTotals(pass, rows, before, pass.creatorIds[n - 1], failAt == Some(n - 1));
      }
    }
  }

  /** Rows and credits move together, whatever the rows are grouped by. */
  lemma {:induction false} CreditsMatchRows(
    pass: Pass, rows: Earnings, budget: int, failAt: Option<nat>, n: nat, filter: Filter)
    requires n <= |pass.creatorIds| && CurrencyOf(rows, pass.campaign, pass.currency)
    ensures
      var progress := SettleUpTo(pass, rows, budget, failAt, n);
      SumAccrued(progress.rows, filter)
      == SumAccrued(rows, filter) + Sum(progress.credits, AmountWhere(pass.campaign, pass.currency, filter))
  {
    if n > 0 {
      CreditsMatchRows(pass, rows, budget, failAt, n - 1, filter);
      PassIsSound(pass, rows, budget, failAt, n - 1);
      var before := SettleUpTo(pass, rows, budget, failAt, n - 1);
      if !before.aborted {
        var u := pass.creatorIds[n - 1];
        var now := Now(pass, rows, before, u, failAt == Some(n - 1));
        SettleOneEffect(pass, rows, before, u, failAt == Some(n - 1), filter);
        SumAppend(before.credits, Credit(u, now, Accrued(rows, EarningKey(pass.campaign, u)) + now),
                  AmountWhere(pass.campaign, pass.currency, filter));
      }
    }
  }

  /** The campaign's running totals grow by exactly what the pass takes from its budget. */
  lemma BudgetPaysForGains(pass: Pass, rows: Earnings, budget: int, failAt: Option<nat>)
    requires CurrencyOf(rows, pass.campaign, pass.currency)
    ensures
      var after := Settle(pass, rows, budget, failAt);
      && CampaignAccrued(after.rows, pass.campaign) - CampaignAccrued(rows, pass.campaign) == budget - after.budget
      && Min(budget, 0) <= after.budget <= budget
  {
    PassIsSound(pass, rows, budget, failAt, |pass.creatorIds|);
    CreditsMatchRows(pass, rows, budget, failAt, |pass.creatorIds|, OfCampaign(pass.campaign));
    var after := Settle(pass, rows, budget, failAt);
    SumSame(after.credits, AmountOf(), AmountWhere(pass.campaign, pass.currency, OfCampaign(pass.campaign)));
  }

  /** Facts of a prefix that has not been aborted. */
  ghost predicate Exact(pass: Pass, rows: Earnings, budget: int, progress: Progress, seen: set<nat>)
  {
    && budget - progress.budget == Max(0, Min(budget, SetSum(seen, Want(pass, rows))))
    && (forall u: nat :: u !in seen ==> Gain(pass, rows, progress.rows, u) == 0)
    && (budget < SetSum(seen, Want(pass, rows))
        || forall u: nat :: u in seen ==> Gain(pass, rows, progress.rows, u) == Want(pass, rows)(u))
  }

  /** The budget side of one turn: a shortfall `owed` joins the amount owed so far. */
  lemma TurnBudget(budget: int, left: int, owedSoFar: int, owed: int)
    requires 0 <= owedSoFar && budget - left == Max(0, Min(budget, owedSoFar))
    ensures budget - (left - Max(0, Min(owed, left))) == Max(0, Min(budget, owedSoFar + Max(0, owed)))
    ensures owedSoFar + Max(0, owed) <= budget ==> Max(0, Min(owed, left)) == Max(0, owed)
  {
  }

  lemma OneTurnGains(pass: Pass, rows: Earnings, before: Progress, creator: nat, postFails: bool, u: nat)
    requires CurrencyOf(before.rows, pass.campaign, pass.currency) && !before.aborted
    requires !SettleOne(pass, rows, before, creator, postFails).aborted
    ensures
      var after := SettleOne(pass, rows, before, creator, postFails);
      && Gain(pass, rows, after.rows, u) == Gain(pass, rows, before.rows, u)
         + (if u == creator then before.budget - after.budget else 0)
      && before.budget - after.budget ==
         if Gain(pass, rows, before.rows, creator) == 0
         then CreditMinor(pass, creator, Accrued(rows, EarningKey(pass.campaign, creator)), before.budget) else 0
  {
    SettleOneEffect(pass, rows, before, creator, postFails, OfCampaign(pass.campaign));
    assert RowAt(before.rows, EarningKey(pass.campaign, u)) == RowAt(before.rows, EarningKey(pass.campaign, u));
  }

  /** One turn told by gains and budget alone: only this creator gains, by what it is credited. */
  ghost predicate TurnOf(pass: Pass, rows: Earnings, before: Progress, after: Progress, creator: nat)
  {
    && (forall u: nat :: Gain(pass, rows, after.rows, u) ==
          Gain(pass, rows, before.rows, u) + if u == creator then before.budget - after.budget else 0)
    && before.budget - after.budget ==
       if Gain(pass, rows, before.rows, creator) == 0
       then CreditMinor(pass, creator, Accrued(rows, EarningKey(pass.campaign, creator)), before.budget) else 0
  }

  /** What a creator is credited when `owed` is what those before were owed. */
  lemma NewcomerCredit(pass: Pass, rows: Earnings, budget: int, left: int, owed: int, creator: nat, credit: int)
    requires 0 <= owed && budget - left == Max(0, Min(budget, owed))
    requires credit == CreditMinor(pass, creator, Accrued(rows, EarningKey(pass.campaign, creator)), left)
    ensures budget - (left - credit) == Max(0, Min(budget, owed + Want(pass, rows)(creator)))
    ensures owed + Want(pass, rows)(creator) <= budget ==> credit == Want(pass, rows)(creator)
  {
    if creator in pass.paused {
      TurnBudget(budget, left, owed, 0);
    } else {
      TurnBudget(budget, left, owed, pass.entitled(creator) - Accrued(rows, EarningKey(pass.campaign, creator)));
    }
  }

  lemma NewcomerIsExact(
    pass: Pass, rows: Earnings, budget: int, before: Progress, after: Progress, seen: set<nat>, creator: nat)
    requires Exact(pass, rows, budget, before, seen) && TurnOf(pass, rows, before, after, creator)
    requires creator !in seen
    ensures Exact(pass, rows, budget, after, seen + {creator})
  {
    var want := Want(pass, rows);
    SetSumNonNegative(seen, want);
    SetSumAdd(seen, creator, want);
    NewcomerCredit(pass, rows, budget, before.budget, SetSum(seen, want), creator, before.budget - after.budget);
    forall u: nat | u != creator ensures Gain(pass, rows, after.rows, u) == Gain(pass, rows, before.rows, u) {
    }
  }

  lemma RepeatIsExact(
    pass: Pass, rows: Earnings, budget: int, before: Progress, after: Progress, seen: set<nat>, creator: nat)
    requires SoundMoney(budget, before)
    requires Exact(pass, rows, budget, before, seen) && TurnOf(pass, rows, before, after, creator)
    requires creator in seen
    ensures Exact(pass, rows, budget, after, seen + {creator})
  {
    assert seen + {creator} == seen;
    SetSumNonNegative(seen, Want(pass, rows));
    RepeatKeepsBudget(pass, rows, budget, before, after, seen, creator);
    forall u: nat ensures Gain(pass, rows, after.rows, u) == Gain(pass, rows, before.rows, u) {
    }
  }

  /** A creator met before is either whole already, or the budget is gone. */
  lemma RepeatKeepsBudget(
    pass: Pass, rows: Earnings, budget: int, before: Progress, after: Progress, seen: set<nat>, creator: nat)
    requires SoundMoney(budget, before)
    requires Exact(pass, rows, budget, before, seen) && TurnOf(pass, rows, before, after, creator)
    requires creator in seen
    ensures after.budget == before.budget
  {
    if budget < SetSum(seen, Want(pass, rows)) {
      assert before.budget <= 0;
    } else {
      assert Gain(pass, rows, before.rows, creator) == Want(pass, rows)(creator);
    }
  }

  lemma OneTurnIsExact(
    pass: Pass, rows: Earnings, budget: int, before: Progress, seen: set<nat>, creator: nat, postFails: bool)
    requires Sound(pass, rows, budget, before) && !before.aborted
    requires Exact(pass, rows, budget, before, seen)
    requires !SettleOne(pass, rows, before, creator, postFails).aborted
    ensures Exact(pass, rows, budget, SettleOne(pass, rows, before, creator, postFails), seen + {creator})
  {
    var after := SettleOne(pass, rows, before, creator, postFails);
    forall u: nat
      ensures Gain(pass, rows, after.rows, u) ==
              Gain(pass, rows, before.rows, u) + if u == creator then before.budget - after.budget else 0
    {
      OneTurnGains(pass, rows, before, creator, postFails, u);
    }
    OneTurnGains(pass, rows, before, creator, postFails, creator);
    if creator in seen {
      RepeatIsExact(pass, rows, budget, before, after, seen, creator);
    } else {
      NewcomerIsExact(pass, rows, budget, before, after, seen, creator);
    }
  }

  /** Both descriptions of an uninterrupted prefix. */
  ghost predicate Described(pass: Pass, rows: Earnings, budget: int, progress: Progress, seen: set<nat>)
  {
    Sound(pass, rows, budget, progress) && Exact(pass, rows, budget, progress, seen)
  }

  lemma OneTurnKeepsDescription(
    pass: Pass, rows: Earnings, budget: int, before: Progress, seen: set<nat>, creator: nat, postFails: bool)
    requires Described(pass, rows, budget, before, seen) && !before.aborted
    ensures
      var after := SettleOne(pass, rows, before, creator, postFails);
      !after.aborted ==> Described(pass, rows, budget, after, seen + {creator})
  {
    if !SettleOne(pass, rows, before, creator, postFails).aborted {
      OneTurnKeepsMoney(pass, rows, budget, before, creator, postFails);
      OneTurnKeepsTotals(pass, rows, before, creator, postFails);
      OneTurnIsExact(pass, rows, budget, before, seen, creator, postFails);
    }
  }

  lemma MembersOfPrefix(ids: seq<nat>, n: nat)
    requires 0 < n <= |ids|
    ensures Members(ids[..n]) == Members(ids[..n - 1]) + {ids[n - 1]}
  {
    assert ids[..n] == ids[..n - 1] + [ids[n - 1]];
  }

  lemma {:induction false} PassIsDescribed(pass: Pass, rows: Earnings, budget: int, failAt: Option<nat>, n: nat)
    returns (progress: Progress)
    requires n <= |pass.creatorIds| && CurrencyOf(rows, pass.campaign, pass.currency)
    ensures progress == SettleUpTo(pass, rows, budget, failAt, n)
    ensures !progress.aborted ==> Described(pass, rows, budget, progress, Members(pass.creatorIds[..n]))
  {
    if n == 0 {
      assert Members(pass.creatorIds[..0]) == {};
      progress := Start(rows, budget);
    } else {
      var before := PassIsDescribed(pass, rows, budget, failAt, n - 1);
      progress := before;
      if !before.aborted {
        var u := pass.creatorIds[n - 1];
        progress := SettleOne(pass, rows, before, u, failAt == Some(n - 1));
        OneTurnKeepsDescription(pass, rows, budget, before, Members(pass.creatorIds[..n - 1]),
                                u, failAt == Some(n - 1));
        MembersOfPrefix(pass.creatorIds, n);
      }
    }
  }

  lemma PassEnds(pass: Pass, rows: Earnings, budget: int, failAt: Option<nat>) returns (after: Progress)
    requires CurrencyOf(rows, pass.campaign, pass.currency)
    ensures after == Settle(pass, rows, budget, failAt)
    ensures !after.aborted ==> Described(pass, rows, budget, after, Members(pass.creatorIds))
  {
    assert pass.creatorIds[..|pass.creatorIds|] == pass.creatorIds;
    after := PassIsDescribed(pass, rows, budget, failAt, |pass.creatorIds|);
  }

  /** With enough budget for everyone, a total ends at the entitlement unless it was above already. */
  lemma CoveredIsWhole(pass: Pass, rows: Earnings, budget: int, after: Progress, seen: set<nat>, creator: nat)
    requires Exact(pass, rows, budget, after, seen)
    requires SetSum(seen, Want(pass, rows)) <= budget
    ensures Accrued(after.rows, EarningKey(pass.campaign, creator)) ==
            if creator in seen && creator !in pass.paused
            then Max(Accrued(rows, EarningKey(pass.campaign, creator)), pass.entitled(creator))
            else Accrued(rows, EarningKey(pass.campaign, creator))
  {
    assert Gain(pass, rows, after.rows, creator) == if creator in seen then Want(pass, rows)(creator) else 0;
  }

  /**
    An uninterrupted pass credits exactly the smaller of what is left and what is still owed to the
    approved, unpaused creators. The amount owed is a sum over a set, so neither the order of the
    creators nor a creator listed twice changes it.
   */
  lemma CreditsExactlyWhatIsOwed(pass: Pass, rows: Earnings, budget: int, failAt: Option<nat>)
    requires CurrencyOf(rows, pass.campaign, pass.currency)
    requires !Settle(pass, rows, budget, failAt).aborted
    ensures
      var after := Settle(pass, rows, budget, failAt);
      Sum(after.credits, AmountOf())
      == Max(0, Min(budget, SetSum(Members(pass.creatorIds), Want(pass, rows))))
  {
    var after := PassEnds(pass, rows, budget, failAt);
  }

  /** Work-conserving: with budget to spare, every approved, unpaused creator has their entitlement. */
  lemma LeavesNoOneShort(pass: Pass, rows: Earnings, budget: int, failAt: Option<nat>)
    requires CurrencyOf(rows, pass.campaign, pass.currency)
    requires !Settle(pass, rows, budget, failAt).aborted
    ensures
      var after := Settle(pass, rows, budget, failAt);
      0 < after.budget ==>
        forall u: nat :: u in pass.creatorIds && u !in pass.paused ==>
          Accrued(after.rows, EarningKey(pass.campaign, u))
              == Max(Accrued(rows, EarningKey(pass.campaign, u)), pass.entitled(u))
  {
    var after := PassEnds(pass, rows, budget, failAt);
    var everyone := Members(pass.creatorIds);
    if 0 < after.budget {
      SetSumNonNegative(everyone, Want(pass, rows));
      forall u: nat | u in pass.creatorIds && u !in pass.paused
        ensures Accrued(after.rows, EarningKey(pass.campaign, u)) ==
                Max(Accrued(rows, EarningKey(pass.campaign, u)), pass.entitled(u))
      {
        assert u in everyone;
        CoveredIsWhole(pass, rows, budget, after, everyone, u);
      }
    }
  }

  /** Idempotent: the same pass again, with the budget the first left, credits nothing. */
  lemma SecondPassCreditsNothing(pass: Pass, rows: Earnings, budget: int, failAt: Option<nat>, failAgain: Option<nat>)
    requires CurrencyOf(rows, pass.campaign, pass.currency)
    requires !Settle(pass, rows, budget, failAt).aborted
    ensures
      var first := Settle(pass, rows, budget, failAt);
      var second := Settle(pass, first.rows, first.budget, failAgain);
      !second.aborted && second.credits == [] && second.rows == first.rows && second.budget == first.budget
  {
    var first := Settle(pass, rows, budget, failAt);
    PassIsSound(pass, rows, budget, failAt, |pass.creatorIds|);
    LeavesNoOneShort(pass, rows, budget, failAt);
    NothingOwedNothingDone(pass, first.rows, first.budget, failAgain, |pass.creatorIds|);
  }

  // When a posting that throws ends the pass.

  /** The creator at `k` has a credit to post: first seen there, owed something, and budget left after those before. */
  ghost predicate CreditDue(pass: Pass, rows: Earnings, budget: int, k: nat)
  {
    && k < |pass.creatorIds|
    && pass.creatorIds[k] !in pass.creatorIds[..k]
    && 0 < Want(pass, rows)(pass.creatorIds[k])
    && SetSum(Members(pass.creatorIds[..k]), Want(pass, rows)) < budget
  }

  lemma ThrowingTurn(pass: Pass, rows: Earnings, before: Progress, creator: nat)
    requires !before.aborted
    ensures
      var key := EarningKey(pass.campaign, creator);
      SettleOne(pass, rows, before, creator, true).aborted <==>
        && 0 < CreditMinor(pass, creator, Accrued(rows, key), before.budget)
        && Accrued(before.rows, key) == Accrued(rows, key)
  {
    var key := EarningKey(pass.campaign, creator);
    AccrueEffect(before.rows, key, pass.currency, CreditMinor(pass, creator, Accrued(rows, key), before.budget),
                 Accrued(rows, key), true);
  }

  lemma CreditDueInTurn(pass: Pass, rows: Earnings, budget: int, before: Progress, k: nat)
    requires k < |pass.creatorIds|
    requires Described(pass, rows, budget, before, Members(pass.creatorIds[..k])) && !before.aborted
    ensures
      var creator := pass.creatorIds[k];
      var key := EarningKey(pass.campaign, creator);
      CreditDue(pass, rows, budget, k) <==>
        && 0 < CreditMinor(pass, creator, Accrued(rows, key), before.budget)
        && Accrued(before.rows, key) == Accrued(rows, key)
  {
    var creator, seen := pass.creatorIds[k], Members(pass.creatorIds[..k]);
    SetSumNonNegative(seen, Want(pass, rows));
    assert creator in pass.creatorIds[..k] <==> creator in seen;
    assert Gain(pass, rows, before.rows, creator) == 0
           <==> Accrued(before.rows, EarningKey(pass.campaign, creator))
                == Accrued(rows, EarningKey(pass.campaign, creator));
  }

  lemma TurnAborts(pass: Pass, rows: Earnings, budget: int, before: Progress, k: nat, postFails: bool)
    requires k < |pass.creatorIds|
    requires Described(pass, rows, budget, before, Members(pass.creatorIds[..k])) && !before.aborted
    ensures
      var after := SettleOne(pass, rows, before, pass.creatorIds[k], postFails);
      && (after.aborted <==> postFails && CreditDue(pass, rows, budget, k))
      && (after.aborted ==> 0 < after.budget)
  {
    SettleOneEffect(pass, rows, before, pass.creatorIds[k], postFails, OfCampaign(pass.campaign));
    ThrowingTurn(pass, rows, before, pass.creatorIds[k]);
    CreditDueInTurn(pass, rows, budget, before, k);
  }

  lemma QuietTurn(pass: Pass, rows: Earnings, before: Progress, creator: nat)
    requires !before.aborted
    ensures !SettleOne(pass, rows, before, creator, false).aborted
  {
  }

  lemma {:induction false} NotAbortedYet(pass: Pass, rows: Earnings, budget: int, failAt: Option<nat>, n: nat)
    requires n <= |pass.creatorIds| && (failAt.None? || n <= failAt.value)
    ensures !SettleUpTo(pass, rows, budget, failAt, n).aborted
  {
    if n > 0 {
      NotAbortedYet(pass, rows, budget, failAt, n - 1);
      QuietTurn(pass, rows, SettleUpTo(pass, rows, budget, failAt, n - 1), pass.creatorIds[n - 1]);
    }
  }

  /** Past the creator whose posting may throw, the pass is cut short there or not at all. */
  lemma {:induction false} AbortedThenOrNever(pass: Pass, rows: Earnings, budget: int, k: nat, n: nat)
    requires k < n <= |pass.creatorIds|
    ensures
      var cut, now := SettleUpTo(pass, rows, budget, Some(k), k + 1), SettleUpTo(pass, rows, budget, Some(k), n);
      now.aborted == cut.aborted && (now.aborted ==> now == cut)
    decreases n
  {
    if k + 1 < n {
      AbortedThenOrNever(pass, rows, budget, k, n - 1);
      var before := SettleUpTo(pass, rows, budget, Some(k), n - 1);
      if !before.aborted {
        QuietTurn(pass, rows, before, pass.creatorIds[n - 1]);
      }
    }
  }

  /**
    A pass is cut short exactly when the creator whose posting would throw has a credit due in their turn,
    and then some budget is left: the credit was not more than there was.
   */
  lemma AbortsExactlyWhenDue(pass: Pass, rows: Earnings, budget: int, failAt: Option<nat>)
    requires CurrencyOf(rows, pass.campaign, pass.currency)
    ensures
      var after := Settle(pass, rows, budget, failAt);
      && (after.aborted <==> failAt.Some? && CreditDue(pass, rows, budget, failAt.value))
      && (after.aborted ==> 0 < after.budget)
  {
    var n := |pass.creatorIds|;
    if failAt.None? || n <= failAt.value {
      NotAbortedYet(pass, rows, budget, failAt, n);
    } else {
      var k := failAt.value;
      NotAbortedYet(pass, rows, budget, failAt, k);
      var before := PassIsDescribed(pass, rows, budget, failAt, k);
      TurnAborts(pass, rows, budget, before, k, true);
      AbortedThenOrNever(pass, rows, budget, k, n);
    }
  }

  lemma NothingOwedTurn(pass: Pass, rows: Earnings, before: Progress, creator: nat, postFails: bool)
    requires before.budget <= 0 || Want(pass, rows)(creator) == 0
    ensures
      var after := SettleOne(pass, rows, before, creator, postFails);
      && after.aborted == before.aborted && after.credits == before.credits
      && after.rows == before.rows && after.budget == before.budget
  {
  }

  lemma {:induction false} NothingOwedNothingDone(
    pass: Pass, rows: Earnings, budget: int, failAt: Option<nat>, n: nat)
    requires n <= |pass.creatorIds|
    requires budget <= 0 || forall u: nat :: u in pass.creatorIds ==> Want(pass, rows)(u) == 0
    ensures
      var after := SettleUpTo(pass, rows, budget, failAt, n);
      !after.aborted && after.credits == [] && after.rows == rows && after.budget == budget
  {
    if n > 0 {
      NothingOwedNothingDone(pass, rows, budget, failAt, n - 1);
      NothingOwedTurn(pass, rows, SettleUpTo(pass, rows, budget, failAt, n - 1), pass.creatorIds[n - 1],
                      failAt == Some(n - 1));
    }
  }

  /**
    The first line of a creator says what is stored after the pass and what the pass added. A repeated
    creator's later line says that nothing was added, beside the total the pass had read.
   */
  ghost predicate TrueLine(
    pass: Pass, before: Earnings, after: Earnings, creator: nat, repeated: bool, line: CreatorSettlement)
  {
    && line.creator == creator && line.views == pass.views(creator) && line.paused == (creator in pass.paused)
    && line.accrued == Accrued(if repeated then before else after, EarningKey(pass.campaign, creator))
    && line.creditedNow == if repeated then 0 else Gain(pass, before, after, creator)
  }

  ghost predicate TrueReport(pass: Pass, before: Earnings, progress: Progress, ids: seq<nat>)
  {
    && |progress.creators| == |ids|
    && forall i :: 0 <= i < |ids| ==>
         TrueLine(pass, before, progress.rows, ids[i], ids[i] in ids[..i], progress.creators[i])
  }

  /** A creator who has had their turn is credited nothing more, and one who has not has gained nothing. */
  lemma CreditedOnce(
    pass: Pass, rows: Earnings, budget: int, before: Progress, ids: seq<nat>, creator: nat, postFails: bool)
    requires Described(pass, rows, budget, before, Members(ids))
    ensures if creator in ids then Now(pass, rows, before, creator, postFails) == 0
            else Gain(pass, rows, before.rows, creator) == 0
  {
    assert creator in Members(ids) <==> creator in ids;
    SetSumNonNegative(Members(ids), Want(pass, rows));
    assert Gain(pass, rows, before.rows, creator) == 0
           <==> Accrued(before.rows, EarningKey(pass.campaign, creator))
                == Accrued(rows, EarningKey(pass.campaign, creator));
  }

  lemma OldLineStands(
    pass: Pass, rows: Earnings, before: Earnings, after: Earnings, creator: nat, now: int,
    u: nat, repeated: bool, line: CreatorSettlement)
    requires Moves(before, after, EarningKey(pass.campaign, creator), now) && (u == creator ==> now == 0)
    requires TrueLine(pass, rows, before, u, repeated, line)
    ensures TrueLine(pass, rows, after, u, repeated, line)
  {
    if u != creator {
      var key := EarningKey(pass.campaign, u);
      assert RowAt(after, key) == RowAt(before, key);
    }
  }

  /** The line a turn appends. */
  function NewLine(pass: Pass, rows: Earnings, creator: nat, now: int): CreatorSettlement
  {
    CreatorSettlement(creator, pass.views(creator), Accrued(rows, EarningKey(pass.campaign, creator)) + now, now,
                      creator in pass.paused)
  }

  lemma NewLineIsTrue(
    pass: Pass, rows: Earnings, before: Earnings, after: Earnings, creator: nat, now: int, repeated: bool)
    requires Moves(before, after, EarningKey(pass.campaign, creator), now)
    requires if repeated then now == 0 else Gain(pass, rows, before, creator) == 0
    ensures TrueLine(pass, rows, after, creator, repeated, NewLine(pass, rows, creator, now))
  {
  }

  lemma LineJoins(pass: Pass, rows: Earnings, before: Progress, after: Progress, ids: seq<nat>, creator: nat, now: int)
    requires TrueReport(pass, rows, before, ids)
    requires Moves(before.rows, after.rows, EarningKey(pass.campaign, creator), now)
    requires after.creators == before.creators + [NewLine(pass, rows, creator, now)]
    requires if creator in ids then now == 0 else Gain(pass, rows, before.rows, creator) == 0
    ensures TrueReport(pass, rows, after, ids + [creator])
  {
    var longer := ids + [creator];
    forall i | 0 <= i < |longer|
      ensures TrueLine(pass, rows, after.rows, longer[i], longer[i] in longer[..i], after.creators[i])
    {
      assert longer[..i] == ids[..i];
      if i < |ids| {
        OldLineStands(pass, rows, before.rows, after.rows, creator, now, ids[i], ids[i] in ids[..i],
                      before.creators[i]);
      } else {
        assert longer[..i] == ids;
        NewLineIsTrue(pass, rows, before.rows, after.rows, creator, now, creator in ids);
      }
    }
  }

  lemma OneTurnReports(
    pass: Pass, rows: Earnings, budget: int, before: Progress, ids: seq<nat>, creator: nat, postFails: bool,
    after: Progress)
    requires Described(pass, rows, budget, before, Members(ids)) && !before.aborted
    requires TrueReport(pass, rows, before, ids)
    requires after == SettleOne(pass, rows, before, creator, postFails) && !after.aborted
    ensures TrueReport(pass, rows, after, ids + [creator])
  {
    SettleOneEffect(pass, rows, before, creator, postFails, OfCampaign(pass.campaign));
    CreditedOnce(pass, rows, budget, before, ids, creator, postFails);
    LineJoins(pass, rows, before, after, ids, creator, Now(pass, rows, before, creator, postFails));
  }

  /** Every line of the report is true, with creators repeated or not. */
  lemma {:induction false} ReportIsTrue(pass: Pass, rows: Earnings, budget: int, failAt: Option<nat>, n: nat)
    requires n <= |pass.creatorIds| && CurrencyOf(rows, pass.campaign, pass.currency)
    requires !SettleUpTo(pass, rows, budget, failAt, n).aborted
    ensures TrueReport(pass, rows, SettleUpTo(pass, rows, budget, failAt, n), pass.creatorIds[..n])
  {
    if n > 0 {
      var ids := pass.creatorIds[..n - 1];
      assert pass.creatorIds[..n] == ids + [pass.creatorIds[n - 1]];
      ReportIsTrue(pass, rows, budget, failAt, n - 1);
      var before := PassIsDescribed(pass, rows, budget, failAt, n - 1);
      OneTurnReports(pass, rows, budget, before, ids, pass.creatorIds[n - 1], failAt == Some(n - 1),
                     SettleUpTo(pass, rows, budget, failAt, n));
    }
  }

  /** What is left for the creator at `k` when everyone listed before them has been served. */
  ghost function ServedMinor(pass: Pass, rows: Earnings, budget: int, k: nat): int
    requires k < |pass.creatorIds|
  {
    Max(0, Min(Want(pass, rows)(pass.creatorIds[k]),
               budget - SetSum(Members(pass.creatorIds[..k]), Want(pass, rows))))
  }

  lemma ServedInTurn(
    pass: Pass, rows: Earnings, budget: int, before: Progress, after: Progress, k: nat, postFails: bool)
    requires k < |pass.creatorIds| && pass.creatorIds[k] !in pass.creatorIds[..k]
    requires Described(pass, rows, budget, before, Members(pass.creatorIds[..k])) && !before.aborted
    requires after == SettleOne(pass, rows, before, pass.creatorIds[k], postFails) && !after.aborted
    ensures Gain(pass, rows, after.rows, pass.creatorIds[k]) == ServedMinor(pass, rows, budget, k)
  {
    var creator, seen := pass.creatorIds[k], Members(pass.creatorIds[..k]);
    OneTurnGains(pass, rows, before, creator, postFails, creator);
    SetSumNonNegative(seen, Want(pass, rows));
    assert creator !in seen;
  }

  lemma ServedStays(
    pass: Pass, rows: Earnings, budget: int, before: Progress, after: Progress, ids: seq<nat>, creator: nat,
    postFails: bool, served: nat)
    requires Described(pass, rows, budget, before, Members(ids)) && !before.aborted && served in ids
    requires after == SettleOne(pass, rows, before, creator, postFails) && !after.aborted
    ensures Gain(pass, rows, after.rows, served) == Gain(pass, rows, before.rows, served)
  {
    SettleOneEffect(pass, rows, before, creator, postFails, OfCampaign(pass.campaign));
    CreditedOnce(pass, rows, budget, before, ids, creator, postFails);
    OneTurnGains(pass, rows, before, creator, postFails, served);
  }

  lemma ServedOnTime(
    pass: Pass, rows: Earnings, budget: int, failAt: Option<nat>, k: nat, progress: Progress)
    requires k < |pass.creatorIds| && pass.creatorIds[k] !in pass.creatorIds[..k]
    requires CurrencyOf(rows, pass.campaign, pass.currency)
    requires progress == SettleUpTo(pass, rows, budget, failAt, k + 1) && !progress.aborted
    ensures Gain(pass, rows, progress.rows, pass.creatorIds[k]) == ServedMinor(pass, rows, budget, k)
  {
    var before := PassIsDescribed(pass, rows, budget, failAt, k);
    ServedInTurn(pass, rows, budget, before, progress, k, failAt == Some(k));
  }

  lemma ServedOnce(
    pass: Pass, rows: Earnings, budget: int, failAt: Option<nat>, n: nat, progress: Progress, served: nat)
    requires n < |pass.creatorIds| && served in pass.creatorIds[..n]
    requires CurrencyOf(rows, pass.campaign, pass.currency)
    requires progress == SettleUpTo(pass, rows, budget, failAt, n + 1) && !progress.aborted
    ensures
      var before := SettleUpTo(pass, rows, budget, failAt, n);
      !before.aborted && Gain(pass, rows, progress.rows, served) == Gain(pass, rows, before.rows, served)
  {
    var before := PassIsDescribed(pass, rows, budget, failAt, n);
    ServedStays(pass, rows, budget, before, progress, pass.creatorIds[..n], pass.creatorIds[n], failAt == Some(n),
                served);
  }

  /** First come, first served: a creator gains what they are owed as far as those listed before leave budget. */
  lemma {:induction false} ServedInListOrder(
    pass: Pass, rows: Earnings, budget: int, failAt: Option<nat>, k: nat, n: nat, progress: Progress)
    requires k < n <= |pass.creatorIds| && pass.creatorIds[k] !in pass.creatorIds[..k]
    requires CurrencyOf(rows, pass.campaign, pass.currency)
    requires progress == SettleUpTo(pass, rows, budget, failAt, n) && !progress.aborted
    ensures Gain(pass, rows, progress.rows, pass.creatorIds[k]) == ServedMinor(pass, rows, budget, k)
    decreases n
  {
    if k == n - 1 {
      ServedOnTime(pass, rows, budget, failAt, k, progress);
    } else {
      assert pass.creatorIds[..n - 1][k] == pass.creatorIds[k];
      ServedOnce(pass, rows, budget, failAt, n - 1, progress, pass.creatorIds[k]);
      ServedInListOrder(pass, rows, budget, failAt, k, n - 1, SettleUpTo(pass, rows, budget, failAt, n - 1));
    }
  }

  /** Each creator is credited once at most, up to the total that is stored; whoever is not keeps their total. */
  ghost predicate TrueCredits(pass: Pass, rows: Earnings, progress: Progress)
  {
    && (forall i, j :: 0 <= i < j < |progress.credits| ==> progress.credits[i].creator != progress.credits[j].creator)
    && (forall i :: 0 <= i < |progress.credits| ==> CreditIsTrue(pass, rows, progress.rows, progress.credits[i]))
    && forall u: nat :: Uncredited(progress.credits, u) ==> Gain(pass, rows, progress.rows, u) == 0
  }

  predicate CreditIsTrue(pass: Pass, before: Earnings, after: Earnings, credit: Credit)
  {
    && 0 < credit.amount && credit.amount == Gain(pass, before, after, credit.creator)
    && credit.total == Accrued(after, EarningKey(pass.campaign, credit.creator))
  }

  ghost predicate Uncredited(credits: seq<Credit>, creator: nat)
  {
    forall i :: 0 <= i < |credits| ==> credits[i].creator != creator
  }

  lemma GainInTurn(pass: Pass, rows: Earnings, before: Earnings, after: Earnings, creator: nat, now: int, u: nat)
    requires Moves(before, after, EarningKey(pass.campaign, creator), now)
    ensures Gain(pass, rows, after, u) == Gain(pass, rows, before, u) + if u == creator then now else 0
  {
    if u != creator {
      assert RowAt(after, EarningKey(pass.campaign, u)) == RowAt(before, EarningKey(pass.campaign, u));
    }
  }

  lemma OneTurnCreditsTruly(
    pass: Pass, rows: Earnings, before: Progress, creator: nat, now: int, after: Progress)
    requires TrueCredits(pass, rows, before)
    requires Moves(before.rows, after.rows, EarningKey(pass.campaign, creator), now)
    requires 0 <= now && (0 < now ==> Gain(pass, rows, before.rows, creator) == 0)
    requires after.credits == if 0 < now then
               before.credits + [Credit(creator, now, Accrued(rows, EarningKey(pass.campaign, creator)) + now)]
               else before.credits
    ensures TrueCredits(pass, rows, after)
  {
    forall i | 0 <= i < |before.credits|
      ensures CreditIsTrue(pass, rows, after.rows, before.credits[i])
      ensures 0 < now ==> before.credits[i].creator != creator
    {
      assert CreditIsTrue(pass, rows, before.rows, before.credits[i]);
      GainInTurn(pass, rows, before.rows, after.rows, creator, now, before.credits[i].creator);
    }
    GainInTurn(pass, rows, before.rows, after.rows, creator, now, creator);
    forall u: nat | Uncredited(after.credits, u) ensures Gain(pass, rows, after.rows, u) == 0 {
      StillUncredited(before.credits, after.credits, u);
      GainInTurn(pass, rows, before.rows, after.rows, creator, now, u);
      assert 0 < now ==> after.credits[|before.credits|].creator == creator;
    }
  }

  lemma StillUncredited(before: seq<Credit>, after: seq<Credit>, u: nat)
    requires before <= after && Uncredited(after, u)
    ensures Uncredited(before, u)
  {
    forall i | 0 <= i < |before| ensures before[i].creator != u {
      assert after[i].creator != u;
    }
  }

  lemma TurnCreditsTruly(pass: Pass, rows: Earnings, before: Progress, creator: nat, postFails: bool)
    requires CurrencyOf(before.rows, pass.campaign, pass.currency) && !before.aborted
    requires TrueCredits(pass, rows, before)
    ensures TrueCredits(pass, rows, SettleOne(pass, rows, before, creator, postFails))
  {
    var now := Now(pass, rows, before, creator, postFails);
    SettleOneEffect(pass, rows, before, creator, postFails, OfCampaign(pass.campaign));
    assert 0 <= now && (0 < now ==> Gain(pass, rows, before.rows, creator) == 0);
    OneTurnCreditsTruly(pass, rows, before, creator, now, SettleOne(pass, rows, before, creator, postFails));
  }

  /** The list of credits is true at every stage of a pass, cut short or not. */
  lemma {:induction false} CreditsAreTrue(pass: Pass, rows: Earnings, budget: int, failAt: Option<nat>, n: nat)
    requires n <= |pass.creatorIds| && CurrencyOf(rows, pass.campaign, pass.currency)
    ensures TrueCredits(pass, rows, SettleUpTo(pass, rows, budget, failAt, n))
  {
    if n > 0 {
      CreditsAreTrue(pass, rows, budget, failAt, n - 1);
      PassIsSound(pass, rows, budget, failAt, n - 1);
      var before := SettleUpTo(pass, rows, budget, failAt, n - 1);
      if !before.aborted {
        TurnCreditsTruly(pass, rows, before, pass.creatorIds[n - 1], failAt == Some(n - 1));
      }
    }
  }

  // Drift over many passes.

  /** One pass of a series: its readings and the budget it may spend. */
  datatype Round = Round(pass: Pass, budget: int)

  function RunRounds(rows: Earnings, rounds: seq<Round>): Earnings
  {
    if rounds == [] then rows
    else
      var before := RunRounds(rows, rounds[..|rounds| - 1]);
      var last := rounds[|rounds| - 1];
      Settle(last.pass, before, last.budget, None).rows
  }

  /** The running maximum of a creator's entitlements over the rounds that may credit them. */
  function Peak(rounds: seq<Round>, creator: nat, floor: int): int
  {
    if rounds == [] then floor
    else
      var before := Peak(rounds[..|rounds| - 1], creator, floor);
      var pass := rounds[|rounds| - 1].pass;
      if creator in pass.creatorIds && creator !in pass.paused then Max(before, pass.entitled(creator)) else before
  }

  ghost predicate AmpleBudgets(rows: Earnings, rounds: seq<Round>)
  {
    forall i :: 0 <= i < |rounds| ==>
      SetSum(Members(rounds[i].pass.creatorIds), Want(rounds[i].pass, RunRounds(rows, rounds[..i]))) <= rounds[i].budget
  }

  ghost predicate OneCampaign(rounds: seq<Round>, campaign: nat, currency: string)
  {
    forall i :: 0 <= i < |rounds| ==> rounds[i].pass.campaign == campaign && rounds[i].pass.currency == currency
  }

  /** No drift: however the views arrive, a total is the largest entitlement seen, to the unit. */
  lemma {:induction false} TotalIsPeakEntitlement(
    rows: Earnings, rounds: seq<Round>, campaign: nat, currency: string, creator: nat)
    requires CurrencyOf(rows, campaign, currency) && OneCampaign(rounds, campaign, currency)
    requires AmpleBudgets(rows, rounds)
    ensures CurrencyOf(RunRounds(rows, rounds), campaign, currency)
    ensures Accrued(RunRounds(rows, rounds), EarningKey(campaign, creator))
            == Peak(rounds, creator, Accrued(rows, EarningKey(campaign, creator)))
  {
    if rounds != [] {
      var n := |rounds| - 1;
      var last := rounds[n];
      forall i | 0 <= i < n ensures rounds[..n][..i] == rounds[..i] {
      }
      TotalIsPeakEntitlement(rows, rounds[..n], campaign, currency, creator);
      RoundReachesEntitlement(last.pass, RunRounds(rows, rounds[..n]), last.budget, creator);
    }
  }

  lemma RoundReachesEntitlement(pass: Pass, rows: Earnings, budget: int, creator: nat)
    requires CurrencyOf(rows, pass.campaign, pass.currency)
    requires SetSum(Members(pass.creatorIds), Want(pass, rows)) <= budget
    ensures
      var after := Settle(pass, rows, budget, None).rows;
      && CurrencyOf(after, pass.campaign, pass.currency)
      && Accrued(after, EarningKey(pass.campaign, creator)) ==
         if creator in pass.creatorIds && creator !in pass.paused
         then Max(Accrued(rows, EarningKey(pass.campaign, creator)), pass.entitled(creator))
         else Accrued(rows, EarningKey(pass.campaign, creator))
  {
    NotAbortedYet(pass, rows, budget, None, |pass.creatorIds|);
    var after := PassEnds(pass, rows, budget, None);
    CoveredIsWhole(pass, rows, budget, after, Members(pass.creatorIds), creator);
  }
}
