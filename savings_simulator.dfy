/**
 * The Savings Simulator (`components/SavingsSimulator.tsx`): monthly
 * deposit-and-compound growth of a savings balance, and the achievement
 * badges and level that a simulation result earns.
 */
module SavingsSimulator {
  import opened Types

  /** The form: the initial amount, the monthly deposit, the annual rate in percent and whole years. */
  datatype SimulatorInputs = SimulatorInputs(initialAmount: real, monthlyDeposit: real, interestRate: real, years: int)

  function TotalMonths(i: SimulatorInputs): int
  {
    i.years * 12
  }

  function MonthlyInterestRate(i: SimulatorInputs): real
  {
    i.interestRate / 100.0 / 12.0
  }

  /** The balance after `k` months of `balance := balance * (1 + r) + deposit`, starting from `initial`. */
  function FutureValue(initial: real, deposit: real, r: real, k: nat): real
  {
    if k == 0 then initial else FutureValue(initial, deposit, r, k - 1) * (1.0 + r) + deposit
  }

  /** How many times the source's `for (i = 0; i < totalMonths; i++)` runs. */
  function Iterations(totalMonths: int): nat
  {
    if totalMonths > 0 then totalMonths else 0
  }

  /**
   * `calculateFutureValue`: the balance after exactly `totalMonths` months,
   * and the amount paid in, accumulated separately as `initial + months * deposit`.
   */
  method CalculateFutureValue(initialAmount: real, monthlyDeposit: real, monthlyInterestRate: real, totalMonths: int)
    returns (principal: real, totalInvested: real)
    ensures principal == FutureValue(initialAmount, monthlyDeposit, monthlyInterestRate, Iterations(totalMonths))
    ensures totalInvested == initialAmount + (Iterations(totalMonths) as real) * monthlyDeposit
  {
    principal := initialAmount;
    totalInvested := initialAmount;
    var i := 0;
    while i < totalMonths
      invariant 0 <= i <= Iterations(totalMonths)
      invariant principal == FutureValue(initialAmount, monthlyDeposit, monthlyInterestRate, i)
      invariant totalInvested == initialAmount + (i as real) * monthlyDeposit
    {
      principal := principal * (1.0 + monthlyInterestRate) + monthlyDeposit;
      totalInvested := totalInvested + monthlyDeposit;
      i := i + 1;
    }
  }

  /** At a zero rate nothing is earned: the final value is exactly what was paid in. */
  lemma {:induction false} ZeroRateEarnsNothing(initial: real, deposit: real, k: nat)
    ensures FutureValue(initial, deposit, 0.0, k) == initial + (k as real) * deposit
  {
    if k > 0 {
      ZeroRateEarnsNothing(initial, deposit, k - 1);
    }
  }

  /** With non-negative inputs the interest earned, `finalValue - totalInvested`, is never negative. */
  lemma {:induction false} InterestEarnedNonNegative(initial: real, deposit: real, r: real, k: nat)
    requires initial >= 0.0 && deposit >= 0.0 && r >= 0.0
    ensures FutureValue(initial, deposit, r, k) - (initial + (k as real) * deposit) >= 0.0
  {
    if k > 0 {
      InterestEarnedNonNegative(initial, deposit, r, k - 1);
      var b := FutureValue(initial, deposit, r, k - 1);
      assert b >= 0.0;
      assert b * (1.0 + r) == b + b * r;
      assert b * r >= 0.0;
    }
  }

  /**
   * One render of the simulator: the form's annual percentage rate becomes
   * the monthly fraction and its years become months, the loop is run, and
   * the interest earned is the final value less what was paid in. With
   * non-negative inputs it is never negative, and at a zero rate it is 0.
   */
  method Simulate(i: SimulatorInputs) returns (finalValue: real, totalInvested: real, interestEarned: real)
    ensures finalValue == FutureValue(i.initialAmount, i.monthlyDeposit, i.interestRate / 1200.0, Iterations(12 * i.years))
    ensures totalInvested == i.initialAmount + (Iterations(12 * i.years) as real) * i.monthlyDeposit
    ensures interestEarned == finalValue - totalInvested
    ensures i.initialAmount >= 0.0 && i.monthlyDeposit >= 0.0 && i.interestRate >= 0.0 ==> interestEarned >= 0.0
    ensures i.interestRate == 0.0 ==> interestEarned == 0.0
  {
    finalValue, totalInvested := CalculateFutureValue(i.initialAmount, i.monthlyDeposit, MonthlyInterestRate(i), TotalMonths(i));
    interestEarned := finalValue - totalInvested;
    var k := Iterations(TotalMonths(i));
    if i.initialAmount >= 0.0 && i.monthlyDeposit >= 0.0 && i.interestRate >= 0.0 {
      InterestEarnedNonNegative(i.initialAmount, i.monthlyDeposit, MonthlyInterestRate(i), k);
    }
    if i.interestRate == 0.0 {
      ZeroRateEarnsNothing(i.initialAmount, i.monthlyDeposit, k);
    }
  }

  const SavingsStarter := "Savings Starter"
  const WealthBuilder := "Wealth Builder"
  const TimeAlchemist := "Time Alchemist"

  /** The order in which `checkAchievements` considers its badges. */
  const AchievementOrder: seq<string> := [SavingsStarter, WealthBuilder, TimeAlchemist]

  /** A badge's position in `AchievementOrder` (3 for any other name). */
  function Rank(b: string): (k: nat)
    ensures k < |AchievementOrder| <==> b in AchievementOrder
    ensures k < |AchievementOrder| ==> AchievementOrder[k] == b
  {
    if b == SavingsStarter then 0 else if b == WealthBuilder then 1 else if b == TimeAlchemist then 2 else 3
  }

  predicate NoDuplicates(s: seq<string>)
  {
    forall i, j :: 0 <= i < j < |s| ==> s[i] != s[j]
  }

  /** One badge when its condition holds, none otherwise. */
  function Opt(cond: bool, badge: string): seq<string>
  {
    if cond then [badge] else []
  }

  /**
   * The badges `checkAchievements` pushes, in the order it considers them:
   * each whose threshold is met and which is not already held.
   */
  function EarnedBadges(held: seq<string>, finalValue: real, totalInvested: real, years: int): seq<string>
  {
    Opt(finalValue > totalInvested * 1.5 && SavingsStarter !in held, SavingsStarter)
    + Opt(finalValue >= 1000000.0 && WealthBuilder !in held, WealthBuilder)
    + Opt(years >= 20 && TimeAlchemist !in held, TimeAlchemist)
  }

  /** The three optional badges, concatenated, appear as chosen and in achievement order. */
  lemma OptionalBadgesInOrder(c1: bool, c2: bool, c3: bool)
    ensures var e := Opt(c1, SavingsStarter) + Opt(c2, WealthBuilder) + Opt(c3, TimeAlchemist);
      && (SavingsStarter in e <==> c1)
      && (WealthBuilder in e <==> c2)
      && (TimeAlchemist in e <==> c3)
      && (forall b :: b in e ==> b in AchievementOrder)
      && (forall i, j :: 0 <= i < j < |e| ==> Rank(e[i]) < Rank(e[j]))
  {
    var s12 := Opt(c1, SavingsStarter) + Opt(c2, WealthBuilder);
    assert forall k :: 0 <= k < |s12| ==> Rank(s12[k]) <= 1;
    assert forall i, j :: 0 <= i < j < |s12| ==> Rank(s12[i]) < Rank(s12[j]);
  }

  /** Appending names in strictly increasing rank, none already present, keeps a list duplicate-free. */
  lemma AppendFreshKeepsDistinct(held: seq<string>, e: seq<string>)
    requires NoDuplicates(held)
    requires forall b :: b in e ==> b !in held
    requires forall i, j :: 0 <= i < j < |e| ==> Rank(e[i]) < Rank(e[j])
    ensures NoDuplicates(held + e)
  {
    var all := held + e;
    forall i, j | 0 <= i < j < |all|
      ensures all[i] != all[j]
    {
      if i >= |held| {
        assert Rank(e[i - |held|]) < Rank(e[j - |held|]);
      } else if j >= |held| {
        assert all[j] in e;
      }
    }
  }

  /**
   * A badge is earned exactly when its threshold holds and it is not yet
   * held; earned badges come in achievement order, so none twice, and
   * appending them to a duplicate-free list keeps it duplicate-free.
   */
  lemma EarnedBadgesFacts(held: seq<string>, finalValue: real, totalInvested: real, years: int)
    ensures var e := EarnedBadges(held, finalValue, totalInvested, years);
      && (SavingsStarter in e <==> finalValue > totalInvested * 1.5 && SavingsStarter !in held)
      && (WealthBuilder in e <==> finalValue >= 1000000.0 && WealthBuilder !in held)
      && (TimeAlchemist in e <==> years >= 20 && TimeAlchemist !in held)
      && (forall b :: b in e ==> b in AchievementOrder && b !in held)
      && (forall i, j :: 0 <= i < j < |e| ==> Rank(e[i]) < Rank(e[j]))
      && (NoDuplicates(held) ==> NoDuplicates(held + e))
  {
    var c1 := finalValue > totalInvested * 1.5 && SavingsStarter !in held;
    var c2 := finalValue >= 1000000.0 && WealthBuilder !in held;
    var c3 := years >= 20 && TimeAlchemist !in held;
    var e := EarnedBadges(held, finalValue, totalInvested, years);
    assert e == Opt(c1, SavingsStarter) + Opt(c2, WealthBuilder) + Opt(c3, TimeAlchemist);
    OptionalBadgesInOrder(c1, c2, c3);
    assert forall b :: b in e ==> b !in held;
    if NoDuplicates(held) {
      AppendFreshKeepsDistinct(held, e);
    }
  }

  /**
   * `checkAchievements`: the badges earned by the simulation, in the order
   * Savings Starter, Wealth Builder, Time Alchemist, are pushed; if any was
   * pushed, they are appended to the profile's badges and the level becomes
   * the new badge count plus one; otherwise the profile is untouched.
   */
  method CheckAchievements(profile: UserProfile, finalValue: real, totalInvested: real, years: int)
    returns (newBadges: seq<string>, updated: UserProfile)
    ensures newBadges == EarnedBadges(profile.badges, finalValue, totalInvested, years)
    ensures newBadges == [] ==> updated == profile
    ensures newBadges != [] ==>
      updated == profile.(badges := profile.badges + newBadges, level := |profile.badges| + |newBadges| + 1)
    ensures NoDuplicates(profile.badges) ==> NoDuplicates(updated.badges)
  {
    newBadges := [];
    var minGrowthForStarter := totalInvested * 1.5;
    if finalValue > minGrowthForStarter && SavingsStarter !in profile.badges {
      newBadges := newBadges + [SavingsStarter];
    }
    if finalValue >= 1000000.0 && WealthBuilder !in profile.badges {
      newBadges := newBadges + [WealthBuilder];
    }
    if years >= 20 && TimeAlchemist !in profile.badges {
      newBadges := newBadges + [TimeAlchemist];
    }
    EarnedBadgesFacts(profile.badges, finalValue, totalInvested, years);
    if |newBadges| > 0 {
      var updatedBadges := profile.badges + newBadges;
      var newLevel := |updatedBadges| + 1;
      updated := profile.(badges := updatedBadges, level := newLevel);
    } else {
      updated := profile;
    }
  }
}
