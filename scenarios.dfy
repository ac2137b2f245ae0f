// Worked examples on a three-bracket schedule: 15% up to $50,000, 20.5% up
// to $100,000 and 26% above, amounts in cents and rates in ten-thousandths.
module Scenarios {
  import opened Wrappers
  import opened Money
  import opened Sorting
  import opened TaxRules
  import opened Filings
  import opened CalculationRuns
  import opened TaxCalculation
  import opened CalculationService

  function Schedule(): seq<TaxBracket>
  {
    [Lowest, Middle, Top]
  }

  /** The schedule is stored in bracket order, so sorting leaves it as it is. */
  lemma ScheduleIsSorted()
    ensures SortedBrackets(Schedule()) == Schedule()
  {
    var s := Schedule();
    assert SortedBy(s, BracketOrder) by {
      forall i, j | 0 <= i < j < |s| ensures BracketOrder(s[i]) <= BracketOrder(s[j]) {
        assert BracketOrder(s[i]) == i + 1 && BracketOrder(s[j]) == j + 1;
      }
    }
    SortByKeepsSorted(s, BracketOrder);
  }

  const Lowest := TaxBracket(1, 0, Some(5000000), 1500, 1)
  const Middle := TaxBracket(2, 5000000, Some(10000000), 2050, 2)
  const Top := TaxBracket(3, 10000000, None, 2600, 3)

  /** One step of the walk over a bracket list written as head and tail. */
  lemma WalkStep(remaining: Cents, b: TaxBracket, rest: seq<TaxBracket>)
    requires remaining > 0
    ensures var e := BracketEntry(remaining, b);
      var w := Walk(remaining - e.taxableInBracket, rest);
      Walk(remaining, [b] + rest) == BracketWalk(e.taxFromBracket + w.tax, [e] + w.breakdown, w.remaining)
  {
    assert ([b] + rest)[0] == b && ([b] + rest)[1..] == rest;
  }

  /** The walk below $100,000 of income left: the middle bracket takes it all. */
  lemma MiddleBracketWalk()
    ensures Walk(1000000, [Middle, Top]) == BracketWalk(205000, [BracketBreakdown(2, 5000000, Some(10000000), 2050, 1000000, 205000)], 0)
  {
    assert BracketEntry(1000000, Middle) == BracketBreakdown(2, 5000000, Some(10000000), 2050, 1000000, 205000);
    assert Walk(0, [Top]) == BracketWalk(0, [], 0);
    WalkStep(1000000, Middle, [Top]);
    assert [Middle] + [Top] == [Middle, Top];
  }

  /** The walk over the whole schedule with $60,000 to tax. */
  lemma SixtyThousandWalk()
    ensures Walk(6000000, [Lowest, Middle, Top]) ==
      BracketWalk(955000, [BracketBreakdown(1, 0, Some(5000000), 1500, 5000000, 750000),
                           BracketBreakdown(2, 5000000, Some(10000000), 2050, 1000000, 205000)], 0)
  {
    assert BracketEntry(6000000, Lowest) == BracketBreakdown(1, 0, Some(5000000), 1500, 5000000, 750000);
    MiddleBracketWalk();
    WalkStep(6000000, Lowest, [Middle, Top]);
    assert [Lowest] + [Middle, Top] == [Lowest, Middle, Top];
  }

  /** $60,000 taxable: $7,500 in the first bracket plus $2,050 in the second. */
  lemma SixtyThousandOwesNineThousandFiveHundredFifty()
    ensures ProgressiveTax(6000000, Schedule()).tax == 955000
    ensures MarginalRate(ProgressiveTax(6000000, Schedule()).breakdown) == 2050
  {
    ScheduleIsSorted();
    SixtyThousandWalk();
  }

  /** The walk over the top bracket alone. */
  lemma TopBracketWalk()
    ensures Walk(10000000, [Top]) == BracketWalk(2600000, [BracketBreakdown(3, 10000000, None, 2600, 10000000, 2600000)], 0)
  {
    assert BracketEntry(10000000, Top) == BracketBreakdown(3, 10000000, None, 2600, 10000000, 2600000);
    assert Walk(0, []) == BracketWalk(0, [], 0);
    WalkStep(10000000, Top, []);
    assert [Top] + [] == [Top];
  }

  /** The walk from the middle bracket with $150,000 left. */
  lemma UpperBracketsWalk()
    ensures Walk(15000000, [Middle, Top]) ==
      BracketWalk(3625000, [BracketBreakdown(2, 5000000, Some(10000000), 2050, 5000000, 1025000),
                            BracketBreakdown(3, 10000000, None, 2600, 10000000, 2600000)], 0)
  {
    assert BracketEntry(15000000, Middle) == BracketBreakdown(2, 5000000, Some(10000000), 2050, 5000000, 1025000);
    TopBracketWalk();
    WalkStep(15000000, Middle, [Top]);
    assert [Middle] + [Top] == [Middle, Top];
  }

  /** The walk over the whole schedule with $200,000 to tax. */
  lemma TwoHundredThousandWalk()
    ensures Walk(20000000, [Lowest, Middle, Top]) ==
      BracketWalk(4375000, [BracketBreakdown(1, 0, Some(5000000), 1500, 5000000, 750000),
                            BracketBreakdown(2, 5000000, Some(10000000), 2050, 5000000, 1025000),
                            BracketBreakdown(3, 10000000, None, 2600, 10000000, 2600000)], 0)
  {
    assert BracketEntry(20000000, Lowest) == BracketBreakdown(1, 0, Some(5000000), 1500, 5000000, 750000);
    UpperBracketsWalk();
    WalkStep(20000000, Lowest, [Middle, Top]);
    assert [Lowest] + [Middle, Top] == [Lowest, Middle, Top];
  }

  /** $200,000 taxable reaches the top bracket: 7,500 + 10,250 + 26,000 dollars. */
  lemma TwoHundredThousandReachesTopBracket()
    ensures ProgressiveTax(20000000, Schedule()).tax == 4375000
    ensures MarginalRate(ProgressiveTax(20000000, Schedule()).breakdown) == 2600
  {
    ScheduleIsSorted();
    TwoHundredThousandWalk();
  }

  /** Deductions above the income clamp the taxable income to zero, and no tax is due. */
  lemma DeductionsAboveIncomeOweNothing()
    ensures TaxableIncome(3000000, 4000000) == 0
    ensures ProgressiveTax(TaxableIncome(3000000, 4000000), Schedule()).tax == 0
  {
    ScheduleIsSorted();
  }

  /** $9,550 of tax on $60,000 of income is an effective rate of 15.92%. */
  lemma EffectiveRateOnSixtyThousand()
    ensures EffectiveRate(955000, 6000000) == 1592
  {
    var r := EffectiveRate(955000, 6000000);
    assert 6000000 * (2 * r - 1) <= 2 * 955000 * RateScale < 6000000 * (2 * r + 1);
  }
}
