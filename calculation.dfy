// The tax calculation engine: total income, capped deductions, taxable
// income, the progressive bracket walk, refundable and non-refundable
// credits, withholding and the net amount owing. Each step is a
// specification function; the steps that loop over their input are also
// written as methods with accumulators and proved equal to the function.
module TaxCalculation {
  import opened Wrappers
  import opened Money
  import opened Collections
  import opened Sorting
  import opened Text
  import opened TaxRules
  import opened Filings
  import opened CalculationRuns

  // ---------------------------------------------------------------------
  // Step 1: total income
  // ---------------------------------------------------------------------

  function IncomeAmount(i: IncomeItem): int { i.amount }

  /** The sum of the income items' amounts. */
  function TotalIncome(items: seq<IncomeItem>): Cents
  {
    Sum(items, IncomeAmount)
  }

  /** Total income does not depend on the order of the items. */
  lemma TotalIncomeIgnoresOrder(a: seq<IncomeItem>, b: seq<IncomeItem>)
    requires multiset(a) == multiset(b)
    ensures TotalIncome(a) == TotalIncome(b)
  {
    SumPermutation(a, b, IncomeAmount);
  }

  // ---------------------------------------------------------------------
  // Step 2: deductions, capped per item by the first matching rule
  // ---------------------------------------------------------------------

  predicate DeductionRuleMatches(rule: DeductionRule, typeName: string)
  {
    EqualsIgnoreCase(rule.deductionType, typeName)
  }

  /** The first rule whose type equals `typeName` ignoring case. */
  function FindDeductionRule(rules: seq<DeductionRule>, typeName: string): (r: Option<DeductionRule>)
    ensures r.Some? ==> exists k :: (0 <= k < |rules| && rules[k] == r.value &&
      DeductionRuleMatches(rules[k], typeName) &&
      forall j :: 0 <= j < k ==> !DeductionRuleMatches(rules[j], typeName))
    ensures r.None? <==> forall k :: 0 <= k < |rules| ==> !DeductionRuleMatches(rules[k], typeName)
  {
    if |rules| == 0 then None
    else if DeductionRuleMatches(rules[0], typeName) then Some(rules[0])
    else
      var r := FindDeductionRule(rules[1..], typeName);
      if r.Some? then
        var k :| 0 <= k < |rules[1..]| && rules[1..][k] == r.value &&
          DeductionRuleMatches(rules[1..][k], typeName) &&
          forall j :: 0 <= j < k ==> !DeductionRuleMatches(rules[1..][j], typeName);
        assert rules[k + 1] == r.value;
        assert forall j :: 0 <= j < k + 1 ==> !DeductionRuleMatches(rules[j], typeName) by {
          forall j | 0 <= j < k + 1 ensures !DeductionRuleMatches(rules[j], typeName) {
            if j > 0 { assert rules[j] == rules[1..][j - 1]; }
          }
        }
        r
      else
        assert forall k :: 0 <= k < |rules| ==> !DeductionRuleMatches(rules[k], typeName) by {
          forall k | 0 <= k < |rules| ensures !DeductionRuleMatches(rules[k], typeName) {
            if k > 0 { assert rules[k] == rules[1..][k - 1]; }
          }
        }
        r
  }

  /** The cap that applies to an item: the matching rule's maxAmount, if both exist. */
  function DeductionCap(item: DeductionItem, rules: seq<DeductionRule>): Option<Cents>
  {
    match FindDeductionRule(rules, item.deductionType.Name())
    case None => None
    case Some(rule) => rule.maxAmount
  }

  /**
   * What one deduction item contributes: its amount, or the cap when the
   * amount exceeds it. So never more than the amount, and never more than
   * the cap.
   */
  function AllowedDeduction(item: DeductionItem, rules: seq<DeductionRule>): (a: Cents)
    ensures DeductionCap(item, rules).None? ==> a == item.amount
    ensures DeductionCap(item, rules).Some? ==> a == Min(item.amount, DeductionCap(item, rules).value)
  {
    var rule := FindDeductionRule(rules, item.deductionType.Name());
    if rule.Some? && rule.value.maxAmount.Some? && item.amount > rule.value.maxAmount.value then
      rule.value.maxAmount.value
    else
      item.amount
  }

  /** The sum of the allowed amounts of the items, item by item. */
  function DeductionTotal(items: seq<DeductionItem>, rules: seq<DeductionRule>): Cents
  {
    if |items| == 0 then 0
    else DeductionTotal(items[..|items| - 1], rules) + AllowedDeduction(items[|items| - 1], rules)
  }

  /** The loop of `calculateTotalDeductions`. */
  method CalculateTotalDeductions(items: seq<DeductionItem>, rules: seq<DeductionRule>) returns (total: Cents)
    ensures total == DeductionTotal(items, rules)
  {
    total := 0;
    var i := 0;
    while i < |items|
      invariant 0 <= i <= |items|
      invariant total == DeductionTotal(items[..i], rules)
    {
      var item := items[i];
      var allowedAmount := item.amount;
      var rule := FindDeductionRule(rules, item.deductionType.Name());
      if rule.Some? {
        if rule.value.maxAmount.Some? && item.amount > rule.value.maxAmount.value {
          allowedAmount := rule.value.maxAmount.value;
        }
      }
      assert items[..i + 1][..i] == items[..i];
      total := total + allowedAmount;
      i := i + 1;
    }
    assert items[..i] == items;
  }

  function DeductionAmount(d: DeductionItem): int { d.amount }

  /** The deduction total is a sum over items of their allowed amounts, in any order. */
  lemma {:induction false} DeductionTotalIsSum(items: seq<DeductionItem>, rules: seq<DeductionRule>, allowed: DeductionItem -> int)
    requires forall d :: allowed(d) == AllowedDeduction(d, rules)
    ensures DeductionTotal(items, rules) == Sum(items, allowed)
    decreases |items|
  {
    if |items| > 0 {
      DeductionTotalIsSum(items[..|items| - 1], rules, allowed);
    }
  }

  /** Reordering the deduction items does not change their total. */
  lemma DeductionTotalIgnoresOrder(a: seq<DeductionItem>, b: seq<DeductionItem>, rules: seq<DeductionRule>)
    requires multiset(a) == multiset(b)
    ensures DeductionTotal(a, rules) == DeductionTotal(b, rules)
  {
    var allowed := (d: DeductionItem) => AllowedDeduction(d, rules);
    DeductionTotalIsSum(a, rules, allowed);
    DeductionTotalIsSum(b, rules, allowed);
    SumPermutation(a, b, allowed);
  }

  /** Caps only ever lower the claimed total; with no rules nothing is capped. */
  lemma {:induction false} DeductionTotalAtMostClaimed(items: seq<DeductionItem>, rules: seq<DeductionRule>)
    ensures DeductionTotal(items, rules) <= Sum(items, DeductionAmount)
    ensures rules == [] ==> DeductionTotal(items, rules) == Sum(items, DeductionAmount)
    decreases |items|
  {
    if |items| > 0 {
      DeductionTotalAtMostClaimed(items[..|items| - 1], rules);
    }
  }

  // ---------------------------------------------------------------------
  // Step 3: taxable income
  // ---------------------------------------------------------------------

  /** Income less deductions, or zero when deductions exceed income. */
  function TaxableIncome(totalIncome: Cents, totalDeductions: Cents): (t: Cents)
    ensures t >= 0
    ensures t >= totalIncome - totalDeductions
    ensures t == 0 || t == totalIncome - totalDeductions
  {
    var taxable := totalIncome - totalDeductions;
    if taxable < 0 then 0 else taxable
  }

  // ---------------------------------------------------------------------
  // Step 4: progressive tax over the brackets in ascending bracketOrder
  // ---------------------------------------------------------------------

  /** The income a bracket takes from what is left: all of it when unbounded, else up to the width. */
  function IncomeInBracket(remaining: Cents, b: TaxBracket): Cents
  {
    match b.maxIncome
    case None => remaining
    case Some(max) => Min(remaining, max - b.minIncome)
  }

  /** `income × rate`, rounded HALF_UP to cents. */
  function BracketTax(income: Cents, rate: Rate): Cents
  {
    RoundHalfUpDiv(income * rate, RateScale)
  }

  /** For non-negative operands the bracket tax is `(cents*rate + 5000) / 10000`. */
  lemma BracketTaxFormula(income: Cents, rate: Rate)
    requires income >= 0 && rate >= 0
    ensures BracketTax(income, rate) == (income * rate + 5000) / 10000
  {
    var n := income * rate;
    var q := (n + 5000) / 10000;
    var r := (n + 5000) % 10000;
    assert n + 5000 == 10000 * q + r && 0 <= r < 10000;
    assert 2 * n + 10000 == 20000 * q + 2 * r;
    DivideByTwentyThousand(2 * n + 10000, q);
  }

  lemma DivideByTwentyThousand(m: int, q: int)
    requires 20000 * q <= m < 20000 * q + 20000
    ensures m / 20000 == q
  {
  }

  function BracketEntry(remaining: Cents, b: TaxBracket): BracketBreakdown
  {
    var income := IncomeInBracket(remaining, b);
    BracketBreakdown(b.bracketOrder, b.minIncome, b.maxIncome, b.rate, income, BracketTax(income, b.rate))
  }

  datatype BracketWalk = BracketWalk(tax: Cents, breakdown: seq<BracketBreakdown>, remaining: Cents)

  /**
   * The walk over brackets already in order: stop when nothing is left to
   * tax, otherwise tax this bracket's share and continue with the rest.
   */
  function Walk(remaining: Cents, brackets: seq<TaxBracket>): BracketWalk
    decreases |brackets|
  {
    if |brackets| == 0 || remaining <= 0 then BracketWalk(0, [], remaining)
    else
      var e := BracketEntry(remaining, brackets[0]);
      var rest := Walk(remaining - e.taxableInBracket, brackets[1..]);
      BracketWalk(e.taxFromBracket + rest.tax, [e] + rest.breakdown, rest.remaining)
  }

  /** The brackets in ascending bracketOrder, ties kept in list order. */
  function SortedBrackets(brackets: seq<TaxBracket>): seq<TaxBracket>
  {
    SortBy(brackets, BracketOrder)
  }

  function ProgressiveTax(taxableIncome: Cents, brackets: seq<TaxBracket>): BracketWalk
  {
    Walk(taxableIncome, SortedBrackets(brackets))
  }

  /** `calculateProgressiveTax`: sort the brackets, then walk them. */
  method CalculateProgressiveTax(taxableIncome: Cents, brackets: seq<TaxBracket>)
    returns (grossTax: Cents, breakdown: seq<BracketBreakdown>)
    ensures grossTax == ProgressiveTax(taxableIncome, brackets).tax
    ensures breakdown == ProgressiveTax(taxableIncome, brackets).breakdown
  {
    var sorted := SortedBrackets(brackets);
    grossTax, breakdown := WalkBrackets(taxableIncome, sorted);
  }

  /** The loop of `calculateProgressiveTax`, over brackets already in order. */
  method WalkBrackets(taxableIncome: Cents, sorted: seq<TaxBracket>)
    returns (grossTax: Cents, breakdown: seq<BracketBreakdown>)
    ensures grossTax == Walk(taxableIncome, sorted).tax
    ensures breakdown == Walk(taxableIncome, sorted).breakdown
  {
    ghost var whole := Walk(taxableIncome, sorted);
    var remainingIncome := taxableIncome;
    var totalTax := 0;
    breakdown := [];
    var i := 0;
    while i < |sorted| && remainingIncome > 0
      invariant 0 <= i <= |sorted|
      invariant whole.tax == totalTax + Walk(remainingIncome, sorted[i..]).tax
      invariant whole.breakdown == breakdown + Walk(remainingIncome, sorted[i..]).breakdown
    {
      var bracket := sorted[i];
      var incomeInBracket := IncomeInBracket(remainingIncome, bracket);
      var taxFromBracket := BracketTax(incomeInBracket, bracket.rate);
      var entry := BracketBreakdown(bracket.bracketOrder, bracket.minIncome, bracket.maxIncome,
                                    bracket.rate, incomeInBracket, taxFromBracket);
      assert entry == BracketEntry(remainingIncome, bracket);
      WalkAdvance(whole, remainingIncome, sorted, i, totalTax, breakdown);
      totalTax := totalTax + taxFromBracket;
      remainingIncome := remainingIncome - incomeInBracket;
      breakdown := breakdown + [entry];
      i := i + 1;
    }
    WalkFinished(whole, remainingIncome, sorted, i, totalTax, breakdown);
    grossTax := totalTax;
  }

  /** When the loop stops, the walk still to come adds nothing. */
  lemma WalkFinished(whole: BracketWalk, remaining: Cents, brackets: seq<TaxBracket>, i: nat,
                     doneTax: Cents, done: seq<BracketBreakdown>)
    requires i <= |brackets| && (i == |brackets| || remaining <= 0)
    requires whole.tax == doneTax + Walk(remaining, brackets[i..]).tax
    requires whole.breakdown == done + Walk(remaining, brackets[i..]).breakdown
    ensures whole.tax == doneTax && whole.breakdown == done
  {
    assert Walk(remaining, brackets[i..]) == BracketWalk(0, [], remaining);
    assert done + [] == done;
  }

  /**
   * One step of the loop: if the walk over `brackets` is `done` plus the
   * walk from bracket `i`, it is also `done` plus this bracket's entry plus
   * the walk from bracket `i + 1`.
   */
  lemma WalkAdvance(whole: BracketWalk, remaining: Cents, brackets: seq<TaxBracket>, i: nat,
                    doneTax: Cents, done: seq<BracketBreakdown>)
    requires i < |brackets| && remaining > 0
    requires whole.tax == doneTax + Walk(remaining, brackets[i..]).tax
    requires whole.breakdown == done + Walk(remaining, brackets[i..]).breakdown
    ensures whole.tax == doneTax + BracketEntry(remaining, brackets[i]).taxFromBracket +
      Walk(remaining - BracketEntry(remaining, brackets[i]).taxableInBracket, brackets[i + 1..]).tax
    ensures whole.breakdown == (done + [BracketEntry(remaining, brackets[i])]) +
      Walk(remaining - BracketEntry(remaining, brackets[i]).taxableInBracket, brackets[i + 1..]).breakdown
  {
    assert brackets[i..][0] == brackets[i];
    assert brackets[i..][1..] == brackets[i + 1..];
    var e := BracketEntry(remaining, brackets[i]);
    ConcatAssociative(done, [e], Walk(remaining - e.taxableInBracket, brackets[i + 1..]).breakdown);
  }

  function TaxableInBracket(e: BracketBreakdown): int { e.taxableInBracket }
  function TaxFromBracket(e: BracketBreakdown): int { e.taxFromBracket }

  /**
   * Gross tax is the sum of the per-bracket taxes recorded in the breakdown,
   * and the income the walk did not place is exactly what the breakdown
   * does not account for.
   */
  lemma {:induction false} WalkTotals(remaining: Cents, brackets: seq<TaxBracket>)
    ensures Walk(remaining, brackets).tax == Sum(Walk(remaining, brackets).breakdown, TaxFromBracket)
    ensures Walk(remaining, brackets).remaining ==
      remaining - Sum(Walk(remaining, brackets).breakdown, TaxableInBracket)
    decreases |brackets|
  {
    if |brackets| > 0 && remaining > 0 {
      var e := BracketEntry(remaining, brackets[0]);
      var rest := Walk(remaining - e.taxableInBracket, brackets[1..]);
      WalkTotals(remaining - e.taxableInBracket, brackets[1..]);
      SumConcat([e], rest.breakdown, TaxFromBracket);
      SumConcat([e], rest.breakdown, TaxableInBracket);
      assert [e][..0] == [];
    }
  }

  /** Starting from a non-negative income, what is left is never negative. */
  lemma {:induction false} WalkRemainingNonNegative(remaining: Cents, brackets: seq<TaxBracket>)
    requires remaining >= 0
    ensures Walk(remaining, brackets).remaining >= 0
    decreases |brackets|
  {
    if |brackets| > 0 && remaining > 0 {
      var e := BracketEntry(remaining, brackets[0]);
      assert remaining - e.taxableInBracket >= 0;
      WalkRemainingNonNegative(remaining - e.taxableInBracket, brackets[1..]);
    }
  }

  /**
   * The walk ends only when every bracket was used or nothing is left to
   * tax. It never uses more brackets than there are.
   */
  lemma {:induction false} WalkStops(remaining: Cents, brackets: seq<TaxBracket>)
    ensures |Walk(remaining, brackets).breakdown| <= |brackets|
    ensures |Walk(remaining, brackets).breakdown| == |brackets| || Walk(remaining, brackets).remaining <= 0
    decreases |brackets|
  {
    if |brackets| > 0 && remaining > 0 {
      var e := BracketEntry(remaining, brackets[0]);
      WalkStops(remaining - e.taxableInBracket, brackets[1..]);
    }
  }

  /**
   * Entry `k` of the breakdown is bracket `k` applied to the income still
   * left after the first `k` entries, and that income was positive when the
   * bracket was reached.
   */
  lemma {:induction false} WalkEntries(remaining: Cents, brackets: seq<TaxBracket>, k: nat)
    requires k < |Walk(remaining, brackets).breakdown|
    ensures k < |brackets|
    ensures remaining - Sum(Walk(remaining, brackets).breakdown[..k], TaxableInBracket) > 0
    ensures Walk(remaining, brackets).breakdown[k] ==
      BracketEntry(remaining - Sum(Walk(remaining, brackets).breakdown[..k], TaxableInBracket), brackets[k])
    decreases k
  {
    var w := Walk(remaining, brackets);
    var e := BracketEntry(remaining, brackets[0]);
    var rest := Walk(remaining - e.taxableInBracket, brackets[1..]);
    assert w.breakdown == [e] + rest.breakdown;
    if k == 0 {
      assert w.breakdown[..0] == [];
    } else {
      WalkEntries(remaining - e.taxableInBracket, brackets[1..], k - 1);
      assert w.breakdown[..k] == [e] + rest.breakdown[..k - 1];
      LeftAfterFirstEntry(remaining, e, rest.breakdown[..k - 1]);
      assert brackets[1..][k - 1] == brackets[k];
    }
  }

  /** The income left after entry `e` and then `later` is what is left after `later` from what `e` left. */
  lemma LeftAfterFirstEntry(remaining: Cents, e: BracketBreakdown, later: seq<BracketBreakdown>)
    ensures remaining - Sum([e] + later, TaxableInBracket) ==
      (remaining - e.taxableInBracket) - Sum(later, TaxableInBracket)
  {
    SumConcat([e], later, TaxableInBracket);
    SumSingle(e, TaxableInBracket);
  }

  /**
   * When some bracket is unbounded, the walk places all the income: the
   * breakdown's taxable amounts add up to exactly the taxable income.
   */
  lemma {:induction false} WalkPlacesAllIncome(remaining: Cents, brackets: seq<TaxBracket>)
    requires remaining >= 0
    requires exists k :: 0 <= k < |brackets| && brackets[k].maxIncome.None?
    ensures Walk(remaining, brackets).remaining == 0
    ensures Sum(Walk(remaining, brackets).breakdown, TaxableInBracket) == remaining
    decreases |brackets|
  {
    WalkTotals(remaining, brackets);
    if remaining > 0 {
      var e := BracketEntry(remaining, brackets[0]);
      if brackets[0].maxIncome.None? {
        assert remaining - e.taxableInBracket == 0;
        assert Walk(0, brackets[1..]).remaining == 0;
      } else {
        var k :| 0 <= k < |brackets| && brackets[k].maxIncome.None?;
        assert brackets[1..][k - 1].maxIncome.None?;
        assert remaining - e.taxableInBracket >= 0;
        WalkPlacesAllIncome(remaining - e.taxableInBracket, brackets[1..]);
      }
    }
  }

  /** A bracket that can take income: non-negative bounds and rate, and a positive width. */
  predicate ProperBracket(b: TaxBracket)
  {
    b.minIncome >= 0 && b.rate >= 0 && (b.maxIncome.Some? ==> b.maxIncome.value > b.minIncome)
  }

  /**
   * Over proper brackets every entry of the breakdown taxes a positive
   * amount and a non-negative tax, so the gross tax is never negative and
   * the breakdown is empty only when there is nothing to tax.
   */
  lemma {:induction false} WalkEntriesPositive(remaining: Cents, brackets: seq<TaxBracket>)
    requires forall k :: 0 <= k < |brackets| ==> ProperBracket(brackets[k])
    ensures forall k :: 0 <= k < |Walk(remaining, brackets).breakdown| ==>
      Walk(remaining, brackets).breakdown[k].taxableInBracket > 0 &&
      Walk(remaining, brackets).breakdown[k].taxFromBracket >= 0
    ensures Walk(remaining, brackets).tax >= 0
    ensures remaining > 0 && |brackets| > 0 ==> |Walk(remaining, brackets).breakdown| > 0
    decreases |brackets|
  {
    if |brackets| > 0 && remaining > 0 {
      var e := BracketEntry(remaining, brackets[0]);
      assert ProperBracket(brackets[0]);
      assert e.taxableInBracket > 0;
      assert e.taxableInBracket * brackets[0].rate >= 0;
      WalkEntriesPositive(remaining - e.taxableInBracket, brackets[1..]);
    }
  }

  /** The breakdown lists the brackets it used in ascending bracketOrder. */
  lemma BreakdownInBracketOrder(taxableIncome: Cents, brackets: seq<TaxBracket>)
    ensures forall i, j :: 0 <= i < j < |ProgressiveTax(taxableIncome, brackets).breakdown| ==>
      ProgressiveTax(taxableIncome, brackets).breakdown[i].bracketOrder <=
      ProgressiveTax(taxableIncome, brackets).breakdown[j].bracketOrder
  {
    var sorted := SortedBrackets(brackets);
    var bd := ProgressiveTax(taxableIncome, brackets).breakdown;
    forall i, j | 0 <= i < j < |bd| ensures bd[i].bracketOrder <= bd[j].bracketOrder {
      WalkEntries(taxableIncome, sorted, i);
      WalkEntries(taxableIncome, sorted, j);
      assert BracketOrder(sorted[i]) <= BracketOrder(sorted[j]);
    }
  }

  /**
   * With distinct bracket orders (the `(rule_version_id, bracket_order)`
   * unique key), the tax does not depend on the order the brackets are
   * stored in.
   */
  lemma ProgressiveTaxIgnoresStorageOrder(taxableIncome: Cents, a: seq<TaxBracket>, b: seq<TaxBracket>)
    requires multiset(a) == multiset(b)
    requires KeysUnique(multiset(a), BracketOrder)
    ensures ProgressiveTax(taxableIncome, a) == ProgressiveTax(taxableIncome, b)
  {
    SortByIgnoresInputOrder(a, b, BracketOrder);
  }

  // ---------------------------------------------------------------------
  // Step 5: credits
  // ---------------------------------------------------------------------

  predicate CreditRuleMatches(rule: TaxCreditRule, creditType: string)
  {
    EqualsIgnoreCase(rule.creditType, creditType)
  }

  /** The first credit rule whose type equals `creditType` ignoring case. */
  function FindCreditRule(rules: seq<TaxCreditRule>, creditType: string): (r: Option<TaxCreditRule>)
    ensures r.Some? ==> exists k :: (0 <= k < |rules| && rules[k] == r.value &&
      CreditRuleMatches(rules[k], creditType) &&
      forall j :: 0 <= j < k ==> !CreditRuleMatches(rules[j], creditType))
    ensures r.None? <==> forall k :: 0 <= k < |rules| ==> !CreditRuleMatches(rules[k], creditType)
  {
    if |rules| == 0 then None
    else if CreditRuleMatches(rules[0], creditType) then Some(rules[0])
    else
      var r := FindCreditRule(rules[1..], creditType);
      if r.Some? then
        var k :| 0 <= k < |rules[1..]| && rules[1..][k] == r.value &&
          CreditRuleMatches(rules[1..][k], creditType) &&
          forall j :: 0 <= j < k ==> !CreditRuleMatches(rules[1..][j], creditType);
        assert rules[k + 1] == r.value;
        assert forall j :: 0 <= j < k + 1 ==> !CreditRuleMatches(rules[j], creditType) by {
          forall j | 0 <= j < k + 1 ensures !CreditRuleMatches(rules[j], creditType) {
            if j > 0 { assert rules[j] == rules[1..][j - 1]; }
          }
        }
        r
      else
        assert forall k :: 0 <= k < |rules| ==> !CreditRuleMatches(rules[k], creditType) by {
          forall k | 0 <= k < |rules| ensures !CreditRuleMatches(rules[k], creditType) {
            if k > 0 { assert rules[k] == rules[1..][k - 1]; }
          }
        }
        r
  }

  /**
   * The breakdown entry for one claim. Without a rule the claim is allowed
   * in full as non-refundable; with one, the rule's flag (null meaning
   * false) decides refundability and its maxAmount caps the allowed amount.
   */
  function AllowCredit(claim: CreditClaim, rules: seq<TaxCreditRule>): (e: CreditBreakdown)
    ensures e.creditType == claim.creditType && e.claimedAmount == claim.claimedAmount
    ensures e.allowedAmount <= claim.claimedAmount
    ensures FindCreditRule(rules, claim.creditType).None? ==>
      e.allowedAmount == claim.claimedAmount && !e.isRefundable && e.reason == Allowed
    ensures FindCreditRule(rules, claim.creditType).Some? ==>
      var rule := FindCreditRule(rules, claim.creditType).value;
      e.isRefundable == (rule.isRefundable == Some(true)) &&
      (rule.maxAmount.None? ==> e.allowedAmount == claim.claimedAmount && e.reason == Allowed) &&
      (rule.maxAmount.Some? ==> e.allowedAmount == Min(claim.claimedAmount, rule.maxAmount.value)) &&
      (e.reason != Allowed <==> rule.maxAmount.Some? && claim.claimedAmount > rule.maxAmount.value)
  {
    var rule := FindCreditRule(rules, claim.creditType);
    var isRefundable := rule.Some? && rule.value.isRefundable == Some(true);
    if rule.Some? && rule.value.maxAmount.Some? && claim.claimedAmount > rule.value.maxAmount.value then
      CreditBreakdown(claim.creditType, claim.claimedAmount, rule.value.maxAmount.value, isRefundable,
                      CappedToMax(rule.value.maxAmount.value))
    else
      CreditBreakdown(claim.creditType, claim.claimedAmount, claim.claimedAmount, isRefundable, Allowed)
  }

  /** One breakdown entry per claim, in claim order. */
  function CreditEntries(claims: seq<CreditClaim>, rules: seq<TaxCreditRule>): (r: seq<CreditBreakdown>)
    ensures |r| == |claims|
  {
    if |claims| == 0 then []
    else CreditEntries(claims[..|claims| - 1], rules) + [AllowCredit(claims[|claims| - 1], rules)]
  }

  /** Entry `k` of the credit breakdown is the decision on claim `k`. */
  lemma {:induction false} CreditEntriesPointwise(claims: seq<CreditClaim>, rules: seq<TaxCreditRule>, k: nat)
    requires k < |claims|
    ensures CreditEntries(claims, rules)[k] == AllowCredit(claims[k], rules)
    decreases |claims|
  {
    if k < |claims| - 1 {
      CreditEntriesPointwise(claims[..|claims| - 1], rules, k);
    }
  }

  lemma CreditEntriesStep(claims: seq<CreditClaim>, rules: seq<TaxCreditRule>, i: nat)
    requires i < |claims|
    ensures CreditEntries(claims[..i + 1], rules) == CreditEntries(claims[..i], rules) + [AllowCredit(claims[i], rules)]
  {
    assert claims[..i + 1][..i] == claims[..i];
  }

  function NonRefundablePart(e: CreditBreakdown): int { if e.isRefundable then 0 else e.allowedAmount }
  function RefundablePart(e: CreditBreakdown): int { if e.isRefundable then e.allowedAmount else 0 }

  function NonRefundableSum(entries: seq<CreditBreakdown>): Cents { Sum(entries, NonRefundablePart) }
  function RefundableSum(entries: seq<CreditBreakdown>): Cents { Sum(entries, RefundablePart) }

  /**
   * Usable credits: the non-refundable pool limited by the gross tax, plus
   * every refundable credit in full.
   */
  function TotalCredits(entries: seq<CreditBreakdown>, grossTax: Cents): (t: Cents)
    ensures t - RefundableSum(entries) <= grossTax
    ensures t - RefundableSum(entries) <= NonRefundableSum(entries)
    ensures t - RefundableSum(entries) == grossTax || t - RefundableSum(entries) == NonRefundableSum(entries)
  {
    Min(NonRefundableSum(entries), grossTax) + RefundableSum(entries)
  }

  lemma TotalCreditsFromPools(entries: seq<CreditBreakdown>, grossTax: Cents, nonRefundable: Cents, refundable: Cents)
    requires nonRefundable == NonRefundableSum(entries) && refundable == RefundableSum(entries)
    ensures TotalCredits(entries, grossTax) == Min(nonRefundable, grossTax) + refundable
  {
  }

  /** The loop of `calculateCredits`. */
  method CalculateCredits(claims: seq<CreditClaim>, rules: seq<TaxCreditRule>, grossTax: Cents)
    returns (totalCredits: Cents, breakdown: seq<CreditBreakdown>)
    ensures breakdown == CreditEntries(claims, rules)
    ensures totalCredits == TotalCredits(breakdown, grossTax)
  {
    var nonRefundableCredits := 0;
    var refundableCredits := 0;
    breakdown := [];
    var i := 0;
    while i < |claims|
      invariant 0 <= i <= |claims|
      invariant breakdown == CreditEntries(claims[..i], rules)
      invariant nonRefundableCredits == NonRefundableSum(breakdown)
      invariant refundableCredits == RefundableSum(breakdown)
    {
      var entry := AllowCredit(claims[i], rules);
      if entry.isRefundable {
        refundableCredits := refundableCredits + entry.allowedAmount;
      } else {
        nonRefundableCredits := nonRefundableCredits + entry.allowedAmount;
      }
      CreditEntriesStep(claims, rules, i);
      SumAppend(breakdown, entry, NonRefundablePart);
      SumAppend(breakdown, entry, RefundablePart);
      breakdown := breakdown + [entry];
      i := i + 1;
    }
    assert claims[..i] == claims;
    var usableNonRefundable := Min(nonRefundableCredits, grossTax);
    totalCredits := usableNonRefundable + refundableCredits;
    TotalCreditsFromPools(breakdown, grossTax, nonRefundableCredits, refundableCredits);
  }

  /**
   * Non-refundable credits alone never take the tax below zero: the gross
   * tax less the usable non-refundable part stays non-negative.
   */
  lemma NonRefundableCreditsCannotRefund(entries: seq<CreditBreakdown>, grossTax: Cents)
    requires grossTax >= 0
    ensures grossTax - (TotalCredits(entries, grossTax) - RefundableSum(entries)) >= 0
    ensures NonRefundableSum(entries) <= grossTax ==>
      TotalCredits(entries, grossTax) == NonRefundableSum(entries) + RefundableSum(entries)
  {
  }

  function ClaimedAmount(c: CreditClaim): int { c.claimedAmount }

  /** The split into pools loses nothing: the two pools add up to the allowed amounts. */
  lemma {:induction false} CreditPoolsPartition(entries: seq<CreditBreakdown>)
    ensures NonRefundableSum(entries) + RefundableSum(entries) == Sum(entries, AllowedPart)
    decreases |entries|
  {
    if |entries| > 0 {
      CreditPoolsPartition(entries[..|entries| - 1]);
    }
  }

  function AllowedPart(e: CreditBreakdown): int { e.allowedAmount }

  /** The credits applied never exceed what was claimed. */
  lemma TotalCreditsAtMostClaimed(claims: seq<CreditClaim>, rules: seq<TaxCreditRule>, grossTax: Cents)
    ensures TotalCredits(CreditEntries(claims, rules), grossTax) <= Sum(claims, ClaimedAmount)
  {
    var entries := CreditEntries(claims, rules);
    CreditPoolsPartition(entries);
    AllowedAtMostClaimed(entries, claims, rules);
  }

  lemma {:induction false} AllowedAtMostClaimed(entries: seq<CreditBreakdown>, claims: seq<CreditClaim>, rules: seq<TaxCreditRule>)
    requires entries == CreditEntries(claims, rules)
    ensures Sum(entries, AllowedPart) <= Sum(claims, ClaimedAmount)
    decreases |claims|
  {
    if |claims| > 0 {
      AllowedAtMostClaimed(CreditEntries(claims[..|claims| - 1], rules), claims[..|claims| - 1], rules);
    }
  }

  /**
   * Without credit rules every claim is allowed in full as non-refundable:
   * the non-refundable pool is the claimed total and nothing is refundable.
   */
  lemma {:induction false} CreditsWithoutRules(claims: seq<CreditClaim>)
    ensures NonRefundableSum(CreditEntries(claims, [])) == Sum(claims, ClaimedAmount)
    ensures RefundableSum(CreditEntries(claims, [])) == 0
    decreases |claims|
  {
    if |claims| > 0 {
      CreditsWithoutRules(claims[..|claims| - 1]);
    }
  }

  // ---------------------------------------------------------------------
  // Step 6: withholding
  // ---------------------------------------------------------------------

  /** An item's withholding, a missing value counting as zero. */
  function WithheldOrZero(i: IncomeItem): int { i.taxWithheld.GetOr(0) }

  function TaxWithheld(items: seq<IncomeItem>): Cents
  {
    Sum(items, WithheldOrZero)
  }

  /** Withholding does not depend on the item order, and is not negative when no slip is. */
  lemma TaxWithheldFacts(a: seq<IncomeItem>, b: seq<IncomeItem>)
    requires multiset(a) == multiset(b)
    ensures TaxWithheld(a) == TaxWithheld(b)
    ensures (forall k :: 0 <= k < |a| ==> WithheldOrZero(a[k]) >= 0) ==> TaxWithheld(a) >= 0
  {
    SumPermutation(a, b, WithheldOrZero);
    if forall k :: 0 <= k < |a| ==> WithheldOrZero(a[k]) >= 0 {
      SumNonNegative(a, WithheldOrZero);
    }
  }

  // ---------------------------------------------------------------------
  // Step 7: the whole pipeline
  // ---------------------------------------------------------------------

  /** The filing data a calculation reads. */
  datatype FilingInputs = FilingInputs(
    incomeItems: seq<IncomeItem>,
    deductionItems: seq<DeductionItem>,
    creditClaims: seq<CreditClaim>)

  /** The rule data a calculation reads. */
  datatype RuleInputs = RuleInputs(
    brackets: seq<TaxBracket>,
    creditRules: seq<TaxCreditRule>,
    deductionRules: seq<DeductionRule>)

  datatype TaxResult = TaxResult(
    totalIncome: Cents,
    totalDeductions: Cents,
    taxableIncome: Cents,
    grossTax: Cents,
    totalCredits: Cents,
    taxWithheld: Cents,
    netTaxOwing: Cents,
    bracketBreakdown: seq<BracketBreakdown>,
    creditsBreakdown: seq<CreditBreakdown>)

  /** Steps 1 to 7 as one specification. */
  function Assess(f: FilingInputs, rules: RuleInputs): (t: TaxResult)
    ensures t.taxableIncome >= 0
    ensures t.netTaxOwing == t.grossTax - t.totalCredits - t.taxWithheld
    ensures |t.creditsBreakdown| == |f.creditClaims|
  {
    var income := TotalIncome(f.incomeItems);
    var deductions := DeductionTotal(f.deductionItems, rules.deductionRules);
    var taxable := TaxableIncome(income, deductions);
    var walk := ProgressiveTax(taxable, rules.brackets);
    var entries := CreditEntries(f.creditClaims, rules.creditRules);
    var credits := TotalCredits(entries, walk.tax);
    var withheld := TaxWithheld(f.incomeItems);
    TaxResult(income, deductions, taxable, walk.tax, credits, withheld,
              walk.tax - credits - withheld, walk.breakdown, entries)
  }

  /** The body of `calculateTax` from the loaded filing and rule version to the totals. */
  method CalculateTotals(f: FilingInputs, rules: RuleInputs) returns (t: TaxResult)
    ensures t == Assess(f, rules)
  {
    var totalIncome := TotalIncome(f.incomeItems);
    var totalDeductions := CalculateTotalDeductions(f.deductionItems, rules.deductionRules);
    var taxableIncome := totalIncome - totalDeductions;
    if taxableIncome < 0 {
      taxableIncome := 0;
    }
    assert taxableIncome == TaxableIncome(totalIncome, totalDeductions);
    var grossTax, bracketBreakdown := CalculateProgressiveTax(taxableIncome, rules.brackets);
    var totalCredits, creditsBreakdown := CalculateCredits(f.creditClaims, rules.creditRules, grossTax);
    var taxWithheld := TaxWithheld(f.incomeItems);
    var netTaxOwing := grossTax - totalCredits - taxWithheld;
    t := TaxResult(totalIncome, totalDeductions, taxableIncome, grossTax, totalCredits, taxWithheld,
                   netTaxOwing, bracketBreakdown, creditsBreakdown);
    AssessFromSteps(f, rules, t);
  }

  /** A result whose every figure is that step's specification is the assessment. */
  lemma AssessFromSteps(f: FilingInputs, rules: RuleInputs, t: TaxResult)
    requires t.totalIncome == TotalIncome(f.incomeItems)
    requires t.totalDeductions == DeductionTotal(f.deductionItems, rules.deductionRules)
    requires t.taxableIncome == TaxableIncome(t.totalIncome, t.totalDeductions)
    requires t.grossTax == ProgressiveTax(t.taxableIncome, rules.brackets).tax
    requires t.bracketBreakdown == ProgressiveTax(t.taxableIncome, rules.brackets).breakdown
    requires t.creditsBreakdown == CreditEntries(f.creditClaims, rules.creditRules)
    requires t.totalCredits == TotalCredits(t.creditsBreakdown, t.grossTax)
    requires t.taxWithheld == TaxWithheld(f.incomeItems)
    requires t.netTaxOwing == t.grossTax - t.totalCredits - t.taxWithheld
    ensures t == Assess(f, rules)
  {
  }

  /**
   * Reordering the items of a filing changes none of the totals (the credit
   * breakdown follows the claims, so only its order can differ).
   */
  lemma AssessIgnoresItemOrder(f: FilingInputs, g: FilingInputs, rules: RuleInputs)
    requires multiset(f.incomeItems) == multiset(g.incomeItems)
    requires multiset(f.deductionItems) == multiset(g.deductionItems)
    requires multiset(f.creditClaims) == multiset(g.creditClaims)
    ensures Assess(f, rules).(creditsBreakdown := []) == Assess(g, rules).(creditsBreakdown := [])
  {
    TotalIncomeIgnoresOrder(f.incomeItems, g.incomeItems);
    DeductionTotalIgnoresOrder(f.deductionItems, g.deductionItems, rules.deductionRules);
    TaxWithheldFacts(f.incomeItems, g.incomeItems);
    var cr := rules.creditRules;
    var nonRef := (c: CreditClaim) => NonRefundablePart(AllowCredit(c, cr));
    var ref := (c: CreditClaim) => RefundablePart(AllowCredit(c, cr));
    CreditEntriesSum(f.creditClaims, cr, NonRefundablePart, nonRef);
    CreditEntriesSum(g.creditClaims, cr, NonRefundablePart, nonRef);
    CreditEntriesSum(f.creditClaims, cr, RefundablePart, ref);
    CreditEntriesSum(g.creditClaims, cr, RefundablePart, ref);
    SumPermutation(f.creditClaims, g.creditClaims, nonRef);
    SumPermutation(f.creditClaims, g.creditClaims, ref);
  }

  /** A sum over the credit breakdown is a sum over the claims, entry by entry. */
  lemma {:induction false} CreditEntriesSum(claims: seq<CreditClaim>, rules: seq<TaxCreditRule>,
                                            f: CreditBreakdown -> int, g: CreditClaim -> int)
    requires forall c :: g(c) == f(AllowCredit(c, rules))
    ensures Sum(CreditEntries(claims, rules), f) == Sum(claims, g)
    decreases |claims|
  {
    if |claims| > 0 {
      var init := claims[..|claims| - 1];
      CreditEntriesSum(init, rules, f, g);
      SumAppend(CreditEntries(init, rules), AllowCredit(claims[|claims| - 1], rules), f);
    }
  }
}
