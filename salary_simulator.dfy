/** Model of the retirement-contribution tax-savings engine of the salary
    simulator: the two progressive bracket tables, the first-match tax
    lookup, the profession-dependent deduction cap, and the calculation
    handler that stores a savings report in the simulator's state.

    Amounts are exact reals; bracket bounds are whole numbers, as in the
    source tables. */
module SalarySimulator {

  datatype Option<T> = None | Some(value: T)

  /** The reporting period of an income and of its tax. */
  datatype Period = Monthly | Annual

  /** One row of a bracket table: the closed interval [min, max] (no upper
      bound when `max` is None), the marginal rate and the fixed deduction. */
  datatype Bracket = Bracket(min: int, max: Option<int>, rate: real, deduction: real)

  /** A number as produced by parsing a form field: NaN when the text is not
      a number. */
  datatype Number = NaN | Num(value: real)

  /** The report the calculation handler stores. */
  datatype Results = Results(
    normalTax: real,
    newTax: real,
    periodSavings: real,
    monthlySavings: real,
    annualSavings: real,
    fiveYearSavings: real,
    tenYearSavings: real,
    fifteenYearSavings: real,
    twentyYearSavings: real,
    effectiveContribution: real,
    maxContribution: real,
    period: Period)

  const LIBERAL: string := "profession_liberale"

  const MonthlyBrackets: seq<Bracket> := [
    Bracket(0, Some(3333), 0.0, 0.0),
    Bracket(3334, Some(5000), 0.1, 333.33),
    Bracket(5001, Some(6667), 0.2, 833.33),
    Bracket(6668, Some(8333), 0.3, 1500.0),
    Bracket(8334, Some(15000), 0.34, 1833.33),
    Bracket(15001, None, 0.37, 2283.33)
  ]

  const AnnualBrackets: seq<Bracket> := [
    Bracket(0, Some(40000), 0.0, 0.0),
    Bracket(40001, Some(60000), 0.1, 4000.0),
    Bracket(60001, Some(80000), 0.2, 10000.0),
    Bracket(80001, Some(100000), 0.3, 18000.0),
    Bracket(100001, Some(180000), 0.34, 22000.0),
    Bracket(180001, None, 0.37, 27400.0)
  ]

  // ---------------------------------------------------------------------
  // Tax lookup
  // ---------------------------------------------------------------------

  function Max0(x: real): (r: real)
    ensures r >= 0.0 && r >= x
    ensures r == 0.0 || r == x
  {
    if x > 0.0 then x else 0.0
  }

  /** The row's interval contains the income (both bounds inclusive). */
  predicate Matches(b: Bracket, income: real) {
    income >= b.min as real && (b.max.None? || income <= b.max.value as real)
  }

  /** The tax a row charges: never below zero. */
  function RowTax(b: Bracket, income: real): (tax: real)
    ensures tax >= 0.0 && tax >= income * b.rate - b.deduction
    ensures tax == 0.0 || tax == income * b.rate - b.deduction
  {
    Max0(income * b.rate - b.deduction)
  }

  /** Specification of the lookup: the first matching row decides, and an
      income that no row contains is taxed 0. */
  function Tax(income: real, table: seq<Bracket>): (tax: real)
    ensures tax >= 0.0
    decreases |table|
  {
    if table == [] then 0.0
    else if Matches(table[0], income) then RowTax(table[0], income)
    else Tax(income, table[1..])
  }

  /** The scan over the table, returning at the first row that contains
      the income. */
  method CalculateTax(income: real, brackets: seq<Bracket>) returns (tax: real)
    ensures tax == Tax(income, brackets)
  {
    var i := 0;
    while i < |brackets|
      invariant 0 <= i <= |brackets|
      invariant Tax(income, brackets[i..]) == Tax(income, brackets)
    {
      var bracket := brackets[i];
      if income >= bracket.min as real && (bracket.max.None? || income <= bracket.max.value as real) {
        return Max0(income * bracket.rate - bracket.deduction);
      }
      assert brackets[i..][1..] == brackets[i + 1..];
      i := i + 1;
    }
    return 0.0;
  }

  predicate Covered(table: seq<Bracket>, income: real) {
    exists k :: 0 <= k < |table| && Matches(table[k], income)
  }

  /** Rows are listed in ascending order, each row (but the last) has an
      upper bound not below its lower bound and strictly below the next
      row's lower bound, and no rate is negative. */
  predicate WellFormed(table: seq<Bracket>) {
    |table| > 0 &&
    (forall k :: 0 <= k < |table| ==> table[k].rate >= 0.0) &&
    (forall k :: 0 <= k < |table| - 1 ==>
       table[k].max.Some? && table[k].min <= table[k].max.value < table[k + 1].min)
  }

  /** On whole numbers the rows leave no gap: each row starts one above the
      previous row's upper bound, and the last row is unbounded. */
  predicate Contiguous(table: seq<Bracket>) {
    |table| > 0 &&
    table[|table| - 1].max.None? &&
    (forall k :: 0 <= k < |table| - 1 ==>
       table[k].max.Some? && table[k].max.value + 1 == table[k + 1].min)
  }

  /** The tax at each row's upper bound does not exceed the tax at the next
      row's lower bound. */
  predicate SeamsRise(table: seq<Bracket>) {
    forall k :: 0 <= k < |table| - 1 && table[k].max.Some? ==>
      RowTax(table[k], table[k].max.value as real) <= RowTax(table[k + 1], table[k + 1].min as real)
  }

  /** An income strictly between one row's upper bound and the next row's
      lower bound. */
  predicate InGap(table: seq<Bracket>, income: real) {
    exists k :: 0 <= k < |table| - 1 && GapAt(table, k, income)
  }

  predicate GapAt(table: seq<Bracket>, k: int, income: real) {
    0 <= k < |table| - 1 && table[k].max.Some? &&
    table[k].max.value as real < income < table[k + 1].min as real
  }

  predicate IsWhole(x: real) {
    x.Floor as real == x
  }

  function TableFor(p: Period): (table: seq<Bracket>)
    ensures p == Monthly ==> table == MonthlyBrackets
    ensures p == Annual ==> table == AnnualBrackets
  {
    if p == Monthly then MonthlyBrackets else AnnualBrackets
  }

  /** When row k is the first row containing the income, the tax is that
      row's tax. */
  lemma {:induction false} TaxOfFirstMatch(income: real, table: seq<Bracket>, k: nat)
    requires k < |table| && Matches(table[k], income)
    requires forall j :: 0 <= j < k ==> !Matches(table[j], income)
    ensures Tax(income, table) == RowTax(table[k], income)
  {
    if k > 0 {
      assert !Matches(table[0], income);
      forall j | 0 <= j < k - 1 ensures !Matches(table[1..][j], income) {
        assert table[1..][j] == table[j + 1];
      }
      TaxOfFirstMatch(income, table[1..], k - 1);
    }
  }

  /** When no row contains the income, the tax is 0. */
  lemma {:induction false} TaxOfNoMatch(income: real, table: seq<Bracket>)
    requires !Covered(table, income)
    ensures Tax(income, table) == 0.0
  {
    if table != [] {
      assert !Matches(table[0], income);
      assert !Covered(table[1..], income) by {
        forall j | 0 <= j < |table| - 1 ensures !Matches(table[1..][j], income) {
          assert table[1..][j] == table[j + 1];
        }
      }
      TaxOfNoMatch(income, table[1..]);
    }
  }

  /** In a well-formed table every earlier row ends below every later row
      starts. */
  lemma {:induction false} MaxBelowLaterMin(table: seq<Bracket>, j: nat, k: nat)
    requires WellFormed(table) && j < k < |table|
    ensures table[j].max.Some? && table[j].max.value < table[k].min
  {
    if j + 1 < k {
      MaxBelowLaterMin(table, j, k - 1);
    }
  }

  /** In a well-formed table the row containing the income is the only one,
      so it decides the tax wherever it stands. */
  lemma TaxInRow(income: real, table: seq<Bracket>, k: nat)
    requires WellFormed(table) && k < |table| && Matches(table[k], income)
    ensures Tax(income, table) == RowTax(table[k], income)
  {
    forall j | 0 <= j < k ensures !Matches(table[j], income) {
      MaxBelowLaterMin(table, j, k);
    }
    TaxOfFirstMatch(income, table, k);
  }

  /** Incomes in a gap between two rows, or below the first row, match no
      row of a well-formed table and are taxed 0. */
  lemma UncoveredIncomeUntaxed(table: seq<Bracket>, income: real)
    requires WellFormed(table)
    requires income < table[0].min as real || InGap(table, income)
    ensures !Covered(table, income) && Tax(income, table) == 0.0
  {
    if Covered(table, income) {
      var k :| 0 <= k < |table| && Matches(table[k], income);
      if income < table[0].min as real {
        if k > 0 {
          MaxBelowLaterMin(table, 0, k);
        }
      } else {
        var g :| 0 <= g < |table| - 1 && GapAt(table, g, income);
        if k < g {
          MaxBelowLaterMin(table, k, g);
        } else if g + 1 < k {
          MaxBelowLaterMin(table, g + 1, k);
        }
      }
      assert false;
    }
    TaxOfNoMatch(income, table);
  }

  /** Every whole income from the first row's lower bound on is covered by
      a contiguous table. */
  lemma {:induction false} WholeIncomeCovered(table: seq<Bracket>, income: real)
    requires Contiguous(table) && IsWhole(income) && income >= table[0].min as real
    ensures Covered(table, income)
  {
    if table[0].max.None? || income <= table[0].max.value as real {
      assert Matches(table[0], income);
    } else {
      assert |table| > 1;
      var rest := table[1..];
      forall k | 0 <= k < |rest| - 1
        ensures rest[k].max.Some? && rest[k].max.value + 1 == rest[k + 1].min
      {
        assert rest[k] == table[k + 1] && rest[k + 1] == table[k + 2];
      }
      assert income >= rest[0].min as real by {
        assert income.Floor > table[0].max.value;
      }
      WholeIncomeCovered(rest, income);
      var k :| 0 <= k < |rest| && Matches(rest[k], income);
      assert Matches(table[k + 1], income);
    }
  }

  /** Within a row with a non-negative rate the tax does not decrease. */
  lemma RowMonotone(b: Bracket, x: real, y: real)
    requires b.rate >= 0.0 && x <= y
    ensures RowTax(b, x) <= RowTax(b, y)
  {
    assert (y - x) * b.rate >= 0.0;
  }

  /** Tax in row i at x is at most tax in row j at y, for i <= j, walking
      the rows in between across their seams. */
  lemma {:induction false} ChainRows(table: seq<Bracket>, i: nat, x: real, j: nat, y: real)
    requires WellFormed(table) && SeamsRise(table)
    requires i <= j < |table| && Matches(table[i], x) && Matches(table[j], y) && x <= y
    ensures RowTax(table[i], x) <= RowTax(table[j], y)
  {
    if i == j {
      RowMonotone(table[i], x, y);
    } else {
      var m := table[j - 1].max.value as real;
      assert Matches(table[j - 1], m);
      assert x <= m by {
        if i < j - 1 {
          MaxBelowLaterMin(table, i, j - 1);
        }
      }
      ChainRows(table, i, x, j - 1, m);
      RowMonotone(table[j], table[j].min as real, y);
    }
  }

  /** Over incomes some row contains, the tax of a well-formed table whose
      seams rise is non-decreasing. */
  lemma CoveredMonotone(table: seq<Bracket>, x: real, y: real)
    requires WellFormed(table) && SeamsRise(table)
    requires Covered(table, x) && Covered(table, y) && x <= y
    ensures Tax(x, table) <= Tax(y, table)
  {
    var i :| 0 <= i < |table| && Matches(table[i], x);
    var j :| 0 <= j < |table| && Matches(table[j], y);
    if j < i {
      MaxBelowLaterMin(table, j, i);
      assert false;
    }
    TaxInRow(x, table, i);
    TaxInRow(y, table, j);
    ChainRows(table, i, x, j, y);
  }

  /** Lowering a covered income never raises its tax: the lower income is
      either covered too, and the tax is monotone there, or untaxed. */
  lemma ReducedIncomeTaxedNoMore(table: seq<Bracket>, income: real, reduced: real)
    requires WellFormed(table) && SeamsRise(table)
    requires Covered(table, income) && reduced <= income
    ensures Tax(reduced, table) <= Tax(income, table)
  {
    if Covered(table, reduced) {
      CoveredMonotone(table, reduced, income);
    } else {
      TaxOfNoMatch(reduced, table);
    }
  }

  lemma MonthlyTableSound()
    ensures WellFormed(MonthlyBrackets) && Contiguous(MonthlyBrackets) && SeamsRise(MonthlyBrackets)
  {
    var t := MonthlyBrackets;
    forall k | 0 <= k < |t| ensures t[k].rate >= 0.0 {
      // split on the row index so that each row is checked on its own
      if k == 0 {} else if k == 1 {} else if k == 2 {} else if k == 3 {} else if k == 4 {} else {}
    }
    forall k | 0 <= k < |t| - 1
      ensures t[k].max.Some? && t[k].min <= t[k].max.value < t[k + 1].min
      ensures t[k].max.value + 1 == t[k + 1].min
      ensures RowTax(t[k], t[k].max.value as real) <= RowTax(t[k + 1], t[k + 1].min as real)
    {
      // split on the row index so that each seam is checked on its own
      if k == 0 {} else if k == 1 {} else if k == 2 {} else if k == 3 {} else {}
    }
  }

  lemma AnnualTableSound()
    ensures WellFormed(AnnualBrackets) && Contiguous(AnnualBrackets) && SeamsRise(AnnualBrackets)
  {
    var t := AnnualBrackets;
    forall k | 0 <= k < |t| ensures t[k].rate >= 0.0 {
      // split on the row index so that each row is checked on its own
      if k == 0 {} else if k == 1 {} else if k == 2 {} else if k == 3 {} else if k == 4 {} else {}
    }
    forall k | 0 <= k < |t| - 1
      ensures t[k].max.Some? && t[k].min <= t[k].max.value < t[k + 1].min
      ensures t[k].max.value + 1 == t[k + 1].min
      ensures RowTax(t[k], t[k].max.value as real) <= RowTax(t[k + 1], t[k + 1].min as real)
    {
      // split on the row index so that each seam is checked on its own
      if k == 0 {} else if k == 1 {} else if k == 2 {} else if k == 3 {} else {}
    }
  }

  /** Both tables are well formed, contiguous on whole numbers, rise at
      every seam, and start at 0 with a 0% row. */
  lemma TablesSound(p: Period)
    ensures WellFormed(TableFor(p)) && Contiguous(TableFor(p)) && SeamsRise(TableFor(p))
    ensures TableFor(p)[0].min == 0 && TableFor(p)[0].rate == 0.0 && TableFor(p)[0].deduction == 0.0
  {
    if p == Monthly {
      MonthlyTableSound();
    } else {
      AnnualTableSound();
    }
  }

  /** Negative incomes and incomes in the gaps between integer bounds match
      no row and are taxed 0. */
  lemma UncoveredUntaxed(p: Period, income: real)
    requires income < 0.0 || InGap(TableFor(p), income)
    ensures !Covered(TableFor(p), income) && Tax(income, TableFor(p)) == 0.0
  {
    TablesSound(p);
    UncoveredIncomeUntaxed(TableFor(p), income);
  }

  /** Every gap the tables leave, shown by one strictly fractional income
      each, and a negative income in both tables. */
  lemma GapExamples()
    ensures Tax(3333.5, MonthlyBrackets) == 0.0 && Tax(5000.5, MonthlyBrackets) == 0.0
    ensures Tax(6667.5, MonthlyBrackets) == 0.0 && Tax(8333.5, MonthlyBrackets) == 0.0
    ensures Tax(15000.5, MonthlyBrackets) == 0.0
    ensures Tax(40000.5, AnnualBrackets) == 0.0 && Tax(60000.5, AnnualBrackets) == 0.0
    ensures Tax(80000.5, AnnualBrackets) == 0.0 && Tax(100000.5, AnnualBrackets) == 0.0
    ensures Tax(180000.5, AnnualBrackets) == 0.0
    ensures Tax(-1.0, MonthlyBrackets) == 0.0 && Tax(-1.0, AnnualBrackets) == 0.0
  {
    assert GapAt(MonthlyBrackets, 0, 3333.5);
    assert GapAt(MonthlyBrackets, 1, 5000.5);
    assert GapAt(MonthlyBrackets, 2, 6667.5);
    assert GapAt(MonthlyBrackets, 3, 8333.5);
    assert GapAt(MonthlyBrackets, 4, 15000.5);
    assert GapAt(AnnualBrackets, 0, 40000.5);
    assert GapAt(AnnualBrackets, 1, 60000.5);
    assert GapAt(AnnualBrackets, 2, 80000.5);
    assert GapAt(AnnualBrackets, 3, 100000.5);
    assert GapAt(AnnualBrackets, 4, 180000.5);
    UncoveredUntaxed(Monthly, 3333.5);
    UncoveredUntaxed(Monthly, 5000.5);
    UncoveredUntaxed(Monthly, 6667.5);
    UncoveredUntaxed(Monthly, 8333.5);
    UncoveredUntaxed(Monthly, 15000.5);
    UncoveredUntaxed(Annual, 40000.5);
    UncoveredUntaxed(Annual, 60000.5);
    UncoveredUntaxed(Annual, 80000.5);
    UncoveredUntaxed(Annual, 100000.5);
    UncoveredUntaxed(Annual, 180000.5);
    UncoveredUntaxed(Monthly, -1.0);
    UncoveredUntaxed(Annual, -1.0);
  }

  /** Incomes in the first row (0..3333 monthly, 0..40000 annual) are
      taxed 0. */
  lemma FirstRowUntaxed(p: Period, income: real)
    requires 0.0 <= income <= (if p == Monthly then 3333.0 else 40000.0)
    ensures Tax(income, TableFor(p)) == 0.0
  {
    TablesSound(p);
    TaxInRow(income, TableFor(p), 0);
  }

  /** Bounds are inclusive: 3333 falls in the 0% row and 3334 in the 10%
      row of the monthly table. */
  lemma BoundsInclusive()
    ensures Tax(3333.0, MonthlyBrackets) == 0.0
    ensures Tax(3334.0, MonthlyBrackets) == RowTax(MonthlyBrackets[1], 3334.0) == 0.07
    ensures Tax(40001.0, AnnualBrackets) == RowTax(AnnualBrackets[1], 40001.0) == 0.1
  {
    TablesSound(Monthly);
    TablesSound(Annual);
    TaxInRow(3333.0, MonthlyBrackets, 0);
    TaxInRow(3334.0, MonthlyBrackets, 1);
    TaxInRow(40001.0, AnnualBrackets, 1);
  }

  lemma WorkedValues()
    ensures Tax(5000.0, MonthlyBrackets) == 166.67
    ensures Tax(4000.0, MonthlyBrackets) == 66.67
    ensures Tax(100000.0, AnnualBrackets) == 12000.0
    ensures Tax(90000.0, AnnualBrackets) == 9000.0
  {
    TablesSound(Monthly);
    TablesSound(Annual);
    TaxInRow(5000.0, MonthlyBrackets, 1);
    TaxInRow(4000.0, MonthlyBrackets, 1);
    TaxInRow(100000.0, AnnualBrackets, 3);
    TaxInRow(90000.0, AnnualBrackets, 3);
  }

  /** Whole non-negative incomes are always covered, and over them the tax
      of either table is non-decreasing. */
  lemma WholeIncomeMonotone(p: Period, x: real, y: real)
    requires 0.0 <= x <= y && IsWhole(x) && IsWhole(y)
    ensures Tax(x, TableFor(p)) <= Tax(y, TableFor(p))
  {
    TablesSound(p);
    WholeIncomeCovered(TableFor(p), x);
    WholeIncomeCovered(TableFor(p), y);
    CoveredMonotone(TableFor(p), x, y);
  }

  // ---------------------------------------------------------------------
  // Cap, period and the savings report
  // ---------------------------------------------------------------------

  predicate IsLiberal(profession: string) {
    profession == LIBERAL
  }

  /** The deduction cap: 10% of the income for liberal professions, 50% for
      any other profession value. */
  function MaxContribution(salary: real, profession: string): (cap: real)
    ensures IsLiberal(profession) ==> cap == salary * 0.1
    ensures !IsLiberal(profession) ==> cap == salary * 0.5
    ensures salary >= 0.0 ==> 0.0 <= cap <= salary * 0.5
  {
    if IsLiberal(profession) then salary * 0.1 else salary * 0.5
  }

  /** For a non-zero salary the 10% cap is reached exactly for the liberal
      profession, and the 50% cap exactly for every other value. */
  lemma CapRatioExact(salary: real, profession: string)
    requires salary != 0.0
    ensures MaxContribution(salary, profession) == salary * 0.1 <==> IsLiberal(profession)
    ensures MaxContribution(salary, profession) == salary * 0.5 <==> !IsLiberal(profession)
  {
  }

  function Min(a: real, b: real): (m: real)
    ensures m <= a && m <= b
    ensures m == a || m == b
  {
    if a <= b then a else b
  }

  /** The period the tax is computed over: always annual for liberal
      professions, otherwise the selected one. */
  function EffectivePeriod(profession: string, selected: Period): (p: Period)
    ensures IsLiberal(profession) ==> p == Annual
    ensures !IsLiberal(profession) ==> p == selected
  {
    if IsLiberal(profession) then Annual else selected
  }

  /** The report for a valid salary and contribution. */
  function Compute(salary: real, contribution: real, profession: string, selected: Period): (r: Results)
    ensures r.period == EffectivePeriod(profession, selected)
    ensures r.maxContribution == MaxContribution(salary, profession)
    ensures r.effectiveContribution <= r.maxContribution && r.effectiveContribution <= contribution
    ensures r.effectiveContribution == contribution || r.effectiveContribution == r.maxContribution
    ensures r.normalTax == Tax(salary, TableFor(r.period))
    ensures r.newTax == Tax(salary - r.effectiveContribution, TableFor(r.period))
    ensures r.periodSavings == r.normalTax - r.newTax
    ensures r.annualSavings == 12.0 * r.monthlySavings
    ensures r.period == Monthly ==> r.monthlySavings == r.periodSavings
    ensures r.period == Annual ==> r.annualSavings == r.periodSavings
    ensures r.fiveYearSavings == 5.0 * r.annualSavings && r.tenYearSavings == 10.0 * r.annualSavings
    ensures r.fifteenYearSavings == 15.0 * r.annualSavings && r.twentyYearSavings == 20.0 * r.annualSavings
  {
    var period := EffectivePeriod(profession, selected);
    var brackets := TableFor(period);
    var maxContribution := MaxContribution(salary, profession);
    var effectiveContribution := Min(contribution, maxContribution);
    var normalTax := Tax(salary, brackets);
    var newTax := Tax(salary - effectiveContribution, brackets);
    var periodSavings := normalTax - newTax;
    var monthlySavings := if period == Annual then periodSavings / 12.0 else periodSavings;
    var annualSavings := if period == Monthly then periodSavings * 12.0 else periodSavings;
    Results(normalTax, newTax, periodSavings, monthlySavings, annualSavings,
            annualSavings * 5.0, annualSavings * 10.0, annualSavings * 15.0, annualSavings * 20.0,
            effectiveContribution, maxContribution, period)
  }

  /** After capping, the taxable income of a positive salary keeps at least
      half of it (nine tenths for liberal professions), so it is positive. */
  lemma TaxableIncomeFloor(salary: real, contribution: real, profession: string, selected: Period)
    requires salary > 0.0
    ensures salary - Compute(salary, contribution, profession, selected).effectiveContribution
              >= salary * (if IsLiberal(profession) then 0.9 else 0.5) > 0.0
  {
  }

  /** The "limited" note shows exactly when the contribution exceeds the
      cap. */
  predicate Truncated(r: Results, contribution: Number) {
    contribution.Num? && r.effectiveContribution < contribution.value
  }

  lemma TruncatedIffOverCap(salary: real, contribution: real, profession: string, selected: Period)
    ensures Truncated(Compute(salary, contribution, profession, selected), Num(contribution)) <==>
            contribution > MaxContribution(salary, profession)
  {
  }

  /** A salary that some row of the effective table contains never loses
      from a non-negative contribution: if the reduced income is covered the
      tax is monotone there, and if it falls in a gap its tax is 0. */
  lemma SavingsNonNegativeWhenCovered(salary: real, contribution: real, profession: string, selected: Period)
    requires Covered(TableFor(EffectivePeriod(profession, selected)), salary) && contribution >= 0.0
    ensures Compute(salary, contribution, profession, selected).periodSavings >= 0.0
  {
    var r := Compute(salary, contribution, profession, selected);
    var t := TableFor(r.period);
    TablesSound(r.period);
    assert salary >= 0.0 by {
      var k :| 0 <= k < |t| && Matches(t[k], salary);
      if k > 0 {
        MaxBelowLaterMin(t, 0, k);
      }
    }
    ReducedIncomeTaxedNoMore(t, salary, salary - r.effectiveContribution);
  }

  /** Whole positive salaries are always covered, so a positive contribution
      never yields negative savings for them. */
  lemma SavingsNonNegative(salary: real, contribution: real, profession: string, selected: Period)
    requires salary > 0.0 && IsWhole(salary) && contribution > 0.0
    ensures Compute(salary, contribution, profession, selected).periodSavings >= 0.0
  {
    var period := EffectivePeriod(profession, selected);
    TablesSound(period);
    WholeIncomeCovered(TableFor(period), salary);
    SavingsNonNegativeWhenCovered(salary, contribution, profession, selected);
  }

  /** A fractional salary in a gap is taxed 0 while the reduced income is
      taxed, so the reported savings are negative. */
  lemma FractionalSalaryLosesSavings()
    ensures Compute(5000.5, 1.0, "salarie", Monthly).normalTax == 0.0
    ensures Compute(5000.5, 1.0, "salarie", Monthly).newTax == 166.62
    ensures Compute(5000.5, 1.0, "salarie", Monthly).periodSavings == -166.62
  {
    var r := Compute(5000.5, 1.0, "salarie", Monthly);
    assert r.period == Monthly && r.effectiveContribution == 1.0;
    assert GapAt(MonthlyBrackets, 1, 5000.5);
    UncoveredUntaxed(Monthly, 5000.5);
    TablesSound(Monthly);
    TaxInRow(4999.5, MonthlyBrackets, 1);
  }

  /** A whole salary with a fractional cap can leave the reduced income in a
      gap, where it is untaxed. */
  lemma CapLandsInGap()
    ensures Compute(6667.0, 5000.0, "salarie", Monthly).effectiveContribution == 3333.5
    ensures Compute(6667.0, 5000.0, "salarie", Monthly).newTax == 0.0
    ensures Compute(6667.0, 5000.0, "salarie", Monthly).periodSavings == 500.07
  {
    var r := Compute(6667.0, 5000.0, "salarie", Monthly);
    assert r.period == Monthly && r.effectiveContribution == 3333.5;
    assert GapAt(MonthlyBrackets, 0, 3333.5);
    UncoveredUntaxed(Monthly, 3333.5);
    TablesSound(Monthly);
    TaxInRow(6667.0, MonthlyBrackets, 2);
  }

  /** Employee, monthly: 5000 income and 1000 contribution save 100 a month. */
  lemma EmployeeMonthlyScenario()
    ensures Compute(5000.0, 1000.0, "salarie", Monthly) ==
      Results(166.67, 66.67, 100.0, 100.0, 1200.0, 6000.0, 12000.0, 18000.0, 24000.0,
              1000.0, 2500.0, Monthly)
  {
    WorkedValues();
  }

  /** Liberal profession: the period is forced to annual and 20000 is capped
      at 10000 of a 100000 income. */
  lemma LiberalAnnualScenario()
    ensures Compute(100000.0, 20000.0, LIBERAL, Monthly) ==
      Results(12000.0, 9000.0, 3000.0, 250.0, 3000.0, 15000.0, 30000.0, 45000.0, 60000.0,
              10000.0, 10000.0, Annual)
    ensures Truncated(Compute(100000.0, 20000.0, LIBERAL, Monthly), Num(20000.0))
  {
    WorkedValues();
  }

  /** Zero and NaN are the inputs the handler ignores. */
  predicate IsFalsy(n: Number) {
    n.NaN? || n.value == 0.0
  }

  // ---------------------------------------------------------------------
  // The simulator's state
  // ---------------------------------------------------------------------

  /** The simulator component: the route's profession, the three form
      fields and the last report. */
  class Simulator {
    const profession: string
    var salary: Number
    var contribution: Number
    var period: Period
    var results: Option<Results>

    /** Empty form fields parse to NaN; the period starts monthly and there
        is no report. */
    constructor (profession: string)
      ensures this.profession == profession
      ensures salary == NaN && contribution == NaN && period == Monthly && results == None
    {
      this.profession := profession;
      salary := NaN;
      contribution := NaN;
      period := Monthly;
      results := None;
    }

    method SetSalary(x: Number)
      modifies this`salary
      ensures salary == x
    {
      salary := x;
    }

    method SetContribution(x: Number)
      modifies this`contribution
      ensures contribution == x
    {
      contribution := x;
    }

    method SetPeriod(p: Period)
      modifies this`period
      ensures period == p
    {
      period := p;
    }

    /** The note under the report, as rendered against the current
        contribution field. */
    predicate LimitNoteShown()
      reads this
    {
      results.Some? && Truncated(results.value, contribution)
    }

    /** Leaves the report as it was on a zero or NaN input; otherwise
        replaces it with the report for the current fields. */
    method HandleCalculate()
      modifies this`results
      ensures IsFalsy(salary) || IsFalsy(contribution) ==> results == old(results)
      ensures !IsFalsy(salary) && !IsFalsy(contribution) ==>
        results == Some(Compute(salary.value, contribution.value, profession, period))
      ensures !IsFalsy(salary) && !IsFalsy(contribution) ==>
        (LimitNoteShown() <==> contribution.value > MaxContribution(salary.value, profession))
    {
      if IsFalsy(salary) || IsFalsy(contribution) {
        return;
      }
      var salaryNum := salary.value;
      var contributionNum := contribution.value;
      var actualPeriod := EffectivePeriod(profession, period);
      var brackets := TableFor(actualPeriod);
      var maxContribution := MaxContribution(salaryNum, profession);
      var effectiveContribution := Min(contributionNum, maxContribution);
      var normalTax := CalculateTax(salaryNum, brackets);
      var newTaxableIncome := salaryNum - effectiveContribution;
      var newTax := CalculateTax(newTaxableIncome, brackets);
      var periodSavings := normalTax - newTax;
      var monthlySavings := if actualPeriod == Annual then periodSavings / 12.0 else periodSavings;
      var annualSavings := if actualPeriod == Monthly then periodSavings * 12.0 else periodSavings;
      var report := Results(normalTax, newTax, periodSavings, monthlySavings, annualSavings,
                            annualSavings * 5.0, annualSavings * 10.0, annualSavings * 15.0,
                            annualSavings * 20.0, effectiveContribution, maxContribution,
                            actualPeriod);
      assert report == Compute(salaryNum, contributionNum, profession, period);
      TruncatedIffOverCap(salaryNum, contributionNum, profession, period);
      results := Some(report);
    }
  }

  /** A caller's view of a liberal-profession session: calculating with an
      empty contribution does nothing; the report for 100000 / 20000 shows
      the note; a later edit of the contribution keeps the report and, being
      under the cap, hides the note. */
  method LiberalSession() returns (r: Results, ignoredEmpty: bool, shownAfterCalc: bool, keptAfterEdit: bool, shownAfterEdit: bool)
    ensures r == Compute(100000.0, 20000.0, LIBERAL, Monthly)
    ensures r.period == Annual && r.periodSavings == 3000.0
    ensures ignoredEmpty && shownAfterCalc && keptAfterEdit && !shownAfterEdit
  {
    var s := new Simulator(LIBERAL);
    s.SetSalary(Num(100000.0));
    s.HandleCalculate();
    ignoredEmpty := s.results == None;
    s.SetContribution(Num(20000.0));
    s.HandleCalculate();
    assert s.results.Some?;
    r := s.results.value;
    shownAfterCalc := s.LimitNoteShown();
    LiberalAnnualScenario();
    s.SetContribution(Num(5000.0));
    keptAfterEdit := s.results == Some(r);
    shownAfterEdit := s.LimitNoteShown();
  }
}
