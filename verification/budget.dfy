/** Budgets (`account.budget`) and their lines: the amount realized on each
    line's account from the posted ledger, the line variances, the budget
    totals and the state actions. */
module Budgets {
  import opened Base
  import opened Dates
  import opened Ledger

  datatype BudgetState = Draft | Confirmed | Validated | Done

  /** An `account.budget.line` with its stored computed fields. */
  datatype BudgetLine = BudgetLine(
    account: Option<string>,
    analytic: Option<nat>,
    planned: real,
    realized: real,
    varianceAmount: real,
    variancePercent: real)

  /** The search domain of `_compute_realized_amount`: a posted line on the
      account, dated within the budget, and on the analytic account when the
      budget line names one. */
  predicate Realizes(l: LedgerLine, account: string, from: Date, to: Date, analytic: Option<nat>)
  {
    l.posted && l.account == account && InRange(l.date, from, to) && (analytic.None? || l.analytic == analytic)
  }

  /** `sum(moves.mapped('balance'))` over the lines the domain finds. */
  function RealizedTotal(ledger: seq<LedgerLine>, account: string, from: Date, to: Date, analytic: Option<nat>): (r: real)
    ensures (forall i :: 0 <= i < |ledger| ==> !Realizes(ledger[i], account, from, to, analytic)) ==> r == 0.0
  {
    if ledger == [] then 0.0
    else
      assert forall i :: 0 <= i < |ledger| - 1 ==> ledger[..|ledger| - 1][i] == ledger[i];
      var last := ledger[|ledger| - 1];
      RealizedTotal(ledger[..|ledger| - 1], account, from, to, analytic)
        + (if Realizes(last, account, from, to, analytic) then Balance(last) else 0.0)
  }

  /** `_compute_realized_amount` for one line of a budget running from
      `from` to `to`: zero when the account or a date is missing. */
  function RealizedAmount(line: BudgetLine, from: Option<Date>, to: Option<Date>, ledger: seq<LedgerLine>): (r: real)
    ensures line.account.None? || from.None? || to.None? ==> r == 0.0
    ensures line.account.Some? && from.Some? && to.Some? ==>
      r == RealizedTotal(ledger, line.account.value, from.value, to.value, line.analytic)
  {
    if line.account.Some? && from.Some? && to.Some? then
      RealizedTotal(ledger, line.account.value, from.value, to.value, line.analytic)
    else 0.0
  }

  /** The realized amount of a ledger split in two batches is the sum of the
      amounts of the batches. */
  lemma {:induction false} RealizedTotalAppend(a: seq<LedgerLine>, b: seq<LedgerLine>, account: string,
                                               from: Date, to: Date, analytic: Option<nat>)
    ensures RealizedTotal(a + b, account, from, to, analytic)
      == RealizedTotal(a, account, from, to, analytic) + RealizedTotal(b, account, from, to, analytic)
    decreases |b|
  {
    if b == [] {
      assert a + b == a;
    } else {
      assert (a + b)[..|a + b| - 1] == a + b[..|b| - 1];
      RealizedTotalAppend(a, b[..|b| - 1], account, from, to, analytic);
    }
  }

  /** Draft lines, lines on other accounts and lines outside the budget's
      dates never change a realized amount. */
  lemma {:induction false} RealizedIgnoresUnmatched(ledger: seq<LedgerLine>, extra: seq<LedgerLine>, account: string,
                                                    from: Date, to: Date, analytic: Option<nat>)
    requires forall i :: 0 <= i < |extra| ==> !Realizes(extra[i], account, from, to, analytic)
    ensures RealizedTotal(ledger + extra, account, from, to, analytic) == RealizedTotal(ledger, account, from, to, analytic)
    decreases |extra|
  {
    if extra == [] {
      assert ledger + extra == ledger;
    } else {
      var init := extra[..|extra| - 1];
      assert (ledger + extra)[..|ledger + extra| - 1] == ledger + init;
      RealizedIgnoresUnmatched(ledger, init, account, from, to, analytic);
    }
  }

  /** Restricting to an analytic account keeps only that account's part: the
      unrestricted amount is the restricted one plus the rest of the lines. */
  lemma {:induction false} AnalyticRestriction(ledger: seq<LedgerLine>, account: string, from: Date, to: Date, analytic: nat)
    ensures RealizedTotal(ledger, account, from, to, None)
      == RealizedTotal(ledger, account, from, to, Some(analytic)) + OtherAnalytic(ledger, account, from, to, analytic)
  {
    if ledger != [] {
      AnalyticRestriction(ledger[..|ledger| - 1], account, from, to, analytic);
    }
  }

  /** The realized balance on lines not on the analytic account `analytic`. */
  function OtherAnalytic(ledger: seq<LedgerLine>, account: string, from: Date, to: Date, analytic: nat): real
  {
    if ledger == [] then 0.0
    else
      var last := ledger[|ledger| - 1];
      OtherAnalytic(ledger[..|ledger| - 1], account, from, to, analytic)
        + (if Realizes(last, account, from, to, None) && last.analytic != Some(analytic) then Balance(last) else 0.0)
  }

  /** `variance_percent`: the variance as a percentage of the planned amount,
      or 0 when nothing is planned. */
  function VariancePercent(planned: real, realized: real): (p: real)
    ensures planned != 0.0 ==> p * planned == (realized - planned) * 100.0
    ensures planned == 0.0 ==> p == 0.0
  {
    if planned != 0.0 then ((realized - planned) / planned) * 100.0 else 0.0
  }

  /** A line overspent by its whole plan shows 100 %, one on plan 0 %. */
  lemma VariancePercentEdges(planned: real)
    requires planned != 0.0
    ensures VariancePercent(planned, 2.0 * planned) == 100.0
    ensures VariancePercent(planned, planned) == 0.0
    ensures VariancePercent(planned, 0.0) == -100.0
  {
  }

  function PlannedAmounts(ls: seq<BudgetLine>): (r: seq<real>)
    ensures |r| == |ls| && forall i :: 0 <= i < |ls| ==> r[i] == ls[i].planned
  {
    seq(|ls|, i requires 0 <= i < |ls| => ls[i].planned)
  }

  function RealizedAmounts(ls: seq<BudgetLine>): (r: seq<real>)
    ensures |r| == |ls| && forall i :: 0 <= i < |ls| ==> r[i] == ls[i].realized
  {
    seq(|ls|, i requires 0 <= i < |ls| => ls[i].realized)
  }

  function VarianceAmounts(ls: seq<BudgetLine>): (r: seq<real>)
    ensures |r| == |ls| && forall i :: 0 <= i < |ls| ==> r[i] == ls[i].varianceAmount
  {
    seq(|ls|, i requires 0 <= i < |ls| => ls[i].varianceAmount)
  }

  /** Summing pointwise differences is taking the difference of the sums. */
  lemma {:induction false} SumOfDifferences(a: seq<real>, b: seq<real>, c: seq<real>)
    requires |a| == |b| == |c|
    requires forall i :: 0 <= i < |c| ==> c[i] == a[i] - b[i]
    ensures Sum(c) == Sum(a) - Sum(b)
  {
    if c != [] {
      var n := |c| - 1;
      assert forall i :: 0 <= i < n ==> c[..n][i] == a[..n][i] - b[..n][i];
      SumOfDifferences(a[..n], b[..n], c[..n]);
    }
  }

  /** Once the line variances are computed, the budget's total variance is
      their sum. */
  lemma TotalVarianceIsSumOfLineVariances(ls: seq<BudgetLine>)
    requires forall i :: 0 <= i < |ls| ==> ls[i].varianceAmount == ls[i].realized - ls[i].planned
    ensures Sum(RealizedAmounts(ls)) - Sum(PlannedAmounts(ls)) == Sum(VarianceAmounts(ls))
  {
    SumOfDifferences(RealizedAmounts(ls), PlannedAmounts(ls), VarianceAmounts(ls));
  }

  /** An `account.budget` record with its lines. */
  class Budget {
    var name: string
    var dateFrom: Option<Date>
    var dateTo: Option<Date>
    var state: BudgetState
    var lines: seq<BudgetLine>
    var totalPlanned: real
    var totalRealized: real
    var totalVariance: real

    constructor (name: string, dateFrom: Option<Date>, dateTo: Option<Date>, lines: seq<BudgetLine>)
      ensures this.name == name && this.dateFrom == dateFrom && this.dateTo == dateTo && this.lines == lines
      ensures state == Draft
    {
      this.name := name;
      this.dateFrom := dateFrom;
      this.dateTo := dateTo;
      this.lines := lines;
      state := Draft;
      totalPlanned := 0.0;
      totalRealized := 0.0;
      totalVariance := 0.0;
    }

    /** `_compute_totals`. */
    method ComputeTotals()
      modifies this`totalPlanned, this`totalRealized, this`totalVariance
      ensures totalPlanned == Sum(PlannedAmounts(lines)) && totalRealized == Sum(RealizedAmounts(lines))
      ensures totalVariance == totalRealized - totalPlanned
      ensures (forall i :: 0 <= i < |lines| ==> lines[i].varianceAmount == lines[i].realized - lines[i].planned) ==>
        totalVariance == Sum(VarianceAmounts(lines))
      ensures lines == old(lines) && state == old(state) && dateFrom == old(dateFrom) && dateTo == old(dateTo) && name == old(name)
    {
      totalPlanned := Sum(PlannedAmounts(lines));
      totalRealized := Sum(RealizedAmounts(lines));
      totalVariance := totalRealized - totalPlanned;
      if forall i :: 0 <= i < |lines| ==> lines[i].varianceAmount == lines[i].realized - lines[i].planned {
        TotalVarianceIsSumOfLineVariances(lines);
      }
    }

    /** `_compute_realized_amount` over every line of the budget, reading the
        posted journal items in `ledger`. */
    method ComputeRealizedAmounts(ledger: seq<LedgerLine>)
      modifies this`lines
      ensures |lines| == |old(lines)|
      ensures forall i :: 0 <= i < |lines| ==>
        lines[i] == old(lines)[i].(realized := RealizedAmount(old(lines)[i], dateFrom, dateTo, ledger))
      ensures dateFrom == old(dateFrom) && dateTo == old(dateTo) && state == old(state) && name == old(name)
      ensures totalPlanned == old(totalPlanned) && totalRealized == old(totalRealized) && totalVariance == old(totalVariance)
    {
      var k := 0;
      while k < |lines|
        invariant 0 <= k <= |lines| && |lines| == |old(lines)|
        invariant forall i :: 0 <= i < k ==>
          lines[i] == old(lines)[i].(realized := RealizedAmount(old(lines)[i], dateFrom, dateTo, ledger))
        invariant forall i :: k <= i < |lines| ==> lines[i] == old(lines)[i]
        invariant dateFrom == old(dateFrom) && dateTo == old(dateTo) && state == old(state)
        invariant totalPlanned == old(totalPlanned) && totalRealized == old(totalRealized) && totalVariance == old(totalVariance)
      {
        lines := lines[k := lines[k].(realized := RealizedAmount(lines[k], dateFrom, dateTo, ledger))];
        k := k + 1;
      }
    }

    /** `_compute_variance` over every line. */
    method ComputeVariances()
      modifies this`lines
      ensures |lines| == |old(lines)|
      ensures forall i :: 0 <= i < |lines| ==>
        lines[i] == old(lines)[i].(varianceAmount := old(lines)[i].realized - old(lines)[i].planned,
                                   variancePercent := VariancePercent(old(lines)[i].planned, old(lines)[i].realized))
      ensures dateFrom == old(dateFrom) && dateTo == old(dateTo) && state == old(state) && name == old(name)
      ensures totalPlanned == old(totalPlanned) && totalRealized == old(totalRealized) && totalVariance == old(totalVariance)
    {
      var k := 0;
      while k < |lines|
        invariant 0 <= k <= |lines| && |lines| == |old(lines)|
        invariant forall i :: 0 <= i < k ==>
          lines[i] == old(lines)[i].(varianceAmount := old(lines)[i].realized - old(lines)[i].planned,
                                     variancePercent := VariancePercent(old(lines)[i].planned, old(lines)[i].realized))
        invariant forall i :: k <= i < |lines| ==> lines[i] == old(lines)[i]
        invariant dateFrom == old(dateFrom) && dateTo == old(dateTo) && state == old(state)
        invariant totalPlanned == old(totalPlanned) && totalRealized == old(totalRealized) && totalVariance == old(totalVariance)
      {
        var l := lines[k];
        lines := lines[k := l.(varianceAmount := l.realized - l.planned, variancePercent := VariancePercent(l.planned, l.realized))];
        k := k + 1;
      }
    }

    /** `action_confirm`, from any state. */
    method ActionConfirm()
      modifies this`state
      ensures state == Confirmed && lines == old(lines) && dateFrom == old(dateFrom) && dateTo == old(dateTo)
      ensures name == old(name) && totalPlanned == old(totalPlanned) && totalRealized == old(totalRealized) && totalVariance == old(totalVariance)
    {
      state := Confirmed;
    }

    /** `action_validate`, from any state. */
    method ActionValidate()
      modifies this`state
      ensures state == Validated && lines == old(lines) && dateFrom == old(dateFrom) && dateTo == old(dateTo)
      ensures name == old(name) && totalPlanned == old(totalPlanned) && totalRealized == old(totalRealized) && totalVariance == old(totalVariance)
    {
      state := Validated;
    }

    /** `action_done`, from any state. */
    method ActionDone()
      modifies this`state
      ensures state == Done && lines == old(lines) && dateFrom == old(dateFrom) && dateTo == old(dateTo)
      ensures name == old(name) && totalPlanned == old(totalPlanned) && totalRealized == old(totalRealized) && totalVariance == old(totalVariance)
    {
      state := Done;
    }
  }
}
