/** The fiscal declaration wizard: it resolves a reporting period from the
    declaration type, period type and fiscal year, adds up posted ledger lines
    by account class, applies the statutory rates (DIPE, corporate income tax)
    and walks the declaration through draft, computed, generated and submitted. */
module Declarations {
  import opened Base
  import opened Dates
  import opened Ledger

  datatype DeclarationType = Dsf | Dipe | Is | VatMonthly | WithholdingTax
  /** The `period_type` selection; `Unset` is the empty selection (`False`). */
  datatype PeriodType = Monthly | Quarterly | Annual | Unset
  datatype Quarter = Q1 | Q2 | Q3 | Q4
  datatype WizardState = Draft | Computed | Generated | Submitted

  /** The month selector '01' .. '12' after `int(...)`. */
  type Month = m: int | 1 <= m <= 12 witness 1

  /** The period type that `_onchange_declaration_type` sets; the withholding
      declaration keeps whatever was selected. */
  function PeriodTypeFor(t: DeclarationType, current: PeriodType): (p: PeriodType)
    ensures t == VatMonthly ==> p == Monthly
    ensures t == Dsf || t == Is ==> p == Annual
    ensures t == Dipe ==> p == Quarterly
    ensures t == WithholdingTax ==> p == current
  {
    match t
    case VatMonthly => Monthly
    case Dsf => Annual
    case Is => Annual
    case Dipe => Quarterly
    case WithholdingTax => current
  }

  /** First and last month of a quarter. */
  function QuarterMonths(q: Quarter): (r: (Month, Month))
    ensures r.1 == r.0 + 2 && (r.0 - 1) % 3 == 0
  {
    match q
    case Q1 => (1, 3)
    case Q2 => (4, 6)
    case Q3 => (7, 9)
    case Q4 => (10, 12)
  }

  /** What `_onchange_period` does to `[date_from, date_to]`: keep them, set
      them, or fail because `date(...)` rejects the fiscal year. */
  datatype PeriodOutcome = Keep | Range(from: Date, to: Date) | BadYear

  /** `[date(y, start, 1), last day of end month]`, the last day taken as
      Python does it: 31 December, or the day before the first of the next month. */
  function MonthSpan(y: int, start: Month, end: Month): (r: PeriodOutcome)
    requires start <= end
    ensures r != Keep
    ensures r == BadYear <==> !(MinYear <= y <= MaxYear)
    ensures r.Range? ==> r.from == Date(y, start, 1) && r.to == Date(y, end, DaysInMonth(y, end))
  {
    var from := MakeDate(y, start, 1);
    if from.None? then BadYear
    else if end == 12 then Range(from.value, Date(y, 12, 31))
    else
      var next := MakeDate(y, end + 1, 1).value;
      Range(from.value, PrevDay(next).value)
  }

  /** `_onchange_period`. */
  function ResolvePeriod(pt: PeriodType, fiscalYear: int, month: Option<Month>, quarter: Option<Quarter>): (r: PeriodOutcome)
    ensures r == Keep <==>
      fiscalYear == 0 || pt == Unset
      || (pt == Monthly && month.None?)
      || (pt == Quarterly && quarter.None?)
    ensures r == BadYear <==> r != Keep && !(MinYear <= fiscalYear <= MaxYear)
    ensures r.Range? ==>
      Valid(r.from) && Valid(r.to) && Le(r.from, r.to)
      && r.from.year == fiscalYear && r.to.year == fiscalYear
      && r.from.day == 1 && r.to.day == DaysInMonth(fiscalYear, r.to.month)
    ensures r.Range? && pt == Annual ==> r.from.month == 1 && r.to.month == 12
    ensures r.Range? && pt == Monthly ==> r.from.month == r.to.month == month.value
    ensures r.Range? && pt == Quarterly ==>
      r.from.month == QuarterMonths(quarter.value).0 && r.to.month == QuarterMonths(quarter.value).1
  {
    if fiscalYear == 0 then Keep
    else
      match pt
      case Unset => Keep
      case Annual => MonthSpan(fiscalYear, 1, 12)
      case Monthly => if month.None? then Keep else MonthSpan(fiscalYear, month.value, month.value)
      case Quarterly =>
        if quarter.None? then Keep
        else MonthSpan(fiscalYear, QuarterMonths(quarter.value).0, QuarterMonths(quarter.value).1)
  }

  /** Every date of a fiscal year lies in exactly one monthly period: the one
      of its own month. */
  lemma MonthlyPeriodsPartitionYear(d: Date, m: Month)
    requires Valid(d)
    ensures var r := ResolvePeriod(Monthly, d.year, Some(m), None);
      r.Range? && (InRange(d, r.from, r.to) <==> d.month == m)
  {
  }

  /** A quarter's period covers exactly the dates of its three months. */
  lemma QuarterIsItsThreeMonths(d: Date, q: Quarter)
    requires Valid(d)
    ensures var r := ResolvePeriod(Quarterly, d.year, None, Some(q));
      r.Range? && (InRange(d, r.from, r.to) <==> QuarterMonths(q).0 <= d.month <= QuarterMonths(q).1)
  {
  }

  // ---------------------------------------------------------------------------
  // Amounts

  const DipeRate: real := 0.022
  const SmallCompanyRate: real := 0.25
  const LargeCompanyRate: real := 0.30
  const LargeCompanySales: real := 1000000000.0
  const VatCollectedCode: string := "443000"
  const VatPaidCode: string := "445000"

  /** The monetary fields of the wizard. */
  datatype Figures = Figures(
    totalSales: real,
    totalPurchases: real,
    vatCollected: real,
    vatPaid: real,
    vatDue: real,
    withholdingTax: real,
    corporateTax: real)

  /** `_generate_dsf_declaration`: class 7 credits, class 6 debits, and VAT on
      the exact accounts 443000 / 445000, each updated only when that account
      exists in the company's chart. */
  function DsfFigures(f: Figures, lines: seq<LedgerLine>, s: Scope, chart: set<string>): (r: Figures)
    ensures r.(totalSales := f.totalSales, totalPurchases := f.totalPurchases, vatCollected := f.vatCollected,
               vatPaid := f.vatPaid, vatDue := f.vatDue) == f
  {
    var collected := if VatCollectedCode in chart then CreditTotal(lines, s, Exact(VatCollectedCode)) else f.vatCollected;
    var paid := if VatPaidCode in chart then DebitTotal(lines, s, Exact(VatPaidCode)) else f.vatPaid;
    f.(totalSales := CreditTotal(lines, s, Prefix("7")),
       totalPurchases := DebitTotal(lines, s, Prefix("6")),
       vatCollected := collected,
       vatPaid := paid,
       vatDue := collected - paid)
  }

  /** `_generate_dipe_declaration`. */
  function DipeFigures(f: Figures, lines: seq<LedgerLine>, s: Scope): (r: Figures)
    ensures r.(totalSales := f.totalSales, corporateTax := f.corporateTax) == f
  {
    var sales := CreditTotal(lines, s, Prefix("7"));
    f.(totalSales := sales, corporateTax := sales * DipeRate)
  }

  /** The corporate-tax rate, chosen from the turnover already in the wizard. */
  function IsRate(previousSales: real): real
  {
    if previousSales < LargeCompanySales then SmallCompanyRate else LargeCompanyRate
  }

  /** `_generate_is_declaration`: the rate is read from `total_sales` before
      that field is overwritten with the period's income. */
  function IsFigures(f: Figures, lines: seq<LedgerLine>, s: Scope): (r: Figures)
    ensures r.(corporateTax := f.corporateTax, totalSales := f.totalSales, totalPurchases := f.totalPurchases) == f
  {
    var income := CreditTotal(lines, s, Prefix("7"));
    var expenses := DebitTotal(lines, s, Prefix("6"));
    var result := income - expenses;
    var tax := if result > 0.0 then result * IsRate(f.totalSales) else 0.0;
    f.(corporateTax := tax, totalSales := income, totalPurchases := expenses)
  }

  /** `_generate_vat_declaration`: prefixes 443 and 445. */
  function VatFigures(f: Figures, lines: seq<LedgerLine>, s: Scope): (r: Figures)
    ensures r.(vatCollected := f.vatCollected, vatPaid := f.vatPaid, vatDue := f.vatDue) == f
  {
    var collected := CreditTotal(lines, s, Prefix("443"));
    var paid := DebitTotal(lines, s, Prefix("445"));
    f.(vatCollected := collected, vatPaid := paid, vatDue := collected - paid)
  }

  /** `_generate_withholding_declaration`: credits on 421 accounts. */
  function WithholdingFigures(f: Figures, lines: seq<LedgerLine>, s: Scope): (r: Figures)
    ensures r.(withholdingTax := f.withholdingTax) == f
  {
    f.(withholdingTax := CreditTotal(lines, s, Prefix("421")))
  }

  /** The dispatch of `action_compute_declaration`: each declaration type
      moves only its own figures. */
  function ComputeFigures(t: DeclarationType, f: Figures, lines: seq<LedgerLine>, s: Scope, chart: set<string>): (r: Figures)
    ensures t != WithholdingTax ==> r.withholdingTax == f.withholdingTax
    ensures t != Dsf && t != VatMonthly ==> r.vatCollected == f.vatCollected && r.vatPaid == f.vatPaid && r.vatDue == f.vatDue
    ensures t != Dipe && t != Is ==> r.corporateTax == f.corporateTax
    ensures t == VatMonthly || t == WithholdingTax ==> r.totalSales == f.totalSales && r.totalPurchases == f.totalPurchases
    ensures t == Dipe ==> r.totalPurchases == f.totalPurchases
  {
    match t
    case Dsf => DsfFigures(f, lines, s, chart)
    case Dipe => DipeFigures(f, lines, s)
    case Is => IsFigures(f, lines, s)
    case VatMonthly => VatFigures(f, lines, s)
    case WithholdingTax => WithholdingFigures(f, lines, s)
  }

  /** The VAT declaration: net VAT is collected minus deductible, both sides
      non-negative, and no other figure moves. */
  lemma VatDeclarationFigures(f: Figures, lines: seq<LedgerLine>, s: Scope)
    ensures var g := VatFigures(f, lines, s);
      g.vatDue == g.vatCollected - g.vatPaid
      && g.vatCollected >= 0.0 && g.vatPaid >= 0.0
      && g.totalSales == f.totalSales && g.totalPurchases == f.totalPurchases
      && g.withholdingTax == f.withholdingTax && g.corporateTax == f.corporateTax
  {
  }

  /** The DSF: net VAT is collected minus deductible; each VAT side is read
      from its exact account when that account exists in the chart and is
      otherwise left as it was; sales and purchases are non-negative. */
  lemma DsfDeclarationFigures(f: Figures, lines: seq<LedgerLine>, s: Scope, chart: set<string>)
    ensures var g := DsfFigures(f, lines, s, chart);
      g.vatDue == g.vatCollected - g.vatPaid
      && g.totalSales == CreditTotal(lines, s, Prefix("7")) && g.totalSales >= 0.0
      && g.totalPurchases == DebitTotal(lines, s, Prefix("6")) && g.totalPurchases >= 0.0
      && (VatCollectedCode in chart ==> g.vatCollected == CreditTotal(lines, s, Exact(VatCollectedCode)) && g.vatCollected >= 0.0)
      && (VatCollectedCode !in chart ==> g.vatCollected == f.vatCollected)
      && (VatPaidCode in chart ==> g.vatPaid == DebitTotal(lines, s, Exact(VatPaidCode)) && g.vatPaid >= 0.0)
      && (VatPaidCode !in chart ==> g.vatPaid == f.vatPaid)
      && g.withholdingTax == f.withholdingTax && g.corporateTax == f.corporateTax
  {
  }

  /** The withholding declaration: the credits on the 421 accounts, never
      negative, and no other figure moves. */
  lemma WithholdingDeclarationFigures(f: Figures, lines: seq<LedgerLine>, s: Scope)
    ensures var g := WithholdingFigures(f, lines, s);
      g.withholdingTax == CreditTotal(lines, s, Prefix("421")) && g.withholdingTax >= 0.0
      && g.totalSales == f.totalSales && g.totalPurchases == f.totalPurchases
      && g.vatCollected == f.vatCollected && g.vatPaid == f.vatPaid && g.vatDue == f.vatDue
      && g.corporateTax == f.corporateTax
  {
  }

  /** DIPE is 2.2 % of the period's sales, which are never negative. */
  lemma DipeIsRateTimesSales(f: Figures, lines: seq<LedgerLine>, s: Scope)
    ensures var g := DipeFigures(f, lines, s);
      g.corporateTax == g.totalSales * DipeRate && g.totalSales >= 0.0 && g.corporateTax >= 0.0
  {
  }

  /** Corporate tax is the positive result times 25 % or 30 %, the rate being
      chosen by the turnover the wizard held before the computation. */
  lemma CorporateTaxRule(f: Figures, lines: seq<LedgerLine>, s: Scope)
    ensures var g := IsFigures(f, lines, s);
      var result := g.totalSales - g.totalPurchases;
      g.corporateTax >= 0.0
      && (result <= 0.0 ==> g.corporateTax == 0.0)
      && (result > 0.0 && f.totalSales < LargeCompanySales ==> g.corporateTax == result * 0.25)
      && (result > 0.0 && f.totalSales >= LargeCompanySales ==> g.corporateTax == result * 0.30)
  {
  }

  /** From the second computation on, the rate follows the period's own
      income, so recomputing again changes nothing. */
  lemma CorporateTaxSettlesOnSecondRun(f: Figures, lines: seq<LedgerLine>, s: Scope)
    ensures var g2 := IsFigures(IsFigures(f, lines, s), lines, s);
      IsFigures(g2, lines, s) == g2
      && g2.corporateTax == (if g2.totalSales - g2.totalPurchases > 0.0
                             then (g2.totalSales - g2.totalPurchases) * IsRate(g2.totalSales) else 0.0)
  {
  }

  /** ... but the first and the second computation over the same ledger can
      disagree: a wizard that starts from zero turnover taxes a 2 billion
      profit at 25 %, and at 30 % when recomputed. */
  lemma CorporateTaxFirstRunCanDiffer()
    ensures var s := Scope(1, Date(2025, 1, 1), Date(2025, 12, 31));
      var lines := [LedgerLine("701000", 0.0, 2000000000.0, Date(2025, 6, 30), true, 1, None)];
      var f := Figures(0.0, 0.0, 0.0, 0.0, 0.0, 0.0, 0.0);
      IsFigures(f, lines, s).corporateTax == 500000000.0
      && IsFigures(IsFigures(f, lines, s), lines, s).corporateTax == 600000000.0
  {
    var s := Scope(1, Date(2025, 1, 1), Date(2025, 12, 31));
    var lines := [LedgerLine("701000", 0.0, 2000000000.0, Date(2025, 6, 30), true, 1, None)];
    assert lines[..0] == [];
    assert CreditTotal(lines, s, Prefix("7")) == 2000000000.0;
    assert DebitTotal(lines, s, Prefix("6")) == 0.0;
  }

  /** The DSF reads VAT on the exact account 443000 while the monthly VAT
      return reads every 443 account: a credit on 443100 is collected VAT for
      the latter only. */
  lemma DsfAndVatDisagreeOnSubAccounts()
    ensures var s := Scope(1, Date(2025, 1, 1), Date(2025, 1, 31));
      var lines := [LedgerLine("443100", 0.0, 1925.0, Date(2025, 1, 10), true, 1, None)];
      var f := Figures(0.0, 0.0, 0.0, 0.0, 0.0, 0.0, 0.0);
      DsfFigures(f, lines, s, {"443000", "443100"}).vatCollected == 0.0
      && VatFigures(f, lines, s).vatCollected == 1925.0
  {
    var s := Scope(1, Date(2025, 1, 1), Date(2025, 1, 31));
    var lines := [LedgerLine("443100", 0.0, 1925.0, Date(2025, 1, 10), true, 1, None)];
    assert lines[..0] == [];
    assert "443" <= "443100";
    assert CreditTotal(lines, s, Exact("443000")) == 0.0;
    assert CreditTotal(lines, s, Prefix("443")) == 1925.0;
  }

  // ---------------------------------------------------------------------------
  // Workflow

  datatype Action = Compute | GeneratePdf(rendered: bool) | Submit

  /** The state after an action; None where the action raises a UserError and
      leaves the state as it was. Rendering is the host's report engine:
      `rendered` says whether it produced the PDF. */
  function Next(st: WizardState, a: Action): (r: Option<WizardState>)
    ensures a == Compute ==> r == Some(Computed)
    ensures a.GeneratePdf? ==> (r.Some? <==> st == Computed && a.rendered) && (r.Some? ==> r.value == Generated)
    ensures a == Submit ==> (r.Some? <==> st == Generated) && (r.Some? ==> r.value == Submitted)
  {
    match a
    case Compute => Some(Computed)
    case GeneratePdf(rendered) => if st == Computed && rendered then Some(Generated) else None
    case Submit => if st == Generated then Some(Submitted) else None
  }

  /** The state of a new wizard after a sequence of button presses, failed
      ones leaving the state unchanged. */
  function Run(actions: seq<Action>): (r: WizardState)
    ensures r == Draft <==> forall i :: 0 <= i < |actions| ==> actions[i] != Compute
  {
    if actions == [] then Draft
    else
      assert forall i :: 0 <= i < |actions| - 1 ==> actions[..|actions| - 1][i] == actions[i];
      var before := Run(actions[..|actions| - 1]);
      match Next(before, actions[|actions| - 1])
      case Some(st) => st
      case None => before
  }

  /** A declaration can only be submitted after it was computed, then its PDF
      generated, then the submission made, in that order. */
  lemma {:induction false} SubmittedOnlyInOrder(actions: seq<Action>)
    ensures Run(actions) != Draft ==> exists i :: 0 <= i < |actions| && actions[i] == Compute
    ensures Run(actions) == Generated || Run(actions) == Submitted ==>
      exists i, j :: 0 <= i < j < |actions| && actions[i] == Compute && actions[j] == GeneratePdf(true)
    ensures Run(actions) == Submitted ==>
      exists i, j, k :: 0 <= i < j < k < |actions|
        && actions[i] == Compute && actions[j] == GeneratePdf(true) && actions[k] == Submit
  {
    if actions != [] {
      var n := |actions| - 1;
      var prefix := actions[..n];
      SubmittedOnlyInOrder(prefix);
      assert forall i :: 0 <= i < n ==> prefix[i] == actions[i];
      var before := Run(prefix);
      var a := actions[n];
      if a == Compute {
        assert actions[n] == Compute;
      } else if a.GeneratePdf? {
        if before == Computed && a.rendered {
          var i :| 0 <= i < n && prefix[i] == Compute;
          assert actions[i] == Compute && actions[n] == GeneratePdf(true);
        }
      } else {
        if before == Generated {
          var i, j :| 0 <= i < j < n && prefix[i] == Compute && prefix[j] == GeneratePdf(true);
          assert actions[i] == Compute && actions[j] == GeneratePdf(true) && actions[n] == Submit;
        }
      }
    }
  }

  /** The `fiscal.declaration.wizard` record. */
  class DeclarationWizard {
    var declarationType: DeclarationType
    var periodType: PeriodType
    var fiscalYear: int
    var periodMonth: Option<Month>
    var periodQuarter: Option<Quarter>
    var dateFrom: Date
    var dateTo: Date
    var company: nat
    var state: WizardState
    var totalSales: real
    var totalPurchases: real
    var vatCollected: real
    var vatPaid: real
    var vatDue: real
    var withholdingTax: real
    var corporateTax: real

    function Amounts(): Figures
      reads this
    {
      Figures(totalSales, totalPurchases, vatCollected, vatPaid, vatDue, withholdingTax, corporateTax)
    }

    function Period(): Scope
      reads this
    {
      Scope(company, dateFrom, dateTo)
    }

    /** A new wizard with the field defaults: a DSF, monthly, in draft, all
        amounts zero; the current year is passed in. */
    constructor (currentYear: int, company: nat, dateFrom: Date, dateTo: Date)
      ensures declarationType == Dsf && periodType == Monthly && fiscalYear == currentYear
      ensures periodMonth == None && periodQuarter == None
      ensures this.dateFrom == dateFrom && this.dateTo == dateTo && this.company == company
      ensures state == Draft && Amounts() == Figures(0.0, 0.0, 0.0, 0.0, 0.0, 0.0, 0.0)
    {
      declarationType := Dsf;
      periodType := Monthly;
      fiscalYear := currentYear;
      periodMonth := None;
      periodQuarter := None;
      this.dateFrom := dateFrom;
      this.dateTo := dateTo;
      this.company := company;
      state := Draft;
      totalSales, totalPurchases, vatCollected, vatPaid := 0.0, 0.0, 0.0, 0.0;
      vatDue, withholdingTax, corporateTax := 0.0, 0.0, 0.0;
    }

    /** `_onchange_declaration_type`. */
    method OnchangeDeclarationType()
      modifies this`periodType
      ensures periodType == PeriodTypeFor(declarationType, old(periodType))
    {
      if declarationType == VatMonthly {
        periodType := Monthly;
      } else if declarationType == Dsf || declarationType == Is {
        periodType := Annual;
      } else if declarationType == Dipe {
        periodType := Quarterly;
      }
    }

    /** `_onchange_period`; `ok` is false where `date(...)` raises. */
    method OnchangePeriod() returns (ok: bool)
      modifies this`dateFrom, this`dateTo
      ensures var r := ResolvePeriod(periodType, fiscalYear, periodMonth, periodQuarter);
        ok == (r != BadYear)
        && (if r.Range? then dateFrom == r.from && dateTo == r.to
            else dateFrom == old(dateFrom) && dateTo == old(dateTo))
    {
      var r := ResolvePeriod(periodType, fiscalYear, periodMonth, periodQuarter);
      ok := r != BadYear;
      if r.Range? {
        dateFrom := r.from;
        dateTo := r.to;
      }
    }

    method SetAmounts(g: Figures)
      modifies this`totalSales, this`totalPurchases, this`vatCollected, this`vatPaid,
        this`vatDue, this`withholdingTax, this`corporateTax
      ensures Amounts() == g
    {
      totalSales, totalPurchases, vatCollected, vatPaid := g.totalSales, g.totalPurchases, g.vatCollected, g.vatPaid;
      vatDue, withholdingTax, corporateTax := g.vatDue, g.withholdingTax, g.corporateTax;
    }

    /** `action_compute_declaration`: run the generator of the declaration
        type over the posted lines of the period, then mark it computed. */
    method ComputeDeclaration(lines: seq<LedgerLine>, chart: set<string>)
      modifies this`totalSales, this`totalPurchases, this`vatCollected, this`vatPaid,
        this`vatDue, this`withholdingTax, this`corporateTax, this`state
      ensures Amounts() == ComputeFigures(declarationType, old(Amounts()), lines, Period(), chart)
      ensures state == Computed && Next(old(state), Compute) == Some(state)
    {
      var g := ComputeFigures(declarationType, Amounts(), lines, Period(), chart);
      SetAmounts(g);
      state := Computed;
    }

    /** `action_generate_pdf`: refused unless computed. */
    method GeneratePdf(rendered: bool) returns (ok: bool)
      modifies this`state
      ensures ok == (old(state) == Computed && rendered)
      ensures Next(old(state), Action.GeneratePdf(rendered)) == (if ok then Some(state) else None)
      ensures !ok ==> state == old(state)
    {
      if state != Computed {
        return false;
      }
      if !rendered {
        return false;
      }
      state := Generated;
      ok := true;
    }

    /** `action_submit_declaration`: refused unless the PDF was generated. */
    method SubmitDeclaration() returns (ok: bool)
      modifies this`state
      ensures ok == (old(state) == Generated)
      ensures Next(old(state), Submit) == (if ok then Some(state) else None)
      ensures !ok ==> state == old(state)
    {
      if state != Generated {
        return false;
      }
      state := Submitted;
      ok := true;
    }
  }
}
