/** The `account.asset` extension: asset numbers drawn from the
    `account.asset.number` sequence, the SYSCOHADA category rate table and
    the linear depreciation schedule, one balanced move per year dated on
    31 December. */
module Assets {
  import opened Base
  import opened Dates
  import opened Ledger

  // ---------------------------------------------------------------------------
  // Asset numbers.

  const NumberPrefix: string := "IMM/"
  const NumberPadding: nat := 5

  function Zeros(k: nat): (z: string)
    ensures |z| == k && AllDigits(z)
  {
    if k == 0 then [] else Zeros(k - 1) + "0"
  }

  /** `n` written with at least five digits, as the sequence's padding does. */
  function PaddedDigits(n: nat): (s: string)
    ensures |s| >= NumberPadding
  {
    var digits := NatToString(n);
    (if |digits| < NumberPadding then Zeros(NumberPadding - |digits|) else []) + digits
  }

  /** The `n`-th number of the sequence. */
  function SequenceNumber(n: nat): (s: string)
    ensures NumberPrefix <= s && |s| >= |NumberPrefix| + NumberPadding
  {
    NumberPrefix + PaddedDigits(n)
  }

  lemma {:induction false} LeadingZerosReadBack(k: nat, s: string)
    requires AllDigits(s)
    ensures AllDigits(Zeros(k) + s) && DigitsValue(Zeros(k) + s) == DigitsValue(s)
    decreases k + |s|
  {
    var t := Zeros(k) + s;
    if s == [] {
      assert t == Zeros(k);
      if k > 0 {
        assert t[..|t| - 1] == Zeros(k - 1) + [];
        LeadingZerosReadBack(k - 1, []);
      }
    } else {
      assert t[..|t| - 1] == Zeros(k) + s[..|s| - 1];
      LeadingZerosReadBack(k, s[..|s| - 1]);
    }
  }

  /** The padding does not change the number the digits spell. */
  lemma PaddedDigitsReadBack(n: nat)
    ensures AllDigits(PaddedDigits(n)) && DigitsValue(PaddedDigits(n)) == n
  {
    var d := NatToString(n);
    var k := if |d| < NumberPadding then NumberPadding - |d| else 0;
    assert PaddedDigits(n) == Zeros(k) + d;
    LeadingZerosReadBack(k, d);
    NatToStringReadsBack(n);
  }

  /** Different counter values give different asset numbers. */
  lemma SequenceNumbersAreDistinct(a: nat, b: nat)
    requires a != b
    ensures SequenceNumber(a) != SequenceNumber(b)
  {
    PaddedDigitsReadBack(a);
    PaddedDigitsReadBack(b);
    assert SequenceNumber(a)[|NumberPrefix|..] == PaddedDigits(a);
    assert SequenceNumber(b)[|NumberPrefix|..] == PaddedDigits(b);
  }

  /** The `account.asset.number` sequence; `next` is None until the sequence
      record exists. */
  class AssetNumbering {
    var next: Option<nat>

    constructor (next: Option<nat>)
      ensures this.next == next
    {
      this.next := next;
    }

    /** `next_by_code`, creating the sequence (starting at 1) when it does not exist. */
    method NextNumber() returns (number: string)
      modifies this
      ensures old(next).None? ==> number == SequenceNumber(1) && next == Some(2)
      ensures old(next).Some? ==> number == SequenceNumber(old(next).value) && next == Some(old(next).value + 1)
    {
      if next.None? {
        next := Some(1);
      }
      number := SequenceNumber(next.value);
      next := Some(next.value + 1);
    }
  }

  // ---------------------------------------------------------------------------
  // Categories.

  datatype Category = Intangible | Land | Buildings | Equipment | Holdings | OtherFinancial

  /** The selection code of a category. */
  function CategoryCode(c: Category): string
  {
    match c
    case Intangible => "21"
    case Land => "22"
    case Buildings => "23"
    case Equipment => "24"
    case Holdings => "26"
    case OtherFinancial => "27"
  }

  /** `depreciation_rates`, in percent per year. */
  function CategoryRate(c: Category): (rate: nat)
    ensures rate == 0 <==> c == Land || c == Holdings
    ensures rate > 0 ==> 100 % rate == 0
  {
    match c
    case Intangible => 20
    case Land => 0
    case Buildings => 5
    case Equipment => 25
    case Holdings => 0
    case OtherFinancial => 10
  }

  /** The useful life the table proposes for a depreciable category:
      `int(100 / rate)` years, which the rate then depreciates in full. */
  lemma CategoryLifetimes(c: Category)
    requires CategoryRate(c) > 0
    ensures (100 / CategoryRate(c)) * CategoryRate(c) == 100
    ensures c == Intangible ==> 100 / CategoryRate(c) == 5
    ensures c == Buildings ==> 100 / CategoryRate(c) == 20
    ensures c == Equipment ==> 100 / CategoryRate(c) == 4
    ensures c == OtherFinancial ==> 100 / CategoryRate(c) == 10
  {
  }

  // ---------------------------------------------------------------------------
  // The depreciation schedule.

  /** The move of year `k` (counted from 0) of the schedule. */
  function ScheduleMove(name: string, journal: nat, expense: Option<string>, accumulated: Option<string>,
                        first: Date, annual: real, k: nat): (m: Move)
    ensures m.journal == journal && m.date == Date(first.year + k, 12, 31) && !m.posted
    ensures |m.lines| == 2 && m.lines[0].account == expense && m.lines[1].account == accumulated
    ensures m.lines[0].debit == annual && m.lines[0].credit == 0.0
    ensures m.lines[1].debit == 0.0 && m.lines[1].credit == annual
  {
    Move(journal, Date(first.year + k, 12, 31), "Amortissement " + name + " - Année " + NatToString(k + 1), [
      MoveLine(expense, "Dotation amortissement " + name, annual, 0.0, None),
      MoveLine(accumulated, "Amortissement cumulé " + name, 0.0, annual, None)
    ], false)
  }

  /** The moves the loop creates for `n` years, in order. */
  function Schedule(name: string, journal: nat, expense: Option<string>, accumulated: Option<string>,
                    first: Date, annual: real, n: nat): (r: seq<Move>)
    ensures |r| == n
    ensures forall k :: 0 <= k < n ==> r[k].journal == journal && r[k].date == Date(first.year + k, 12, 31) && !r[k].posted
  {
    if n == 0 then [] else Schedule(name, journal, expense, accumulated, first, annual, n - 1) + [ScheduleMove(name, journal, expense, accumulated, first, annual, n - 1)]
  }

  /** The move at position `k` of a schedule is the move of year `k`. */
  lemma {:induction false} ScheduleAt(name: string, journal: nat, expense: Option<string>, accumulated: Option<string>,
                                      first: Date, annual: real, n: nat, k: nat)
    requires k < n
    ensures Schedule(name, journal, expense, accumulated, first, annual, n)[k] == ScheduleMove(name, journal, expense, accumulated, first, annual, k)
  {
    if k < n - 1 {
      ScheduleAt(name, journal, expense, accumulated, first, annual, n - 1, k);
    }
  }

  /** The moves that survive `filtered(lambda x: x.state == "draft").unlink()`. */
  function NonDrafts(moves: seq<Move>): (r: seq<Move>)
    ensures forall i :: 0 <= i < |r| ==> r[i].posted && r[i] in moves
    ensures forall i :: 0 <= i < |moves| && moves[i].posted ==> moves[i] in r
  {
    if moves == [] then []
    else
      var init := NonDrafts(moves[..|moves| - 1]);
      assert forall i :: 0 <= i < |moves| - 1 ==> moves[..|moves| - 1][i] == moves[i];
      var last := moves[|moves| - 1];
      if last.posted then init + [last] else init
  }

  /** The move of any year debits the annual amount and credits it back. */
  lemma ScheduleMoveDebits(name: string, journal: nat, expense: Option<string>, accumulated: Option<string>,
                           first: Date, annual: real, k: nat)
    ensures var m := ScheduleMove(name, journal, expense, accumulated, first, annual, k);
      TotalDebit(m.lines) == annual && TotalCredit(m.lines) == annual
  {
    var lines := ScheduleMove(name, journal, expense, accumulated, first, annual, k).lines;
    assert lines[..1][..0] == [];
    assert lines[..2] == lines;
    assert TotalDebit(lines[..1]) == annual && TotalCredit(lines[..1]) == 0.0;
  }

  /** Every move of the schedule is balanced, debiting the expense account
      and crediting the accumulated depreciation by the annual amount, and
      the year-`k` move falls on 31 December of the first year plus `k`. */
  lemma ScheduleMovesAreBalanced(name: string, journal: nat, expense: Option<string>, accumulated: Option<string>,
                                 first: Date, annual: real, n: nat, k: nat)
    requires k < n
    ensures var m := Schedule(name, journal, expense, accumulated, first, annual, n)[k];
      Balanced(m) && TotalDebit(m.lines) == annual && m.date == Date(first.year + k, 12, 31) && !m.posted
  {
    ScheduleAt(name, journal, expense, accumulated, first, annual, n, k);
    ScheduleMoveDebits(name, journal, expense, accumulated, first, annual, k);
  }

  /** The amount a sequence of depreciation moves debits in total. */
  function DepreciatedTotal(moves: seq<Move>): real
  {
    if moves == [] then 0.0 else DepreciatedTotal(moves[..|moves| - 1]) + TotalDebit(moves[|moves| - 1].lines)
  }

  /** `n` equal amounts added up. */
  function Times(n: nat, annual: real): real
  {
    if n == 0 then 0.0 else Times(n - 1, annual) + annual
  }

  lemma {:induction false} TimesIsProduct(n: nat, annual: real)
    ensures Times(n, annual) == n as real * annual
  {
    if n > 0 {
      TimesIsProduct(n - 1, annual);
    }
  }

  /** `n` equal shares of a value add back up to the value. */
  lemma EqualSharesAddUp(value: real, n: nat)
    requires n > 0
    ensures Times(n, value / n as real) == value
  {
    TimesIsProduct(n, value / n as real);
  }

  lemma DepreciatedTotalAppend(moves: seq<Move>, m: Move)
    ensures DepreciatedTotal(moves + [m]) == DepreciatedTotal(moves) + TotalDebit(m.lines)
  {
    assert (moves + [m])[..|moves|] == moves;
  }

  /** A schedule of `n` years debits `n` times the annual amount. */
  lemma {:induction false} ScheduleTotal(name: string, journal: nat, expense: Option<string>, accumulated: Option<string>,
                                         first: Date, annual: real, n: nat)
    ensures DepreciatedTotal(Schedule(name, journal, expense, accumulated, first, annual, n)) == Times(n, annual)
  {
    if n > 0 {
      ScheduleTotal(name, journal, expense, accumulated, first, annual, n - 1);
      ScheduleMoveDebits(name, journal, expense, accumulated, first, annual, n - 1);
      DepreciatedTotalAppend(Schedule(name, journal, expense, accumulated, first, annual, n - 1), ScheduleMove(name, journal, expense, accumulated, first, annual, n - 1));
    }
  }

  /** Linear depreciation writes off exactly the original value. */
  lemma ScheduleDepreciatesOriginalValue(name: string, journal: nat, expense: Option<string>, accumulated: Option<string>,
                                         first: Date, value: real, n: nat)
    requires n > 0
    ensures DepreciatedTotal(Schedule(name, journal, expense, accumulated, first, value / n as real, n)) == value
  {
    ScheduleTotal(name, journal, expense, accumulated, first, value / n as real, n);
    EqualSharesAddUp(value, n);
  }

  /** Every date of a schedule that stays within year 9999 is a real date. */
  lemma ScheduleDatesAreValid(name: string, journal: nat, expense: Option<string>, accumulated: Option<string>,
                              first: Date, annual: real, n: nat, k: nat)
    requires Valid(first) && k < n && first.year + n - 1 <= MaxYear
    ensures Valid(Schedule(name, journal, expense, accumulated, first, annual, n)[k].date)
  {
    ScheduleAt(name, journal, expense, accumulated, first, annual, n, k);
  }

  /** The values a new asset is created with. */
  datatype AssetValues = AssetValues(
    name: string,
    assetNumber: Option<string>,
    originalValue: real,
    methodNumber: int,
    firstDepreciationDate: Option<Date>,
    journal: nat,
    expenseAccount: Option<string>,
    accumulatedAccount: Option<string>)

  /** An `account.asset` record; `depreciationMoves` are its depreciation moves. */
  class Asset {
    var name: string
    var assetNumber: string
    var category: Option<Category>
    var taxDepreciationRate: real
    var methodNumber: int
    var originalValue: real
    var firstDepreciationDate: Option<Date>
    var journal: nat
    var expenseAccount: Option<string>
    var accumulatedAccount: Option<string>
    var depreciationMoves: seq<Move>

    /** `create`: a number given in the values is kept; when it is missing or
        empty, the next number of the sequence is taken. */
    constructor (vals: AssetValues, numbering: AssetNumbering)
      modifies numbering
      ensures vals.assetNumber.Some? && vals.assetNumber.value != [] ==>
        assetNumber == vals.assetNumber.value && numbering.next == old(numbering.next)
      ensures !(vals.assetNumber.Some? && vals.assetNumber.value != []) ==>
        (assetNumber == SequenceNumber(if old(numbering.next).Some? then old(numbering.next).value else 1)
         && numbering.next.Some?
         && numbering.next.value == 1 + (if old(numbering.next).Some? then old(numbering.next).value else 1))
      ensures name == vals.name && originalValue == vals.originalValue && methodNumber == vals.methodNumber
      ensures firstDepreciationDate == vals.firstDepreciationDate && journal == vals.journal
      ensures expenseAccount == vals.expenseAccount && accumulatedAccount == vals.accumulatedAccount
      ensures category.None? && taxDepreciationRate == 0.0 && depreciationMoves == []
    {
      var number: string;
      if vals.assetNumber.Some? && vals.assetNumber.value != [] {
        number := vals.assetNumber.value;
      } else {
        number := numbering.NextNumber();
      }
      name := vals.name;
      assetNumber := number;
      category := None;
      taxDepreciationRate := 0.0;
      methodNumber := vals.methodNumber;
      originalValue := vals.originalValue;
      firstDepreciationDate := vals.firstDepreciationDate;
      journal := vals.journal;
      expenseAccount := vals.expenseAccount;
      accumulatedAccount := vals.accumulatedAccount;
      depreciationMoves := [];
    }

    /** `_onchange_syscohada_category`: a depreciable category sets the tax
        rate and the number of years; a non-depreciable one, or no category,
        leaves them as they are. */
    method OnchangeCategory(c: Option<Category>)
      modifies this
      ensures category == c
      ensures c.Some? && CategoryRate(c.value) > 0 ==>
        taxDepreciationRate == CategoryRate(c.value) as real && methodNumber == 100 / CategoryRate(c.value)
      ensures !(c.Some? && CategoryRate(c.value) > 0) ==>
        taxDepreciationRate == old(taxDepreciationRate) && methodNumber == old(methodNumber)
      ensures name == old(name) && assetNumber == old(assetNumber) && originalValue == old(originalValue)
      ensures firstDepreciationDate == old(firstDepreciationDate) && depreciationMoves == old(depreciationMoves)
      ensures journal == old(journal) && expenseAccount == old(expenseAccount) && accumulatedAccount == old(accumulatedAccount)
    {
      category := c;
      if c.Some? {
        var rate := CategoryRate(c.value);
        if rate > 0 {
          taxDepreciationRate := rate as real;
          methodNumber := 100 / rate;
        }
      }
    }

    /** `action_generate_depreciation_schedule`. The value and the number of
        years must be non-zero and the first date set; draft moves are
        deleted and one move per year is created. A year past 9999 makes
        `date` raise ValueError, which rolls everything back. */
    method GenerateDepreciationSchedule() returns (r: Result<nat>)
      requires firstDepreciationDate.Some? ==> Valid(firstDepreciationDate.value)
      modifies this
      ensures r.Err? <==> (originalValue == 0.0 || methodNumber == 0 || firstDepreciationDate.None?
                           || (methodNumber > 0 && firstDepreciationDate.value.year + methodNumber - 1 > MaxYear))
      ensures r.Err? ==> depreciationMoves == old(depreciationMoves)
      ensures r.Ok? ==> r.value == (if methodNumber > 0 then methodNumber else 0)
      ensures r.Ok? ==> (depreciationMoves == NonDrafts(old(depreciationMoves)) +
        Schedule(name, journal, expenseAccount, accumulatedAccount, firstDepreciationDate.value,
                 originalValue / methodNumber as real, r.value))
      ensures name == old(name) && assetNumber == old(assetNumber) && originalValue == old(originalValue)
      ensures methodNumber == old(methodNumber) && firstDepreciationDate == old(firstDepreciationDate)
      ensures category == old(category) && taxDepreciationRate == old(taxDepreciationRate)
      ensures journal == old(journal) && expenseAccount == old(expenseAccount) && accumulatedAccount == old(accumulatedAccount)
    {
      if originalValue == 0.0 || methodNumber == 0 {
        return Err("Veuillez définir la valeur et la durée d'amortissement");
      }
      if firstDepreciationDate.None? {
        return Err("Veuillez définir la date de première dotation d'amortissement");
      }
      var first := firstDepreciationDate.value;
      var n: nat := if methodNumber > 0 then methodNumber else 0;
      if n > 0 && first.year + n - 1 > MaxYear {
        return Err("year " + NatToString(MaxYear + 1) + " is out of range");
      }
      var moves := NonDrafts(depreciationMoves);
      var annual := originalValue / methodNumber as real;
      var year := 0;
      while year < n
        invariant 0 <= year <= n
        invariant moves == NonDrafts(depreciationMoves) +
          Schedule(name, journal, expenseAccount, accumulatedAccount, first, annual, year)
      {
        moves := moves + [ScheduleMove(name, journal, expenseAccount, accumulatedAccount, first, annual, year)];
        year := year + 1;
      }
      depreciationMoves := moves;
      r := Ok(n);
    }
  }
}
