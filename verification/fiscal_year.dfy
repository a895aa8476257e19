/** The `cm.fiscal.year` table: fiscal years per company, whose start may
    not follow their end, unique per (company, start, end), and closed one way. */
module FiscalYears {
  import opened Base
  import opened Dates

  datatype YearState = Open | Closed

  datatype FiscalYear = FiscalYear(name: string, start: Date, end: Date, company: nat, state: YearState)

  /** `_check_dates`: a year whose start is after its end is rejected. */
  predicate DatesOrdered(y: FiscalYear)
  {
    Le(y.start, y.end)
  }

  /** The key of the `unique(company_id, date_start, date_end)` constraint. */
  predicate SameKey(a: FiscalYear, b: FiscalYear)
  {
    a.company == b.company && a.start == b.start && a.end == b.end
  }

  predicate Covers(y: FiscalYear, company: nat, d: Date)
  {
    y.company == company && InRange(d, y.start, y.end)
  }

  /** The table invariant that the two constraints maintain. */
  predicate WellFormed(ys: seq<FiscalYear>)
  {
    (forall i :: 0 <= i < |ys| ==> DatesOrdered(ys[i]))
    && (forall i, j :: 0 <= i < j < |ys| ==> !SameKey(ys[i], ys[j]))
  }

  /** `action_close_fiscal_year` succeeds exactly when every selected year is
      open and none is selected twice (a repeated record is found already
      closed on its second visit). */
  predicate CanClose(ys: seq<FiscalYear>, selection: seq<nat>)
  {
    (forall k :: 0 <= k < |selection| ==> selection[k] < |ys| && ys[selection[k]].state == Open)
    && (forall k, l :: 0 <= k < l < |selection| ==> selection[k] != selection[l])
  }

  /** Closing fails at the `k`-th selected year when it was selected before
      or is already closed. */
  lemma CloseRefused(ys: seq<FiscalYear>, selection: seq<nat>, k: nat)
    requires k < |selection| && selection[k] < |ys|
    requires selection[k] in selection[..k] || ys[selection[k]].state == Closed
    ensures !CanClose(ys, selection)
  {
    if selection[k] in selection[..k] {
      var l :| 0 <= l < k && selection[..k][l] == selection[k];
      assert selection[l] == selection[k];
    }
  }

  /** Closing years changes no date, company or key, so the table stays
      well formed. */
  lemma ClosingKeepsWellFormed(ys: seq<FiscalYear>, selection: seq<nat>, after: seq<FiscalYear>)
    requires WellFormed(ys) && |after| == |ys|
    requires forall i :: 0 <= i < |ys| ==>
      after[i] == if i in selection then ys[i].(state := Closed) else ys[i]
    ensures WellFormed(after)
  {
    forall i, j | 0 <= i < j < |after|
      ensures !SameKey(after[i], after[j])
    {
      assert SameKey(after[i], after[j]) ==> SameKey(ys[i], ys[j]);
    }
  }

  class FiscalYearBook {
    var years: seq<FiscalYear>

    predicate Valid()
      reads this
    {
      WellFormed(years)
    }

    constructor ()
      ensures Valid() && years == []
    {
      years := [];
    }

    /** Creating a record: the new year is open by default; the date check
        and the uniqueness constraint reject it and leave the table as it was. */
    method Create(name: string, start: Date, end: Date, company: nat) returns (r: Result<nat>)
      requires Valid()
      modifies this
      ensures Valid()
      ensures var y := FiscalYear(name, start, end, company, Open);
        r.Ok? <==> DatesOrdered(y) && forall i :: 0 <= i < |old(years)| ==> !SameKey(old(years)[i], y)
      ensures r.Ok? ==> r.value == |old(years)| && years == old(years) + [FiscalYear(name, start, end, company, Open)]
      ensures r.Err? ==> years == old(years)
    {
      var y := FiscalYear(name, start, end, company, Open);
      if !Le(start, end) {
        return Err("start after end");
      }
      if exists i :: 0 <= i < |years| && SameKey(years[i], y) {
        return Err("duplicate fiscal year");
      }
      r := Ok(|years|);
      years := years + [y];
    }

    /** `action_close_fiscal_year` over the selected records, in order. A
        raised ValidationError rolls the whole transaction back, so on
        failure no year is closed. */
    method Close(selection: seq<nat>) returns (ok: bool)
      requires Valid()
      requires forall k :: 0 <= k < |selection| ==> selection[k] < |years|
      modifies this
      ensures Valid()
      ensures ok == CanClose(old(years), selection)
      ensures ok ==> |years| == |old(years)|
      ensures ok ==> forall i :: 0 <= i < |years| ==>
        years[i] == if i in selection then old(years)[i].(state := Closed) else old(years)[i]
      ensures !ok ==> years == old(years)
    {
      var ys := years;
      var k := 0;
      while k < |selection|
        invariant 0 <= k <= |selection|
        invariant |ys| == |years|
        invariant CanClose(years, selection[..k])
        invariant forall i :: 0 <= i < |ys| ==>
          ys[i] == if i in selection[..k] then years[i].(state := Closed) else years[i]
      {
        var idx := selection[k];
        if ys[idx].state == Closed {
          CloseRefused(years, selection, k);
          return false;
        }
        assert idx !in selection[..k];
        assert selection[..k + 1] == selection[..k] + [idx];
        ys := ys[idx := ys[idx].(state := Closed)];
        k := k + 1;
      }
      assert selection[..k] == selection;
      ClosingKeepsWellFormed(years, selection, ys);
      years := ys;
      ok := true;
    }
  }
}
