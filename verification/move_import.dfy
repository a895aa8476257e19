/** The journal-entry import wizard (`account.move.import`): the sheet is
    checked for its columns and cleaned, its rows are grouped by reference,
    and each group becomes one `account.move` or one logged error, without
    stopping the others. The fiscal year covering each move date is found or
    created on the way. */
module MoveImport {
  import opened Base
  import opened Dates
  import opened Ledger
  import opened Journals
  import opened FiscalYears
  import opened DateParsing

  const RequiredColumns: seq<string> := ["Date", "Journal", "Compte", "Libelle", "Debit", "Credit"]

  /** The largest gap between total debit and total credit a move may have. */
  const Tolerance: real := 1.0 / 100.0

  // ---------------------------------------------------------------------------
  // The sheet and its cleaning

  /** A spreadsheet row as read; None is an empty (NaN) cell, and a Debit or
      Credit cell that is not a number is None too (`errors='coerce'`). */
  datatype Row = Row(
    date: Option<DateValue>,
    journal: Option<string>,
    account: Option<string>,
    name: Option<string>,
    debit: Option<real>,
    credit: Option<real>,
    reference: Option<string>,
    partner: Option<string>)

  datatype Sheet = Sheet(columns: seq<string>, rows: seq<Row>)

  /** `[col for col in required if col not in columns]`. */
  function MissingColumns(required: seq<string>, columns: seq<string>): (r: seq<string>)
    ensures |r| <= |required|
    ensures forall c :: c in r <==> c in required && c !in columns
  {
    if required == [] then []
    else
      var c := required[|required| - 1];
      var init := required[..|required| - 1];
      assert required == init + [c];
      MissingColumns(init, columns) + (if c in columns then [] else [c])
  }

  /** `sep.join(xs)`. */
  function Join(xs: seq<string>, sep: string): string
  {
    if xs == [] then "" else if |xs| == 1 then xs[0] else Join(xs[..|xs| - 1], sep) + sep + xs[|xs| - 1]
  }

  /** A row that survived `dropna(subset=['Date', 'Compte'])`, keeping its
      position in the sheet (the DataFrame index), with Debit and Credit
      filled with 0 and the label as `str` renders it. */
  datatype Entry = Entry(
    index: nat,
    date: Option<DateValue>,
    journal: Option<string>,
    account: string,
    name: string,
    debit: real,
    credit: real,
    reference: Option<string>,
    partner: Option<string>)

  predicate Kept(r: Row)
  {
    r.date.Some? && r.account.Some?
  }

  /** `str(value)` of a cell, which renders NaN as `nan`. */
  function CellText(v: Option<string>): string
  {
    if v.Some? then v.value else "nan"
  }

  function CleanRow(i: nat, r: Row, hasPartnerColumn: bool): Entry
    requires Kept(r)
  {
    Entry(i, r.date, r.journal, r.account.value, CellText(r.name),
      if r.debit.Some? then r.debit.value else 0.0,
      if r.credit.Some? then r.credit.value else 0.0,
      r.reference,
      if hasPartnerColumn then r.partner else None)
  }

  /** The cleaning steps of `action_import_moves`. */
  function Clean(rows: seq<Row>, hasPartnerColumn: bool): (es: seq<Entry>)
    ensures |es| <= |rows|
    ensures forall j :: 0 <= j < |es| ==>
      es[j].index < |rows| && Kept(rows[es[j].index]) && es[j] == CleanRow(es[j].index, rows[es[j].index], hasPartnerColumn)
    ensures forall a, b :: 0 <= a < b < |es| ==> es[a].index < es[b].index
  {
    if rows == [] then []
    else
      var n := |rows| - 1;
      var init := rows[..n];
      var es := Clean(init, hasPartnerColumn);
      assert forall i :: 0 <= i < n ==> init[i] == rows[i];
      if Kept(rows[n]) then es + [CleanRow(n, rows[n], hasPartnerColumn)] else es
  }

  /** Cleaning drops exactly the rows without a date or an account. */
  lemma {:induction false} KeptRowsSurvive(rows: seq<Row>, hasPartnerColumn: bool, i: nat)
    requires i < |rows| && Kept(rows[i])
    ensures exists j :: 0 <= j < |Clean(rows, hasPartnerColumn)| && Clean(rows, hasPartnerColumn)[j].index == i
  {
    var n := |rows| - 1;
    var init := rows[..n];
    var es := Clean(init, hasPartnerColumn);
    if i == n {
      assert Clean(rows, hasPartnerColumn)[|es|].index == i;
    } else {
      assert init[i] == rows[i];
      KeptRowsSurvive(init, hasPartnerColumn, i);
      var j :| 0 <= j < |es| && es[j].index == i;
      assert Clean(rows, hasPartnerColumn)[j] == es[j];
    }
  }

  // ---------------------------------------------------------------------------
  // Grouping by reference

  /** `df['Reference'].fillna(...)`: the reference, or the row's own index. */
  datatype GroupKey = ByRef(ref: string) | ByIndex(index: nat)

  function KeyOf(e: Entry): GroupKey
  {
    if e.reference.Some? then ByRef(e.reference.value) else ByIndex(e.index)
  }

  /** The key as the error log prints it. */
  function KeyText(k: GroupKey): string
  {
    match k
    case ByRef(s) => s
    case ByIndex(i) => NatToString(i)
  }

  /** The distinct keys, in order of first appearance. */
  function Keys(es: seq<Entry>): (ks: seq<GroupKey>)
    ensures forall a, b :: 0 <= a < b < |ks| ==> ks[a] != ks[b]
    ensures forall i :: 0 <= i < |es| ==> KeyOf(es[i]) in ks
    ensures forall k :: k in ks ==> exists i :: 0 <= i < |es| && KeyOf(es[i]) == k
  {
    if es == [] then []
    else
      var n := |es| - 1;
      var ks := Keys(es[..n]);
      assert forall i :: 0 <= i < n ==> es[..n][i] == es[i];
      if KeyOf(es[n]) in ks then ks else ks + [KeyOf(es[n])]
  }

  /** The rows of one group, in sheet order. */
  function Members(es: seq<Entry>, k: GroupKey): (g: seq<Entry>)
    ensures forall j :: 0 <= j < |g| ==> KeyOf(g[j]) == k && g[j] in es
    ensures g == [] <==> forall i :: 0 <= i < |es| ==> KeyOf(es[i]) != k
  {
    if es == [] then []
    else
      var n := |es| - 1;
      assert forall i :: 0 <= i < n ==> es[..n][i] == es[i];
      Members(es[..n], k) + (if KeyOf(es[n]) == k then [es[n]] else [])
  }

  datatype Group = Group(key: GroupKey, entries: seq<Entry>)

  /** `df.groupby(key)`, one group per distinct key. */
  function Groups(es: seq<Entry>): (gs: seq<Group>)
    ensures forall a, b :: 0 <= a < b < |gs| ==> gs[a].key != gs[b].key
    ensures forall a, j :: 0 <= a < |gs| && 0 <= j < |gs[a].entries| ==>
      KeyOf(gs[a].entries[j]) == gs[a].key && gs[a].entries[j] in es
  {
    var ks := Keys(es);
    seq(|ks|, i requires 0 <= i < |ks| => Group(ks[i], Members(es, ks[i])))
  }

  /** No group is empty. */
  lemma GroupsAreNonEmpty(es: seq<Entry>, a: nat)
    requires a < |Groups(es)|
    ensures Groups(es)[a].entries != []
    ensures forall j :: 0 <= j < |Groups(es)[a].entries| ==> KeyOf(Groups(es)[a].entries[j]) == Groups(es)[a].key
  {
    var k := Keys(es)[a];
    assert k in Keys(es);
    var i :| 0 <= i < |es| && KeyOf(es[i]) == k;
  }

  /** Every row with the key is a member of its group. */
  lemma {:induction false} MembersComplete(es: seq<Entry>, k: GroupKey, i: nat)
    requires i < |es| && KeyOf(es[i]) == k
    ensures es[i] in Members(es, k)
  {
    var n := |es| - 1;
    if i < n {
      assert es[..n][i] == es[i];
      MembersComplete(es[..n], k, i);
    }
  }

  /** Rows listed in strictly increasing sheet position. */
  predicate InSheetOrder(es: seq<Entry>)
  {
    forall a, b :: 0 <= a < b < |es| ==> es[a].index < es[b].index
  }

  /** A row placed after rows it follows in the sheet keeps the order. */
  lemma AppendKeepsOrder(g: seq<Entry>, e: Entry)
    requires InSheetOrder(g) && forall j :: 0 <= j < |g| ==> g[j].index < e.index
    ensures InSheetOrder(g + [e])
  {
    var h := g + [e];
    forall a, b | 0 <= a < b < |h|
      ensures h[a].index < h[b].index
    {
      assert h[a] == g[a];
      if b < |g| {
        assert h[b] == g[b];
      }
    }
  }

  /** The members drawn from rows before the last one come before it. */
  lemma MembersBeforeLast(es: seq<Entry>, k: GroupKey)
    requires es != [] && InSheetOrder(es)
    ensures var n := |es| - 1;
      forall j :: 0 <= j < |Members(es[..n], k)| ==> Members(es[..n], k)[j].index < es[n].index
  {
    var n := |es| - 1;
    var init := es[..n];
    var g0 := Members(init, k);
    forall j | 0 <= j < |g0|
      ensures g0[j].index < es[n].index
    {
      assert g0[j] in init;
      var p :| 0 <= p < n && init[p] == g0[j];
      assert es[p] == init[p];
    }
  }

  /** A group keeps its rows in sheet order. */
  lemma {:induction false} MembersInSheetOrder(es: seq<Entry>, k: GroupKey)
    requires InSheetOrder(es)
    ensures InSheetOrder(Members(es, k))
  {
    if es != [] {
      var n := |es| - 1;
      var init := es[..n];
      assert InSheetOrder(init) by {
        assert forall j :: 0 <= j < n ==> init[j] == es[j];
      }
      MembersInSheetOrder(init, k);
      if KeyOf(es[n]) == k {
        MembersBeforeLast(es, k);
        AppendKeepsOrder(Members(init, k), es[n]);
      } else {
        assert Members(es, k) == Members(init, k) + [];
      }
    }
  }

  /** Every cleaned row lands in exactly one group: the one of its key. */
  lemma EveryEntryInOneGroup(es: seq<Entry>, i: nat)
    requires i < |es|
    ensures exists a :: 0 <= a < |Groups(es)| && Groups(es)[a].key == KeyOf(es[i]) && es[i] in Groups(es)[a].entries
    ensures forall a :: 0 <= a < |Groups(es)| && es[i] in Groups(es)[a].entries ==> Groups(es)[a].key == KeyOf(es[i])
    ensures forall a, b :: 0 <= a < b < |Groups(es)| ==> Groups(es)[a].key != Groups(es)[b].key
  {
    var ks := Keys(es);
    var gs := Groups(es);
    var a :| 0 <= a < |ks| && ks[a] == KeyOf(es[i]);
    MembersComplete(es, ks[a], i);
    assert gs[a] == Group(ks[a], Members(es, ks[a]));
    forall b | 0 <= b < |gs| && es[i] in gs[b].entries
      ensures gs[b].key == KeyOf(es[i])
    {
      var g := Members(es, ks[b]);
      assert gs[b] == Group(ks[b], g);
      var j :| 0 <= j < |g| && g[j] == es[i];
    }
  }

  /** A row without a reference is a group of its own. */
  lemma {:induction false} UnreferencedRowIsAlone(es: seq<Entry>, i: nat)
    requires i < |es| && es[i].reference.None?
    requires InSheetOrder(es)
    ensures Members(es, ByIndex(es[i].index)) == [es[i]]
  {
    var n := |es| - 1;
    var init := es[..n];
    assert forall j :: 0 <= j < n ==> init[j] == es[j];
    if i == n {
      assert forall j :: 0 <= j < |init| ==> KeyOf(init[j]) != ByIndex(es[i].index);
    } else {
      UnreferencedRowIsAlone(init, i);
    }
  }

  /** Cleaned groups always have a date on their first row, so the
      "Date manquante" branch of `_create_move_from_group` is never taken. */
  lemma CleanedGroupsHaveDates(rows: seq<Row>, hasPartnerColumn: bool, a: nat)
    requires a < |Groups(Clean(rows, hasPartnerColumn))|
    ensures Groups(Clean(rows, hasPartnerColumn))[a].entries != []
      && Groups(Clean(rows, hasPartnerColumn))[a].entries[0].date.Some?
  {
    var es := Clean(rows, hasPartnerColumn);
    GroupsAreNonEmpty(es, a);
    var g := Groups(es)[a].entries;
    assert g[0] in es;
  }

  // ---------------------------------------------------------------------------
  // Lookups

  /** `_get_journal` with the wizard's default journal as fallback: the first
      journal of any company with the file's code, else the default. */
  function ResolveJournal(code: Option<string>, journals: seq<Journal>, fallback: Option<nat>): (r: Option<nat>)
    ensures r.None? <==> fallback.None? && (code.None? || code.value == [] || forall i :: 0 <= i < |journals| ==> journals[i].code != code.value)
    ensures r.Some? && r != fallback ==> code.Some? && r.value < |journals| && journals[r.value].code == code.value
    ensures code.Some? && code.value != [] && (exists i :: 0 <= i < |journals| && journals[i].code == code.value) ==>
      r.Some? && r.value < |journals| && journals[r.value].code == code.value
  {
    var found := if code.Some? && code.value != [] then FindFirst(journals, (j: Journal) => j.code == code.value) else None;
    if found.Some? then found else fallback
  }

  /** The fields of `res.partner` the lookup reads. */
  datatype PartnerRef = PartnerRef(ref: Option<string>, name: string)

  function Lower(c: char): char
  {
    if 'A' <= c <= 'Z' then (c as int + 32) as char else c
  }

  function LowerAll(s: string): (t: string)
    ensures |t| == |s| && forall i :: 0 <= i < |s| ==> t[i] == Lower(s[i])
  {
    seq(|s|, i requires 0 <= i < |s| => Lower(s[i]))
  }

  /** `('name', 'ilike', t)`: `t` occurs in the name, ignoring case. */
  predicate ILike(name: string, t: string)
  {
    OccursFrom(LowerAll(name), LowerAll(t), 0)
  }

  /** The search for `needle` in `hay`, from position `i` on. */
  predicate OccursFrom(hay: string, needle: string, i: nat)
    decreases |hay| - i
  {
    i + |needle| <= |hay| && (hay[i..i + |needle|] == needle || OccursFrom(hay, needle, i + 1))
  }

  predicate OccursAt(hay: string, needle: string, j: nat)
  {
    j + |needle| <= |hay| && hay[j..j + |needle|] == needle
  }

  /** The search finds the needle exactly when it occurs at some position. */
  lemma {:induction false} OccursFromIffSomePosition(hay: string, needle: string, i: nat)
    ensures OccursFrom(hay, needle, i) <==> exists j :: i <= j && OccursAt(hay, needle, j)
    decreases |hay| - i
  {
    if i + |needle| <= |hay| {
      OccursFromIffSomePosition(hay, needle, i + 1);
      if !OccursAt(hay, needle, i) && exists j :: i <= j && OccursAt(hay, needle, j) {
        var j :| i <= j && OccursAt(hay, needle, j);
        assert i + 1 <= j && OccursAt(hay, needle, j);
      }
    }
  }

  predicate PartnerMatches(p: PartnerRef, t: string)
  {
    p.ref == Some(t) || ILike(p.name, t)
  }

  /** `_get_partner`, called only for a non-empty Tiers cell. */
  function ResolvePartner(t: Option<string>, partners: seq<PartnerRef>): (r: Option<nat>)
    ensures r.Some? ==> t.Some? && t.value != [] && r.value < |partners| && PartnerMatches(partners[r.value], t.value)
    ensures r.None? && t.Some? && t.value != [] ==> forall i :: 0 <= i < |partners| ==> !PartnerMatches(partners[i], t.value)
  {
    if t.Some? && t.value != [] then FindFirst(partners, (p: PartnerRef) => PartnerMatches(p, t.value)) else None
  }

  /** `_get_account`: an empty code is never found; the others are looked up
      among the codes of the chart. */
  predicate Resolves(chart: set<string>, code: string)
  {
    code != [] && code in chart
  }

  // ---------------------------------------------------------------------------
  // One group

  /** What the import reads besides the sheet. */
  datatype Context = Context(journals: seq<Journal>, chart: set<string>, partners: seq<PartnerRef>, company: nat)

  datatype Header = Header(date: Date, journal: nat)

  /** The steps of `_create_move_from_group` before the fiscal year: the
      group is not empty, its first row has a date that parses, and a journal
      is found. */
  function GroupHeader(g: seq<Entry>, journals: seq<Journal>, fallback: Option<nat>): (r: Result<Header>)
    ensures r.Ok? <==> (g != [] && g[0].date.Some? && ParseDate(g[0].date.value).Ok?
      && ResolveJournal(g[0].journal, journals, fallback).Some?)
    ensures r.Ok? ==> (r.value.date == ParseDate(g[0].date.value).value && Valid(r.value.date)
      && Some(r.value.journal) == ResolveJournal(g[0].journal, journals, fallback))
    ensures g == [] ==> r == Err("Groupe vide")
  {
    if g == [] then Err("Groupe vide")
    else if g[0].date.None? then Err("Date manquante")
    else
      var parsed := ParseDate(g[0].date.value);
      if parsed.Err? then Err(parsed.message)
      else
        var journal := ResolveJournal(g[0].journal, journals, fallback);
        if journal.None? then Err("Journal non spécifié")
        else Ok(Header(parsed.value, journal.value))
  }

  function DebitSum(g: seq<Entry>): real
  {
    if g == [] then 0.0 else DebitSum(g[..|g| - 1]) + g[|g| - 1].debit
  }

  function CreditSum(g: seq<Entry>): real
  {
    if g == [] then 0.0 else CreditSum(g[..|g| - 1]) + g[|g| - 1].credit
  }

  function Abs(x: real): real
  {
    if x < 0.0 then -x else x
  }

  /** The balance check: `abs(total_debit - total_credit) > 0.01` rejects. */
  predicate WithinTolerance(g: seq<Entry>)
  {
    Abs(DebitSum(g) - CreditSum(g)) <= Tolerance
  }

  /** The line written for one row. */
  function LineOf(e: Entry, partners: seq<PartnerRef>): MoveLine
  {
    MoveLine(Some(e.account), e.name, e.debit, e.credit, ResolvePartner(e.partner, partners))
  }

  /** The lines of the move, or the error for the first row whose account is
      not found. */
  function MoveLines(g: seq<Entry>, chart: set<string>, partners: seq<PartnerRef>): (r: Result<seq<MoveLine>>)
    ensures r.Ok? <==> forall i :: 0 <= i < |g| ==> Resolves(chart, g[i].account)
    ensures r.Ok? ==> |r.value| == |g| && forall i :: 0 <= i < |g| ==> r.value[i] == LineOf(g[i], partners)
    ensures r.Err? ==> exists i :: (0 <= i < |g| && !Resolves(chart, g[i].account)
      && (forall j :: 0 <= j < i ==> Resolves(chart, g[j].account))
      && r.message == "Compte " + g[i].account + " introuvable")
  {
    if g == [] then Ok([])
    else
      var n := |g| - 1;
      var init := g[..n];
      assert forall i :: 0 <= i < n ==> init[i] == g[i];
      var r := MoveLines(init, chart, partners);
      if r.Err? then r
      else if !Resolves(chart, g[n].account) then Err("Compte " + g[n].account + " introuvable")
      else
        var lines := r.value + [LineOf(g[n], partners)];
        assert lines[..n] == r.value;
        Ok(lines)
  }

  /** A row whose account is found extends the lines built so far by its own. */
  lemma MoveLinesStep(g: seq<Entry>, chart: set<string>, partners: seq<PartnerRef>, i: nat, lines: seq<MoveLine>)
    requires i < |g| && MoveLines(g[..i], chart, partners) == Ok(lines) && Resolves(chart, g[i].account)
    ensures MoveLines(g[..i + 1], chart, partners) == Ok(lines + [LineOf(g[i], partners)])
  {
    assert g[..i + 1][..i] == g[..i];
  }

  /** The first row whose account is not found decides the error, whatever follows it. */
  lemma {:induction false} MoveLinesStopsAt(g: seq<Entry>, chart: set<string>, partners: seq<PartnerRef>, i: nat)
    requires i < |g| && MoveLines(g[..i], chart, partners).Ok? && !Resolves(chart, g[i].account)
    ensures MoveLines(g, chart, partners) == Err("Compte " + g[i].account + " introuvable")
  {
    var n := |g| - 1;
    if i < n {
      assert g[..n][..i] == g[..i];
      MoveLinesStopsAt(g[..n], chart, partners, i);
    } else {
      assert g[..n] == g[..i];
    }
  }

  /** The `ref` of the move: `str` of the first row's Reference cell. */
  function MoveRef(g: seq<Entry>): (r: string)
    requires g != []
    ensures g[0].reference.Some? ==> r == g[0].reference.value
    ensures g[0].reference.None? ==> r == "nan"
  {
    CellText(g[0].reference)
  }

  /** The move `_create_move_from_group` creates, or the error it raises. */
  function MoveFromGroup(g: seq<Entry>, ctx: Context, fallback: Option<nat>): (r: Result<Move>)
    ensures r.Ok? <==> (GroupHeader(g, ctx.journals, fallback).Ok? && WithinTolerance(g)
      && forall i :: 0 <= i < |g| ==> Resolves(ctx.chart, g[i].account))
    ensures r.Ok? ==> (g != [] && r.value.journal == GroupHeader(g, ctx.journals, fallback).value.journal
      && r.value.date == GroupHeader(g, ctx.journals, fallback).value.date
      && r.value.ref == MoveRef(g) && !r.value.posted
      && |r.value.lines| == |g| && forall i :: 0 <= i < |g| ==> r.value.lines[i] == LineOf(g[i], ctx.partners))
  {
    var header := GroupHeader(g, ctx.journals, fallback);
    if header.Err? then Err(header.message)
    else if !WithinTolerance(g) then Err("Écriture déséquilibrée")
    else
      var lines := MoveLines(g, ctx.chart, ctx.partners);
      if lines.Err? then Err(lines.message)
      else Ok(Move(header.value.journal, header.value.date, MoveRef(g), lines.value, false))
  }

  /** An accepted move is balanced to within 0.01, line for line from its rows. */
  lemma AcceptedMoveIsNearlyBalanced(g: seq<Entry>, ctx: Context, fallback: Option<nat>)
    requires MoveFromGroup(g, ctx, fallback).Ok?
    ensures var m := MoveFromGroup(g, ctx, fallback).value;
      Abs(TotalDebit(m.lines) - TotalCredit(m.lines)) <= Tolerance
      && TotalDebit(m.lines) == DebitSum(g) && TotalCredit(m.lines) == CreditSum(g)
  {
    var lines := MoveLines(g, ctx.chart, ctx.partners).value;
    LinesCarryTotals(g, lines, ctx.partners);
  }

  /** Lines written one per row carry the rows' debit and credit totals. */
  lemma {:induction false} LinesCarryTotals(g: seq<Entry>, lines: seq<MoveLine>, partners: seq<PartnerRef>)
    requires |lines| == |g| && forall i :: 0 <= i < |g| ==> lines[i] == LineOf(g[i], partners)
    ensures TotalDebit(lines) == DebitSum(g) && TotalCredit(lines) == CreditSum(g)
  {
    if g != [] {
      var n := |g| - 1;
      LinesCarryTotals(g[..n], lines[..n], partners);
    }
  }

  // ---------------------------------------------------------------------------
  // The fiscal year

  /** The year `_get_or_create_fiscal_year` creates: 1 January to 31 December. */
  function NewYear(company: nat, y: nat): (fy: FiscalYear)
    ensures fy.company == company && fy.start == Date(y, 1, 1) && fy.end == Date(y, 12, 31) && fy.state == Open
  {
    FiscalYear(NatToString(y), Date(y, 1, 1), Date(y, 12, 31), company, Open)
  }

  function Covering(ys: seq<FiscalYear>, company: nat, d: Date): Option<nat>
  {
    FindFirst(ys, (y: FiscalYear) => Covers(y, company, d))
  }

  /** The table after `_get_or_create_fiscal_year(d)`. */
  function EnsureYear(ys: seq<FiscalYear>, company: nat, d: Date): seq<FiscalYear>
    requires Valid(d)
  {
    if Covering(ys, company, d).Some? then ys else ys + [NewYear(company, d.year)]
  }

  /** A year with the key of the new one would cover the date, so the
      creation never trips the uniqueness constraint. */
  lemma NewYearIsUnique(ys: seq<FiscalYear>, company: nat, d: Date)
    requires Valid(d) && Covering(ys, company, d).None?
    ensures forall i :: 0 <= i < |ys| ==> !SameKey(ys[i], NewYear(company, d.year))
  {
    forall i | 0 <= i < |ys|
      ensures !SameKey(ys[i], NewYear(company, d.year))
    {
      assert !Covers(ys[i], company, d);
    }
  }

  /** Finding or creating keeps the table well formed, and afterwards a year
      of the company covers the date. */
  lemma EnsureYearCovers(ys: seq<FiscalYear>, company: nat, d: Date)
    requires Valid(d) && WellFormed(ys)
    ensures WellFormed(EnsureYear(ys, company, d))
    ensures exists i :: 0 <= i < |EnsureYear(ys, company, d)| && Covers(EnsureYear(ys, company, d)[i], company, d)
    ensures ys <= EnsureYear(ys, company, d)
  {
    if Covering(ys, company, d).None? {
      NewYearIsUnique(ys, company, d);
      var zs := EnsureYear(ys, company, d);
      assert Covers(zs[|ys|], company, d);
    }
  }

  /** The table after one group: the fiscal-year step is reached only when
      the header steps succeed, and its effect stays even if the balance or
      account checks then reject the group. */
  function YearsAfterGroup(ys: seq<FiscalYear>, g: seq<Entry>, ctx: Context, fallback: Option<nat>): (r: seq<FiscalYear>)
    ensures ys <= r && |r| <= |ys| + 1
    ensures GroupHeader(g, ctx.journals, fallback).Err? ==> r == ys
    ensures GroupHeader(g, ctx.journals, fallback).Ok? && WellFormed(ys) ==>
      WellFormed(r) && exists i :: 0 <= i < |r| && Covers(r[i], ctx.company, GroupHeader(g, ctx.journals, fallback).value.date)
  {
    var header := GroupHeader(g, ctx.journals, fallback);
    if header.Ok? then
      if WellFormed(ys) then
        EnsureYearCovers(ys, ctx.company, header.value.date);
        EnsureYear(ys, ctx.company, header.value.date)
      else EnsureYear(ys, ctx.company, header.value.date)
    else ys
  }

  // ---------------------------------------------------------------------------
  // The whole import

  /** The log line of a rejected group: `f"Référence {ref}: {str(e)}"`. */
  function LogLine(key: GroupKey, message: string): (r: string)
    ensures |r| == |"Référence "| + |KeyText(key)| + 2 + |message|
    ensures "Référence " <= r && r[|r| - |message|..] == message
    ensures r[|"Référence "|..|r| - |message|] == KeyText(key) + ": "
  {
    "Référence " + KeyText(key) + ": " + message
  }

  /** What trying each group gives, in order: its move or its error. */
  function Outcomes(gs: seq<Group>, ctx: Context, fallback: Option<nat>): (r: seq<Result<Move>>)
    ensures |r| == |gs|
  {
    if gs == [] then []
    else
      var n := |gs| - 1;
      Outcomes(gs[..n], ctx, fallback) + [MoveFromGroup(gs[n].entries, ctx, fallback)]
  }

  /** The outcome of each group is the move built from its rows, or the
      error that building raises. */
  lemma {:induction false} OutcomeAt(gs: seq<Group>, ctx: Context, fallback: Option<nat>, a: nat)
    requires a < |gs|
    ensures Outcomes(gs, ctx, fallback)[a] == MoveFromGroup(gs[a].entries, ctx, fallback)
  {
    var n := |gs| - 1;
    if a < n {
      OutcomeAt(gs[..n], ctx, fallback, a);
    }
  }

  /** The moves created, over the outcomes in order: those of the groups
      that go through, whatever the others do. */
  function Accepted(os: seq<Result<Move>>): seq<Move>
  {
    if os == [] then []
    else
      var n := |os| - 1;
      Accepted(os[..n]) + (if os[n].Ok? then [os[n].value] else [])
  }

  /** The error log, one line per rejected group, in order. */
  function Rejected(gs: seq<Group>, os: seq<Result<Move>>): seq<string>
    requires |os| == |gs|
  {
    if os == [] then []
    else
      var n := |os| - 1;
      Rejected(gs[..n], os[..n]) + (if os[n].Ok? then [] else [LogLine(gs[n].key, os[n].message)])
  }

  /** Every group is counted once, as a success or as an error. */
  lemma {:induction false} EveryGroupCounted(gs: seq<Group>, os: seq<Result<Move>>)
    requires |os| == |gs|
    ensures |Accepted(os)| + |Rejected(gs, os)| == |gs|
  {
    if os != [] {
      EveryGroupCounted(gs[..|os| - 1], os[..|os| - 1]);
    }
  }

  /** The log stays empty exactly when every group goes through. */
  lemma {:induction false} NoErrorsIffAllAccepted(gs: seq<Group>, os: seq<Result<Move>>)
    requires |os| == |gs|
    ensures Rejected(gs, os) == [] <==> forall a :: 0 <= a < |os| ==> os[a].Ok?
  {
    if os != [] {
      var n := |os| - 1;
      NoErrorsIffAllAccepted(gs[..n], os[..n]);
      assert forall a :: 0 <= a < n ==> os[..n][a] == os[a];
    }
  }

  /** Appending one more outcome extends the moves and the log by its own. */
  lemma AppendOutcome(gs: seq<Group>, os: seq<Result<Move>>, g: Group, o: Result<Move>)
    requires |os| == |gs|
    ensures Accepted(os + [o]) == Accepted(os) + (if o.Ok? then [o.value] else [])
    ensures Rejected(gs + [g], os + [o]) == Rejected(gs, os) + (if o.Ok? then [] else [LogLine(g.key, o.message)])
  {
    assert (os + [o])[..|os|] == os;
    assert (gs + [g])[..|gs|] == gs;
  }

  /** One more outcome extends the moves and the log by its own. */
  lemma OutcomeStep(gs: seq<Group>, os: seq<Result<Move>>, k: nat)
    requires |os| == |gs| && k < |os|
    ensures Accepted(os[..k + 1]) == Accepted(os[..k]) + (if os[k].Ok? then [os[k].value] else [])
    ensures Rejected(gs[..k + 1], os[..k + 1])
      == Rejected(gs[..k], os[..k]) + (if os[k].Ok? then [] else [LogLine(gs[k].key, os[k].message)])
  {
    assert os[..k + 1] == os[..k] + [os[k]];
    assert gs[..k + 1] == gs[..k] + [gs[k]];
    AppendOutcome(gs[..k], os[..k], gs[k], os[k]);
  }

  /** What the loop has gathered after the first `k` groups. */
  predicate Tallied(gs: seq<Group>, os: seq<Result<Move>>, k: nat,
                    moves: seq<Move>, messages: seq<string>, successes: nat, errors: nat)
    requires |os| == |gs| && k <= |gs|
  {
    moves == Accepted(os[..k]) && messages == Rejected(gs[..k], os[..k])
    && successes == |moves| && errors == |messages| && successes + errors == k
  }

  /** The body of the `try`/`except` around one group: a move counts as a
      success, an error as an error with its log line. */
  method Tally(gs: seq<Group>, ghost os: seq<Result<Move>>, k: nat, outcome: Result<Move>,
               moves: seq<Move>, messages: seq<string>, successes: nat, errors: nat)
    returns (moves': seq<Move>, messages': seq<string>, successes': nat, errors': nat)
    requires |os| == |gs| && k < |gs| && outcome == os[k]
    requires Tallied(gs, os, k, moves, messages, successes, errors)
    ensures Tallied(gs, os, k + 1, moves', messages', successes', errors')
  {
    OutcomeStep(gs, os, k);
    if outcome.Ok? {
      moves', messages' := moves + [outcome.value], messages;
      successes', errors' := successes + 1, errors;
    } else {
      moves', messages' := moves, messages + [LogLine(gs[k].key, outcome.message)];
      successes', errors' := successes, errors + 1;
    }
  }

  /** Trying group `k` after the groups before it adds what that one group
      adds to the fiscal years. */
  lemma YearsStep(ys: seq<FiscalYear>, gs: seq<Group>, ctx: Context, fallback: Option<nat>, k: nat)
    requires k < |gs|
    ensures YearsAfter(ys, gs[..k + 1], ctx, fallback)
      == YearsAfterGroup(YearsAfter(ys, gs[..k], ctx, fallback), gs[k].entries, ctx, fallback)
  {
    assert gs[..k + 1][..k] == gs[..k];
  }

  function YearsAfter(ys: seq<FiscalYear>, gs: seq<Group>, ctx: Context, fallback: Option<nat>): seq<FiscalYear>
  {
    if gs == [] then ys
    else
      var n := |gs| - 1;
      YearsAfterGroup(YearsAfter(ys, gs[..n], ctx, fallback), gs[n].entries, ctx, fallback)
  }

  /** The import only adds fiscal years, keeps the table well formed, and
      leaves every accepted move's date covered by a year of the company. */
  lemma {:induction false} ImportCoversAcceptedDates(ys: seq<FiscalYear>, gs: seq<Group>, ctx: Context, fallback: Option<nat>)
    requires WellFormed(ys)
    ensures WellFormed(YearsAfter(ys, gs, ctx, fallback))
    ensures ys <= YearsAfter(ys, gs, ctx, fallback)
    ensures forall a :: 0 <= a < |gs| && Outcomes(gs, ctx, fallback)[a].Ok? ==>
      exists i :: 0 <= i < |YearsAfter(ys, gs, ctx, fallback)|
        && Covers(YearsAfter(ys, gs, ctx, fallback)[i], ctx.company, Outcomes(gs, ctx, fallback)[a].value.date)
  {
    if gs != [] {
      var n := |gs| - 1;
      var init := gs[..n];
      ImportCoversAcceptedDates(ys, init, ctx, fallback);
      var before := YearsAfter(ys, init, ctx, fallback);
      var after := YearsAfter(ys, gs, ctx, fallback);
      var os := Outcomes(gs, ctx, fallback);
      var earlier := Outcomes(init, ctx, fallback);
      assert os == earlier + [MoveFromGroup(gs[n].entries, ctx, fallback)];
      var header := GroupHeader(gs[n].entries, ctx.journals, fallback);
      if header.Ok? {
        EnsureYearCovers(before, ctx.company, header.value.date);
      }
      assert before <= after;
      forall a | 0 <= a < |gs| && os[a].Ok?
        ensures exists i :: 0 <= i < |after| && Covers(after[i], ctx.company, os[a].value.date)
      {
        if a < n {
          assert os[a] == earlier[a] && earlier[a].Ok?;
          var i :| 0 <= i < |before| && Covers(before[i], ctx.company, earlier[a].value.date);
          assert after[i] == before[i];
        }
      }
    }
  }

  /** The rows of a sheet grouped as the import groups them. */
  function SheetGroups(sheet: Sheet): (gs: seq<Group>)
    ensures forall a, j :: 0 <= a < |gs| && 0 <= j < |gs[a].entries| ==>
      var e := gs[a].entries[j];
      e.index < |sheet.rows| && Kept(sheet.rows[e.index]) && e.date == sheet.rows[e.index].date
      && Some(e.account) == sheet.rows[e.index].account
  {
    Groups(Clean(sheet.rows, "Tiers" in sheet.columns))
  }

  /** The start of the UserError that the outer `except` of
      `action_import_moves` raises for any error inside its `try`. */
  const ImportErrorPrefix: string := "Erreur lors de l'import: "

  /** Why the import stops before any group: the message of the UserError
      that `action_import_moves` raises, if any. */
  function SheetError(sheet: Sheet): (r: Option<string>)
    ensures r.None? <==> (forall c :: c in RequiredColumns ==> c in sheet.columns) && "Reference" in sheet.columns
    ensures r.Some? ==> ImportErrorPrefix <= r.value
  {
    var missing := MissingColumns(RequiredColumns, sheet.columns);
    assert missing != [] ==> missing[0] in missing;
    if missing != [] then Some(ImportErrorPrefix + "Colonnes manquantes: " + Join(missing, ", "))
    else if "Reference" !in sheet.columns then Some(ImportErrorPrefix + "'Reference'")
    else None
  }

  // ---------------------------------------------------------------------------
  // As written: the fill value of the grouping key

  /** `df.index` after the cleaning: the RangeIndex that `read_excel` gives
      while no row is dropped, else an Index of the labels of the kept rows. */
  datatype FrameIndex = RangeIndex(size: nat) | LabelIndex(labels: seq<nat>)

  /** `type(df.index).__name__`. */
  function IndexTypeName(ix: FrameIndex): string
  {
    match ix
    case RangeIndex(_) => "RangeIndex"
    case LabelIndex(_) => "Index"
  }

  function CleanedIndex(rows: seq<Row>, hasPartnerColumn: bool): (ix: FrameIndex)
    ensures ix.RangeIndex? <==> |Clean(rows, hasPartnerColumn)| == |rows|
    ensures ix.LabelIndex? ==> (|ix.labels| == |Clean(rows, hasPartnerColumn)|
      && forall i :: 0 <= i < |ix.labels| ==> ix.labels[i] == Clean(rows, hasPartnerColumn)[i].index)
  {
    var es := Clean(rows, hasPartnerColumn);
    if |es| == |rows| then RangeIndex(|rows|)
    else LabelIndex(seq(|es|, i requires 0 <= i < |es| => es[i].index))
  }

  /** The start of the message of the TypeError `Series.fillna` raises for a
      list-like value that is neither a dict nor a Series. */
  const FillValuePrefix: string := "\"value\" parameter must be a scalar, dict or Series, but you passed a \""

  /** The whole message, which names the type of the value passed. */
  function FillValueError(typeName: string): string
  {
    FillValuePrefix + typeName + "\""
  }

  /** `df['Reference'].fillna(df.index)` as written: `Series.fillna` accepts a
      scalar, a dict or a Series and raises TypeError for any other list-like
      value, an index included, whether or not a Reference is missing. */
  function FillReferenceAsWritten(es: seq<Entry>, ix: FrameIndex): (r: Result<seq<GroupKey>>)
    ensures r.Err? && FillValuePrefix <= r.message
    ensures ix.RangeIndex? ==> r.message == FillValuePrefix + "RangeIndex\""
    ensures ix.LabelIndex? ==> r.message == FillValuePrefix + "Index\""
  {
    Err(FillValueError(IndexTypeName(ix)))
  }

  /** The import as written, for a sheet that passes the column checks. */
  function ImportAsWritten(sheet: Sheet): (r: Result<seq<Group>>)
    ensures r.Err? && ImportErrorPrefix <= r.message
  {
    if SheetError(sheet).Some? then Err(SheetError(sheet).value)
    else
      var hasPartnerColumn := "Tiers" in sheet.columns;
      var keys := FillReferenceAsWritten(Clean(sheet.rows, hasPartnerColumn), CleanedIndex(sheet.rows, hasPartnerColumn));
      if keys.Err? then Err(ImportErrorPrefix + keys.message) else Ok(SheetGroups(sheet))
  }

  /** As written, no sheet is ever imported: even a well-formed two-row
      sheet with a balanced reference stops with the TypeError, which names
      a RangeIndex when no row was dropped and an Index otherwise. */
  lemma ImportAsWrittenNeverGroups(sheet: Sheet)
    ensures ImportAsWritten(sheet).Err?
    ensures SheetError(sheet).Some? ==> ImportAsWritten(sheet) == Err(SheetError(sheet).value)
    ensures SheetError(sheet).None? ==> ImportAsWritten(sheet) == Err(ImportErrorPrefix +
      FillValueError(if |Clean(sheet.rows, "Tiers" in sheet.columns)| == |sheet.rows| then "RangeIndex" else "Index"))
  {
  }

  // ---------------------------------------------------------------------------
  // The wizard

  datatype ImportState = Draft | Imported | Failed

  class MoveImportWizard {
    var importFile: Option<Sheet>
    var journalId: Option<nat>
    var importState: ImportState
    var errorLog: seq<string>
    var successCount: nat
    var errorCount: nat

    constructor (importFile: Option<Sheet>, journalId: Option<nat>)
      ensures this.importFile == importFile && this.journalId == journalId
      ensures importState == Draft && errorLog == [] && successCount == 0 && errorCount == 0
    {
      this.importFile := importFile;
      this.journalId := journalId;
      importState := Draft;
      errorLog := [];
      successCount := 0;
      errorCount := 0;
    }

    /** `_get_or_create_fiscal_year`: the first year of the company covering
        the date, else a new calendar year for it. */
    method GetOrCreateFiscalYear(book: FiscalYearBook, company: nat, d: Date) returns (idx: nat)
      requires book.Valid() && Valid(d)
      modifies book
      ensures book.Valid()
      ensures book.years == EnsureYear(old(book.years), company, d)
      ensures idx < |book.years| && Covers(book.years[idx], company, d)
    {
      var found := Covering(book.years, company, d);
      if found.Some? {
        return found.value;
      }
      NewYearIsUnique(book.years, company, d);
      var y := d.year;
      var created := book.Create(NatToString(y), Date(y, 1, 1), Date(y, 12, 31), company);
      idx := created.value;
    }

    /** `_create_move_from_group`, building the lines row by row. */
    method CreateMoveFromGroup(g: seq<Entry>, ctx: Context, book: FiscalYearBook) returns (r: Result<Move>)
      requires book.Valid()
      modifies book
      ensures book.Valid()
      ensures r == MoveFromGroup(g, ctx, journalId)
      ensures book.years == YearsAfterGroup(old(book.years), g, ctx, journalId)
    {
      if g == [] {
        return Err("Groupe vide");
      }
      var first := g[0];
      if first.date.None? {
        return Err("Date manquante");
      }
      var parsed := ParseDate(first.date.value);
      if parsed.Err? {
        return Err(parsed.message);
      }
      var moveDate := parsed.value;
      var journal := ResolveJournal(first.journal, ctx.journals, journalId);
      if journal.None? {
        return Err("Journal non spécifié");
      }
      var _ := GetOrCreateFiscalYear(book, ctx.company, moveDate);
      if !WithinTolerance(g) {
        return Err("Écriture déséquilibrée");
      }
      var lines := BuildLines(g, ctx.chart, ctx.partners);
      if lines.Err? {
        return Err(lines.message);
      }
      r := Ok(Move(journal.value, moveDate, MoveRef(g), lines.value, false));
    }

    /** The `for _, row in group.iterrows()` loop of `_create_move_from_group`,
        which stops at the first row whose account is not found. */
    method BuildLines(g: seq<Entry>, chart: set<string>, partners: seq<PartnerRef>) returns (r: Result<seq<MoveLine>>)
      ensures r == MoveLines(g, chart, partners)
    {
      var lines: seq<MoveLine> := [];
      var i := 0;
      while i < |g|
        invariant 0 <= i <= |g|
        invariant MoveLines(g[..i], chart, partners) == Ok(lines)
      {
        if !Resolves(chart, g[i].account) {
          MoveLinesStopsAt(g, chart, partners, i);
          return Err("Compte " + g[i].account + " introuvable");
        }
        MoveLinesStep(g, chart, partners, i, lines);
        lines := lines + [LineOf(g[i], partners)];
        i := i + 1;
      }
      assert g[..i] == g;
      r := Ok(lines);
    }

    /** `action_import_moves`. A UserError raised before the groups (no file,
        missing columns, no Reference column) rolls the transaction back, so
        nothing changes; otherwise every group is tried in turn. */
    method ActionImportMoves(ctx: Context, book: FiscalYearBook) returns (r: Result<seq<Move>>)
      requires book.Valid()
      modifies this, book
      ensures book.Valid()
      ensures r.Err? <==> old(importFile).None? || SheetError(old(importFile).value).Some?
      ensures r.Err? ==> unchanged(this) && book.years == old(book.years)
      ensures r.Ok? ==> var gs := SheetGroups(old(importFile).value);
        r.value == Accepted(Outcomes(gs, ctx, journalId))
        && errorLog == Rejected(gs, Outcomes(gs, ctx, journalId))
        && successCount == |r.value| && errorCount == |errorLog|
        && successCount + errorCount == |gs|
        && importState == (if errorCount == 0 then Imported else Failed)
        && book.years == YearsAfter(old(book.years), gs, ctx, journalId)
      ensures importFile == old(importFile) && journalId == old(journalId)
    {
      if importFile.None? {
        return Err("Veuillez sélectionner un fichier à importer.");
      }
      var sheet := importFile.value;
      var failure := SheetError(sheet);
      if failure.Some? {
        return Err(failure.value);
      }
      var gs := SheetGroups(sheet);
      var moves, messages, successes, errors := ImportGroups(gs, ctx, book);
      RecordResults(messages, successes, errors);
      r := Ok(moves);
    }

    /** The fields `action_import_moves` writes once every group is done:
        the counters, the log and the state. */
    method RecordResults(messages: seq<string>, successes: nat, errors: nat)
      modifies this
      ensures successCount == successes && errorCount == errors && errorLog == messages
      ensures importState == (if errors == 0 then Imported else Failed)
      ensures importFile == old(importFile) && journalId == old(journalId)
    {
      successCount, errorCount := successes, errors;
      importState := if errors == 0 then Imported else Failed;
      errorLog := messages;
    }

    /** One turn of the loop: the outcome of the `k`-th group, which is its
        entry in `os`, and the fiscal years after it. */
    method ImportGroupAt(gs: seq<Group>, ghost os: seq<Result<Move>>, k: nat, ctx: Context,
                         book: FiscalYearBook, ghost years0: seq<FiscalYear>) returns (outcome: Result<Move>)
      requires k < |gs| && os == Outcomes(gs, ctx, journalId)
      requires book.Valid() && book.years == YearsAfter(years0, gs[..k], ctx, journalId)
      modifies book
      ensures book.Valid() && book.years == YearsAfter(years0, gs[..k + 1], ctx, journalId)
      ensures outcome == os[k]
    {
      outcome := CreateMoveFromGroup(gs[k].entries, ctx, book);
      OutcomeAt(gs, ctx, journalId, k);
      YearsStep(years0, gs, ctx, journalId, k);
    }

    /** The `for ref, group in grouped` loop of `action_import_moves`: a
        group that raises is counted and logged, and the loop goes on with
        the next one. */
    method ImportGroups(gs: seq<Group>, ctx: Context, book: FiscalYearBook)
      returns (moves: seq<Move>, messages: seq<string>, successes: nat, errors: nat)
      requires book.Valid()
      modifies book
      ensures book.Valid()
      ensures moves == Accepted(Outcomes(gs, ctx, journalId)) && messages == Rejected(gs, Outcomes(gs, ctx, journalId))
      ensures successes == |moves| && errors == |messages| && successes + errors == |gs|
      ensures book.years == YearsAfter(old(book.years), gs, ctx, journalId)
    {
      successes, errors := 0, 0;
      moves, messages := [], [];
      ghost var years0 := book.years;
      ghost var os := Outcomes(gs, ctx, journalId);
      var k := 0;
      while k < |gs|
        invariant 0 <= k <= |gs|
        invariant book.Valid()
        invariant |os| == |gs| && Tallied(gs, os, k, moves, messages, successes, errors)
        invariant book.years == YearsAfter(years0, gs[..k], ctx, journalId)
      {
        var outcome := ImportGroupAt(gs, os, k, ctx, book, years0);
        moves, messages, successes, errors := Tally(gs, os, k, outcome, moves, messages, successes, errors);
        k := k + 1;
      }
      assert gs[..k] == gs && os[..k] == os;
    }
  }
}
