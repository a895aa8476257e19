/** The posted ledger that the declaration and budget queries read: journal
    items with their account code, debit, credit, date, posting state, company
    and analytic account, and the filtered sums taken over them. */
module Ledger {
  import opened Base
  import opened Dates

  datatype LedgerLine = LedgerLine(
    account: string,
    debit: real,
    credit: real,
    date: Date,
    posted: bool,
    company: nat,
    analytic: Option<nat>)

  /** Which accounts a query selects: `('code', '=like', p + '%')` or `('code', '=', c)`. */
  datatype AccountFilter = Prefix(p: string) | Exact(code: string)

  predicate Selects(f: AccountFilter, code: string)
  {
    match f
    case Prefix(p) => p <= code
    case Exact(c) => code == c
  }

  /** The move domain shared by every declaration: posted moves of the
      company dated within `[from, to]`. */
  datatype Scope = Scope(company: nat, from: Date, to: Date)

  predicate InScope(l: LedgerLine, s: Scope)
  {
    l.posted && l.company == s.company && InRange(l.date, s.from, s.to)
  }

  /** Lines whose credit side a declaration adds up (`l.credit > 0`). */
  predicate CountsCredit(l: LedgerLine, s: Scope, f: AccountFilter)
  {
    InScope(l, s) && Selects(f, l.account) && l.credit > 0.0
  }

  /** Lines whose debit side a declaration adds up (`l.debit > 0`). */
  predicate CountsDebit(l: LedgerLine, s: Scope, f: AccountFilter)
  {
    InScope(l, s) && Selects(f, l.account) && l.debit > 0.0
  }

  /** `sum(lines.filtered(...).mapped('credit'))`. */
  function CreditTotal(lines: seq<LedgerLine>, s: Scope, f: AccountFilter): (t: real)
    ensures t >= 0.0
    ensures t > 0.0 ==> exists i :: 0 <= i < |lines| && CountsCredit(lines[i], s, f)
  {
    if lines == [] then 0.0
    else
      var last := lines[|lines| - 1];
      var rest := CreditTotal(lines[..|lines| - 1], s, f);
      assert forall i :: 0 <= i < |lines| - 1 ==> lines[..|lines| - 1][i] == lines[i];
      rest + (if CountsCredit(last, s, f) then last.credit else 0.0)
  }

  /** `sum(lines.filtered(...).mapped('debit'))`. */
  function DebitTotal(lines: seq<LedgerLine>, s: Scope, f: AccountFilter): (t: real)
    ensures t >= 0.0
    ensures t > 0.0 ==> exists i :: 0 <= i < |lines| && CountsDebit(lines[i], s, f)
  {
    if lines == [] then 0.0
    else
      var last := lines[|lines| - 1];
      var rest := DebitTotal(lines[..|lines| - 1], s, f);
      assert forall i :: 0 <= i < |lines| - 1 ==> lines[..|lines| - 1][i] == lines[i];
      rest + (if CountsDebit(last, s, f) then last.debit else 0.0)
  }

  /** Totals over two batches of lines add up: the sums do not depend on how
      the ledger is split. */
  lemma {:induction false} CreditTotalAppend(a: seq<LedgerLine>, b: seq<LedgerLine>, s: Scope, f: AccountFilter)
    ensures CreditTotal(a + b, s, f) == CreditTotal(a, s, f) + CreditTotal(b, s, f)
    decreases |b|
  {
    if b == [] {
      assert a + b == a;
    } else {
      var c := b[..|b| - 1];
      assert (a + b)[..|a + b| - 1] == a + c;
      CreditTotalAppend(a, c, s, f);
    }
  }

  lemma {:induction false} DebitTotalAppend(a: seq<LedgerLine>, b: seq<LedgerLine>, s: Scope, f: AccountFilter)
    ensures DebitTotal(a + b, s, f) == DebitTotal(a, s, f) + DebitTotal(b, s, f)
    decreases |b|
  {
    if b == [] {
      assert a + b == a;
    } else {
      var c := b[..|b| - 1];
      assert (a + b)[..|a + b| - 1] == a + c;
      DebitTotalAppend(a, c, s, f);
    }
  }

  /** Lines outside the scope (draft, another company, another period) never
      change a total. */
  lemma {:induction false} CreditTotalIgnoresOutOfScope(lines: seq<LedgerLine>, extra: seq<LedgerLine>, s: Scope, f: AccountFilter)
    requires forall i :: 0 <= i < |extra| ==> !InScope(extra[i], s)
    ensures CreditTotal(lines + extra, s, f) == CreditTotal(lines, s, f)
  {
    CreditTotalAppend(lines, extra, s, f);
    assert forall i :: 0 <= i < |extra| ==> !CountsCredit(extra[i], s, f);
  }

  lemma {:induction false} DebitTotalIgnoresOutOfScope(lines: seq<LedgerLine>, extra: seq<LedgerLine>, s: Scope, f: AccountFilter)
    requires forall i :: 0 <= i < |extra| ==> !InScope(extra[i], s)
    ensures DebitTotal(lines + extra, s, f) == DebitTotal(lines, s, f)
  {
    DebitTotalAppend(lines, extra, s, f);
    assert forall i :: 0 <= i < |extra| ==> !CountsDebit(extra[i], s, f);
  }

  /** The balance of a line (`debit - credit`), summed by the budget query. */
  function Balance(l: LedgerLine): real
  {
    l.debit - l.credit
  }

  /** A journal item as written into `account.move.line`: the account may be
      unset (`False`), as in a journal without a default account. */
  datatype MoveLine = MoveLine(account: Option<string>, name: string, debit: real, credit: real, partner: Option<nat>)

  /** An `account.move` with its lines; `journal` is the journal's record id. */
  datatype Move = Move(journal: nat, date: Date, ref: string, lines: seq<MoveLine>, posted: bool)

  function TotalDebit(lines: seq<MoveLine>): real
  {
    if lines == [] then 0.0 else TotalDebit(lines[..|lines| - 1]) + lines[|lines| - 1].debit
  }

  function TotalCredit(lines: seq<MoveLine>): real
  {
    if lines == [] then 0.0 else TotalCredit(lines[..|lines| - 1]) + lines[|lines| - 1].credit
  }

  /** A move whose debits and credits add up to the same amount. */
  predicate Balanced(m: Move)
  {
    TotalDebit(m.lines) == TotalCredit(m.lines)
  }
}
