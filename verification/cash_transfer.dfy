/** The cash-transfer wizard: which journals each kind of transfer offers,
    and `action_transfer`, which books a posted two-line move from the source
    journal's default account to the destination's. */
module CashTransfer {
  import opened Base
  import opened Dates
  import opened Ledger
  import opened Journals

  datatype TransferType = CashToBank | BankToCash | MobileMoneyTransfer | BankToBank

  /** A journal domain of `_onchange_transfer_type`. */
  datatype JournalDomain = KindIs(kind: JournalType) | KindIn(kinds: set<JournalType>) | CameroonTypeIs(ct: CameroonType)

  predicate Matches(d: JournalDomain, j: Journal)
  {
    match d
    case KindIs(k) => j.kind == k
    case KindIn(ks) => j.kind in ks
    case CameroonTypeIs(ct) => j.cameroonType == Some(ct)
  }

  /** `_onchange_transfer_type`: the (source, destination) journal domains. */
  function Domains(t: TransferType): (r: (JournalDomain, JournalDomain))
    ensures t == CashToBank ==> r == (KindIs(Cash), KindIs(Bank))
    ensures t == BankToCash ==> r == (KindIs(Bank), KindIs(Cash))
    ensures t == MobileMoneyTransfer ==> r == (KindIn({Cash, Bank}), CameroonTypeIs(MobileMoney))
    ensures t == BankToBank ==> r.0 == r.1 == KindIs(Bank)
  {
    match t
    case CashToBank => (KindIs(Cash), KindIs(Bank))
    case BankToCash => (KindIs(Bank), KindIs(Cash))
    case MobileMoneyTransfer => (KindIn({Cash, Bank}), CameroonTypeIs(MobileMoney))
    case BankToBank => (KindIs(Bank), KindIs(Bank))
  }

  /** The wizard's fields; journals are record ids into the journal table. */
  datatype Transfer = Transfer(
    name: string,
    kind: TransferType,
    amount: real,
    source: nat,
    destination: nat,
    date: Date,
    operator: Option<string>,
    transactionId: string)

  /** `f"{value}"` of a selection field, which prints `False` when unset. */
  function FieldText(v: Option<string>): string
  {
    if v.Some? then v.value else "False"
  }

  /** The `ref` of the move: the name, and for mobile money the operator and,
      when one is given, the transaction id. */
  function TransferRef(w: Transfer): (r: string)
    ensures w.name <= r
    ensures w.kind != MobileMoneyTransfer ==> r == w.name
    ensures w.kind == MobileMoneyTransfer && w.transactionId == [] ==> r == w.name + " - " + FieldText(w.operator)
    ensures w.kind == MobileMoneyTransfer && w.transactionId != [] ==>
      r == w.name + " - " + FieldText(w.operator) + " - " + w.transactionId
  {
    if w.kind == MobileMoneyTransfer then
      var withOperator := w.name + " - " + FieldText(w.operator);
      if w.transactionId != [] then withOperator + " - " + w.transactionId else withOperator
    else w.name
  }

  /** `action_transfer`: the posted move it creates, or the UserError it raises. */
  function ActionTransfer(w: Transfer, journals: seq<Journal>): (r: Result<Move>)
    requires w.source < |journals| && w.destination < |journals|
    ensures r.Err? <==> w.amount <= 0.0 || w.source == w.destination
    ensures r.Ok? ==> r.value.journal == w.source && r.value.date == w.date && r.value.posted
    ensures r.Ok? ==> r.value.ref == TransferRef(w)
    ensures r.Ok? ==> (|r.value.lines| == 2
      && r.value.lines[0].account == journals[w.destination].defaultAccount
      && r.value.lines[0].debit == w.amount && r.value.lines[0].credit == 0.0
      && r.value.lines[1].account == journals[w.source].defaultAccount
      && r.value.lines[1].debit == 0.0 && r.value.lines[1].credit == w.amount)
  {
    if w.amount <= 0.0 then Err("Le montant doit être positif")
    else if w.source == w.destination then Err("Les journaux source et destination doivent être différents")
    else
      var src := journals[w.source];
      var dst := journals[w.destination];
      Ok(Move(w.source, w.date, TransferRef(w), [
        MoveLine(dst.defaultAccount, "Transfert vers " + dst.name, w.amount, 0.0, None),
        MoveLine(src.defaultAccount, "Transfert depuis " + src.name, 0.0, w.amount, None)
      ], true))
  }

  /** Every transfer that goes through is balanced, moving a positive amount. */
  lemma TransferIsBalanced(w: Transfer, journals: seq<Journal>)
    requires w.source < |journals| && w.destination < |journals|
    requires ActionTransfer(w, journals).Ok?
    ensures Balanced(ActionTransfer(w, journals).value)
    ensures TotalDebit(ActionTransfer(w, journals).value.lines) == w.amount > 0.0
  {
    var lines := ActionTransfer(w, journals).value.lines;
    assert lines[..1][..0] == [];
    assert lines[..2] == lines;
    assert TotalDebit(lines[..1]) == w.amount && TotalCredit(lines[..1]) == 0.0;
    assert TotalDebit(lines) == w.amount && TotalCredit(lines) == w.amount;
  }

  /** The default mobile-money journals (OMO, MTN) are bank journals of the
      mobile-money type, so each is offered on both sides of a mobile-money
      transfer: the identity guard keeps a transfer from a journal to itself
      out, and a transfer from one to the other goes through, debiting the
      destination's default account and crediting the source's, whatever
      default accounts the two journals were given when they were created. */
  lemma MobileMoneyDefaultsFitBothSides(k: nat, company: nat, amount: real, sourceAccount: Option<string>, destinationAccount: Option<string>)
    requires k < |Defaults| && Defaults[k].cameroonType == MobileMoney
    ensures var j := Instantiate(Defaults[k], company);
      Matches(Domains(MobileMoneyTransfer).0, j) && Matches(Domains(MobileMoneyTransfer).1, j)
    ensures var w := Transfer("T", MobileMoneyTransfer, amount, 0, 0, Date(2024, 1, 1), Defaults[k].operator, []);
      ActionTransfer(w, [Instantiate(Defaults[k], company)]).Err?
    ensures var other := if k == 3 then 4 else 3;
      var js := [Instantiate(Defaults[k], company).(defaultAccount := sourceAccount),
                 Instantiate(Defaults[other], company).(defaultAccount := destinationAccount)];
      var w := Transfer("T", MobileMoneyTransfer, amount, 0, 1, Date(2024, 1, 1), Defaults[k].operator, []);
      amount > 0.0 ==>
        ActionTransfer(w, js).Ok? && Defaults[other].cameroonType == MobileMoney
        && ActionTransfer(w, js).value.lines[0].account == destinationAccount
        && ActionTransfer(w, js).value.lines[1].account == sourceAccount
  {
  }
}
