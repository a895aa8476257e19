/** The point-of-sale payment screen extension: before an order is
    validated, every payment whose journal has a mobile-money operator is
    checked against a positive amount and the operator's transaction limit;
    the order goes on only when all of them pass. */
module PosMobileMoney {
  import opened Base

  /** The limit used for an operator with no entry in the table. */
  const DefaultLimit: real := 500000.0

  /** `limits[operator] || 500000`, in FCFA per transaction. */
  function Limit(operator: string): (l: real)
    ensures 100000.0 <= l <= DefaultLimit
    ensures operator !in {"orange", "mtn", "express_union", "campost"} ==> l == DefaultLimit
  {
    match operator
    case "orange" => 500000.0
    case "mtn" => 500000.0
    case "express_union" => 200000.0
    case "campost" => 100000.0
    case _ => DefaultLimit
  }

  /** What `validateMobileMoneyPayment` decides, with the popup it shows. */
  datatype PaymentCheck = Accepted | NotPositive | OverLimit(limit: real)

  function ValidateMobileMoneyPayment(operator: string, amount: real): (r: PaymentCheck)
    ensures r == Accepted <==> 0.0 < amount <= Limit(operator)
    ensures r == NotPositive <==> amount <= 0.0
    ensures r.OverLimit? ==> r.limit == Limit(operator) < amount
  {
    if amount <= 0.0 then NotPositive
    else if amount > Limit(operator) then OverLimit(Limit(operator))
    else Accepted
  }

  /** The limits of the table at their edge: equal passes, above is refused. */
  lemma LimitEdges()
    ensures ValidateMobileMoneyPayment("orange", 500000.0) == Accepted
    ensures ValidateMobileMoneyPayment("mtn", 500001.0) == OverLimit(500000.0)
    ensures ValidateMobileMoneyPayment("express_union", 200000.0) == Accepted
    ensures ValidateMobileMoneyPayment("express_union", 200001.0) == OverLimit(200000.0)
    ensures ValidateMobileMoneyPayment("campost", 100000.5) == OverLimit(100000.0)
    ensures ValidateMobileMoneyPayment("wave", 500000.0) == Accepted
  {
  }

  /** A payment line: the operator of its payment method's journal (None when
      the journal has none) and its amount. */
  datatype PaymentLine = PaymentLine(operator: Option<string>, amount: real)

  /** The filter of `validateOrder`: the journal's operator is truthy. */
  predicate IsMobileMoney(l: PaymentLine)
  {
    l.operator.Some? && l.operator.value != []
  }

  predicate Refused(l: PaymentLine)
    requires IsMobileMoney(l)
    ensures Refused(l) <==> l.amount <= 0.0 || l.amount > Limit(l.operator.value)
  {
    ValidateMobileMoneyPayment(l.operator.value, l.amount) != Accepted
  }

  /** `get_paymentlines().filter(...)`: the mobile-money lines, in order. */
  function MobileMoneyPayments(lines: seq<PaymentLine>): (r: seq<PaymentLine>)
    ensures forall i :: 0 <= i < |r| ==> IsMobileMoney(r[i]) && r[i] in lines
    ensures forall i :: 0 <= i < |lines| && IsMobileMoney(lines[i]) ==> lines[i] in r
  {
    if lines == [] then []
    else
      var init := MobileMoneyPayments(lines[..|lines| - 1]);
      assert forall i :: 0 <= i < |lines| - 1 ==> lines[..|lines| - 1][i] == lines[i];
      var last := lines[|lines| - 1];
      if IsMobileMoney(last) then init + [last] else init
  }

  /** `validateOrder`: the position among the mobile-money payments of the
      one whose popup stops the order, or None when the order goes on to the
      normal validation. Later payments are not looked at. */
  method ValidateOrder(lines: seq<PaymentLine>) returns (refused: Option<nat>)
    ensures refused == FindFirst(MobileMoneyPayments(lines), (l: PaymentLine) => IsMobileMoney(l) && Refused(l))
  {
    var payments := MobileMoneyPayments(lines);
    var k := 0;
    while k < |payments|
      invariant 0 <= k <= |payments|
      invariant forall j :: 0 <= j < k ==> !Refused(payments[j])
    {
      var p := payments[k];
      if ValidateMobileMoneyPayment(p.operator.value, p.amount) != Accepted {
        return Some(k);
      }
      k := k + 1;
    }
    return None;
  }

  /** The order goes on exactly when every mobile-money payment passes;
      payments without an operator are never checked. */
  lemma OrderProceedsIffAllPass(lines: seq<PaymentLine>)
    ensures FindFirst(MobileMoneyPayments(lines), (l: PaymentLine) => IsMobileMoney(l) && Refused(l)).None?
      <==> forall i :: 0 <= i < |lines| && IsMobileMoney(lines[i]) ==>
        ValidateMobileMoneyPayment(lines[i].operator.value, lines[i].amount) == Accepted
  {
    var payments := MobileMoneyPayments(lines);
    var p := (l: PaymentLine) => IsMobileMoney(l) && Refused(l);
    if FindFirst(payments, p).None? {
      forall i | 0 <= i < |lines| && IsMobileMoney(lines[i])
        ensures ValidateMobileMoneyPayment(lines[i].operator.value, lines[i].amount) == Accepted
      {
        var j :| 0 <= j < |payments| && payments[j] == lines[i];
        assert !p(payments[j]);
      }
    } else {
      var j := FindFirst(payments, p).value;
      var i :| 0 <= i < |lines| && lines[i] == payments[j];
      assert IsMobileMoney(lines[i]) && Refused(lines[i]);
    }
  }
}
