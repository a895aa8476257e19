/** The `res.partner` extension: the VAT threshold flag, the three validation
    constraints (taxpayer identifier, mobile-money number, turnover), the
    turnover-based tax-regime recommendation and the mobile-money
    configuration lookup. */
module Partners {
  import opened Base

  /** `get_tax_regime_thresholds`, in FCFA. */
  const VatThreshold: real := 50000000.0
  const ForfaitaireMax: real := 15000000.0
  const SyntheseMax: real := 100000000.0
  const ReelSimplifieMax: real := 1000000000.0

  datatype TaxRegime = ReelNormal | ReelSimplifie | Synthese | Forfaitaire | Liberatoire

  /** The fields of a partner that the rules read or write. `operator` is the
      `mobile_money_operator` selection code; the Char fields are `[]` when empty. */
  datatype Partner = Partner(
    name: string,
    annualTurnover: real,
    vatThresholdExceeded: bool,
    taxpayerIdentifier: string,
    mobileMoneyNumber: string,
    operator: Option<string>)

  // ---------------------------------------------------------------------------
  // Taxpayer identifier: `re.match(r'^P\d{9}[A-Z]$', id.upper())`.

  /** `str.upper` on one character, for the ASCII letters. */
  function UpperChar(c: char): (u: char)
    ensures 'a' <= c <= 'z' ==> 'A' <= u <= 'Z' && u as int == c as int - 32
    ensures !('a' <= c <= 'z') ==> u == c
  {
    if 'a' <= c <= 'z' then (c as int - 32) as char else c
  }

  function Upper(s: string): (u: string)
    ensures |u| == |s| && forall i :: 0 <= i < |s| ==> u[i] == UpperChar(s[i])
  {
    seq(|s|, i requires 0 <= i < |s| => UpperChar(s[i]))
  }

  predicate IsUpperLetter(c: char)
  {
    'A' <= c <= 'Z'
  }

  /** `s` with the one final newline that Python's `$` may skip removed. */
  function BeforeFinalNewline(s: string): (r: string)
    ensures r == s || (s == r + "\n")
  {
    if |s| > 0 && s[|s| - 1] == '\n' then s[..|s| - 1] else s
  }

  /** `P\d{9}[A-Z]` matching the whole body. */
  predicate TaxpayerBody(b: string)
  {
    |b| == 11 && b[0] == 'P' && AllDigits(b[1..10]) && IsUpperLetter(b[10])
  }

  /** The pattern against the upper-cased identifier; `$` also matches just
      before a final newline. */
  predicate TaxpayerPattern(u: string)
  {
    TaxpayerBody(u) || TaxpayerBody(BeforeFinalNewline(u))
  }

  /** `_check_taxpayer_identifier`: None when the identifier is accepted,
      else the ValidationError's message. An empty identifier is not checked. */
  function CheckTaxpayerIdentifier(id: string): (err: Option<string>)
    ensures id == [] ==> err.None?
  {
    if id != [] && !TaxpayerPattern(Upper(id)) then
      Some("Le numéro de contribuable doit respecter le format: P + 9 chiffres + 1 lettre (ex: P123456789A)")
    else None
  }

  /** An upper-cased body of an accepted identifier, described on the
      identifier itself: a `P` or `p`, nine digits and a letter of either case. */
  predicate ShapeBody(b: string)
  {
    |b| == 11 && (b[0] == 'P' || b[0] == 'p') && AllDigits(b[1..10])
    && ('A' <= b[10] <= 'Z' || 'a' <= b[10] <= 'z')
  }

  /** The accepted identifiers without upper-casing: a shaped body,
      optionally followed by one newline. */
  predicate TaxpayerShape(id: string)
  {
    ShapeBody(id) || (|id| == 12 && id[11] == '\n' && ShapeBody(id[..11]))
  }

  lemma UpperBody(b: string)
    ensures TaxpayerBody(Upper(b)) <==> ShapeBody(b)
  {
    if |b| == 11 {
      var u := Upper(b);
      assert forall j :: 0 <= j < 9 ==> u[1..10][j] == UpperChar(b[1..10][j]);
      assert AllDigits(u[1..10]) <==> AllDigits(b[1..10]);
    }
  }

  lemma TaxpayerIdentifierAccepted(id: string)
    ensures CheckTaxpayerIdentifier(id).None? <==> id == [] || TaxpayerShape(id)
  {
    var u := Upper(id);
    UpperBody(id);
    if |id| > 0 && id[|id| - 1] == '\n' {
      var b := id[..|id| - 1];
      assert BeforeFinalNewline(u) == Upper(b);
      UpperBody(b);
      assert !TaxpayerBody(u) && !ShapeBody(id);
      if |id| == 12 {
        assert b == id[..11];
      }
    } else {
      assert BeforeFinalNewline(u) == u;
      assert !(|id| == 12 && id[11] == '\n');
    }
  }

  /** The example of the error message is accepted, in either case. */
  lemma TaxpayerIdentifierAcceptedExamples()
    ensures CheckTaxpayerIdentifier("P123456789A").None?
    ensures CheckTaxpayerIdentifier("p123456789a").None?
  {
    assert ShapeBody("P123456789A") by {
      assert "P123456789A"[1..10] == "123456789";
    }
    assert ShapeBody("p123456789a") by {
      assert "p123456789a"[1..10] == "123456789";
    }
    TaxpayerIdentifierAccepted("P123456789A");
    TaxpayerIdentifierAccepted("p123456789a");
  }

  /** Anything shorter than a P, nine digits and a letter is refused, as
      "P12345678A" with its eight digits is. */
  lemma TaxpayerIdentifierTooShortRejected(id: string)
    requires 0 < |id| < 11
    ensures CheckTaxpayerIdentifier(id).Some?
  {
  }

  /** The last character must be a letter: "P1234567890" is refused. */
  lemma TaxpayerIdentifierFinalDigitRejected(id: string)
    requires |id| == 11 && IsDigit(id[10])
    ensures CheckTaxpayerIdentifier(id).Some?
  {
  }

  // ---------------------------------------------------------------------------
  // Mobile-money number: spaces and dashes removed, then
  // `re.match(r'^(\+237|237)?[2563478]\d{7,8}$', number)`.

  predicate IsSeparator(c: char)
  {
    c == ' ' || c == '-'
  }

  /** `number.replace(' ', '').replace('-', '')`. */
  function StripSeparators(s: string): (r: string)
    ensures |r| <= |s|
    ensures forall i :: 0 <= i < |r| ==> !IsSeparator(r[i])
  {
    if s == [] then []
    else if IsSeparator(s[|s| - 1]) then StripSeparators(s[..|s| - 1])
    else StripSeparators(s[..|s| - 1]) + [s[|s| - 1]]
  }

  /** A number that has no separators is left as it is. */
  lemma {:induction false} StripKeepsPlainNumber(s: string)
    requires forall i :: 0 <= i < |s| ==> !IsSeparator(s[i])
    ensures StripSeparators(s) == s
  {
    if s != [] {
      StripKeepsPlainNumber(s[..|s| - 1]);
    }
  }

  /** Removing the separators twice is removing them once. */
  lemma StripIsIdempotent(s: string)
    ensures StripSeparators(StripSeparators(s)) == StripSeparators(s)
  {
    StripKeepsPlainNumber(StripSeparators(s));
  }

  /** The separators are removed piece by piece. */
  lemma {:induction false} StripAppend(a: string, b: string)
    ensures StripSeparators(a + b) == StripSeparators(a) + StripSeparators(b)
    decreases |b|
  {
    if b == [] {
      assert a + b == a;
    } else {
      assert (a + b)[..|a + b| - 1] == a + b[..|b| - 1];
      StripAppend(a, b[..|b| - 1]);
    }
  }

  /** A group of digits written after a space loses only the space. */
  lemma AddGroup(x: string, g: string)
    requires forall i :: 0 <= i < |g| ==> !IsSeparator(g[i])
    ensures StripSeparators(x + " " + g) == StripSeparators(x) + g
  {
    StripAppend(x + " ", g);
    StripAppend(x, " ");
    StripKeepsPlainNumber(g);
    assert StripSeparators(" ") == [];
  }

  /** `[2563478]\d{7,8}`: the subscriber part. */
  predicate Subscriber(s: string)
  {
    8 <= |s| <= 9 && s[0] in "2563478" && AllDigits(s[1..])
  }

  /** The subscriber part followed by `$`. */
  predicate SubscriberToEnd(s: string)
  {
    Subscriber(s) || Subscriber(BeforeFinalNewline(s))
  }

  /** The whole pattern: the optional prefix is tried as `+237`, then `237`,
      then as absent. */
  predicate MobilePattern(n: string)
    ensures MobilePattern(n) ==> 8 <= |n| <= 14
  {
    ("+237" <= n && SubscriberToEnd(n[4..]))
    || ("237" <= n && SubscriberToEnd(n[3..]))
    || SubscriberToEnd(n)
  }

  /** `_check_mobile_money_number`: only a number with an operator is checked. */
  function CheckMobileMoneyNumber(number: string, operator: Option<string>): (err: Option<string>)
    ensures number == [] || operator.None? ==> err.None?
  {
    if number != [] && operator.Some? && !MobilePattern(StripSeparators(number)) then
      Some("Le numéro Mobile Money doit être un numéro camerounais valide (format: +237 XXXXXXXXX)")
    else None
  }

  /** The country prefix is optional in both of its spellings. */
  lemma PrefixIsOptional(s: string)
    requires Subscriber(s)
    ensures MobilePattern(s) && MobilePattern("+237" + s) && MobilePattern("237" + s)
  {
    assert ("+237" + s)[4..] == s;
    assert ("237" + s)[3..] == s;
  }

  lemma SubscriberDigits(s: string)
    requires SubscriberToEnd(s)
    ensures var b := BeforeFinalNewline(s); 8 <= |b| <= 9 && AllDigits(b)
  {
    if Subscriber(s) {
      assert s[|s| - 1] == s[1..][|s| - 2];
    }
  }

  lemma NewlineAfterPrefix(p: string, t: string)
    requires t != []
    ensures BeforeFinalNewline(p + t) == p + BeforeFinalNewline(t)
  {
    if t[|t| - 1] == '\n' {
      assert (p + t)[..|p + t| - 1] == p + t[..|t| - 1];
    }
  }

  /** A country prefix followed by a subscriber part is 11 to 13 digits,
      the first of which may be a `+`, with at most one final newline. */
  lemma PrefixedNumberShape(p: string, t: string)
    requires 3 <= |p| <= 4 && (IsDigit(p[0]) || p[0] == '+') && forall i :: 1 <= i < |p| ==> IsDigit(p[i])
    requires SubscriberToEnd(t)
    ensures var b := BeforeFinalNewline(p + t);
      11 <= |b| <= 13 && (IsDigit(b[0]) || b[0] == '+') && forall i :: 1 <= i < |b| ==> IsDigit(b[i])
  {
    SubscriberDigits(t);
    NewlineAfterPrefix(p, t);
    var bt := BeforeFinalNewline(t);
    var b := p + bt;
    assert forall i :: 0 <= i < |p| ==> b[i] == p[i];
    assert forall i :: |p| <= i < |b| ==> b[i] == bt[i - |p|];
  }

  /** Every accepted number is 8 to 13 digits, the first of which may be a
      `+` instead, with at most one final newline. */
  lemma AcceptedNumberShape(n: string)
    requires MobilePattern(n)
    ensures var b := BeforeFinalNewline(n);
      8 <= |b| <= 13 && (IsDigit(b[0]) || b[0] == '+') && forall i :: 1 <= i < |b| ==> IsDigit(b[i])
  {
    if "+237" <= n && SubscriberToEnd(n[4..]) {
      assert n == "+237" + n[4..];
      PrefixedNumberShape("+237", n[4..]);
    } else if "237" <= n && SubscriberToEnd(n[3..]) {
      assert n == "237" + n[3..];
      PrefixedNumberShape("237", n[3..]);
    } else {
      SubscriberDigits(n);
    }
  }

  /** A number written as a prefix and four groups of digits separated by
      single spaces, as the partner tests write them, loses only the spaces. */
  lemma StripGroupedNumber(p: string, a: string, b: string, c: string, d: string)
    requires forall i :: 0 <= i < |p| ==> !IsSeparator(p[i])
    requires forall i :: 0 <= i < |a| ==> !IsSeparator(a[i])
    requires forall i :: 0 <= i < |b| ==> !IsSeparator(b[i])
    requires forall i :: 0 <= i < |c| ==> !IsSeparator(c[i])
    requires forall i :: 0 <= i < |d| ==> !IsSeparator(d[i])
    ensures StripSeparators(p + " " + a + " " + b + " " + c + " " + d) == p + a + b + c + d
  {
    var x1 := p + " " + a;
    var x2 := x1 + " " + b;
    var x3 := x2 + " " + c;
    StripKeepsPlainNumber(p);
    AddGroup(p, a);
    AddGroup(x1, b);
    AddGroup(x2, c);
    AddGroup(x3, d);
  }

  /** The valid number of the partner tests. */
  lemma MobileMoneyAcceptedExample()
    ensures CheckMobileMoneyNumber("+237 655 12 34 56", Some("orange")).None?
  {
    StripGroupedNumber("+237", "655", "12", "34", "56");
    assert "+237" + " " + "655" + " " + "12" + " " + "34" + " " + "56" == "+237 655 12 34 56";
    assert "+237" + "655" + "12" + "34" + "56" == "+237" + "655123456";
    assert Subscriber("655123456");
    PrefixIsOptional("655123456");
  }

  /** The invalid number of the partner tests: 1 cannot start a subscriber number. */
  lemma MobileMoneyRejectedExample()
    ensures CheckMobileMoneyNumber("+237 123 45 67 89", Some("orange")).Some?
  {
    StripGroupedNumber("+237", "123", "45", "67", "89");
    assert "+237" + " " + "123" + " " + "45" + " " + "67" + " " + "89" == "+237 123 45 67 89";
    assert "+237" + "123" + "45" + "67" + "89" == "+237" + "123456789";
    var n := "+237" + "123456789";
    assert n[4..] == "123456789" && n[4] == '1';
    assert !SubscriberToEnd(n[4..]);
    assert n[0] == '+' && !("237" <= n) && !SubscriberToEnd(n);
  }

  // ---------------------------------------------------------------------------
  // Turnover.

  /** `_check_annual_turnover`. */
  function CheckAnnualTurnover(t: real): (err: Option<string>)
    ensures err.Some? <==> t < 0.0
  {
    if t < 0.0 then Some("Le chiffre d'affaires ne peut pas être négatif") else None
  }

  /** `action_compute_recommended_tax_regime`: the regime it recommends for a
      turnover (the source posts it as a chatter message). */
  function RecommendedRegime(ca: real): (r: TaxRegime)
    ensures r != Liberatoire
    ensures r == Forfaitaire <==> ca <= ForfaitaireMax
    ensures r == Synthese <==> ForfaitaireMax < ca <= SyntheseMax
    ensures r == ReelSimplifie <==> SyntheseMax < ca <= ReelSimplifieMax
    ensures r == ReelNormal <==> ReelSimplifieMax < ca
  {
    if ca <= ForfaitaireMax then Forfaitaire
    else if ca <= SyntheseMax then Synthese
    else if ca <= ReelSimplifieMax then ReelSimplifie
    else ReelNormal
  }

  /** The regimes ordered from the lightest to the heaviest. */
  function Rank(r: TaxRegime): nat
  {
    match r
    case Liberatoire => 0
    case Forfaitaire => 1
    case Synthese => 2
    case ReelSimplifie => 3
    case ReelNormal => 4
  }

  /** A larger turnover never gets a lighter regime. */
  lemma RegimeIsMonotone(a: real, b: real)
    requires a <= b
    ensures Rank(RecommendedRegime(a)) <= Rank(RecommendedRegime(b))
  {
  }

  /** A partner above the VAT threshold is never recommended the flat-rate regime. */
  lemma VatLiablePartnerIsNotForfaitaire(ca: real)
    requires ca > VatThreshold
    ensures RecommendedRegime(ca) != Forfaitaire
  {
  }

  // ---------------------------------------------------------------------------
  // Mobile-money configuration.

  /** What `get_mobile_money_config` returns: False, the operator's entry
      (its merchant and service codes), or `{}` for a code with no entry. */
  datatype MobileMoneyConfig = NotConfigured | Entry(merchantCode: string, serviceCode: string) | NoEntry

  function MobileMoneyConfigOf(p: Partner): (c: MobileMoneyConfig)
    ensures c.NotConfigured? <==> p.operator.None? || p.mobileMoneyNumber == []
    ensures c.NoEntry? <==> (p.operator.Some? && p.mobileMoneyNumber != []
      && p.operator.value !in {"orange", "mtn", "express_union", "campost"})
    ensures c.Entry? ==> p.operator.Some? && p.operator.value in {"orange", "mtn", "express_union", "campost"}
  {
    if p.operator.None? || p.mobileMoneyNumber == [] then NotConfigured
    else
      match p.operator.value
      case "orange" => Entry("OM_MERCHANT", "201")
      case "mtn" => Entry("MTN_MERCHANT", "301")
      case "express_union" => Entry("EU_MERCHANT", "401")
      case "campost" => Entry("CP_MERCHANT", "501")
      case _ => NoEntry
  }

  /** The four operators have four different service codes. */
  lemma ServiceCodesAreDistinct(p: Partner, q: Partner)
    requires MobileMoneyConfigOf(p).Entry? && MobileMoneyConfigOf(q).Entry?
    requires p.operator != q.operator
    ensures MobileMoneyConfigOf(p).serviceCode != MobileMoneyConfigOf(q).serviceCode
  {
  }

  // ---------------------------------------------------------------------------
  // The stored compute.

  class PartnerTable {
    var partners: seq<Partner>

    constructor (partners: seq<Partner>)
      ensures this.partners == partners
    {
      this.partners := partners;
    }

    /** `_compute_vat_threshold_exceeded` over the records `selection`: each
        gets the flag `annual_turnover > 50 000 000`; nothing else changes. */
    method ComputeVatThresholdExceeded(selection: seq<nat>)
      requires forall k :: 0 <= k < |selection| ==> selection[k] < |partners|
      modifies this
      ensures |partners| == |old(partners)|
      ensures forall i :: 0 <= i < |partners| ==>
        partners[i] == if i in selection
          then old(partners)[i].(vatThresholdExceeded := old(partners)[i].annualTurnover > VatThreshold)
          else old(partners)[i]
    {
      var k := 0;
      while k < |selection|
        invariant 0 <= k <= |selection|
        invariant |partners| == |old(partners)|
        invariant forall i :: 0 <= i < |partners| ==>
          partners[i] == if i in selection[..k]
            then old(partners)[i].(vatThresholdExceeded := old(partners)[i].annualTurnover > VatThreshold)
            else old(partners)[i]
      {
        var idx := selection[k];
        var p := partners[idx];
        partners := partners[idx := p.(vatThresholdExceeded := p.annualTurnover > VatThreshold)];
        assert selection[..k + 1] == selection[..k] + [idx];
        k := k + 1;
      }
      assert selection[..k] == selection;
    }
  }
}
