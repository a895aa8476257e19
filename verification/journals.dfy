/** The `account.journal` extension: the Cameroonian journal classification
    and `create_cameroon_default_journals`, which inserts the five default
    journals of the current company, each only if its code is still free. */
module Journals {
  import opened Base

  datatype JournalType = Sale | Purchase | Cash | Bank | General

  datatype CameroonType = SalesCm | PurchaseCm | BankCm | CashCm | MobileMoney | MiscellaneousCm

  /** An `account.journal` record; its record id is its position in the
      table. `operator` is the `mobile_money_operator` selection code. */
  datatype Journal = Journal(
    name: string,
    code: string,
    kind: JournalType,
    cameroonType: Option<CameroonType>,
    operator: Option<string>,
    company: nat,
    defaultAccount: Option<string>)

  /** One entry of `journals_to_create`. */
  datatype Template = Template(name: string, code: string, kind: JournalType, cameroonType: CameroonType, operator: Option<string>)

  const Defaults: seq<Template> := [
    Template("Ventes", "VTE", Sale, SalesCm, None),
    Template("Achats", "ACH", Purchase, PurchaseCm, None),
    Template("Caisse FCFA", "CAI", Cash, CashCm, None),
    Template("Orange Money", "OMO", Bank, MobileMoney, Some("orange")),
    Template("MTN Mobile Money", "MTN", Bank, MobileMoney, Some("mtn"))
  ]

  /** The record created from a template for `company`. */
  function Instantiate(t: Template, company: nat): (j: Journal)
    ensures j.code == t.code && j.company == company
  {
    Journal(t.name, t.code, t.kind, Some(t.cameroonType), t.operator, company, None)
  }

  /** `search([('code', '=', code), ('company_id', '=', company)])` is non-empty. */
  predicate HasCode(js: seq<Journal>, code: string, company: nat)
  {
    exists i :: 0 <= i < |js| && js[i].code == code && js[i].company == company
  }

  /** The journals the loop creates for the templates `ts`, in table order:
      one per template whose code the company does not have yet. */
  function MissingDefaults(js: seq<Journal>, company: nat, ts: seq<Template>): (r: seq<Journal>)
    ensures |r| <= |ts|
    ensures forall i :: 0 <= i < |r| ==> r[i].company == company && !HasCode(js, r[i].code, company)
  {
    if ts == [] then []
    else
      var t := ts[|ts| - 1];
      MissingDefaults(js, company, ts[..|ts| - 1]) + (if HasCode(js, t.code, company) then [] else [Instantiate(t, company)])
  }

  lemma {:induction false} MissingDefaultsCodes(js: seq<Journal>, company: nat, ts: seq<Template>)
    ensures forall i :: 0 <= i < |MissingDefaults(js, company, ts)| ==>
      exists k :: 0 <= k < |ts| && MissingDefaults(js, company, ts)[i] == Instantiate(ts[k], company)
  {
    if ts != [] {
      var init := ts[..|ts| - 1];
      var r := MissingDefaults(js, company, ts);
      var r0 := MissingDefaults(js, company, init);
      MissingDefaultsCodes(js, company, init);
      forall i | 0 <= i < |r|
        ensures exists k :: 0 <= k < |ts| && r[i] == Instantiate(ts[k], company)
      {
        if i < |r0| {
          assert r[i] == r0[i];
          var k :| 0 <= k < |init| && r0[i] == Instantiate(init[k], company);
          assert init[k] == ts[k];
          assert r[i] == Instantiate(ts[k], company);
        } else {
          assert r[i] == Instantiate(ts[|ts| - 1], company);
        }
      }
    } else {
      assert MissingDefaults(js, company, ts) == [];
    }
  }

  /** A template whose code is missing has its journal among the created ones. */
  lemma {:induction false} MissingTemplateIsCreated(js: seq<Journal>, company: nat, ts: seq<Template>, k: nat)
    requires k < |ts| && !HasCode(js, ts[k].code, company)
    ensures Instantiate(ts[k], company) in MissingDefaults(js, company, ts)
  {
    if k < |ts| - 1 {
      MissingTemplateIsCreated(js, company, ts[..|ts| - 1], k);
    }
  }

  /** Nothing is missing once every template's code is present. */
  lemma {:induction false} NothingMissing(js: seq<Journal>, company: nat, ts: seq<Template>)
    requires forall k :: 0 <= k < |ts| ==> HasCode(js, ts[k].code, company)
    ensures MissingDefaults(js, company, ts) == []
  {
    if ts != [] {
      NothingMissing(js, company, ts[..|ts| - 1]);
    }
  }

  /** After the creation every default code exists for the company. */
  lemma AllDefaultsPresent(js: seq<Journal>, company: nat)
    ensures forall k :: 0 <= k < |Defaults| ==>
      HasCode(js + MissingDefaults(js, company, Defaults), Defaults[k].code, company)
  {
    var after := js + MissingDefaults(js, company, Defaults);
    forall k | 0 <= k < |Defaults|
      ensures HasCode(after, Defaults[k].code, company)
    {
      if HasCode(js, Defaults[k].code, company) {
        var i :| 0 <= i < |js| && js[i].code == Defaults[k].code && js[i].company == company;
        assert after[i] == js[i];
      } else {
        MissingTemplateIsCreated(js, company, Defaults, k);
        var i :| 0 <= i < |MissingDefaults(js, company, Defaults)| && MissingDefaults(js, company, Defaults)[i] == Instantiate(Defaults[k], company);
        assert after[|js| + i] == Instantiate(Defaults[k], company);
      }
    }
  }

  /** A second creation finds every code and creates nothing. */
  lemma CreationIsIdempotent(js: seq<Journal>, company: nat)
    ensures MissingDefaults(js + MissingDefaults(js, company, Defaults), company, Defaults) == []
  {
    AllDefaultsPresent(js, company);
    NothingMissing(js + MissingDefaults(js, company, Defaults), company, Defaults);
  }

  /** The default templates have five different codes. */
  lemma DefaultCodesAreDistinct()
    ensures forall a, b :: 0 <= a < b < |Defaults| ==> Defaults[a].code != Defaults[b].code
  {
  }

  /** One more template adds its journal exactly when its code is missing. */
  lemma MissingDefaultsStep(js: seq<Journal>, company: nat, ts: seq<Template>, i: nat)
    requires i < |ts|
    ensures MissingDefaults(js, company, ts[..i + 1]) == MissingDefaults(js, company, ts[..i])
      + (if HasCode(js, ts[i].code, company) then [] else [Instantiate(ts[i], company)])
  {
    assert ts[..i + 1][..i] == ts[..i];
  }

  /** With distinct codes, the journals created for the earlier templates
      never hold the code of a later one. */
  lemma CreatedKeepCodeMissing(js: seq<Journal>, company: nat, ts: seq<Template>, i: nat)
    requires i < |ts|
    requires forall a, b :: 0 <= a < b < |ts| ==> ts[a].code != ts[b].code
    ensures HasCode(js + MissingDefaults(js, company, ts[..i]), ts[i].code, company)
      <==> HasCode(js, ts[i].code, company)
  {
    var created := MissingDefaults(js, company, ts[..i]);
    var all := js + created;
    MissingDefaultsCodes(js, company, ts[..i]);
    forall j | 0 <= j < |created|
      ensures created[j].code != ts[i].code
    {
      var k :| 0 <= k < i && created[j] == Instantiate(ts[..i][k], company);
      assert ts[..i][k] == ts[k];
    }
    assert forall j :: 0 <= j < |js| ==> all[j] == js[j];
    assert forall j :: |js| <= j < |all| ==> all[j] == created[j - |js|];
  }

  /** The journal table of the database. */
  class JournalBook {
    var journals: seq<Journal>

    constructor (journals: seq<Journal>)
      ensures this.journals == journals
    {
      this.journals := journals;
    }

    /** `create_cameroon_default_journals` for the current company: existing
        journals are kept as they are and the new ones are appended. */
    method CreateCameroonDefaultJournals(company: nat) returns (created: seq<Journal>)
      modifies this
      ensures created == MissingDefaults(old(journals), company, Defaults)
      ensures journals == old(journals) + created
    {
      ghost var before := journals;
      var templates := Defaults;
      DefaultCodesAreDistinct();
      created := [];
      var i := 0;
      while i < |templates|
        invariant 0 <= i <= |templates|
        invariant created == MissingDefaults(before, company, templates[..i])
        invariant journals == before + created
      {
        var t := templates[i];
        CreatedKeepCodeMissing(before, company, templates, i);
        MissingDefaultsStep(before, company, templates, i);
        if !HasCode(journals, t.code, company) {
          var j := Instantiate(t, company);
          journals := journals + [j];
          created := created + [j];
        }
        i := i + 1;
      }
      assert templates[..i] == templates;
    }
  }
}
