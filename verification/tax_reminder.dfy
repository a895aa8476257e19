/** Tax reminders (`tax.reminder`): which reminders the daily cron
    notifies, what notifying does, the two closing actions and the fixed
    calendar of the reminders created for a year. */
module TaxReminders {
  import opened Base
  import opened Dates

  datatype TaxType = Vat | Corporate | Cfc | Tac | Municipal | Dipe | Dsf

  datatype ReminderState = Pending | Sent | ReminderDone | Cancelled

  /** The number of days before the due date at which a new reminder fires. */
  const DefaultReminderDays: int := 7

  /** How far ahead the cron looks, in days. */
  const Lookahead: int := 7

  datatype Reminder = Reminder(
    name: string,
    taxType: TaxType,
    dueDate: ValidDate,
    reminderDays: int,
    active: bool,
    company: nat,
    state: ReminderState,
    lastReminderDate: Option<Date>)

  /** `(due_date - today).days`. */
  function DaysUntil(due: ValidDate, today: ValidDate): int
  {
    Ordinal(due) - Ordinal(today)
  }

  /** `today + timedelta(days=7)` raises OverflowError past 9999-12-31. */
  predicate LookaheadOverflows(today: Date)
  {
    today.year == MaxYear && today.month == 12 && today.day > 31 - Lookahead
  }

  /** A reminder the cron notifies: found by the search (active, pending,
      due within a week) and within its own number of days. */
  predicate Selected(r: Reminder, today: ValidDate)
    ensures Selected(r, today) <==>
      r.active && r.state == Pending && DaysUntil(r.dueDate, today) <= (if r.reminderDays < Lookahead then r.reminderDays else Lookahead)
  {
    r.active && r.state == Pending && DaysUntil(r.dueDate, today) <= Lookahead
    && DaysUntil(r.dueDate, today) <= r.reminderDays
  }

  /** `_send_notification`'s effect on the record (the e-mail and the chatter
      message are not modelled). */
  function Notified(r: Reminder, today: Date): (n: Reminder)
    ensures n.state == Sent && n.lastReminderDate == Some(today)
    ensures n.(state := r.state, lastReminderDate := r.lastReminderDate) == r
  {
    r.(state := Sent, lastReminderDate := Some(today))
  }

  /** The reminder table after one run of the cron on `today`. */
  function AfterCron(rs: seq<Reminder>, today: ValidDate): (r: seq<Reminder>)
    ensures |r| == |rs|
    ensures forall i :: 0 <= i < |rs| ==> r[i] == if Selected(rs[i], today) then Notified(rs[i], today) else rs[i]
  {
    seq(|rs|, i requires 0 <= i < |rs| => if Selected(rs[i], today) then Notified(rs[i], today) else rs[i])
  }

  /** A reminder is notified by at most one run: once sent it is never
      selected again, whatever the day. */
  lemma NotifiedAtMostOnce(rs: seq<Reminder>, today: ValidDate, later: ValidDate, i: nat)
    requires i < |rs| && Selected(rs[i], today)
    ensures !Selected(AfterCron(rs, today)[i], later)
  {
  }

  /** A second run on the same day changes nothing. */
  lemma CronIsIdempotent(rs: seq<Reminder>, today: ValidDate)
    ensures AfterCron(AfterCron(rs, today), today) == AfterCron(rs, today)
  {
    var once := AfterCron(rs, today);
    assert forall i :: 0 <= i < |once| ==> !Selected(once[i], today);
  }

  /** The effective window is the smaller of a week and the reminder's own
      number of days: a larger number of days does not fire earlier, and an
      overdue reminder still qualifies. */
  lemma SelectionWindow(r: Reminder, today: ValidDate)
    requires r.active && r.state == Pending
    ensures r.reminderDays >= Lookahead ==> (Selected(r, today) <==> DaysUntil(r.dueDate, today) <= Lookahead)
    ensures r.reminderDays < Lookahead ==> (Selected(r, today) <==> DaysUntil(r.dueDate, today) <= r.reminderDays)
    ensures DaysUntil(r.dueDate, today) <= 0 && r.reminderDays >= 0 ==> Selected(r, today)
  {
  }

  /** The five reminders of `create_annual_reminders(year)`, with the
      defaults of a new record. */
  function AnnualReminders(year: int, company: nat): (r: seq<Reminder>)
    requires MinYear <= year < MaxYear
    ensures |r| == 5
  {
    var y := NatToString(year);
    [ NewReminder("TVA Janvier " + y, Vat, Date(year, 2, 15), company),
      NewReminder("TVA Février " + y, Vat, Date(year, 3, 15), company),
      NewReminder("DIPE T1 " + y, Dipe, Date(year, 4, 30), company),
      NewReminder("DSF " + y, Dsf, Date(year, 4, 30), company),
      NewReminder("Impôt sur les Sociétés " + y, Corporate, Date(year + 1, 3, 31), company) ]
  }

  /** A record created with only a name, a type and a due date. */
  function NewReminder(name: string, t: TaxType, due: ValidDate, company: nat): (r: Reminder)
    ensures r.active && r.state == Pending && r.reminderDays == DefaultReminderDays && r.lastReminderDate.None?
  {
    Reminder(name, t, due, DefaultReminderDays, true, company, Pending, None)
  }

  /** The calendar: the two VAT returns on 15 February and 15 March, DIPE
      and DSF on 30 April, corporate tax on 31 March of the next year. */
  lemma AnnualCalendar(year: int, company: nat)
    requires MinYear <= year < MaxYear
    ensures var r := AnnualReminders(year, company);
      r[0].dueDate == Date(year, 2, 15) && r[0].taxType == Vat
      && r[1].dueDate == Date(year, 3, 15) && r[1].taxType == Vat
      && r[2].dueDate == Date(year, 4, 30) && r[2].taxType == Dipe
      && r[3].dueDate == Date(year, 4, 30) && r[3].taxType == Dsf
      && r[4].dueDate == Date(year + 1, 3, 31) && r[4].taxType == Corporate
    ensures var r := AnnualReminders(year, company);
      forall i, j :: 0 <= i < j < 5 ==> Le(r[i].dueDate, r[j].dueDate)
  {
  }

  /** The first reminder of the year is notified by the cron of 8 February,
      one week before it falls due, and not the day before. */
  lemma JanuaryVatFiresOnFebruary8(year: int, company: nat)
    requires MinYear <= year < MaxYear
    ensures Selected(AnnualReminders(year, company)[0], Date(year, 2, 8))
    ensures !Selected(AnnualReminders(year, company)[0], Date(year, 2, 7))
  {
  }

  /** The `tax.reminder` table. */
  class ReminderBook {
    var reminders: seq<Reminder>

    constructor (reminders: seq<Reminder>)
      ensures this.reminders == reminders
    {
      this.reminders := reminders;
    }

    /** `_send_reminders` on `today`: the search, then the per-reminder day
        check, then `_send_notification` on each hit, which stamps `today`.
        An overflowing lookahead raises before anything changes. */
    method SendReminders(today: ValidDate) returns (r: Result<()>)
      modifies this
      ensures r.Err? <==> LookaheadOverflows(today)
      ensures r.Err? ==> reminders == old(reminders)
      ensures r.Ok? ==> reminders == AfterCron(old(reminders), today)
    {
      if LookaheadOverflows(today) {
        return Err("date value out of range");
      }
      var found := Found(reminders, today);
      var rs := reminders;
      var k := 0;
      while k < |found|
        invariant 0 <= k <= |found| && |rs| == |reminders|
        invariant forall j :: 0 <= j < |found| ==> found[j] < |rs|
        invariant forall i :: 0 <= i < |rs| ==>
          rs[i] == if i in found[..k] && Selected(reminders[i], today)
            then Notified(reminders[i], today) else reminders[i]
      {
        var idx := found[k];
        var rem := rs[idx];
        assert idx !in found[..k] by {
          FoundIsStrictlyIncreasing(reminders, today);
        }
        assert rem == reminders[idx];
        if DaysUntil(rem.dueDate, today) <= rem.reminderDays {
          rs := rs[idx := Notified(rem, today)];
        }
        assert found[..k + 1] == found[..k] + [idx];
        k := k + 1;
      }
      assert found[..k] == found;
      FoundNotifiesAll(reminders, rs, today);
      reminders := rs;
      r := Ok(());
    }

    /** `action_mark_done`, from any state. */
    method ActionMarkDone(i: nat)
      requires i < |reminders|
      modifies this
      ensures reminders == old(reminders)[i := old(reminders)[i].(state := ReminderDone)]
    {
      reminders := reminders[i := reminders[i].(state := ReminderDone)];
    }

    /** `action_cancel`, from any state. */
    method ActionCancel(i: nat)
      requires i < |reminders|
      modifies this
      ensures reminders == old(reminders)[i := old(reminders)[i].(state := Cancelled)]
    {
      reminders := reminders[i := reminders[i].(state := Cancelled)];
    }

    /** `create_annual_reminders(year)`: the five records are appended and
        their ids returned. A year for which one of the dates does not exist
        makes `date` raise while the list is built, before any record is
        created. */
    method CreateAnnualReminders(year: int, company: nat) returns (r: Result<seq<nat>>)
      modifies this
      ensures r.Err? <==> !(MinYear <= year < MaxYear)
      ensures r.Err? ==> reminders == old(reminders)
      ensures r.Ok? ==> reminders == old(reminders) + AnnualReminders(year, company)
      ensures r.Ok? ==> |r.value| == 5 && forall k :: 0 <= k < 5 ==> r.value[k] == |old(reminders)| + k
    {
      if !(MinYear <= year < MaxYear) {
        var bad := if year == MaxYear then year + 1 else year;
        return Err("year " + IntText(bad) + " is out of range");
      }
      var batch := AnnualReminders(year, company);
      var created: seq<nat> := [];
      var k := 0;
      while k < |batch|
        invariant 0 <= k <= |batch|
        invariant reminders == old(reminders) + batch[..k]
        invariant |created| == k && forall j :: 0 <= j < k ==> created[j] == |old(reminders)| + j
      {
        created := created + [|reminders|];
        assert batch[..k + 1] == batch[..k] + [batch[k]];
        reminders := reminders + [batch[k]];
        k := k + 1;
      }
      assert batch[..k] == batch;
      r := Ok(created);
    }
  }

  /** The search of `_send_reminders`: the active pending reminders due
      within a week, in table order. */
  function Found(rs: seq<Reminder>, today: ValidDate): (r: seq<nat>)
    ensures forall j :: 0 <= j < |r| ==> r[j] < |rs|
    ensures forall j :: 0 <= j < |r| ==> (rs[r[j]].active && rs[r[j]].state == Pending
      && DaysUntil(rs[r[j]].dueDate, today) <= Lookahead)
  {
    if rs == [] then []
    else
      var init := Found(rs[..|rs| - 1], today);
      var last := rs[|rs| - 1];
      if last.active && last.state == Pending && DaysUntil(last.dueDate, today) <= Lookahead then init + [|rs| - 1] else init
  }

  lemma {:induction false} FoundIsStrictlyIncreasing(rs: seq<Reminder>, today: ValidDate)
    ensures forall a, b :: 0 <= a < b < |Found(rs, today)| ==> Found(rs, today)[a] < Found(rs, today)[b]
  {
    if rs != [] {
      FoundIsStrictlyIncreasing(rs[..|rs| - 1], today);
    }
  }

  lemma {:induction false} FoundFindsSelected(rs: seq<Reminder>, today: ValidDate, i: nat)
    requires i < |rs| && Selected(rs[i], today)
    ensures i in Found(rs, today)
  {
    if i < |rs| - 1 {
      assert rs[..|rs| - 1][i] == rs[i];
      FoundFindsSelected(rs[..|rs| - 1], today, i);
    }
  }

  /** Notifying the selected reminders among those the search finds is the
      whole run of the cron. */
  lemma FoundNotifiesAll(rs: seq<Reminder>, after: seq<Reminder>, today: ValidDate)
    requires |after| == |rs|
    requires forall i :: 0 <= i < |rs| ==>
      after[i] == if i in Found(rs, today) && Selected(rs[i], today) then Notified(rs[i], today) else rs[i]
    ensures after == AfterCron(rs, today)
  {
    forall i | 0 <= i < |rs|
      ensures after[i] == AfterCron(rs, today)[i]
    {
      if Selected(rs[i], today) {
        FoundFindsSelected(rs, today, i);
      }
    }
  }
}
