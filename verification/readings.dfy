/** The meter readings page: who may record a reading, the summary counts,
    the meter picker, the request the page sends, what the dialog shows
    after a submit, and the cells of the readings table. The current time
    and the calendar are parameters: `dayOf` maps a timestamp to the local
    calendar day `toDateString` would name. */
module Readings {
  import opened Wrappers
  import opened Types
  import opened Seqs
  import Api
  import Routes
  import Csv

  /** Whether the "Record New Reading" button is shown. */
  function CanRecord(role: Option<Role>): (shown: bool)
    ensures shown <==> role == Some(Technician) || role == Some(Admin)
  {
    role == Some(Technician) || role == Some(Admin)
  }

  /** Exactly the roles the readings route admits are offered the button. */
  lemma RecordMatchesGuard(role: Role)
    ensures CanRecord(Some(role)) <==> role in Routes.AdmittedRoles("/readings").value
  {
    Routes.RouteTableFacts();
  }

  /** The page's subtitle. */
  function Subtitle(role: Option<Role>): (text: string)
    ensures text == "Record new meter readings and view your reading history" <==> role == Some(Technician)
    ensures role != Some(Technician) ==> text == "View all meter readings in the system"
  {
    if role == Some(Technician) then "Record new meter readings and view your reading history"
    else "View all meter readings in the system"
  }

  /** The "Active Meters" card. */
  function ActiveMeters(meters: seq<Meter>): (n: nat)
    ensures n <= |meters|
    ensures n == |Filter(meters, (m: Meter) => m.isActive)|
    ensures n == 0 <==> forall i :: 0 <= i < |meters| ==> !meters[i].isActive
  {
    FilterLength(meters, (m: Meter) => m.isActive);
    Count(meters, (m: Meter) => m.isActive)
  }

  /** The "Today's Readings" card: readings whose reading date falls on the
      same calendar day as `now`. */
  function TodayCount(readings: seq<MeterReading>, now: int, dayOf: int -> int): (n: nat)
    ensures n <= |readings|
    ensures n == |Filter(readings, (r: MeterReading) => dayOf(r.readingDate) == dayOf(now))|
  {
    FilterLength(readings, (r: MeterReading) => dayOf(r.readingDate) == dayOf(now));
    Count(readings, (r: MeterReading) => dayOf(r.readingDate) == dayOf(now))
  }

  /** A new reading counts towards today exactly when it is dated today. */
  lemma {:induction false} TodayCountAppend(readings: seq<MeterReading>, r: MeterReading, now: int, dayOf: int -> int)
    ensures TodayCount(readings + [r], now, dayOf)
              == TodayCount(readings, now, dayOf) + (if dayOf(r.readingDate) == dayOf(now) then 1 else 0)
  {
    OccurrencesAppend(readings, r, (x: MeterReading) => dayOf(x.readingDate) == dayOf(now));
  }

  lemma {:induction false} OccurrencesAppend<T>(xs: seq<T>, x: T, p: T -> bool)
    ensures Occurrences(xs + [x], p) == Occurrences(xs, p) + (if p(x) then 1 else 0)
    decreases |xs|
  {
    if |xs| > 0 {
      assert (xs + [x])[1..] == xs[1..] + [x];
      OccurrencesAppend(xs[1..], x, p);
    } else {
      assert xs + [x] == [x];
      assert [x][1..] == [];
    }
  }

  /** A meter's entry: its id, and "number - plot (landlord)", the landlord
      named by name or, failing that, by phone number. */
  function MeterChoice(m: Meter): (c: Choice)
    ensures c.value == m.id
    ensures c.caption == m.meterNumber + " - " + m.plotNumber + " (" + OrElse(m.landlord.name, m.landlord.phoneNumber) + ")"
  {
    Choice(m.id, m.meterNumber + " - " + m.plotNumber + " (" + OrElse(m.landlord.name, m.landlord.phoneNumber) + ")")
  }

  function MeterOptions(meters: seq<Meter>): (options: seq<Choice>)
    ensures |options| == |meters|
    ensures forall i :: 0 <= i < |meters| ==> options[i] == MeterChoice(meters[i])
  {
    if |meters| == 0 then [] else [MeterChoice(meters[0])] + MeterOptions(meters[1..])
  }

  /** The meter a picker value stands for: the first meter with that id. */
  function MeterById(meters: seq<Meter>, id: string): (m: Option<Meter>)
    ensures m.Some? ==> m.value in meters && m.value.id == id
    ensures m.None? ==> forall i :: 0 <= i < |meters| ==> meters[i].id != id
  {
    if |meters| == 0 then None
    else if meters[0].id == id then Some(meters[0])
    else MeterById(meters[1..], id)
  }

  /** With distinct ids, choosing the i-th entry of the picker selects the
      i-th meter. */
  lemma {:induction false} ChoosingPicksMeter(meters: seq<Meter>, i: nat)
    requires i < |meters|
    requires forall j, k :: 0 <= j < k < |meters| ==> meters[j].id != meters[k].id
    ensures MeterById(meters, MeterOptions(meters)[i].value) == Some(meters[i])
    decreases i
  {
    if i > 0 {
      assert meters[0].id != meters[i].id;
      assert meters[1..][i - 1] == meters[i];
      ChoosingPicksMeter(meters[1..], i - 1);
      assert MeterOptions(meters[1..])[i - 1].value == meters[i].id;
    }
  }

  /** The multipart body the page actually sends: the page passes no photo,
      so the photo part is the text "undefined" that `FormData.append`
      makes of a missing value. */
  function PageReadingForm(meterId: string, reading: real, fmt: Formats): (form: seq<Api.FormPart>)
    ensures |form| == 3
  {
    [Api.TextPart("meterId", meterId), Api.TextPart("reading", fmt.number(reading)), Api.TextPart("photo", "undefined")]
  }

  /** The page's body carries no file, while the body the client layer
      expects carries the photo; the two agree on the other fields. */
  lemma PageSendsNoPhoto(meterId: string, reading: real, photo: Api.Photo, fmt: Formats)
    ensures forall part :: part in PageReadingForm(meterId, reading, fmt) ==> !part.FilePart?
    ensures Api.ReadingForm(meterId, reading, photo, fmt)[2] == Api.FilePart("photo", photo)
    ensures PageReadingForm(meterId, reading, fmt)[..2] == Api.ReadingForm(meterId, reading, photo, fmt)[..2]
  {
  }

  /** The bill the server reports with a new reading, when one was raised. */
  datatype BillNotice = BillNotice(totalAmount: real, unitsConsumed: real)

  const Recorded := "Reading recorded successfully!"

  /** The message after a reading is recorded. */
  function SuccessMessage(bill: Option<BillNotice>, fmt: Formats): (text: string)
    ensures |text| >= |Recorded| && text[..|Recorded|] == Recorded
    ensures bill.None? <==> text == Recorded
    ensures bill.Some? ==>
              text == Recorded + " A bill of KES " + fmt.fixed2(bill.value.totalAmount)
                      + " has been generated for " + fmt.number(bill.value.unitsConsumed) + " units consumed."
  {
    match bill
    case None => Recorded
    case Some(b) =>
      var text := Recorded + " A bill of KES " + fmt.fixed2(b.totalAmount)
                  + " has been generated for " + fmt.number(b.unitsConsumed) + " units consumed.";
      assert |text| > |Recorded|;
      text
  }

  /** The opening of the sentence that announces a bill. */
  const BillOpening := Recorded + " A bill of KES "

  /** Reads the bill amount back out of a success message: the text after
      the bill sentence's opening up to the next space, or `None` when the
      message announces no bill. */
  function AmountOf(text: string): Option<string>
  {
    if |text| >= |BillOpening| && text[..|BillOpening|] == BillOpening then
      var rest := text[|BillOpening|..];
      match Csv.FindChar(rest, ' ')
      case Some(k) => Some(rest[..k])
      case None => None
    else None
  }

  /** The message announces the raised bill's amount so that it reads back
      exactly (a `toFixed(2)` rendering holds no space), and the plain
      message announces none. */
  lemma SuccessMessageNamesAmount(bill: Option<BillNotice>, fmt: Formats)
    requires bill.Some? ==> ' ' !in fmt.fixed2(bill.value.totalAmount)
    ensures AmountOf(SuccessMessage(bill, fmt)) == if bill.Some? then Some(fmt.fixed2(bill.value.totalAmount)) else None
  {
    if bill.Some? {
      var a := fmt.fixed2(bill.value.totalAmount);
      var tail := " has been generated for " + fmt.number(bill.value.unitsConsumed) + " units consumed.";
      var text := SuccessMessage(bill, fmt);
      assert text == BillOpening + (a + tail);
      assert text[|BillOpening|..] == a + tail;
      assert (a + tail)[..|a|] == a;
      Csv.FindCharAfter(a, tail, ' ');
    }
  }

  /** The two fields of the record-reading form, as typed. */
  datatype ReadingEntry = ReadingEntry(meterId: string, reading: string)

  const EmptyEntry := ReadingEntry("", "")

  /** The record-reading dialog. */
  datatype Dialog = Dialog(open: bool, entry: ReadingEntry, error: string, success: Option<string>)

  /** How the create request ended. */
  datatype Outcome = Created(bill: Option<BillNotice>) | Refused(serverMessage: Option<string>)

  /** The dialog after a submit: on success the form is cleared and the
      success message shown; on failure the form is kept and the error shown. */
  function AfterSubmit(d: Dialog, outcome: Outcome, fmt: Formats): (next: Dialog)
    ensures next.open == d.open
    ensures outcome.Created? ==> next.entry == EmptyEntry && next.error == ""
                                 && next.success == Some(SuccessMessage(outcome.bill, fmt))
    ensures outcome.Refused? ==> next.entry == d.entry && next.success.None?
                                 && next.error == OrElse(outcome.serverMessage, "Error recording reading")
    ensures next.error != "" || next.success.Some?
  {
    match outcome
    case Created(bill) => Dialog(d.open, EmptyEntry, "", Some(SuccessMessage(bill, fmt)))
    case Refused(m) => Dialog(d.open, d.entry, OrElse(m, "Error recording reading"), None)
  }

  /** Closing the dialog clears it, whatever state it was in. */
  function CloseDialog(d: Dialog): (next: Dialog)
    ensures !next.open && next.entry == EmptyEntry && next.error == "" && next.success.None?
  {
    Dialog(false, EmptyEntry, "", None)
  }

  /** A submit never leaves the dialog showing an error and a success
      message at once, and closing after any submit gives the same dialog. */
  lemma SubmitThenClose(d: Dialog, o1: Outcome, o2: Outcome, fmt: Formats)
    ensures var next := AfterSubmit(d, o1, fmt); next.error == "" <==> next.success.Some?
    ensures CloseDialog(AfterSubmit(d, o1, fmt)) == CloseDialog(AfterSubmit(d, o2, fmt))
  {
    match o1
    case Created(_) =>
    case Refused(m) =>
      assert OrElse(m, "Error recording reading") != "";
  }

  /** The cells of one row of the readings table. */
  datatype Row = Row(meterNumber: string, plotNumber: string, reading: string, previous: string,
                     consumed: string, technician: string, phone: string, date: string)

  function ReadingRow(r: MeterReading, fmt: Formats): (row: Row)
    ensures row.reading == fmt.localeNumber(r.reading)
    ensures row.previous == "-" <==> r.previousReading.None? || fmt.localeNumber(r.previousReading.value) in {"", "-"}
    ensures r.unitsConsumed.None? ==> row.consumed == "0 kWh"
    ensures r.unitsConsumed.Some? && fmt.localeNumber(r.unitsConsumed.value) != "" ==>
              row.consumed == fmt.localeNumber(r.unitsConsumed.value) + " kWh"
    ensures row.technician == OrElse(r.technician.name, "Technician")
    ensures row.date == fmt.dateTime(r.readingDate)
  {
    Row(r.meter.meterNumber,
        r.meter.plotNumber,
        fmt.localeNumber(r.reading),
        match r.previousReading case Some(p) => OrElse(Some(fmt.localeNumber(p)), "-") case None => "-",
        (match r.unitsConsumed case Some(u) => OrElse(Some(fmt.localeNumber(u)), "0") case None => "0") + " kWh",
        OrElse(r.technician.name, "Technician"),
        r.technician.phoneNumber,
        fmt.dateTime(r.readingDate))
  }
}
