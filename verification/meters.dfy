/** The meters page: the landlord picker, the create and edit forms with
    the requests they send, the dialogs' state after each step, and the
    cells of the meters table. Empty optional fields are sent as absent
    (`value || undefined`), and absent ones are shown as empty fields. */
module Meters {
  import opened Wrappers
  import opened Types
  import opened Seqs

  /** The users offered as landlords: those whose role is landlord, each as
      often as the server listed it, in the order the server listed them. */
  function Landlords(users: seq<User>): (ls: seq<User>)
    ensures forall u :: u in ls <==> u in users && u.role == Landlord
    ensures forall u :: multiset(ls)[u] == if u.role == Landlord then multiset(users)[u] else 0
    ensures IsSubsequence(ls, users)
  {
    Filter(users, (u: User) => u.role == Landlord)
  }

  /** "name (phone)", or "phone (phone)" when the name is missing or empty. */
  function LandlordChoice(u: User): (c: Choice)
    ensures c.value == u.id
    ensures c.caption == OrElse(u.name, u.phoneNumber) + " (" + u.phoneNumber + ")"
  {
    Choice(u.id, OrElse(u.name, u.phoneNumber) + " (" + u.phoneNumber + ")")
  }

  function LandlordOptions(users: seq<User>): (options: seq<Choice>)
    ensures |options| == |Landlords(users)|
    ensures forall i :: 0 <= i < |options| ==> options[i] == LandlordChoice(Landlords(users)[i])
  {
    var ls := Landlords(users);
    seq(|ls|, i requires 0 <= i < |ls| => LandlordChoice(ls[i]))
  }

  /** Every id the landlord picker offers belongs to a landlord. */
  lemma PickerOffersOnlyLandlords(users: seq<User>, i: nat)
    requires i < |LandlordOptions(users)|
    ensures exists u :: u in users && u.role == Landlord && u.id == LandlordOptions(users)[i].value
  {
    var u := Landlords(users)[i];
    assert u in Landlords(users);
  }

  /** The create form, as typed. */
  datatype NewMeterEntry = NewMeterEntry(
    meterNumber: string, plotNumber: string, landlordId: string, coordinates: string, location: string)

  const BlankNewMeter := NewMeterEntry("", "", "", "", "")

  /** The body of a create-meter request. */
  datatype CreateRequest = CreateRequest(
    meterNumber: string, plotNumber: string, landlordId: string,
    coordinates: Option<string>, location: Option<string>)

  /** The request the create form sends: the optional fields are left out
      when empty. */
  function CreatePayload(e: NewMeterEntry): (req: CreateRequest)
    ensures req.meterNumber == e.meterNumber && req.plotNumber == e.plotNumber && req.landlordId == e.landlordId
    ensures req.coordinates.None? <==> e.coordinates == ""
    ensures req.location.None? <==> e.location == ""
  {
    CreateRequest(e.meterNumber, e.plotNumber, e.landlordId, EmptyToAbsent(e.coordinates), EmptyToAbsent(e.location))
  }

  /** Reading a create request back into the form it came from. */
  function EntryOf(req: CreateRequest): NewMeterEntry
  {
    NewMeterEntry(req.meterNumber, req.plotNumber, req.landlordId,
                  AbsentToEmpty(req.coordinates), AbsentToEmpty(req.location))
  }

  /** The create request loses nothing the form held. */
  lemma CreatePayloadRoundTrip(e: NewMeterEntry)
    ensures EntryOf(CreatePayload(e)) == e
  {
    AbsentToEmptyAfterEmptyToAbsent(e.coordinates);
    AbsentToEmptyAfterEmptyToAbsent(e.location);
  }

  /** The create dialog. */
  datatype CreateDialog = CreateDialog(open: bool, entry: NewMeterEntry, error: string)

  /** How a create or update request ended. */
  datatype Outcome = Saved | Refused(serverMessage: Option<string>)

  /** The create dialog after a submit: on success it closes with a blank
      form; on failure it stays as it was and shows the error. */
  function AfterCreate(d: CreateDialog, outcome: Outcome): (next: CreateDialog)
    ensures outcome.Saved? ==> next == CreateDialog(false, BlankNewMeter, "")
    ensures outcome.Refused? ==> next.open == d.open && next.entry == d.entry
                                 && next.error == OrElse(outcome.serverMessage, "Error creating meter")
    ensures outcome.Refused? ==> next.error != ""
  {
    match outcome
    case Saved => CreateDialog(false, BlankNewMeter, "")
    case Refused(m) => CreateDialog(d.open, d.entry, OrElse(m, "Error creating meter"))
  }

  /** Closing the create dialog discards the form and the error. */
  function CloseCreate(d: CreateDialog): (next: CreateDialog)
    ensures !next.open && next.entry == BlankNewMeter && next.error == ""
  {
    CreateDialog(false, BlankNewMeter, "")
  }

  /** A successful create and a close leave the dialog in the same state. */
  lemma SavedIsClosed(d: CreateDialog)
    ensures AfterCreate(d, Saved) == CloseCreate(d)
  {
  }

  /** The edit form, as typed. */
  datatype EditEntry = EditEntry(plotNumber: string, location: string, coordinates: string, isActive: bool)

  const BlankEdit := EditEntry("", "", "", true)

  /** The edit dialog: the meter being edited, if any, and the form. */
  datatype EditDialog = EditDialog(open: bool, target: Option<Meter>, entry: EditEntry)

  /** Opening the editor on a meter fills the form from it; a missing or
      empty location or coordinate becomes an empty field. */
  function EditPrefill(m: Meter): (e: EditEntry)
    ensures e.plotNumber == m.plotNumber && e.isActive == m.isActive
    ensures e.location == "" <==> !Truthy(m.location)
    ensures e.coordinates == "" <==> !Truthy(m.coordinates)
    ensures e.location != "" ==> e.location == m.location.value
    ensures e.coordinates != "" ==> e.coordinates == m.coordinates.value
  {
    EditEntry(m.plotNumber, OrElse(m.location, ""), OrElse(m.coordinates, ""), m.isActive)
  }

  function OpenEditor(m: Meter): (d: EditDialog)
    ensures d.open && d.target == Some(m) && d.entry == EditPrefill(m)
  {
    EditDialog(true, Some(m), EditPrefill(m))
  }

  /** The body of an update request; every field may be absent. */
  datatype UpdateRequest = UpdateRequest(
    plotNumber: Option<string>, coordinates: Option<string>, location: Option<string>, isActive: Option<bool>)

  /** The request the edit form sends: the plot number and the active flag
      always, the location and the coordinates only when non-empty, so an
      emptied field is not sent at all. */
  function UpdatePayload(e: EditEntry): (req: UpdateRequest)
    ensures req.plotNumber == Some(e.plotNumber) && req.isActive == Some(e.isActive)
    ensures req.location.None? <==> e.location == ""
    ensures req.coordinates.None? <==> e.coordinates == ""
    ensures req.location.Some? ==> req.location.value == e.location
    ensures req.coordinates.Some? ==> req.coordinates.value == e.coordinates
  {
    UpdateRequest(Some(e.plotNumber), EmptyToAbsent(e.coordinates), EmptyToAbsent(e.location), Some(e.isActive))
  }

  /** Submitting the editor: the meter's id and the request, or nothing
      when no meter is being edited. */
  function EditSubmit(d: EditDialog): (sent: Option<(string, UpdateRequest)>)
    ensures sent.None? <==> d.target.None?
    ensures sent.Some? ==> sent.value == (d.target.value.id, UpdatePayload(d.entry))
  {
    match d.target
    case None => None
    case Some(m) => Some((m.id, UpdatePayload(d.entry)))
  }

  /** Saving the editor unchanged sends the meter's own values: its plot
      number and active flag, and its location and coordinates exactly when
      they are present and non-empty. */
  lemma UnchangedEditSendsOwnValues(m: Meter)
    ensures EditSubmit(OpenEditor(m)) == Some((m.id, UpdateRequest(
              Some(m.plotNumber),
              if Truthy(m.coordinates) then m.coordinates else None,
              if Truthy(m.location) then m.location else None,
              Some(m.isActive))))
  {
    EmptyToAbsentAfterAbsentToEmpty(m.location);
    EmptyToAbsentAfterAbsentToEmpty(m.coordinates);
  }

  /** Emptying a meter's location in the editor sends the very request an
      unchanged edit of the same meter without a location would send: the
      form cannot ask for a location to be removed. */
  lemma ClearedLocationNotSent(m: Meter)
    requires Truthy(m.location)
    ensures UpdatePayload(EditPrefill(m).(location := "")).location.None?
    ensures UpdatePayload(EditPrefill(m).(location := "")) == UpdatePayload(EditPrefill(m.(location := None)))
  {
  }

  /** The edit dialog after a submit: it closes on success and stays open
      on failure, which is reported in an alert. */
  function AfterEdit(d: EditDialog, outcome: Outcome): (next: EditDialog)
    ensures outcome.Saved? ==> !next.open
    ensures outcome.Refused? ==> next == d
    ensures next.target == d.target && next.entry == d.entry
  {
    match outcome
    case Saved => d.(open := false)
    case Refused(_) => d
  }

  function EditAlert(serverMessage: Option<string>): (text: string)
    ensures Truthy(serverMessage) ==> text == serverMessage.value
    ensures !Truthy(serverMessage) ==> text == "Error updating meter"
  {
    OrElse(serverMessage, "Error updating meter")
  }

  /** Closing the editor forgets the meter and resets the form, with the
      active box ticked. */
  function CloseEditor(d: EditDialog): (next: EditDialog)
    ensures !next.open && next.target.None? && next.entry == BlankEdit && next.entry.isActive
  {
    EditDialog(false, None, BlankEdit)
  }

  /** A closed editor sends nothing when submitted. */
  lemma ClosedEditorSendsNothing(d: EditDialog)
    ensures EditSubmit(CloseEditor(d)).None?
  {
  }

  /** The cells of one row of the meters table. */
  datatype Row = Row(meterNumber: string, plotNumber: string, landlordName: string, landlordPhone: string,
                     location: string, status: string, statusColor: string, readings: nat, bills: nat)

  function MeterRow(m: Meter): (row: Row)
    ensures row.landlordName == OrElse(m.landlord.name, "No Name")
    ensures row.location == OrElse(m.location, "-")
    ensures m.counts.None? ==> row.readings == 0 && row.bills == 0
  {
    Row(m.meterNumber, m.plotNumber,
        OrElse(m.landlord.name, "No Name"), m.landlord.phoneNumber,
        OrElse(m.location, "-"),
        if m.isActive then "Active" else "Inactive",
        if m.isActive then "bg-green-100 text-green-800" else "bg-red-100 text-red-800",
        if m.counts.Some? then m.counts.value.readings else 0,
        if m.counts.Some? then m.counts.value.bills else 0)
  }

  /** The status cell and its colour agree with the meter's flag, and the
      row's counts are the server's counts when it sent them. */
  lemma RowReflectsMeter(m: Meter)
    ensures MeterRow(m).status == "Active" <==> m.isActive
    ensures MeterRow(m).statusColor == "bg-green-100 text-green-800" <==> MeterRow(m).status == "Active"
    ensures m.counts.Some? ==> MeterRow(m).readings == m.counts.value.readings && MeterRow(m).bills == m.counts.value.bills
  {
  }
}
