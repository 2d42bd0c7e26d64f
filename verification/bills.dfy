/** The bills page: the client-side overdue flag, the status badge colours,
    which actions a user is offered, the status filter, and the CSV export. */
module Bills {
  import opened Wrappers
  import opened Types
  import opened Csv
  import Api
  import Text
  import Routes

  /** A bill is flagged overdue while it is still pending and its due date
      lies strictly before the current time `now`. */
  function IsOverdue(dueDate: int, status: BillStatus, now: int): (flag: bool)
    ensures status != Pending ==> !flag
    ensures status == Pending ==> (flag <==> dueDate < now)
  {
    status == Pending && dueDate < now
  }

  /** As time passes an overdue flag never clears, and no due date is
      flagged at or before its own instant. */
  lemma OverdueStaysOverdue(dueDate: int, status: BillStatus, now: int, later: int)
    requires now <= later
    ensures IsOverdue(dueDate, status, now) ==> IsOverdue(dueDate, status, later)
    ensures !IsOverdue(dueDate, status, dueDate)
  {
  }

  const StatusGray := "bg-gray-100 text-gray-800"

  /** Badge colour of a status given as a raw string. */
  function StatusColor(status: string): (c: string)
    ensures c == StatusGray <==> ParseStatus(status).None?
    ensures ParseStatus(status) == Some(Paid) ==> c == "bg-green-100 text-green-800"
    ensures ParseStatus(status) == Some(Pending) ==> c == "bg-yellow-100 text-yellow-800"
    ensures ParseStatus(status) == Some(Overdue) ==> c == "bg-red-100 text-red-800"
  {
    match status
    case "PAID" => "bg-green-100 text-green-800"
    case "PENDING" => "bg-yellow-100 text-yellow-800"
    case "OVERDUE" => "bg-red-100 text-red-800"
    case _ => StatusGray
  }

  /** Distinct statuses get distinct badges. */
  lemma StatusColorInjective(a: BillStatus, b: BillStatus)
    ensures StatusColor(StatusName(a)) == StatusColor(StatusName(b)) <==> a == b
  {
  }

  /** Whether a bill row (and the bill detail view) offers "Mark Paid". */
  function OffersMarkPaid(role: Option<Role>, status: BillStatus): (offered: bool)
    ensures offered ==> role == Some(Admin)
    ensures role == Some(Admin) ==> (offered <==> status != Paid)
  {
    role == Some(Admin) && status != Paid
  }

  /** Overdue bills stay payable, paid bills are never offered again, and no
      one but an administrator is offered the action. */
  lemma MarkPaidReachesOverdue(role: Option<Role>)
    ensures OffersMarkPaid(Some(Admin), Overdue) && OffersMarkPaid(Some(Admin), Pending)
    ensures !OffersMarkPaid(role, Paid)
    ensures role != Some(Admin) ==> forall s :: !OffersMarkPaid(role, s)
  {
  }

  /** The administrator's quick-actions card: "Update Overdue Bills" and
      "Export Bills Report", the latter enabled only when bills are listed. */
  datatype QuickActions = QuickActions(updateOverdue: bool, exportEnabled: bool)

  function QuickActionsFor(role: Option<Role>, bills: seq<Bill>): (card: Option<QuickActions>)
    ensures card.Some? <==> role == Some(Admin)
    ensures card.Some? ==> card.value.updateOverdue
    ensures card.Some? ==> (card.value.exportEnabled <==> |bills| > 0)
  {
    if role == Some(Admin) then Some(QuickActions(true, |bills| != 0)) else None
  }

  /** The page's actions stay inside its route guard: whoever is offered
      "Mark Paid" or the quick-actions card is a role the bills route
      admits, and the landlord, whom the route also admits, is offered
      neither. */
  lemma ActionsWithinGuard(role: Option<Role>, status: BillStatus, bills: seq<Bill>)
    ensures OffersMarkPaid(role, status) ==> role.Some? && role.value in Routes.AdmittedRoles("/bills").value
    ensures QuickActionsFor(role, bills).Some? ==> role.Some? && role.value in Routes.AdmittedRoles("/bills").value
    ensures Landlord in Routes.AdmittedRoles("/bills").value
    ensures !OffersMarkPaid(Some(Landlord), status) && QuickActionsFor(Some(Landlord), bills).None?
  {
    Routes.RouteTableFacts();
  }

  /** The status a list request is filtered by: the select's value, where
      the "All Bills" option (the empty string) means no filter. */
  function StatusFilterParam(selected: string): (status: Option<string>)
    ensures status.None? <==> selected == ""
    ensures status.Some? ==> status.value == selected
  {
    EmptyToAbsent(selected)
  }

  /** Choosing "All Bills" sends no status parameter; any other choice sends
      exactly the chosen status. */
  lemma AllBillsSendsNoStatus(selected: string)
    ensures ("status" in Api.BillsQuery(StatusFilterParam(selected), None, None, None)) <==> selected != ""
    ensures selected != "" ==> Api.BillsQuery(StatusFilterParam(selected), None, None, None)["status"] == selected
  {
  }

  /** The page's subtitle: landlords view their bills, everyone else manages them. */
  function Subtitle(role: Option<Role>): (text: string)
    ensures text == "View your electricity bills and payment status" <==> role == Some(Landlord)
    ensures role != Some(Landlord) ==> text == "Manage electricity bills and payments"
  {
    if role == Some(Landlord) then "View your electricity bills and payment status"
    else "Manage electricity bills and payments"
  }

  /** The alert after a failed "Mark Paid": the server's error text, or a
      fixed fallback when the server sent none (or an empty one). */
  function MarkPaidAlert(serverMessage: Option<string>): (text: string)
    ensures Truthy(serverMessage) ==> text == serverMessage.value
    ensures !Truthy(serverMessage) ==> text == "Error marking bill as paid"
  {
    OrElse(serverMessage, "Error marking bill as paid")
  }

  /** The outcome of "Update Overdue Bills": the number of bills the server
      moved to overdue, or the error it answered with. */
  datatype OverdueUpdate = Updated(count: nat) | Failed(serverMessage: Option<string>)

  function UpdateOverdueAlert(outcome: OverdueUpdate): (text: string)
    ensures outcome.Failed? && !Truthy(outcome.serverMessage) ==> text == "Error updating overdue bills"
    ensures outcome.Failed? && Truthy(outcome.serverMessage) ==> text == outcome.serverMessage.value
  {
    match outcome
    case Updated(n) => "Updated " + Text.Decimal(n) + " overdue bills successfully!"
    case Failed(m) => OrElse(m, "Error updating overdue bills")
  }

  /** The success alert names the exact number of bills updated: the count
      reads back from the text between the fixed prefix and suffix. */
  lemma UpdateOverdueAlertCount(n: nat)
    requires n <= Text.MaxSafeInteger
    ensures var text := UpdateOverdueAlert(Updated(n));
            && |text| > |"Updated "| + |" overdue bills successfully!"|
            && text[..|"Updated "|] == "Updated "
            && Text.ParseDecimal(text[|"Updated "|..|text| - |" overdue bills successfully!"|]) == Some(n)
  {
    var digits := Text.Decimal(n);
    var text := UpdateOverdueAlert(Updated(n));
    assert text == "Updated " + digits + " overdue bills successfully!";
    assert text[|"Updated "|..|text| - |" overdue bills successfully!"|] == digits;
    Text.DecimalRoundTrip(n);
  }

  /** What the printable bill shows besides the fixed figures: the customer
      name, the meter's location line, the "Paid on" line, and the file it
      is saved under. */
  datatype Sheet = Sheet(customer: string, location: Option<string>, paidOn: Option<string>, fileName: string)

  function BillSheet(b: Bill, fmt: Formats): (sheet: Sheet)
    ensures sheet.customer == OrElse(b.landlord.name, "N/A")
    ensures sheet.location.Some? <==> Truthy(b.meter.location)
    ensures sheet.location.Some? ==> sheet.location.value == b.meter.location.value
    ensures sheet.paidOn.Some? <==> b.status == Paid && b.paidDate.Some?
    ensures sheet.paidOn.Some? ==> sheet.paidOn.value == fmt.shortDate(b.paidDate.value)
  {
    Sheet(
      OrElse(b.landlord.name, "N/A"),
      if Truthy(b.meter.location) then b.meter.location else None,
      if b.status == Paid && b.paidDate.Some? then Some(fmt.shortDate(b.paidDate.value)) else None,
      "bill-" + b.billNumber + ".html")
  }

  /** The printable bill and the export agree on the customer column, and
      the sheet's file name identifies the bill. */
  lemma SheetAgreesWithExport(b: Bill, c: Bill, fmt: Formats)
    ensures BillSheet(b, fmt).customer == Cells(b, fmt)[3]
    ensures BillSheet(b, fmt).fileName == BillSheet(c, fmt).fileName <==> b.billNumber == c.billNumber
  {
    var x, y := "bill-" + b.billNumber + ".html", "bill-" + c.billNumber + ".html";
    if x == y {
      assert |b.billNumber| == |c.billNumber|;
      assert b.billNumber == x[5..|x| - 5];
      assert c.billNumber == y[5..|y| - 5];
    }
  }

  // ---------------------------------------------------------------------
  // CSV export

  /** The export's column headings, in order. */
  function Columns(): seq<string>
  {
    [ "Bill Number", "Meter Number", "Plot Number", "Landlord Name", "Landlord Phone",
      "Units Consumed", "Rate per Unit", "Total Amount", "Bill Date", "Due Date",
      "Status", "Paid Date" ]
  }

  /** The twelve cells of one bill, column by column. A missing (or empty)
      landlord name and a missing paid date read "N/A"; a missing bill date
      falls back to the creation date. */
  function Cells(b: Bill, fmt: Formats): (cells: seq<string>)
    ensures |cells| == |Columns()|
    ensures cells[3] == "N/A" <==> !Truthy(b.landlord.name) || b.landlord.name == Some("N/A")
    ensures b.paidDate.None? ==> cells[11] == "N/A"
    ensures b.paidDate.Some? ==> cells[11] == fmt.date(b.paidDate.value)
    ensures cells[8] == fmt.date(if b.billDate.Some? then b.billDate.value else b.createdAt)
    ensures cells[0] == b.billNumber && cells[10] == StatusName(b.status)
  {
    [ b.billNumber,
      b.meter.meterNumber,
      b.meter.plotNumber,
      OrElse(b.landlord.name, "N/A"),
      b.landlord.phoneNumber,
      fmt.number(b.unitsConsumed),
      fmt.number(b.ratePerUnit),
      fmt.number(b.totalAmount),
      fmt.date(b.billDate.GetOr(b.createdAt)),
      fmt.date(b.dueDate),
      StatusName(b.status),
      match b.paidDate case Some(d) => fmt.date(d) case None => "N/A" ]
  }

  /** The cells of every bill, in list order. */
  function AllCells(bills: seq<Bill>, fmt: Formats): (rows: seq<seq<string>>)
    ensures |rows| == |bills|
    ensures forall i :: 0 <= i < |bills| ==> rows[i] == Cells(bills[i], fmt)
  {
    if |bills| == 0 then [] else [Cells(bills[0], fmt)] + AllCells(bills[1..], fmt)
  }

  /** The heading row: taken from the first bill's record, so empty when
      there is no bill. */
  function Header(bills: seq<Bill>): seq<string>
  {
    if |bills| == 0 then [] else Columns()
  }

  /** The exported text as the page builds it: the bare heading row, then one
      line per bill with every cell wrapped in double quotes, lines joined by
      line feeds. Quotes inside a cell are not escaped. */
  function ExportCsv(bills: seq<Bill>, fmt: Formats): string
  {
    Join([Join(Header(bills), ",")] + MapEach(AllCells(bills, fmt), QuotedRecord), "\n")
  }

  /** The same export with quotes inside cells doubled. */
  function ExportCsvEscaped(bills: seq<Bill>, fmt: Formats): string
  {
    Join([Join(Header(bills), ",")] + MapEach(AllCells(bills, fmt), EscapedRecord), "\n")
  }

  /** Reads an export back: the heading row up to the first line feed, split
      on commas, then the quoted records after it. The empty text is the
      export of no bills. */
  function ReadExport(text: string): Option<(seq<string>, seq<seq<string>>)>
  {
    if text == "" then Some(([], []))
    else match FindChar(text, '\n')
      case None => Some((Split(text, ','), []))
      case Some(k) =>
        match ReadRecords(text[k + 1..])
        case None => None
        case Some(rows) => Some((Split(text[..k], ','), rows))
  }

  /** No cell of any bill contains a double quote. */
  predicate QuoteFree(bills: seq<Bill>, fmt: Formats)
  {
    forall i, k :: 0 <= i < |bills| && 0 <= k < |Columns()| ==> '"' !in Cells(bills[i], fmt)[k]
  }

  /** Headings contain neither commas nor line feeds. */
  lemma ColumnsArePlain()
    ensures forall k :: 0 <= k < |Columns()| ==> ',' !in Columns()[k] && '\n' !in Columns()[k]
  {
  }

  /** Reading back an escaped export gives the headings and every bill's
      cells, in order, whatever the cells hold. */
  lemma EscapedExportRoundTrip(bills: seq<Bill>, fmt: Formats)
    ensures ReadExport(ExportCsvEscaped(bills, fmt)) == Some((Header(bills), AllCells(bills, fmt)))
  {
    if |bills| == 0 {
      assert [Join(Header(bills), ",")] + MapEach(AllCells(bills, fmt), EscapedRecord) == [""];
    } else {
      var header, rows := Header(bills), AllCells(bills, fmt);
      ColumnsArePlain();
      ReadBack(header, rows);
    }
  }

  /** A plain heading line followed by escaped records reads back as the
      headings and the records. */
  lemma ReadBack(header: seq<string>, rows: seq<seq<string>>)
    requires |header| >= 1
    requires forall k :: 0 <= k < |header| ==> ',' !in header[k] && '\n' !in header[k]
    requires |rows| >= 1 && forall i :: 0 <= i < |rows| ==> |rows[i]| >= 1
    ensures ReadExport(Join([Join(header, ",")] + MapEach(rows, EscapedRecord), "\n")) == Some((header, rows))
  {
    var lines := MapEach(rows, EscapedRecord);
    var head := Join(header, ",");
    var body := Join(lines, "\n");
    var text := Join([head] + lines, "\n");
    assert ([head] + lines)[1..] == lines;
    assert text == head + "\n" + body;
    NoLineFeedInJoin(header, ",");
    FindLineFeed(head, body);
    assert text[..|head|] == head;
    assert text[|head| + 1..] == body;
    SplitJoin(header, ',');
    ReadEscapedRecords(rows);
  }

  /** The first line feed of `head + "\n" + body` is the one after `head`. */
  lemma FindLineFeed(head: string, body: string)
    requires '\n' !in head
    ensures FindChar(head + "\n" + body, '\n') == Some(|head|)
  {
    var text := head + "\n" + body;
    assert text[..|head|] == head;
    assert text[|head|] == '\n';
  }

  /** Joining line-feed-free parts with a comma gives a line-feed-free line. */
  lemma {:induction false} NoLineFeedInJoin(parts: seq<string>, sep: string)
    requires forall k :: 0 <= k < |parts| ==> '\n' !in parts[k]
    requires '\n' !in sep
    ensures '\n' !in Join(parts, sep)
    decreases |parts|
  {
    if |parts| > 1 {
      NoLineFeedInJoin(parts[1..], sep);
    }
  }

  /** Reading back the export as the page writes it gives the headings and
      every bill's cells, provided no cell contains a double quote. */
  lemma ExportRoundTripWithoutQuotes(bills: seq<Bill>, fmt: Formats)
    requires QuoteFree(bills, fmt)
    ensures ReadExport(ExportCsv(bills, fmt)) == Some((Header(bills), AllCells(bills, fmt)))
  {
    assert ExportCsv(bills, fmt) == ExportCsvEscaped(bills, fmt) by {
      QuoteFreeRows(bills, fmt);
    }
    EscapedExportRoundTrip(bills, fmt);
  }

  /** Without quotes in any cell, every line of the export is the same
      whether quotes are escaped or not. */
  lemma QuoteFreeRows(bills: seq<Bill>, fmt: Formats)
    requires QuoteFree(bills, fmt)
    ensures MapEach(AllCells(bills, fmt), QuotedRecord) == MapEach(AllCells(bills, fmt), EscapedRecord)
  {
    var rows := AllCells(bills, fmt);
    assert forall i, k :: 0 <= i < |rows| && 0 <= k < |rows[i]| ==> '"' !in rows[i][k] by {
      forall i, k | 0 <= i < |rows| && 0 <= k < |rows[i]|
        ensures '"' !in rows[i][k]
      {
        assert rows[i] == Cells(bills[i], fmt);
      }
    }
    QuotedRowsAreEscaped(rows);
  }

  lemma QuotedRowsAreEscaped(rows: seq<seq<string>>)
    requires forall i, k :: 0 <= i < |rows| && 0 <= k < |rows[i]| ==> '"' !in rows[i][k]
    ensures MapEach(rows, QuotedRecord) == MapEach(rows, EscapedRecord)
  {
    forall i | 0 <= i < |rows|
      ensures QuotedRecord(rows[i]) == EscapedRecord(rows[i])
    {
      QuotedIsEscapedWithoutQuotes(rows[i]);
    }
  }

  /** With no bills the export is the empty text. */
  lemma EmptyExport(fmt: Formats)
    ensures ExportCsv([], fmt) == ""
  {
    assert [Join(Header([]), ",")] + MapEach(AllCells([], fmt), QuotedRecord) == [""];
  }
  /** A line starting with the bare-quoted cell `Q"A` does not read as a
      record: the reader ends the cell at the inner quote and finds `A`
      where a comma or the end of the line should be. */
  lemma QuotedLineBreaks(more: string)
    ensures ReadRecords("\"Q\"A\"," + more) == None
  {
    var line := "\"Q\"A\"," + more;
    assert line[1..] == "Q\"A\"," + more;
    var t := line[1..][1..];
    assert t == "\"A\"," + more;
    assert t[0] == '"' && t[1] == 'A' && t[1..] == "A\"," + more;
    assert ReadQuoted(t) == Some(("", "A\"," + more));
    assert line[1..][0] == 'Q' && [line[1..][0]] + "" == "Q";
    assert ReadQuoted(line[1..]) == Some(("Q", "A\"," + more));
    assert ReadField(line) == Some(("Q", "A\"," + more));
    assert ReadRecord(line) == None;
  }

  /** A bill number holding a double quote breaks the export as written:
      the reader takes the quote for the end of the cell, and the line no
      longer reads as a record. */
  lemma QuoteBreaksExport(b: Bill, fmt: Formats)
    requires b.billNumber == "Q\"A"
    ensures ReadExport(ExportCsv([b], fmt)) == None
    ensures ReadExport(ExportCsvEscaped([b], fmt)) == Some((Columns(), [Cells(b, fmt)]))
  {
    var cells := Cells(b, fmt);
    var line := QuotedRecord(cells);
    var quoted := MapEach(cells, Quote);
    var more := Join(quoted[1..], ",");
    assert line == Quote("Q\"A") + "," + more;
    assert line == "\"Q\"A\"," + more;
    QuotedLineBreaks(more);
    var head := Join(Columns(), ",");
    var lines := MapEach([cells], QuotedRecord);
    assert lines == [line];
    assert AllCells([b], fmt) == [cells];
    assert Join([head] + lines, "\n") == head + "\n" + line;
    ColumnsArePlain();
    NoLineFeedInJoin(Columns(), ",");
    FindLineFeed(head, line);
    assert (head + "\n" + line)[|head| + 1..] == line;
    EscapedExportRoundTrip([b], fmt);
  }
}
