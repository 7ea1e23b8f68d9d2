/** The administrator's dashboard of frontend/src/pages/AdminDashboard.js:
    the two CSV exports, which status actions a booking offers, the status
    badge and the recent-activity marker, the zero defaults of the summary
    cards, the first-five recent list, and the state the data load, the
    status update and the contact delete leave behind. Server answers are
    inputs; `formatDate` (a locale-dependent browser call) is a parameter. */
module AdminDashboard {
  import opened Wrappers
  import opened Text
  import opened Csv
  import opened Http
  import opened BookingModel
  import Catalog
  import BookingRoutes
  import ContactRoutes

  /** `formatDate`: whatever text the browser makes of a date. */
  type DateFormat = Option<int> -> string

  /** How `join` writes a value: `undefined` as the empty string. */
  function TextCell(v: Option<string>): string
  {
    v.GetOr("")
  }

  function NumberCell(v: Option<int>): string
  {
    if v.Some? then IntToString(v.value) else ""
  }

  /** `a || b` on strings. */
  function OrText(a: Option<string>, b: Option<string>): (r: Option<string>)
    ensures TruthyText(a) ==> r == a
    ensures !TruthyText(a) ==> r == b
  {
    if TruthyText(a) then a else b
  }

  /** `a || b` picks one of its operands, is truthy exactly when one of
      them is, and groups either way, so a chain of fallbacks gives the
      first truthy value. */
  lemma OrTextPicksTruthy(a: Option<string>, b: Option<string>, c: Option<string>)
    ensures OrText(a, b) == a || OrText(a, b) == b
    ensures TruthyText(OrText(a, b)) <==> TruthyText(a) || TruthyText(b)
    ensures OrText(OrText(a, b), c) == OrText(a, OrText(b, c))
  {
  }

  // ---------------------------------------------------------------------
  // Bookings export: plain comma-joined rows

  const BookingHeader: seq<string> := ["Name", "Email", "Experience", "Date", "Guests", "Total", "Status"]

  /** One booking's cells, with the dashboard's fallbacks: the title or
      else the package, `date` when present (it arrives as an ISO string,
      which is never falsy) or else `startDate`, the number of people
      (a stored booking has no `guests`), `totalAmount` or else
      `totalPrice`. */
  function BookingRow(b: Booking, fmt: DateFormat): (r: seq<string>)
    ensures |r| == |BookingHeader|
    ensures r[0] == TextCell(b.name) && r[1] == TextCell(b.email)
    ensures TruthyText(b.experienceTitle) ==> r[2] == b.experienceTitle.value
    ensures !TruthyText(b.experienceTitle) ==> r[2] == TextCell(b.tourPackage)
    ensures b.date.Some? ==> r[3] == fmt(b.date)
    ensures b.date.None? ==> r[3] == fmt(b.startDate)
    ensures TruthyNumber(b.numberOfPeople) <==> r[4] != ""
    ensures TruthyNumber(b.numberOfPeople) ==> r[4] == IntToString(b.numberOfPeople.value)
    ensures !TruthyNumber(b.numberOfPeople) ==> r[4] == ""
    ensures TruthyNumber(b.totalAmount) ==> r[5] == IntToString(b.totalAmount.value)
    ensures !TruthyNumber(b.totalAmount) ==> r[5] == NumberCell(b.totalPrice)
    ensures r[6] == StatusName(b.status)
  {
    [TextCell(b.name),
     TextCell(b.email),
     TextCell(OrText(b.experienceTitle, b.tourPackage)),
     fmt(if b.date.Some? then b.date else b.startDate),
     NumberCell(Catalog.OrNumber(b.numberOfPeople, None)),
     NumberCell(Catalog.OrNumber(b.totalAmount, b.totalPrice)),
     StatusName(b.status)]
  }

  /** One line per booking, in the loaded order. */
  function BookingLines(bs: seq<Booking>, fmt: DateFormat): (r: seq<string>)
    ensures |r| == |bs|
    ensures forall i | 0 <= i < |bs| :: r[i] == Join(BookingRow(bs[i], fmt), ",")
  {
    if bs == [] then [] else [Join(BookingRow(bs[0], fmt), ",")] + BookingLines(bs[1..], fmt)
  }

  /** `exportBookings`'s file content. */
  function BookingsCsv(bs: seq<Booking>, fmt: DateFormat): string
  {
    Join([Join(BookingHeader, ",")] + BookingLines(bs, fmt), "\n")
  }

  /** No cell of any booking's row contains `c`. */
  predicate BookingCellsAvoid(bs: seq<Booking>, fmt: DateFormat, c: char)
  {
    forall i, j | 0 <= i < |bs| && 0 <= j < |BookingHeader| :: c !in BookingRow(bs[i], fmt)[j]
  }

  lemma BookingHeaderAvoids(c: char)
    requires c == '\n' || c == ','
    ensures forall j | 0 <= j < |BookingHeader| :: c !in BookingHeader[j]
  {
  }

  /** While no cell holds a newline, the file has a header line and then
      exactly one line per booking, in order. */
  lemma BookingsCsvLines(bs: seq<Booking>, fmt: DateFormat)
    requires BookingCellsAvoid(bs, fmt, '\n')
    ensures Split(BookingsCsv(bs, fmt), '\n') == [Join(BookingHeader, ",")] + BookingLines(bs, fmt)
    ensures |Split(BookingsCsv(bs, fmt), '\n')| == |bs| + 1
  {
    var lines := [Join(BookingHeader, ",")] + BookingLines(bs, fmt);
    BookingHeaderAvoids('\n');
    JoinAvoids(BookingHeader, ",", '\n');
    forall i | 0 <= i < |lines| ensures '\n' !in lines[i] {
      if i > 0 {
        JoinAvoids(BookingRow(bs[i - 1], fmt), ",", '\n');
      }
    }
    SplitJoin(lines, '\n');
  }

  /** While no cell holds a newline or a comma, splitting the file into
      lines and a line at the commas gives back each booking's cells. */
  lemma BookingsCsvRoundTrip(bs: seq<Booking>, fmt: DateFormat, i: int)
    requires BookingCellsAvoid(bs, fmt, '\n') && BookingCellsAvoid(bs, fmt, ',')
    requires 0 <= i < |bs|
    ensures |Split(BookingsCsv(bs, fmt), '\n')| == |bs| + 1
    ensures Split(Split(BookingsCsv(bs, fmt), '\n')[i + 1], ',') == BookingRow(bs[i], fmt)
  {
    BookingsCsvLines(bs, fmt);
    SplitJoin(BookingRow(bs[i], fmt), ',');
  }

  /** Nothing is quoted, so a comma inside a name moves every later cell
      one column to the right: the first column then holds only the part
      of the name before the comma. */
  lemma CommaInNameSplitsColumn(b: Booking, fmt: DateFormat, x: string, y: string)
    requires b.name == Some(x + "," + y) && ',' !in x
    ensures Split(Join(BookingRow(b, fmt), ","), ',')[0] == x
    ensures Split(Join(BookingRow(b, fmt), ","), ',') != BookingRow(b, fmt)
  {
    var row := BookingRow(b, fmt);
    var rest := "," + y + "," + Join(row[1..], ",");
    assert Join(row, ",") == x + rest;
    SplitPrefix(x, rest, ',');
    assert rest == [','] + rest[1..];
    assert Split(rest, ',')[0] == "";
    assert x + "" == x;
    assert |x| < |row[0]|;
  }

  // ---------------------------------------------------------------------
  // Contacts export: every cell quoted, quotes doubled in the message only

  const ContactHeader: seq<string> := ["Name", "Email", "Phone", "Date", "Message"]

  /** The header names hold no newline and no quote. */
  lemma ContactHeaderAvoids(c: char)
    requires c == '\n' || c == '"'
    ensures forall j | 0 <= j < |ContactHeader| :: c !in ContactHeader[j]
  {
  }

  /** The values a contact's row stands for, before any escaping. */
  function ContactFields(c: ContactRoutes.Contact, fmt: DateFormat): (r: seq<string>)
    requires c.message.Some?
    ensures |r| == |ContactHeader|
    ensures r[0] == TextCell(c.name) && r[1] == TextCell(c.email)
    ensures TruthyText(c.phone) ==> r[2] == c.phone.value
    ensures !TruthyText(c.phone) ==> r[2] == ""
    ensures r[3] == fmt(Some(c.date)) && r[4] == c.message.value
  {
    [TextCell(c.name), TextCell(c.email),
     if TruthyText(c.phone) then c.phone.value else "",
     fmt(Some(c.date)), c.message.value]
  }

  /** The cells as written: only the message has its quotes doubled. A
      contact without a message makes `replace` throw, so the export fails
      (`None`). */
  function ContactCells(c: ContactRoutes.Contact, fmt: DateFormat): (r: Option<seq<string>>)
    ensures r.Some? <==> c.message.Some?
    ensures r.Some? ==> (|r.value| == |ContactHeader|
      && r.value[..4] == ContactFields(c, fmt)[..4]
      && r.value[4] == DoubleQuotes(c.message.value))
  {
    if c.message.None? then None
    else
      var f := ContactFields(c, fmt);
      Some([f[0], f[1], f[2], f[3], DoubleQuotes(f[4])])
  }

  /** The quoted lines of every contact, or `None` when the export throws. */
  function ContactLines(cs: seq<ContactRoutes.Contact>, fmt: DateFormat): (r: Option<seq<string>>)
    ensures r.Some? <==> forall i | 0 <= i < |cs| :: cs[i].message.Some?
    ensures r.Some? ==> (|r.value| == |cs|
      && forall i | 0 <= i < |cs| :: r.value[i] == QuotedLine(ContactCells(cs[i], fmt).value))
  {
    if cs == [] then Some([])
    else
      var first := ContactCells(cs[0], fmt);
      var rest := ContactLines(cs[1..], fmt);
      if first.None? || rest.None? then None
      else Some([QuotedLine(first.value)] + rest.value)
  }

  /** `exportContacts`'s file content, or `None` when it throws. */
  function ContactsCsv(cs: seq<ContactRoutes.Contact>, fmt: DateFormat): (r: Option<string>)
    ensures r.Some? <==> forall i | 0 <= i < |cs| :: cs[i].message.Some?
  {
    var lines := ContactLines(cs, fmt);
    if lines.None? then None else Some(Join([QuotedLine(ContactHeader)] + lines.value, "\n"))
  }

  /** The contacts the export can write faithfully: each has a message, no
      value holds a newline, and only the message holds quotes. */
  predicate PlainContacts(cs: seq<ContactRoutes.Contact>, fmt: DateFormat)
  {
    forall i | 0 <= i < |cs| ::
      && cs[i].message.Some?
      && (forall j | 0 <= j < |ContactHeader| :: '\n' !in ContactFields(cs[i], fmt)[j])
      && (forall j | 0 <= j < 4 :: '"' !in ContactFields(cs[i], fmt)[j])
  }

  /** For such a contact the written cells are the escaped values. */
  lemma ContactCellsEscaped(c: ContactRoutes.Contact, fmt: DateFormat)
    requires c.message.Some?
    requires forall j | 0 <= j < 4 :: '"' !in ContactFields(c, fmt)[j]
    ensures ContactCells(c, fmt).value == EscapeAll(ContactFields(c, fmt))
  {
    var f := ContactFields(c, fmt);
    var cells := ContactCells(c, fmt).value;
    forall j | 0 <= j < 4 ensures cells[j] == DoubleQuotes(f[j]) {
      assert cells[j] == cells[..4][j];
      NoQuotesUnchanged(f[j]);
    }
  }

  /** A quoted line has no newline when its values have none. */
  lemma ContactLineAvoids(c: ContactRoutes.Contact, fmt: DateFormat)
    requires c.message.Some?
    requires forall j | 0 <= j < |ContactHeader| :: '\n' !in ContactFields(c, fmt)[j]
    ensures '\n' !in QuotedLine(ContactCells(c, fmt).value)
  {
    var f := ContactFields(c, fmt);
    var cells := ContactCells(c, fmt).value;
    forall j | 0 <= j < |cells| ensures '\n' !in cells[j] {
      if j < 4 {
        assert cells[j] == cells[..4][j];
      } else {
        DoubleQuotesAvoids(f[4], '\n');
      }
    }
    QuotedLineAvoids(cells, '\n');
  }

  /** Read back with a reader of RFC 4180 quoted fields, each line after the
      header gives exactly one contact's values, in order. */
  lemma ContactsCsvRoundTrip(cs: seq<ContactRoutes.Contact>, fmt: DateFormat, i: int)
    requires PlainContacts(cs, fmt)
    requires 0 <= i < |cs|
    ensures ContactsCsv(cs, fmt).Some?
    ensures |Split(ContactsCsv(cs, fmt).value, '\n')| == |cs| + 1
    ensures ParseQuotedRow(Split(ContactsCsv(cs, fmt).value, '\n')[i + 1]) == Some(ContactFields(cs[i], fmt))
  {
    ContactsCsvLines(cs, fmt);
    ContactCellsEscaped(cs[i], fmt);
    ParseQuotedLine(ContactFields(cs[i], fmt));
  }

  /** While no value holds a newline, the file is the header line and then
      one line per contact. */
  lemma ContactsCsvLines(cs: seq<ContactRoutes.Contact>, fmt: DateFormat)
    requires PlainContacts(cs, fmt)
    ensures ContactsCsv(cs, fmt).Some?
    ensures Split(ContactsCsv(cs, fmt).value, '\n') == [QuotedLine(ContactHeader)] + ContactLines(cs, fmt).value
  {
    var lines := [QuotedLine(ContactHeader)] + ContactLines(cs, fmt).value;
    ContactHeaderAvoids('\n');
    QuotedLineAvoids(ContactHeader, '\n');
    forall k | 0 <= k < |lines| ensures '\n' !in lines[k] {
      if k > 0 {
        ContactLineAvoids(cs[k - 1], fmt);
      }
    }
    SplitJoin(lines, '\n');
  }

  /** The values of a contact whose name is a single quote. */
  const QuoteNameCells: seq<string> := ["\"", "", "", "", "x"]
  const QuoteNameBody: string := "\"\"" + ("," + ("\"\"" + ("," + ("\"\"" + ("," + ("\"\"" + ("," + "\"x\"")))))))

  lemma QuoteNameLine()
    ensures QuotedLine(QuoteNameCells) == "\"" + QuoteNameBody
  {
    var cells := QuoteNameCells;
    var sep := "\",\"";
    assert Join(cells[4..], sep) == "x";
    assert Join(cells[3..], sep) == sep + "x";
    assert Join(cells[2..], sep) == sep + (sep + "x");
    assert Join(cells[1..], sep) == sep + (sep + (sep + "x"));
    assert Join(cells, sep) == "\"" + sep + (sep + (sep + (sep + "x")));
  }

  /** The unescaped quote of the name closes the first field early: what
      follows its closing quote is `x"`, not a comma. */
  lemma QuoteNameRead()
    ensures ReadQuoted(QuoteNameBody).Some? && ReadQuoted(QuoteNameBody).value.1 == "x\""
  {
    var s0 := "\"x\"";
    assert ReadQuoted(s0) == Some(("", "x\""));
    var s1 := "," + s0; ReadPlain(',', s0);
    var s2 := "\"\"" + s1; ReadPair(s1);
    var s3 := "," + s2; ReadPlain(',', s2);
    var s4 := "\"\"" + s3; ReadPair(s3);
    var s5 := "," + s4; ReadPlain(',', s4);
    var s6 := "\"\"" + s5; ReadPair(s5);
    var s7 := "," + s6; ReadPlain(',', s6);
    ReadPair(s7);
  }

  /** As written, a quote in a contact's name (which is not escaped) makes
      its line unreadable as quoted CSV. */
  lemma QuoteInNameUnreadable(c: ContactRoutes.Contact, fmt: DateFormat)
    requires c.name == Some("\"") && c.email == Some("") && c.phone.None? && c.message == Some("x")
    requires fmt(Some(c.date)) == ""
    ensures ContactCells(c, fmt) == Some(QuoteNameCells)
    ensures ParseQuotedRow(QuotedLine(ContactCells(c, fmt).value)) == None
  {
    assert DoubleQuotes("x") == "x";
    assert ContactCells(c, fmt).value == QuoteNameCells;
    QuoteNameLine();
    QuoteNameRead();
    assert ("\"" + QuoteNameBody)[1..] == QuoteNameBody;
  }

  /** Every contact has a message and no value holds a newline. */
  predicate OneLineContacts(cs: seq<ContactRoutes.Contact>, fmt: DateFormat)
  {
    forall i | 0 <= i < |cs| ::
      && cs[i].message.Some?
      && (forall j | 0 <= j < |ContactHeader| :: '\n' !in ContactFields(cs[i], fmt)[j])
  }

  /** Each contact's line with every value escaped. */
  function EscapedLines(cs: seq<ContactRoutes.Contact>, fmt: DateFormat): (r: seq<string>)
    requires forall i | 0 <= i < |cs| :: cs[i].message.Some?
    ensures |r| == |cs|
    ensures forall i | 0 <= i < |cs| :: r[i] == QuotedLine(EscapeAll(ContactFields(cs[i], fmt)))
  {
    if cs == [] then []
    else [QuotedLine(EscapeAll(ContactFields(cs[0], fmt)))] + EscapedLines(cs[1..], fmt)
  }

  /** The export with every value escaped, as the message already is. */
  function ContactsCsvEscaped(cs: seq<ContactRoutes.Contact>, fmt: DateFormat): (r: Option<string>)
    ensures r.Some? <==> forall i | 0 <= i < |cs| :: cs[i].message.Some?
  {
    if exists i | 0 <= i < |cs| :: cs[i].message.None? then None
    else Some(Join([QuotedLine(ContactHeader)] + EscapedLines(cs, fmt), "\n"))
  }

  lemma EscapedLineAvoids(f: seq<string>, c: char)
    requires c != '"' && c != ','
    requires forall j | 0 <= j < |f| :: c !in f[j]
    ensures c !in QuotedLine(EscapeAll(f))
  {
    var e := EscapeAll(f);
    forall j | 0 <= j < |e| ensures c !in e[j] {
      DoubleQuotesAvoids(f[j], c);
    }
    QuotedLineAvoids(e, c);
  }

  /** With every cell escaped, each line reads back as its contact's
      values whatever quotes they contain; only newlines must be absent. */
  lemma ContactsCsvEscapedRoundTrip(cs: seq<ContactRoutes.Contact>, fmt: DateFormat, i: int)
    requires OneLineContacts(cs, fmt)
    requires 0 <= i < |cs|
    ensures ContactsCsvEscaped(cs, fmt).Some?
    ensures |Split(ContactsCsvEscaped(cs, fmt).value, '\n')| == |cs| + 1
    ensures ParseQuotedRow(Split(ContactsCsvEscaped(cs, fmt).value, '\n')[i + 1]) == Some(ContactFields(cs[i], fmt))
  {
    EscapedCsvLines(cs, fmt);
    ParseQuotedLine(ContactFields(cs[i], fmt));
  }

  /** The corrected file is the header line and then one line per contact. */
  lemma EscapedCsvLines(cs: seq<ContactRoutes.Contact>, fmt: DateFormat)
    requires OneLineContacts(cs, fmt)
    ensures ContactsCsvEscaped(cs, fmt).Some?
    ensures Split(ContactsCsvEscaped(cs, fmt).value, '\n') == [QuotedLine(ContactHeader)] + EscapedLines(cs, fmt)
  {
    var lines := [QuotedLine(ContactHeader)] + EscapedLines(cs, fmt);
    assert ContactsCsvEscaped(cs, fmt) == Some(Join(lines, "\n"));
    ContactHeaderAvoids('\n');
    QuotedLineAvoids(ContactHeader, '\n');
    EscapedLinesAvoid(cs, fmt);
    SplitJoin(lines, '\n');
  }

  lemma EscapedLinesAvoid(cs: seq<ContactRoutes.Contact>, fmt: DateFormat)
    requires OneLineContacts(cs, fmt)
    ensures forall k | 0 <= k < |cs| :: '\n' !in EscapedLines(cs, fmt)[k]
  {
    forall k | 0 <= k < |cs| ensures '\n' !in EscapedLines(cs, fmt)[k] {
      EscapedLineAvoids(ContactFields(cs[k], fmt), '\n');
    }
  }

  // ---------------------------------------------------------------------
  // Status actions, badge and recent-activity marker

  datatype Action = Confirm | Cancel | Complete

  /** The status each button sends, in lower case. */
  function ActionStatus(a: Action): string
  {
    match a
    case Confirm => "confirmed"
    case Cancel => "cancelled"
    case Complete => "completed"
  }

  /** `pending` offers Confirm and Cancel, `confirmed` offers Complete,
      any other status nothing. */
  function ActionsFor(status: string): (r: seq<Action>)
    ensures Confirm in r <==> status == "pending"
    ensures Cancel in r <==> status == "pending"
    ensures Complete in r <==> status == "confirmed"
    ensures |r| <= 2
  {
    if status == "pending" then [Confirm, Cancel]
    else if status == "confirmed" then [Complete]
    else []
  }

  /** A status the server stores is capitalised, so no stored booking is
      ever offered an action. */
  lemma StoredBookingsOfferNoAction(b: Booking)
    ensures ActionsFor(StatusName(b.status)) == []
  {
  }

  /** And were a button shown, the server would refuse the status it
      sends: 400 and the store unchanged. */
  lemma ActionStatusRejected(a: Action, s: seq<Booking>, id: nat)
    ensures ParseStatus(ActionStatus(a)).None?
    ensures BookingRoutes.UpdateStatusResult(s, id, Some(ActionStatus(a)))
         == (Failure(400, BookingRoutes.InvalidStatus), s)
  {
  }

  datatype Badge = PendingBadge | ConfirmedBadge | CancelledBadge | CompletedBadge | PlainBadge

  /** The class names of each badge; `PlainBadge` is the empty style. */
  function BadgeClass(b: Badge): string
  {
    match b
    case PendingBadge => "bg-yellow-100 text-yellow-800"
    case ConfirmedBadge => "bg-green-100 text-green-800"
    case CancelledBadge => "bg-red-100 text-red-800"
    case CompletedBadge => "bg-blue-100 text-blue-800"
    case PlainBadge => ""
  }

  /** `statusStyles[status] || ''`. */
  function BadgeOf(status: string): (b: Badge)
    ensures b != PlainBadge <==> status in ["pending", "confirmed", "cancelled", "completed"]
    ensures b == PendingBadge <==> status == "pending"
    ensures b == ConfirmedBadge <==> status == "confirmed"
  {
    if status == "pending" then PendingBadge
    else if status == "confirmed" then ConfirmedBadge
    else if status == "cancelled" then CancelledBadge
    else if status == "completed" then CompletedBadge
    else PlainBadge
  }

  /** Every stored status gets the empty style. */
  lemma StoredStatusesUnstyled(st: Status)
    ensures BadgeOf(StatusName(st)) == PlainBadge
  {
  }

  datatype Marker = ConfirmedMarker | PendingMarker | CompletedMarker | CancelledMarker

  /** The icon of a recent-activity entry: the last branch of the
      conditional chain catches every other status. */
  function MarkerOf(status: string): (m: Marker)
    ensures m == CancelledMarker <==> status !in ["confirmed", "pending", "completed"]
  {
    if status == "confirmed" then ConfirmedMarker
    else if status == "pending" then PendingMarker
    else if status == "completed" then CompletedMarker
    else CancelledMarker
  }

  /** So every stored booking shows the cancelled marker. */
  lemma StoredBookingsLookCancelled(b: Booking)
    ensures MarkerOf(StatusName(b.status)) == CancelledMarker
  {
  }

  /** `bookings.slice(0, 5)`. */
  function Recent(bs: seq<Booking>): (r: seq<Booking>)
    ensures |r| == if |bs| < 5 then |bs| else 5
    ensures r == bs[..|r|]
  {
    if |bs| < 5 then bs else bs[..5]
  }

  // ---------------------------------------------------------------------
  // Summary cards and chart

  /** The numbers the overview shows. */
  datatype Overview = Overview(totalBookings: int, confirmed: int, pending: int, chart: seq<int>)

  /** `stats.x || 0` for each card and each chart slice (pending,
      confirmed, completed, cancelled); `{}` shows zeros. */
  function OverviewOf(stats: Option<BookingRoutes.Stats>): (o: Overview)
    ensures |o.chart| == 4
    ensures stats.None? ==> o == Overview(0, 0, 0, [0, 0, 0, 0])
    ensures stats.Some? ==>
      && o.totalBookings == stats.value.totalBookings
      && o.confirmed == stats.value.confirmedBookings == o.chart[1]
      && o.pending == stats.value.pendingBookings == o.chart[0]
      && o.chart[2] == stats.value.completedBookings
      && o.chart[3] == stats.value.cancelledBookings
  {
    match stats
    case None => Overview(0, 0, 0, [0, 0, 0, 0])
    case Some(st) =>
      Overview(st.totalBookings, st.confirmedBookings, st.pendingBookings,
               [st.pendingBookings, st.confirmedBookings, st.completedBookings, st.cancelledBookings])
  }

  /** The query `getAll()` sends: no parameters. */
  const NoQuery := BookingRoutes.ListQuery(None, None, None, None, None)

  /** What the dashboard shows for a collection: at most ten bookings in
      the list, yet cards and chart count the whole collection, and the
      chart's slices add up to the total card. */
  lemma OverviewOfCollection(s: seq<Booking>)
    ensures BookingRoutes.ListResult(s, NoQuery).Success?
    ensures var reply := BookingRoutes.ListResult(s, NoQuery).body;
      var o := OverviewOf(reply.stats);
      && |reply.bookings| <= 10
      && o.totalBookings == |s|
      && o.chart[0] + o.chart[1] + o.chart[2] + o.chart[3] == o.totalBookings
  {
    BookingRoutes.StatusCountsSum(s);
  }

  // ---------------------------------------------------------------------
  // Component state

  const LoadFailed := "Failed to load dashboard data"
  const UpdateFailed := "Failed to update booking status"
  const DeleteFailed := "Failed to delete contact message"

  class Dashboard {
    var bookings: seq<Booking>
    var contacts: seq<ContactRoutes.Contact>
    var stats: Option<BookingRoutes.Stats>
    var loading: bool
    var error: string

    constructor ()
      ensures bookings == [] && contacts == [] && stats.None? && loading && error == ""
    {
      bookings := [];
      contacts := [];
      stats := None;
      loading := true;
      error := "";
    }

    /** `fetchData`. The contacts route answers with a bare array, so the
        `data.data` the dashboard reads is undefined and `|| []` leaves the
        list empty. */
    method Load(booked: Response<BookingRoutes.ListReply>, contacted: Response<seq<ContactRoutes.Contact>>)
      modifies this
      ensures !loading
      ensures booked.Failure? ==>
        bookings == old(bookings) && stats == old(stats) && contacts == old(contacts) && error == LoadFailed
      ensures booked.Success? ==> bookings == booked.body.bookings && stats == booked.body.stats
      ensures booked.Success? && contacted.Failure? ==> contacts == old(contacts) && error == LoadFailed
      ensures booked.Success? && contacted.Success? ==> contacts == [] && error == old(error)
    {
      if booked.Failure? {
        error := LoadFailed;
      } else {
        bookings := booked.body.bookings;
        stats := booked.body.stats;
        if contacted.Failure? {
          error := LoadFailed;
        } else {
          contacts := [];
        }
      }
      loading := false;
    }

    /** `updateBookingStatus`: the PATCH, then a refresh of bookings and
        stats; a failure of either only sets the error. */
    method UpdateBookingStatus(updated: Response<Booking>, refreshed: Response<BookingRoutes.ListReply>)
      modifies this
      ensures contacts == old(contacts) && loading == old(loading)
      ensures updated.Failure? || refreshed.Failure? ==>
        bookings == old(bookings) && stats == old(stats) && error == UpdateFailed
      ensures updated.Success? && refreshed.Success? ==>
        bookings == refreshed.body.bookings && stats == refreshed.body.stats && error == old(error)
    {
      if updated.Failure? || refreshed.Failure? {
        error := UpdateFailed;
      } else {
        bookings := refreshed.body.bookings;
        stats := refreshed.body.stats;
      }
    }

    /** `deleteContact`: nothing unless the administrator confirms; then the
        DELETE and a refresh whose array becomes the list. */
    method DeleteContact(confirmed: bool, deleted: Response<string>, refreshed: Response<seq<ContactRoutes.Contact>>)
      modifies this
      ensures bookings == old(bookings) && stats == old(stats) && loading == old(loading)
      ensures !confirmed ==> contacts == old(contacts) && error == old(error)
      ensures confirmed && (deleted.Failure? || refreshed.Failure?) ==>
        contacts == old(contacts) && error == DeleteFailed
      ensures confirmed && deleted.Success? && refreshed.Success? ==>
        contacts == refreshed.body && error == old(error)
    {
      if !confirmed {
        return;
      }
      if deleted.Failure? || refreshed.Failure? {
        error := DeleteFailed;
      } else {
        contacts := refreshed.body;
      }
    }
  }
}
