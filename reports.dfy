/** The bookings CSV that `admin_generate_reports` returns. The rows are the
    result of its SELECT, taken in the order the query delivers them. */
module Reports {
  import opened Text

  /** One row of the report query; every field but the key may be NULL. */
  datatype ReportRow = ReportRow(
    id: nat,
    senderName: Option<string>,
    recipientName: Option<string>,
    originCity: Option<string>,
    destinationCity: Option<string>,
    status: Option<string>,
    bookingDate: Option<string>,
    username: Option<string>)

  const HEADER_COLUMNS: seq<string> :=
    ["id", "sender", "recipient", "origin", "destination", "status", "booking_date", "username"]

  /** "id,sender,recipient,origin,destination,status,booking_date,username" */
  const HEADER: string := Join(HEADER_COLUMNS, ',')

  /** `value or ""`. */
  function OrEmpty(f: Option<string>): string {
    if f.Some? then f.value else ""
  }

  /** `str(value)`, where the booking date is already text; NULL prints as "None". */
  function Str(f: Option<string>): string {
    if f.Some? then f.value else "None"
  }

  /** The eight CSV fields of a row, in column order. */
  function Fields(r: ReportRow): (fs: seq<string>)
    ensures |fs| == |HEADER_COLUMNS|
  {
    [NatToDecimal(r.id), OrEmpty(r.senderName), OrEmpty(r.recipientName), OrEmpty(r.originCity),
     OrEmpty(r.destinationCity), OrEmpty(r.status), Str(r.bookingDate), OrEmpty(r.username)]
  }

  function RowLine(r: ReportRow): string {
    Join(Fields(r), ',')
  }

  /** The header, then one line per row in input order. */
  function ReportLines(rows: seq<ReportRow>): seq<string> {
    [HEADER] + RowLines(rows)
  }

  /** One line per row, in input order. */
  function RowLines(rows: seq<ReportRow>): (lines: seq<string>)
    ensures |lines| == |rows|
    ensures forall k :: 0 <= k < |rows| ==> lines[k] == RowLine(rows[k])
  {
    seq(|rows|, k requires 0 <= k < |rows| => RowLine(rows[k]))
  }

  /** The whole response body: the lines joined with newlines. */
  function Report(rows: seq<ReportRow>): string {
    Join(ReportLines(rows), '\n')
  }

  /** No field of any row holds a comma or a newline (the export does no quoting). */
  predicate Clean(rows: seq<ReportRow>) {
    forall i, k :: 0 <= i < |rows| && 0 <= k < |HEADER_COLUMNS| ==>
      ',' !in Fields(rows[i])[k] && '\n' !in Fields(rows[i])[k]
  }

  /** One more row adds one more line at the end. */
  lemma RowLinesSnoc(rows: seq<ReportRow>, i: nat)
    requires i < |rows|
    ensures RowLines(rows[..i + 1]) == RowLines(rows[..i]) + [RowLine(rows[i])]
  {
    var longer, shorter := RowLines(rows[..i + 1]), RowLines(rows[..i]) + [RowLine(rows[i])];
    forall k | 0 <= k < |longer| ensures longer[k] == shorter[k] {
      assert rows[..i + 1][k] == rows[k];
      if k < i {
        assert rows[..i][k] == rows[k];
      }
    }
  }

  /** Build `lines` row by row, as the handler does, then join them. */
  method RenderReport(rows: seq<ReportRow>) returns (csv: string)
    ensures csv == Report(rows)
    ensures rows == [] ==> csv == HEADER
  {
    var lines := [HEADER];
    assert rows[..0] == [];
    for i := 0 to |rows|
      invariant lines == [HEADER] + RowLines(rows[..i])
    {
      RowLinesSnoc(rows, i);
      lines := lines + [RowLine(rows[i])];
    }
    assert rows[..|rows|] == rows;
    csv := Join(lines, '\n');
  }

  lemma HeaderColumnsClean()
    ensures forall k :: 0 <= k < |HEADER_COLUMNS| ==> ',' !in HEADER_COLUMNS[k] && '\n' !in HEADER_COLUMNS[k]
  {
  }

  lemma HeaderShape()
    ensures '\n' !in HEADER
    ensures Count(HEADER, ',') == |HEADER_COLUMNS| - 1
  {
    HeaderColumnsClean();
    JoinAbsent(HEADER_COLUMNS, ',', '\n');
    CountJoin(HEADER_COLUMNS, ',');
  }

  /** A clean row's line has no newline and splits back into its eight
      fields, so it holds exactly seven commas. */
  lemma RowLineShape(r: ReportRow)
    requires forall k :: 0 <= k < |HEADER_COLUMNS| ==> ',' !in Fields(r)[k] && '\n' !in Fields(r)[k]
    ensures '\n' !in RowLine(r)
    ensures Split(RowLine(r), ',') == Fields(r)
    ensures Count(RowLine(r), ',') == |HEADER_COLUMNS| - 1
  {
    JoinAbsent(Fields(r), ',', '\n');
    SplitJoin(Fields(r), ',');
    CountJoin(Fields(r), ',');
  }

  /** Every line of a clean row sequence has no newline and seven commas,
      and splits back into its row's fields. */
  lemma RowLinesShape(rows: seq<ReportRow>)
    requires Clean(rows)
    ensures forall i :: 0 <= i < |rows| ==>
      '\n' !in RowLines(rows)[i] && Count(RowLines(rows)[i], ',') == 7
      && Split(RowLines(rows)[i], ',') == Fields(rows[i])
  {
    forall i | 0 <= i < |rows|
      ensures '\n' !in RowLines(rows)[i] && Count(RowLines(rows)[i], ',') == 7
      ensures Split(RowLines(rows)[i], ',') == Fields(rows[i])
    {
      RowLineShape(rows[i]);
    }
  }

  /** When no field holds a comma or a newline, the body splits back into the
      header and one line per row, in order, and every line splits back into
      its eight fields, so it holds exactly seven commas. */
  lemma ReportShape(rows: seq<ReportRow>)
    requires Clean(rows)
    ensures Split(Report(rows), '\n') == ReportLines(rows)
    ensures |Split(Report(rows), '\n')| == |rows| + 1
    ensures forall i :: 0 <= i < |rows| ==> Split(ReportLines(rows)[i + 1], ',') == Fields(rows[i])
    ensures forall j :: 0 <= j < |rows| + 1 ==> Count(ReportLines(rows)[j], ',') == 7
  {
    var lines := ReportLines(rows);
    HeaderShape();
    RowLinesShape(rows);
    forall j | 0 <= j < |lines|
      ensures '\n' !in lines[j] && Count(lines[j], ',') == 7
    {
      if j > 0 {
        assert lines[j] == RowLines(rows)[j - 1];
      }
    }
    SplitJoin(lines, '\n');
  }
}
