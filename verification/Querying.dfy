// The query tool: a limit on rows, a running estimate of the response's size, and
// the exact size once it is encoded.
module Querying {
  import opened Basics
  import opened Numerals
  import opened Json

  // What a driver scans into a column.
  datatype Value = Bytes(text: string) | Text(text: string) | Scalar(id: nat)

  type Row = seq<Value>

  function Normalize(v: Value): Value {
    match v
    case Bytes(s) => Text(s)
    case _ => v
  }

  function NormalizeRow(row: Row): Row { seq(|row|, i requires 0 <= i < |row| => Normalize(row[i])) }

  // `marshal` is the encoding of a row, if it has one.
  type Marshal = Row -> Option<string>

  // One rows.Next: the values scanned, or None if Scan fails.
  type Fetch = Option<Row>

  datatype Output = Output(source: string, columns: string, rows: seq<Row>, rowCount: nat, truncated: bool)

  datatype Answer = Ok(output: Output) | TooLarge | ScanFailed | EncodeFailed | CursorFailed

  function Joined(marshal: Marshal, rows: seq<Row>): string {
    if rows == [] then ""
    else
      var before, last := Joined(marshal, rows[..|rows| - 1]), TextOf(marshal, rows[|rows| - 1]);
      if |rows| == 1 then last else before + "," + last
  }

  function TextOf(marshal: Marshal, row: Row): string {
    if marshal(row).Some? then marshal(row).value else ""
  }

  lemma JoinedMore(marshal: Marshal, rows: seq<Row>, row: Row)
    requires rows != []
    ensures Joined(marshal, rows + [row]) == Joined(marshal, rows) + "," + TextOf(marshal, row)
  {
    assert (rows + [row])[..|rows|] == rows;
  }

  lemma Regroup(a: string, b: string, c: string, d: string, e: string)
    ensures a + b + c + d + e == a + b + (c + d + e)
  {
  }

  // Rows follow one another in the response as they do in the answer, with commas between.
  lemma {:induction false} JoinedInOrder(marshal: Marshal, a: seq<Row>, b: seq<Row>)
    requires a != [] && b != []
    ensures Joined(marshal, a + b) == Joined(marshal, a) + "," + Joined(marshal, b)
    ensures |b| == 1 ==> Joined(marshal, b) == TextOf(marshal, b[0])
  {
    var init, last := b[..|b| - 1], b[|b| - 1];
    assert b == init + [last];
    if init != [] {
      JoinedInOrder(marshal, a, init);
      JoinedMore(marshal, init, last);
      JoinedMore(marshal, a + init, last);
      assert a + b == a + init + [last];
      Regroup(Joined(marshal, a), ",", Joined(marshal, init), ",", TextOf(marshal, last));
    } else {
      JoinedMore(marshal, a, last);
    }
  }

  const SOURCE := "{\"source\":"
  const COLUMNS := ",\"columns\":"
  const ROWS := ",\"rows\":["
  const ROW_COUNT := "],\"rowCount\":"
  const TRUNCATED := ",\"truncated\":"

  function BoolText(b: bool): string { if b then "true" else "false" }

  // The whole response. `columns` stands for the encoded column names.
  function Encode(marshal: Marshal, o: Output): string {
    Head(o.source, o.columns) + Body(Joined(marshal, o.rows), o.rowCount) + Tail(o.truncated)
  }

  function Head(source: string, columns: string): string { SOURCE + Quoted(source) + COLUMNS + columns }

  function Body(rows: string, rowCount: nat): string { ROWS + rows + ROW_COUNT + Decimal(rowCount) }

  function Tail(truncated: bool): string { TRUNCATED + BoolText(truncated) + "}" }

  // What the loop adds up for these rows, and before them.
  function Estimate(marshal: Marshal, source: string, columns: string, rows: seq<Row>): nat {
    if rows == [] then Size(source) + Size(columns) + 128
    else Estimate(marshal, source, columns, rows[..|rows| - 1]) + Size(TextOf(marshal, rows[|rows| - 1])) + 1
  }

  function Min(a: nat, b: nat): nat { if a < b then a else b }

  // The rows a cursor gives, normalised.
  function Fetched(cursor: seq<Fetch>): seq<Row> {
    seq(|cursor|, i requires 0 <= i < |cursor| => if cursor[i].Some? then NormalizeRow(cursor[i].value) else [])
  }

  // A row as it is given out: what was scanned, with bytes as text.
  ghost predicate GivenOut(row: Row, scanned: Row) {
    && |row| == |scanned|
    && forall j :: 0 <= j < |scanned| ==> row[j] == if scanned[j].Bytes? then Text(scanned[j].text) else scanned[j]
  }

  lemma NormalizedIs(scanned: Row)
    ensures GivenOut(NormalizeRow(scanned), scanned)
  {
  }

  lemma FetchedIs(cursor: seq<Fetch>, n: nat)
    requires n <= |cursor| && forall i :: 0 <= i < n ==> cursor[i].Some?
    ensures |Fetched(cursor[..n])| == n
    ensures forall i :: 0 <= i < n ==> GivenOut(Fetched(cursor[..n])[i], cursor[i].value)
  {
    forall i | 0 <= i < n ensures GivenOut(Fetched(cursor[..n])[i], cursor[i].value) {
      NormalizedIs(cursor[i].value);
    }
  }

  function OutputOf(source: string, columns: string, maxRows: nat, cursor: seq<Fetch>): Output {
    var n := Min(|cursor|, maxRows);
    Output(source, columns, Fetched(cursor[..n]), n, |cursor| > maxRows)
  }

  // Everything that has to go well: every row looked at scans, every row kept has an
  // encoding, the cursor ends without an error, and neither size is over the limit.
  ghost predicate GoesWell(marshal: Marshal, source: string, columns: string, maxRows: nat, maxBytes: nat,
                           cursor: seq<Fetch>, endsBadly: bool) {
    && LoopGoesWell(marshal, source, columns, maxRows, maxBytes, cursor, endsBadly)
    && Size(Encode(marshal, OutputOf(source, columns, maxRows, cursor))) <= maxBytes
  }

  // All of it but the final check.
  ghost predicate LoopGoesWell(marshal: Marshal, source: string, columns: string, maxRows: nat, maxBytes: nat,
                               cursor: seq<Fetch>, endsBadly: bool) {
    var o := OutputOf(source, columns, maxRows, cursor);
    && (forall i :: 0 <= i < Min(|cursor|, maxRows + 1) ==> cursor[i].Some?)
    && (forall i :: 0 <= i < |o.rows| ==> marshal(o.rows[i]).Some?)
    && !endsBadly
    && Estimate(marshal, source, columns, o.rows) <= maxBytes
  }

  // What an answer says about the query.
  ghost predicate Explains(r: Answer, marshal: Marshal, source: string, columns: string, maxRows: nat, maxBytes: nat,
                           cursor: seq<Fetch>, endsBadly: bool) {
    var o := OutputOf(source, columns, maxRows, cursor);
    match r
    case Ok(output) => output == o && GoesWell(marshal, source, columns, maxRows, maxBytes, cursor, endsBadly)
    case TooLarge => Estimate(marshal, source, columns, o.rows) > maxBytes || Size(Encode(marshal, o)) > maxBytes
    case ScanFailed => exists i :: 0 <= i < Min(|cursor|, maxRows + 1) && cursor[i].None?
    case EncodeFailed => exists i :: 0 <= i < |o.rows| && marshal(o.rows[i]).None?
    case CursorFailed => endsBadly
  }

  lemma FetchedMore(cursor: seq<Fetch>, maxRows: nat, k: nat)
    requires k < |cursor| && k < maxRows && cursor[k].Some?
    ensures Fetched(cursor[..k + 1]) == Fetched(cursor[..k]) + [NormalizeRow(cursor[k].value)]
    ensures k < Min(|cursor|, maxRows) && Fetched(cursor[..Min(|cursor|, maxRows)])[k] == NormalizeRow(cursor[k].value)
  {
  }

  lemma FetchedUpTo(cursor: seq<Fetch>, maxRows: nat, k: nat)
    requires k <= Min(|cursor|, maxRows)
    ensures Fetched(cursor[..Min(|cursor|, maxRows)])[..k] == Fetched(cursor[..k])
  {
  }

  // An estimate over the limit on the way is one at the end.
  lemma OverOnTheWay(marshal: Marshal, source: string, columns: string, maxRows: nat, maxBytes: nat,
                     cursor: seq<Fetch>, k: nat)
    requires k <= Min(|cursor|, maxRows)
    requires Estimate(marshal, source, columns, Fetched(cursor[..k])) > maxBytes
    ensures Explains(TooLarge, marshal, source, columns, maxRows, maxBytes, cursor, false)
  {
    FetchedUpTo(cursor, maxRows, k);
    EstimateGrows(marshal, source, columns, OutputOf(source, columns, maxRows, cursor).rows, k);
  }

  lemma EstimateMore(marshal: Marshal, source: string, columns: string, rows: seq<Row>, row: Row)
    ensures Estimate(marshal, source, columns, rows + [row]) ==
      Estimate(marshal, source, columns, rows) + Size(TextOf(marshal, row)) + 1
  {
    assert (rows + [row])[..|rows|] == rows;
  }

  lemma Unencoded(marshal: Marshal, source: string, columns: string, maxRows: nat, maxBytes: nat,
                  cursor: seq<Fetch>, k: nat)
    requires k < Min(|cursor|, maxRows) && marshal(Fetched(cursor[..Min(|cursor|, maxRows)])[k]).None?
    ensures Explains(EncodeFailed, marshal, source, columns, maxRows, maxBytes, cursor, false)
  {
    assert OutputOf(source, columns, maxRows, cursor).rows[k] == Fetched(cursor[..Min(|cursor|, maxRows)])[k];
  }

  // One row kept: normalised, encoded, and charged to the budget.
  method Keep(marshal: Marshal, source: string, columns: string, maxRows: nat, maxBytes: nat, cursor: seq<Fetch>,
              k: nat, ghost rows: seq<Row>, responseBytes: nat) returns (failed: Option<Answer>, row: Row, bytes: nat)
    requires k < Min(|cursor|, maxRows) && rows == Fetched(cursor[..k]) && cursor[k].Some?
    requires responseBytes == Estimate(marshal, source, columns, rows)
    ensures failed.Some? ==> failed.value.EncodeFailed? || failed.value.TooLarge?
    ensures failed.Some? ==> Explains(failed.value, marshal, source, columns, maxRows, maxBytes, cursor, false)
    ensures failed.None? ==>
      && rows + [row] == Fetched(cursor[..k + 1]) && marshal(row).Some?
      && bytes == Estimate(marshal, source, columns, rows + [row]) <= maxBytes
      && GivenOut(row, cursor[k].value)
  {
    NormalizedIs(cursor[k].value);
    failed, row, bytes := None, NormalizeRow(cursor[k].value), responseBytes;
    FetchedMore(cursor, maxRows, k);
    EstimateMore(marshal, source, columns, rows, row);
    var encoded := marshal(row);
    if encoded.None? {
      Unencoded(marshal, source, columns, maxRows, maxBytes, cursor, k);
      failed := Some(EncodeFailed);
    } else if responseBytes + Size(encoded.value) + 1 > maxBytes {
      OverOnTheWay(marshal, source, columns, maxRows, maxBytes, cursor, k + 1);
      failed := Some(TooLarge);
    } else {
      bytes := responseBytes + Size(encoded.value) + 1;
    }
  }

  // The first k rows of the cursor are in hand.
  ghost predicate Taken(marshal: Marshal, maxRows: nat, cursor: seq<Fetch>, rows: seq<Row>, k: nat) {
    && k <= Min(|cursor|, maxRows) && rows == Fetched(cursor[..k])
    && (forall i :: 0 <= i < k ==> cursor[i].Some?)
    && (forall i :: 0 <= i < k ==> marshal(rows[i]).Some?)
  }

  lemma TakenMore(marshal: Marshal, maxRows: nat, cursor: seq<Fetch>, rows: seq<Row>, k: nat, row: Row)
    requires Taken(marshal, maxRows, cursor, rows, k) && k < Min(|cursor|, maxRows) && cursor[k].Some?
    requires rows + [row] == Fetched(cursor[..k + 1]) && marshal(row).Some?
    ensures Taken(marshal, maxRows, cursor, rows + [row], k + 1)
  {
  }

  // At the end of the cursor, or at one row more than is wanted.
  lemma AllTaken(marshal: Marshal, source: string, columns: string, maxRows: nat, cursor: seq<Fetch>,
                 rows: seq<Row>, k: nat)
    requires Taken(marshal, maxRows, cursor, rows, k)
    requires k == |cursor| || (k == maxRows && k < |cursor| && cursor[k].Some?)
    ensures Output(source, columns, rows, |rows|, k < |cursor|) == OutputOf(source, columns, maxRows, cursor)
    ensures forall i :: 0 <= i < Min(|cursor|, maxRows + 1) ==> cursor[i].Some?
    ensures forall i :: 0 <= i < |rows| ==> marshal(rows[i]).Some?
  {
  }

  // The loop over the cursor.
  method Collect(marshal: Marshal, source: string, columns: string, maxRows: nat, maxBytes: nat, cursor: seq<Fetch>)
      returns (failed: Option<Answer>, rows: seq<Row>, truncated: bool)
    ensures failed.Some? ==> !failed.value.Ok? && !failed.value.CursorFailed?
    ensures failed.Some? ==> Explains(failed.value, marshal, source, columns, maxRows, maxBytes, cursor, false)
    ensures failed.None? ==>
      && Output(source, columns, rows, |rows|, truncated) == OutputOf(source, columns, maxRows, cursor)
      && (forall i :: 0 <= i < Min(|cursor|, maxRows + 1) ==> cursor[i].Some?)
      && (forall i :: 0 <= i < |rows| ==> marshal(rows[i]).Some?)
      && Estimate(marshal, source, columns, rows) <= maxBytes
    ensures failed.None? ==>
      && |rows| == (if |cursor| < maxRows then |cursor| else maxRows) && (truncated <==> |cursor| > maxRows)
      && forall i :: 0 <= i < |rows| ==> cursor[i].Some? && GivenOut(rows[i], cursor[i].value)
  {
    rows, truncated, failed := [], false, None;
    var responseBytes := Size(source) + Size(columns) + 128;
    if responseBytes > maxBytes {
      OverOnTheWay(marshal, source, columns, maxRows, maxBytes, cursor, 0);
      failed := Some(TooLarge);
      return;
    }
    var next := 0;
    while next < |cursor|
      invariant failed.None? && !truncated && Taken(marshal, maxRows, cursor, rows, next)
      invariant responseBytes == Estimate(marshal, source, columns, rows) <= maxBytes
    {
      if cursor[next].None? {
        failed := Some(ScanFailed);
        return;
      }
      if |rows| == maxRows {
        truncated := true;
        AllTaken(marshal, source, columns, maxRows, cursor, rows, next);
        FetchedIs(cursor, next);
        return;
      }
      var row;
      failed, row, responseBytes :=
        Keep(marshal, source, columns, maxRows, maxBytes, cursor, next, rows, responseBytes);
      if failed.Some? {
        return;
      }
      TakenMore(marshal, maxRows, cursor, rows, next, row);
      rows := rows + [row];
      next := next + 1;
    }
    AllTaken(marshal, source, columns, maxRows, cursor, rows, next);
    FetchedIs(cursor, next);
  }

  method Query(marshal: Marshal, source: string, columns: string, maxRows: nat, maxBytes: nat,
               cursor: seq<Fetch>, endsBadly: bool) returns (r: Answer)
    ensures Explains(r, marshal, source, columns, maxRows, maxBytes, cursor, endsBadly)
    ensures r.Ok? <==> GoesWell(marshal, source, columns, maxRows, maxBytes, cursor, endsBadly)
    ensures r.Ok? ==>
      && !endsBadly && Size(Encode(marshal, r.output)) <= maxBytes
      && (forall i :: 0 <= i < |r.output.rows| ==> marshal(r.output.rows[i]).Some?)
      && (forall i :: 0 <= i < |cursor| && i <= maxRows ==> cursor[i].Some?)
    ensures r.CursorFailed? ==> endsBadly
    ensures r.ScanFailed? ==> exists i :: 0 <= i < |cursor| && i <= maxRows && cursor[i].None?
    ensures r.Ok? ==>
      && r.output.source == source && r.output.columns == columns && r.output.rowCount == |r.output.rows|
      && |r.output.rows| == (if |cursor| < maxRows then |cursor| else maxRows)
      && (r.output.truncated <==> |cursor| > maxRows)
      && (forall i :: 0 <= i < |r.output.rows| ==>
            cursor[i].Some? && |r.output.rows[i]| == |cursor[i].value| &&
            forall j :: 0 <= j < |cursor[i].value| ==>
              r.output.rows[i][j] ==
                if cursor[i].value[j].Bytes? then Text(cursor[i].value[j].text) else cursor[i].value[j])
  {
    var failed, rows, truncated := Collect(marshal, source, columns, maxRows, maxBytes, cursor);
    if failed.Some? {
      return failed.value;
    }
    if endsBadly {
      return CursorFailed;
    }
    var output := Output(source, columns, rows, |rows|, truncated);
    if Size(Encode(marshal, output)) > maxBytes {
      return TooLarge;
    }
    r := Ok(output);
  }

  lemma {:induction false} EstimateGrows(marshal: Marshal, source: string, columns: string, rows: seq<Row>, k: nat)
    requires k <= |rows|
    ensures Estimate(marshal, source, columns, rows[..k]) <= Estimate(marshal, source, columns, rows)
  {
    if k < |rows| {
      EstimateGrows(marshal, source, columns, rows[..|rows| - 1], k);
      assert rows[..|rows| - 1][..k] == rows[..k];
    } else {
      assert rows[..k] == rows;
    }
  }

  lemma {:induction false} EstimateIs(marshal: Marshal, source: string, columns: string, rows: seq<Row>)
    ensures Estimate(marshal, source, columns, rows) + (if rows == [] then 0 else 0 - 1) ==
      Size(source) + Size(columns) + 128 + Size(Joined(marshal, rows))
  {
    if |rows| > 1 {
      var before, last := Joined(marshal, rows[..|rows| - 1]), TextOf(marshal, rows[|rows| - 1]);
      EstimateIs(marshal, source, columns, rows[..|rows| - 1]);
      SizeAppend(before, ",");
      SizeAppend(before + ",", last);
      AsciiSize(",");
    }
  }

  lemma KeySizes()
    ensures Size(SOURCE) == 10 && Size(COLUMNS) == 11 && Size(ROWS) == 9 && Size(ROW_COUNT) == 13
    ensures Size(TRUNCATED) == 13 && Size("}") == 1 && Size("true") == 4 && Size("false") == 5
  {
    AsciiSize(SOURCE);
    AsciiSize(COLUMNS);
    AsciiSize(ROWS);
    AsciiSize(ROW_COUNT);
    AsciiSize(TRUNCATED);
    AsciiSize("}");
    AsciiSize("true");
    AsciiSize("false");
  }

  lemma HeadSize(source: string, columns: string)
    ensures Size(Head(source, columns)) == Size(SOURCE) + Size(Quoted(source)) + Size(COLUMNS) + Size(columns)
  {
    SizeAppend(SOURCE, Quoted(source));
    SizeAppend(SOURCE + Quoted(source), COLUMNS);
    SizeAppend(SOURCE + Quoted(source) + COLUMNS, columns);
  }

  lemma BodySize(rows: string, n: nat)
    ensures Size(Body(rows, n)) == Size(ROWS) + Size(rows) + Size(ROW_COUNT) + |Decimal(n)|
  {
    SizeAppend(ROWS, rows);
    SizeAppend(ROWS + rows, ROW_COUNT);
    SizeAppend(ROWS + rows + ROW_COUNT, Decimal(n));
    DecimalSize(n);
  }

  lemma TailSize(truncated: bool)
    ensures Size(Tail(truncated)) == Size(TRUNCATED) + Size(BoolText(truncated)) + Size("}")
  {
    SizeAppend(TRUNCATED, BoolText(truncated));
    SizeAppend(TRUNCATED + BoolText(truncated), "}");
  }

  // The exact size, part by part.
  lemma EncodeSize(marshal: Marshal, o: Output)
    ensures Size(Encode(marshal, o)) ==
      Size(o.source) + Extra(o.source) + Size(o.columns) + Size(Joined(marshal, o.rows))
      + |Decimal(o.rowCount)| + (if o.truncated then 4 else 5) + 59
  {
    KeySizes();
    QuotedSize(o.source);
    HeadSize(o.source, o.columns);
    BodySize(Joined(marshal, o.rows), o.rowCount);
    TailSize(o.truncated);
    SizeAppend(Head(o.source, o.columns), Body(Joined(marshal, o.rows), o.rowCount));
    SizeAppend(Head(o.source, o.columns) + Body(Joined(marshal, o.rows), o.rowCount), Tail(o.truncated));
  }

  // How far the estimate is above the exact size, before escaping.
  function Slack(o: Output): int {
    69 + (if o.rows == [] then 0 else 1) - |Decimal(o.rowCount)| - (if o.truncated then 4 else 5)
  }

  // Estimate and exact size differ by a few counted bytes and by the escapes of the source name.
  lemma EstimateVersusExact(marshal: Marshal, o: Output)
    ensures Size(Encode(marshal, o)) + Slack(o) ==
      Estimate(marshal, o.source, o.columns, o.rows) + Extra(o.source)
  {
    EncodeSize(marshal, o);
    EstimateIs(marshal, o.source, o.columns, o.rows);
  }

  // A row count of the program's int type has at most 19 digits.
  lemma SlackBounds(o: Output)
    requires o.rowCount == |o.rows| < 0x8000_0000_0000_0000
    ensures 46 <= Slack(o) <= 65
  {
    assert Power(2) == 100 && Power(4) == 10000 && Power(6) == 1000000 && Power(8) == 100000000;
    assert Power(10) == 10000000000 && Power(12) == 1000000000000 && Power(14) == 100000000000000;
    assert Power(16) == 10000000000000000 && Power(18) == 1000000000000000000;
    DigitsBound(o.rowCount, 19);
    if o.rows == [] {
      assert Decimal(0) == ['0'];
    }
  }

  function Power(k: nat): nat { if k == 0 then 1 else 10 * Power(k - 1) }

  lemma {:induction false} DigitsBound(n: nat, k: nat)
    requires k > 0 && n < Power(k)
    ensures 1 <= |Decimal(n)| <= k
  {
    if n >= 10 {
      DigitsBound(n / 10, k - 1);
    }
  }

  // When the final check can reject what the loop let through: exactly when the
  // escapes outweigh the slack and what the estimate left of the limit.
  lemma FinalCheckFires(marshal: Marshal, o: Output, maxBytes: nat)
    requires Estimate(marshal, o.source, o.columns, o.rows) <= maxBytes
    ensures Size(Encode(marshal, o)) > maxBytes <==>
      Extra(o.source) > Slack(o) + maxBytes - Estimate(marshal, o.source, o.columns, o.rows)
  {
    EstimateVersusExact(marshal, o);
  }

  // So it never does for a source name that needs no escaping.
  lemma FinalCheckNeverFires(marshal: Marshal, o: Output, maxBytes: nat)
    requires o.rowCount == |o.rows| < 0x8000_0000_0000_0000
    requires forall c :: c in o.source ==> !NeedsEscape(c)
    requires Estimate(marshal, o.source, o.columns, o.rows) <= maxBytes
    ensures Size(Encode(marshal, o)) + 46 <= Estimate(marshal, o.source, o.columns, o.rows)
    ensures Estimate(marshal, o.source, o.columns, o.rows) <= Size(Encode(marshal, o)) + 65
    ensures Size(Encode(marshal, o)) < maxBytes
  {
    NothingExtra(o.source);
    SlackBounds(o);
    EstimateVersusExact(marshal, o);
  }

  // Nor for one that escaping lengthens by no more than 46 bytes, which the caller
  // can see beforehand; a name of nine characters or fewer is always such a one.
  lemma FinalCheckSpares(marshal: Marshal, o: Output, maxBytes: nat)
    requires o.rowCount == |o.rows| < 0x8000_0000_0000_0000 && Extra(o.source) <= 46
    requires Estimate(marshal, o.source, o.columns, o.rows) <= maxBytes
    ensures Size(Encode(marshal, o)) <= maxBytes
  {
    SlackBounds(o);
    EstimateVersusExact(marshal, o);
  }

  lemma {:induction false} ShortNames(source: string)
    ensures Extra(source) <= 5 * |source|
    ensures |source| <= 9 ==> Extra(source) <= 46
  {
    if source != "" {
      ShortNames(source[..|source| - 1]);
    }
  }

  // For such a name the loop alone decides whether the query succeeds.
  lemma LoopDecides(marshal: Marshal, source: string, columns: string, maxRows: nat, maxBytes: nat,
                    cursor: seq<Fetch>, endsBadly: bool)
    requires Extra(source) <= 46 && maxRows < 0x8000_0000_0000_0000
    ensures GoesWell(marshal, source, columns, maxRows, maxBytes, cursor, endsBadly) <==>
      LoopGoesWell(marshal, source, columns, maxRows, maxBytes, cursor, endsBadly)
  {
    if LoopGoesWell(marshal, source, columns, maxRows, maxBytes, cursor, endsBadly) {
      FinalCheckSpares(marshal, OutputOf(source, columns, maxRows, cursor), maxBytes);
    }
  }

  // Fourteen angle brackets in the source name are enough for it to fire.
  lemma FinalCheckMayFire(marshal: Marshal, columns: string)
    ensures var o := Output("<<<<<<<<<<<<<<", columns, [], 0, false);
      Size(Encode(marshal, o)) > Estimate(marshal, o.source, columns, [])
  {
    var o := Output("<<<<<<<<<<<<<<", columns, [], 0, false);
    Brackets(o.source);
    assert Decimal(0) == ['0'];
    EstimateVersusExact(marshal, o);
  }

  lemma {:induction false} Brackets(s: string)
    requires forall i :: 0 <= i < |s| ==> s[i] == '<'
    ensures Extra(s) == 5 * |s|
  {
    if s != "" {
      Brackets(s[..|s| - 1]);
    }
  }

  // A limit asked for: the server's own stands in for none, and more than the maximum is refused.
  function Limit(asked: int, standard: int, maximum: int): (r: Option<int>)
    requires 0 < standard <= maximum
    ensures r.None? <==> asked > maximum
    ensures 0 < asked <= maximum ==> r == Some(asked)
    ensures asked <= 0 ==> r == Some(standard)
  {
    var limit := if asked <= 0 then standard else asked;
    if limit > maximum then None else Some(limit)
  }
}
