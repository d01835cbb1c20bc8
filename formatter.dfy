/** Output shaping (src/core/output/formatter.ts): the success or error envelope
    as indented JSON when output is machine-read, otherwise a human rendering:
    a padded table for arrays, indented `key: value` lines for objects. */
module Formatter {

  import opened Wrappers
  import Text
  import opened Json
  import opened Process
  import opened LinkedApi
  import FieldSelector

  /** `{ success: false, error: { type, message } }`. */
  function ErrorEnvelope(e: ActionError): Value
  {
    JObj([Member("success", JBool(false)),
          Member("error", JObj([Member("type", JStr(e.errorType)), Member("message", JStr(e.message))]))])
  }

  /** `{ success: true, data }`. */
  function SuccessEnvelope(data: Value): Value
  {
    JObj([Member("success", JBool(true)), Member("data", data)])
  }

  /** JSON output is chosen by `--json` or by standard output not being a terminal. */
  predicate MachineReadable(isJson: bool, stdoutTty: bool)
  {
    isJson || !stdoutTty
  }

  /** A response is a failure when it reports errors and carries no truthy data. */
  predicate HasActionError(data: Option<Value>, errors: seq<ActionError>)
  {
    |errors| > 0 && !(data.Some? && Truthy(data.value))
  }

  /** The rendering of a failure: only the first error is shown. */
  function ErrorWrites(e: ActionError, machineReadable: bool, isQuiet: bool): seq<Write>
  {
    if machineReadable then [JsonLine(true, ErrorEnvelope(e))]
    else if !isQuiet then [Str("Error: " + e.message + " (" + e.errorType + ")\n")]
    else []
  }

  /** The data after `--fields`: projected only when the flag is non-empty and
      there is data. */
  function SelectedData(data: Option<Value>, fields: Option<string>): (r: Option<Value>)
    ensures (fields.None? || fields.value == "" || data.None?) ==> r == data
    ensures fields.Some? && fields.value != "" && data.Some? ==>
              r == Some(FieldSelector.SelectFields(data.value, fields.value))
  {
    if fields.Some? && fields.value != "" && data.Some? then Some(FieldSelector.SelectFields(data.value, fields.value))
    else data
  }

  /** What a rendering wrote, and the message of the `TypeError` it threw part
      way through, if it threw: nothing is written after the throw. */
  datatype Rendered = Rendered(writes: seq<Write>, failure: Option<string>)

  /** Rendering `b` after `a`; `b` never starts when `a` threw. */
  function Then(a: Rendered, b: Rendered): Rendered
  {
    if a.failure.Some? then a else Rendered(a.writes + b.writes, b.failure)
  }

  /** The message Node's engine gives `Object.entries(null)`. */
  const EntriesOfNull := "Cannot convert undefined or null to object"

  /** The message Node's engine gives a read of property `key` of `null`. */
  function ReadOfNull(key: string): string
  {
    "Cannot read properties of null (reading '" + key + "')"
  }

  /** Everything `formatOutput` writes to standard output, up to a throw. */
  function OutputWrites(data: Option<Value>, errors: seq<ActionError>, isJson: bool, fields: Option<string>,
                        isQuiet: bool, stdoutTty: bool): seq<Write>
  {
    if HasActionError(data, errors) then
      ErrorWrites(errors[0], MachineReadable(isJson, stdoutTty), isQuiet)
    else
      var outputData := SelectedData(data, fields);
      if MachineReadable(isJson, stdoutTty) then
        [JsonLine(true, SuccessEnvelope(if outputData.Some? then outputData.value else JNull))]
      else
        HumanWrites(outputData).writes
  }

  /** What `formatOutput` throws: only the human rendering of data can throw. */
  function OutputFailure(data: Option<Value>, errors: seq<ActionError>, isJson: bool, fields: Option<string>,
                         isQuiet: bool, stdoutTty: bool): (r: Option<string>)
    ensures r.Some? ==> !HasActionError(data, errors) && !MachineReadable(isJson, stdoutTty)
  {
    if HasActionError(data, errors) || MachineReadable(isJson, stdoutTty) then None
    else HumanWrites(SelectedData(data, fields)).failure
  }

  /** Everything `formatVoidOutput` writes to standard output. */
  function VoidWrites(errors: seq<ActionError>, isJson: bool, isQuiet: bool, successMessage: string,
                      stdoutTty: bool): seq<Write>
  {
    if |errors| > 0 then ErrorWrites(errors[0], MachineReadable(isJson, stdoutTty), isQuiet)
    else if MachineReadable(isJson, stdoutTty) then [JsonLine(true, SuccessEnvelope(JNull))]
    else if !isQuiet then [Str(successMessage + "\n")]
    else []
  }

  /** Machine-readable output is one JSON envelope whatever `--quiet` says; it
      reports failure exactly when the response is a failure, with the first
      error's type and message, and otherwise the (selected) data or `null`. */
  lemma EnvelopeDecision(data: Option<Value>, errors: seq<ActionError>, isJson: bool, fields: Option<string>,
                         isQuiet: bool, stdoutTty: bool)
    requires MachineReadable(isJson, stdoutTty)
    ensures var ws := OutputWrites(data, errors, isJson, fields, isQuiet, stdoutTty);
            |ws| == 1 && ws[0].JsonLine? && ws[0].pretty && ws[0].value.JObj? &&
            Lookup(ws[0].value.members, "success") == Some(JBool(!HasActionError(data, errors))) &&
            (HasActionError(data, errors) ==>
               Lookup(ws[0].value.members, "error") ==
                 Some(JObj([Member("type", JStr(errors[0].errorType)), Member("message", JStr(errors[0].message))]))) &&
            (!HasActionError(data, errors) ==>
               Lookup(ws[0].value.members, "data") ==
                 Some(var d := SelectedData(data, fields); if d.Some? then d.value else JNull))
    ensures OutputWrites(data, errors, isJson, fields, true, stdoutTty) ==
            OutputWrites(data, errors, isJson, fields, false, stdoutTty)
    ensures OutputFailure(data, errors, isJson, fields, isQuiet, stdoutTty) == None
  {
  }

  /** Only the first error matters. */
  lemma OnlyFirstErrorRendered(data: Option<Value>, errors: seq<ActionError>, isJson: bool, fields: Option<string>,
                               isQuiet: bool, stdoutTty: bool)
    requires |errors| > 0
    ensures OutputWrites(data, errors, isJson, fields, isQuiet, stdoutTty) ==
            OutputWrites(data, errors[..1], isJson, fields, isQuiet, stdoutTty)
  {
  }

  /** For a terminal, `--quiet` removes the error line and nothing else: human
      renderings of data are printed either way. */
  lemma QuietSuppressesOnlyTheErrorLine(data: Option<Value>, errors: seq<ActionError>, isJson: bool,
                                        fields: Option<string>, stdoutTty: bool)
    requires !MachineReadable(isJson, stdoutTty)
    ensures !HasActionError(data, errors) ==>
              OutputWrites(data, errors, isJson, fields, true, stdoutTty) ==
              OutputWrites(data, errors, isJson, fields, false, stdoutTty)
    ensures HasActionError(data, errors) ==>
              OutputWrites(data, errors, isJson, fields, true, stdoutTty) == [] &&
              OutputWrites(data, errors, isJson, fields, false, stdoutTty) ==
                [Str("Error: " + errors[0].message + " (" + errors[0].errorType + ")\n")]
  {
  }

  /** `formatVoidOutput` is `formatOutput` without data, except that any error is
      a failure and a terminal gets the success message instead of nothing. */
  lemma VoidOutputIsOutputWithoutData(errors: seq<ActionError>, isJson: bool, isQuiet: bool,
                                      successMessage: string, stdoutTty: bool)
    ensures |errors| > 0 || MachineReadable(isJson, stdoutTty) ==>
              VoidWrites(errors, isJson, isQuiet, successMessage, stdoutTty) ==
              OutputWrites(None, errors, isJson, None, isQuiet, stdoutTty)
    ensures |errors| == 0 && !MachineReadable(isJson, stdoutTty) ==>
              OutputWrites(None, errors, isJson, None, isQuiet, stdoutTty) == [] &&
              VoidWrites(errors, isJson, isQuiet, successMessage, stdoutTty) ==
                (if isQuiet then [] else [Str(successMessage + "\n")])
  {
  }

  /** `formatHumanOutput`: nothing for `null` or no data, a table for arrays,
      key-value lines for objects, and `String(data)` otherwise; the table and
      the key-value lines throw on the `null` rows and items they read. */
  function HumanWrites(data: Option<Value>): Rendered
  {
    match data
    case None => Rendered([], None)
    case Some(JNull) => Rendered([], None)
    case Some(JArr(items)) => TableWrites(items)
    case Some(JObj(ms)) => KeyValueWrites(JObj(ms), 0)
    case Some(v) => Rendered([Str(Display(v) + "\n")], None)
  }

  // ----- Tables -----

  function Max(a: nat, b: nat): nat
  {
    if a < b then b else a
  }

  /** `String(record[key] ?? '')`: a missing or `null` cell is empty. */
  function Cell(row: Value, key: string): string
  {
    match Property(row, key)
    case None => ""
    case Some(JNull) => ""
    case Some(v) => Display(v)
  }

  /** The lengths of the cells of one column, row by row. */
  function CellLengths(key: string, rows: seq<Value>): (ls: seq<nat>)
    ensures |ls| == |rows|
    ensures forall i :: 0 <= i < |rows| ==> ls[i] == |Cell(rows[i], key)|
  {
    seq(|rows|, i requires 0 <= i < |rows| => |Cell(rows[i], key)|)
  }

  /** `base` widened by every longer length, in order. */
  function Widest(base: nat, ls: seq<nat>): (w: nat)
    ensures w >= base
  {
    if ls == [] then base else Max(Widest(base, ls[..|ls| - 1]), ls[|ls| - 1])
  }

  lemma {:induction false} WidestBound(base: nat, ls: seq<nat>)
    ensures forall i :: 0 <= i < |ls| ==> ls[i] <= Widest(base, ls)
    ensures Widest(base, ls) == base || exists i :: 0 <= i < |ls| && Widest(base, ls) == ls[i]
  {
    if ls != [] {
      var init := ls[..|ls| - 1];
      WidestBound(base, init);
      assert forall i :: 0 <= i < |init| ==> init[i] == ls[i];
    }
  }

  /** The width of a column after the rows so far: the header's length, widened
      by every longer cell. */
  function Width(key: string, rows: seq<Value>): (w: nat)
    ensures w >= |key|
  {
    Widest(|key|, CellLengths(key, rows))
  }

  /** One more row widens a column to that row's cell when it is longer. */
  lemma WidthSnoc(key: string, rows: seq<Value>, i: nat)
    requires i < |rows|
    ensures Width(key, rows[..i + 1]) == Max(Width(key, rows[..i]), |Cell(rows[i], key)|)
  {
    var ls := CellLengths(key, rows[..i + 1]);
    assert ls[..i] == CellLengths(key, rows[..i]);
    assert ls[i] == |Cell(rows[i], key)|;
  }

  /** A column is as wide as its header or its widest cell, whichever is longer. */
  lemma WidthIsWidest(key: string, rows: seq<Value>)
    ensures forall i :: 0 <= i < |rows| ==> |Cell(rows[i], key)| <= Width(key, rows)
    ensures Width(key, rows) == |key| || exists i :: 0 <= i < |rows| && Width(key, rows) == |Cell(rows[i], key)|
  {
    var ls := CellLengths(key, rows);
    WidestBound(|key|, ls);
    if Width(key, rows) != |key| {
      var i :| 0 <= i < |ls| && Widest(|key|, ls) == ls[i];
      assert Width(key, rows) == |Cell(rows[i], key)|;
    }
  }

  /** The column widths of a table with the given columns. */
  function Widths(keys: seq<string>, rows: seq<Value>): (widths: map<string, nat>)
    ensures forall k :: k in widths <==> k in keys
  {
    map k | k in keys :: Width(k, rows)
  }

  predicate HasColumns(keys: seq<string>, widths: map<string, nat>)
  {
    forall k :: k in keys ==> k in widths
  }

  function HeaderLine(keys: seq<string>, widths: map<string, nat>): string
    requires HasColumns(keys, widths)
  {
    Text.Join(seq(|keys|, j requires 0 <= j < |keys| => Text.PadEnd(keys[j], widths[keys[j]])), "  ")
  }

  function SeparatorLine(keys: seq<string>, widths: map<string, nat>): string
    requires HasColumns(keys, widths)
  {
    Text.Join(seq(|keys|, j requires 0 <= j < |keys| => Text.Repeat('-', widths[keys[j]])), "  ")
  }

  function RowLine(keys: seq<string>, widths: map<string, nat>, row: Value): string
    requires HasColumns(keys, widths)
  {
    Text.Join(seq(|keys|, j requires 0 <= j < |keys| => Text.PadEnd(Cell(row, keys[j]), widths[keys[j]])), "  ")
  }

  /** The data lines of a table. */
  function RowLines(keys: seq<string>, widths: map<string, nat>, rows: seq<Value>): seq<Write>
    requires HasColumns(keys, widths)
  {
    if rows == [] then []
    else RowLines(keys, widths, rows[..|rows| - 1]) + [Str(RowLine(keys, widths, rows[|rows| - 1]) + "\n")]
  }

  /** The width loop of `formatTable` reads a column of a `null` row, which
      throws: there is a column and some row is `null`. */
  predicate ReadsNullRow(keys: seq<string>, rows: seq<Value>)
  {
    keys != [] && JNull in rows
  }

  /** What `formatTable(rows)` writes, and what it throws. */
  function TableWrites(rows: seq<Value>): Rendered
  {
    if rows == [] then Rendered([Str("(no results)\n")], None)
    else if !IsObject(rows[0]) then Rendered(seq(|rows|, i requires 0 <= i < |rows| => Str(Display(rows[i]) + "\n")), None)
    else
      var keys := ObjectKeys(rows[0]);
      if ReadsNullRow(keys, rows) then Rendered([], Some(ReadOfNull(keys[0])))
      else
        var widths := Widths(keys, rows);
        Rendered([Str(HeaderLine(keys, widths) + "\n"), Str(SeparatorLine(keys, widths) + "\n")] +
                 RowLines(keys, widths, rows), None)
  }

  /** One data line per row. */
  lemma {:induction false} RowLinesLength(keys: seq<string>, widths: map<string, nat>, rows: seq<Value>)
    requires HasColumns(keys, widths)
    ensures |RowLines(keys, widths, rows)| == |rows|
  {
    if rows != [] {
      RowLinesLength(keys, widths, rows[..|rows| - 1]);
    }
  }

  /** The data line at position `i` is the line of row `i`. */
  lemma {:induction false} RowLineAt(keys: seq<string>, widths: map<string, nat>, rows: seq<Value>, i: nat)
    requires HasColumns(keys, widths) && i < |rows|
    ensures |RowLines(keys, widths, rows)| == |rows|
    ensures RowLines(keys, widths, rows)[i] == Str(RowLine(keys, widths, rows[i]) + "\n")
  {
    RowLinesLength(keys, widths, rows);
    if i < |rows| - 1 {
      var init := rows[..|rows| - 1];
      assert RowLines(keys, widths, rows)[i] == Str(RowLine(keys, widths, rows[i]) + "\n") by {
        RowLinesLength(keys, widths, init);
        RowLineAt(keys, widths, init, i);
        assert init[i] == rows[i];
      }
    }
  }

  /** One data line per row, in the order of the rows. */
  lemma RowLinesShape(keys: seq<string>, widths: map<string, nat>, rows: seq<Value>)
    requires HasColumns(keys, widths)
    ensures |RowLines(keys, widths, rows)| == |rows|
    ensures forall i :: 0 <= i < |rows| ==>
              RowLines(keys, widths, rows)[i] == Str(RowLine(keys, widths, rows[i]) + "\n")
  {
    RowLinesLength(keys, widths, rows);
    forall i | 0 <= i < |rows|
      ensures RowLines(keys, widths, rows)[i] == Str(RowLine(keys, widths, rows[i]) + "\n")
    {
      RowLineAt(keys, widths, rows, i);
    }
  }

  /** An empty table is the single line `(no results)`; a table whose first row
      is not an object is one `String(row)` line per row; otherwise the columns
      are the first row's keys, and a `null` row among the rows makes the width
      loop throw before anything is written, on the first column; without one,
      a header and a separator line come before one line per row. */
  lemma TableShape(rows: seq<Value>)
    ensures rows == [] ==> TableWrites(rows) == Rendered([Str("(no results)\n")], None)
    ensures rows != [] && !IsObject(rows[0]) ==>
              TableWrites(rows).failure == None && |TableWrites(rows).writes| == |rows| &&
              forall i :: 0 <= i < |rows| ==> TableWrites(rows).writes[i] == Str(Display(rows[i]) + "\n")
    ensures rows != [] && IsObject(rows[0]) ==>
              var keys := ObjectKeys(rows[0]);
              (TableWrites(rows).failure.Some? <==> keys != [] && JNull in rows) &&
              (TableWrites(rows).failure.Some? ==>
                 TableWrites(rows) == Rendered([], Some(ReadOfNull(keys[0]))))
    ensures rows != [] && IsObject(rows[0]) && !ReadsNullRow(ObjectKeys(rows[0]), rows) ==>
              var keys := ObjectKeys(rows[0]);
              var widths := Widths(keys, rows);
              var ws := TableWrites(rows).writes;
              |ws| == |rows| + 2 &&
              ws[0] == Str(HeaderLine(keys, widths) + "\n") &&
              ws[1] == Str(SeparatorLine(keys, widths) + "\n") &&
              forall i :: 0 <= i < |rows| ==> ws[i + 2] == Str(RowLine(keys, widths, rows[i]) + "\n")
  {
    if rows != [] && IsObject(rows[0]) {
      var keys := ObjectKeys(rows[0]);
      RowLinesShape(keys, Widths(keys, rows), rows);
    }
  }

  /** Every cell of the header, the separator and each row is exactly as wide as
      its column, so all lines of a table have the same length. */
  lemma TableColumnsAligned(keys: seq<string>, rows: seq<Value>, row: Value)
    requires row in rows
    ensures var widths := Widths(keys, rows);
            |HeaderLine(keys, widths)| == |SeparatorLine(keys, widths)| == |RowLine(keys, widths, row)|
    ensures forall j :: 0 <= j < |keys| ==>
              |Text.PadEnd(keys[j], Width(keys[j], rows))| == Width(keys[j], rows) &&
              |Text.PadEnd(Cell(row, keys[j]), Width(keys[j], rows))| == Width(keys[j], rows)
  {
    var widths := Widths(keys, rows);
    var header := seq(|keys|, j requires 0 <= j < |keys| => Text.PadEnd(keys[j], widths[keys[j]]));
    var separator := seq(|keys|, j requires 0 <= j < |keys| => Text.Repeat('-', widths[keys[j]]));
    var line := seq(|keys|, j requires 0 <= j < |keys| => Text.PadEnd(Cell(row, keys[j]), widths[keys[j]]));
    var r :| 0 <= r < |rows| && rows[r] == row;
    forall j | 0 <= j < |keys|
      ensures |line[j]| == |header[j]| == |separator[j]| == Width(keys[j], rows)
    {
      WidthIsWidest(keys[j], rows);
      assert |Cell(rows[r], keys[j])| <= Width(keys[j], rows);
    }
    Text.JoinSameShape(header, separator, "  ");
    Text.JoinSameShape(header, line, "  ");
  }

  /** The first loop of `formatTable`: every column as wide as its header. */
  method HeaderWidths(keys: seq<string>) returns (widths: map<string, nat>)
    ensures forall k :: k in widths <==> k in keys
    ensures forall k :: k in widths ==> widths[k] == |k|
  {
    widths := map[];
    for j := 0 to |keys|
      invariant forall k :: k in widths <==> k in keys[..j]
      invariant forall k :: k in widths ==> widths[k] == |k|
    {
      assert keys[..j + 1] == keys[..j] + [keys[j]];
      widths := widths[keys[j] := |keys[j]|];
    }
    assert keys[..|keys|] == keys;
  }

  /** One pass of the inner loop of `formatTable`: every column widened to
      row `i`'s cell when that is longer; reading the first column of a `null`
      row throws. */
  method WidenByRow(keys: seq<string>, rows: seq<Value>, i: nat, before: map<string, nat>)
    returns (r: Result<map<string, nat>, string>)
    requires i < |rows|
    requires forall k :: k in before <==> k in keys
    requires forall k :: k in before ==> before[k] == Width(k, rows[..i])
    ensures r.Err? <==> keys != [] && rows[i].JNull?
    ensures r.Err? ==> r.error == ReadOfNull(keys[0])
    ensures r.Ok? ==> forall k :: k in r.value <==> k in keys
    ensures r.Ok? ==> forall k :: k in r.value ==> r.value[k] == Width(k, rows[..i + 1])
  {
    var widths := before;
    for j := 0 to |keys|
      invariant rows[i].JNull? ==> j == 0
      invariant forall k :: k in widths <==> k in keys
      invariant forall k :: k in widths ==>
                  widths[k] == if k in keys[..j] then Width(k, rows[..i + 1]) else Width(k, rows[..i])
    {
      var record := rows[i];
      if record.JNull? {
        return Err(ReadOfNull(keys[j]));
      }
      assert keys[..j + 1] == keys[..j] + [keys[j]];
      WidthSnoc(keys[j], rows, i);
      var value := Cell(record, keys[j]);
      var currentWidth := widths[keys[j]];
      widths := widths[keys[j] := Max(currentWidth, |value|)];
    }
    assert keys[..|keys|] == keys;
    return Ok(widths);
  }

  /** The column widths `formatTable` keeps in its dictionary, first the header
      lengths, then widened row by row, or the error of the first `null` row. */
  method ColumnWidths(keys: seq<string>, rows: seq<Value>) returns (r: Result<map<string, nat>, string>)
    ensures ReadsNullRow(keys, rows) ==> r == Err(ReadOfNull(keys[0]))
    ensures !ReadsNullRow(keys, rows) ==> r == Ok(Widths(keys, rows))
  {
    var widths := HeaderWidths(keys);
    for i := 0 to |rows|
      invariant keys != [] ==> JNull !in rows[..i]
      invariant forall k :: k in widths <==> k in keys
      invariant forall k :: k in widths ==> widths[k] == Width(k, rows[..i])
    {
      var next := WidenByRow(keys, rows, i, widths);
      if next.Err? {
        assert ReadsNullRow(keys, rows) by {
          assert rows[i] in rows;
        }
        return next;
      }
      assert keys != [] ==> JNull !in rows[..i + 1] by {
        assert rows[..i + 1] == rows[..i] + [rows[i]];
      }
      widths := next.value;
    }
    assert rows[..|rows|] == rows;
    WidthsAre(keys, rows, widths);
    return Ok(widths);
  }

  /** A dictionary with a width for exactly the columns, each the column's
      width, is the widths of the table. */
  lemma WidthsAre(keys: seq<string>, rows: seq<Value>, widths: map<string, nat>)
    requires forall k :: k in widths <==> k in keys
    requires forall k :: k in widths ==> widths[k] == Width(k, rows)
    ensures widths == Widths(keys, rows)
  {
    assert forall k :: k in widths ==> widths[k] == Widths(keys, rows)[k];
  }

  /** The rows of a table whose first row is not an object, one `String(row)` each. */
  method PrimitiveRows(rows: seq<Value>) returns (ws: seq<Write>)
    ensures ws == seq(|rows|, i requires 0 <= i < |rows| => Str(Display(rows[i]) + "\n"))
  {
    ws := [];
    for i := 0 to |rows|
      invariant ws == seq(i, n requires 0 <= n < i => Str(Display(rows[n]) + "\n"))
    {
      ws := ws + [Str(Display(rows[i]) + "\n")];
    }
  }

  /** `formatTable(rows)`: the lines it writes, one entry per line, and what it throws. */
  method FormatTable(rows: seq<Value>) returns (r: Rendered)
    ensures r == TableWrites(rows)
  {
    if |rows| == 0 {
      return Rendered([Str("(no results)\n")], None);
    }
    var firstRow := rows[0];
    if !IsObject(firstRow) {
      var ws := PrimitiveRows(rows);
      return Rendered(ws, None);
    }
    var keys := ObjectKeys(firstRow);
    var computed := ColumnWidths(keys, rows);
    if computed.Err? {
      return Rendered([], Some(computed.error));
    }
    var widths := computed.value;
    var header := HeaderLine(keys, widths);
    var separator := SeparatorLine(keys, widths);
    var lines: seq<Write> := [];
    for i := 0 to |rows|
      invariant lines == RowLines(keys, widths, rows[..i])
    {
      assert rows[..i + 1][..i] == rows[..i];
      var line := RowLine(keys, widths, rows[i]);
      lines := lines + [Str(line + "\n")];
    }
    assert rows[..|rows|] == rows;
    return Rendered([Str(header + "\n"), Str(separator + "\n")] + lines, None);
  }

  // ----- Key-value lines -----

  function Indent(n: nat): (s: string)
    ensures |s| == n
  {
    Text.Repeat(' ', n)
  }

  /** `formatKeyValue(v, indent)`: one block per entry of `Object.entries(v)`;
      `Object.entries(null)` throws. */
  function KeyValueWrites(v: Value, indent: nat): Rendered
    decreases v, 1
  {
    match v
    case JObj(_) => EntryWrites(v, 0, indent)
    case JArr(_) => EntryWrites(v, 0, indent)
    case JStr(s) =>
      Rendered(seq(|s|, i requires 0 <= i < |s| => Str(Indent(indent) + Text.NatToString(i) + ": " + [s[i]] + "\n")), None)
    case JNull => Rendered([], Some(EntriesOfNull))
    case _ => Rendered([], None)
  }

  /** The blocks of the entries of an object or array from position `i` on,
      up to the first that throws. */
  function EntryWrites(v: Value, i: nat, indent: nat): Rendered
    requires v.JObj? || v.JArr?
    requires i <= |Entries(v)|
    decreases v, 1, |Entries(v)| - i
  {
    if i == |Entries(v)| then Rendered([], None)
    else
      var key := if v.JObj? then v.members[i].key else Text.NatToString(i);
      var value := if v.JObj? then v.members[i].value else v.items[i];
      Then(MemberWrites(key, value, indent), EntryWrites(v, i + 1, indent))
  }

  /** The block of one entry: nothing for `null`, a header and a list for an
      array, a header and a nested block two columns deeper for an object,
      else one `key: value` line. */
  function MemberWrites(key: string, value: Value, indent: nat): Rendered
    decreases value, 2
  {
    var prefix := Indent(indent);
    match value
    case JNull => Rendered([], None)
    case JArr(items) =>
      if items == [] then Rendered([Str(prefix + key + ":\n"), Str(prefix + "  (empty)\n")], None)
      else if IsObject(items[0]) then
        var blocks := ItemBlocks(value, 0, indent);
        Rendered([Str(prefix + key + ":\n")] + blocks.writes, blocks.failure)
      else
        Rendered([Str(prefix + key + ":\n")] +
                 seq(|items|, j requires 0 <= j < |items| => Str(prefix + "  - " + Display(items[j]) + "\n")), None)
    case JObj(_) =>
      var inner := KeyValueWrites(value, indent + 2);
      Rendered([Str(prefix + key + ":\n")] + inner.writes, inner.failure)
    case _ => Rendered([Str(prefix + key + ": " + Display(value) + "\n")], None)
  }

  /** The items of an array of objects from position `j` on: each a `---`
      separator followed by its entries four columns deeper, up to the first
      item that throws. */
  function ItemBlocks(list: Value, j: nat, indent: nat): Rendered
    requires list.JArr? && j <= |list.items|
    decreases list, 1, |list.items| - j
  {
    if j == |list.items| then Rendered([], None)
    else
      var item := KeyValueWrites(list.items[j], indent + 4);
      Then(Rendered([Str(Indent(indent) + "  ---\n")] + item.writes, item.failure), ItemBlocks(list, j + 1, indent))
  }

  /** A value printed on its own `key: value` line. */
  predicate Scalar(v: Value)
  {
    v.JBool? || v.JNum? || v.JStr?
  }

  /** The block of one entry by the kind of its value: `null` is skipped, an
      empty array is its header and `(empty)`, an object is its header and its
      entries two columns deeper, a scalar is a single line. */
  lemma MemberShape(key: string, value: Value, indent: nat)
    ensures value.JNull? ==> MemberWrites(key, value, indent) == Rendered([], None)
    ensures value == JArr([]) ==>
              MemberWrites(key, value, indent) ==
                Rendered([Str(Indent(indent) + key + ":\n"), Str(Indent(indent) + "  (empty)\n")], None)
    ensures value.JObj? ==>
              var inner := KeyValueWrites(value, indent + 2);
              MemberWrites(key, value, indent) == Rendered([Str(Indent(indent) + key + ":\n")] + inner.writes, inner.failure)
    ensures Scalar(value) ==>
              MemberWrites(key, value, indent) == Rendered([Str(Indent(indent) + key + ": " + Display(value) + "\n")], None)
  {
  }

  /** The entries of an object with only scalar values from position `i` on:
      one `key: value` line each, in order. */
  lemma {:induction false} ScalarEntriesLines(ms: seq<Member>, i: nat, indent: nat)
    requires i <= |ms|
    requires forall j :: 0 <= j < |ms| ==> Scalar(ms[j].value)
    ensures EntryWrites(JObj(ms), i, indent).failure == None
    ensures |EntryWrites(JObj(ms), i, indent).writes| == |ms| - i
    ensures forall j :: i <= j < |ms| ==>
              EntryWrites(JObj(ms), i, indent).writes[j - i] ==
                Str(Indent(indent) + ms[j].key + ": " + Display(ms[j].value) + "\n")
    decreases |ms| - i
  {
    if i < |ms| {
      ScalarEntriesLines(ms, i + 1, indent);
      MemberShape(ms[i].key, ms[i].value, indent);
    }
  }

  /** `formatKeyValue` of an object whose values are all scalars is one
      `key: value` line per member, in order, and does not throw. */
  lemma ScalarObjectLines(ms: seq<Member>, indent: nat)
    requires forall j :: 0 <= j < |ms| ==> Scalar(ms[j].value)
    ensures KeyValueWrites(JObj(ms), indent).failure == None
    ensures |KeyValueWrites(JObj(ms), indent).writes| == |ms|
    ensures forall j :: 0 <= j < |ms| ==>
              KeyValueWrites(JObj(ms), indent).writes[j] ==
                Str(Indent(indent) + ms[j].key + ": " + Display(ms[j].value) + "\n")
  {
    assert KeyValueWrites(JObj(ms), indent) == EntryWrites(JObj(ms), 0, indent);
    ScalarEntriesLines(ms, 0, indent);
  }

  // ----- When `formatKeyValue` throws -----

  /** `formatKeyValue(v)` calls `Object.entries` on `null`: `v` is `null`, or
      one of its entries' blocks does. */
  predicate ReachesNull(v: Value)
    decreases v, 1
  {
    match v
    case JNull => true
    case JObj(_) => EntriesReachNull(v, 0)
    case JArr(_) => EntriesReachNull(v, 0)
    case _ => false
  }

  /** Some entry from position `i` on has a block that reaches `null`. */
  predicate EntriesReachNull(v: Value, i: nat)
    requires v.JObj? || v.JArr?
    decreases v, 0
  {
    if v.JObj? then exists j :: i <= j < |v.members| && MemberReachesNull(v.members[j].value)
    else exists j :: i <= j < |v.items| && MemberReachesNull(v.items[j])
  }

  /** The block of an entry reaches `null`: a nested object does, or a list
      whose first item is an object has an item that does, such as a `null`
      item. A list of other values is printed, never walked. */
  predicate MemberReachesNull(value: Value)
    decreases value, 2
  {
    match value
    case JArr(items) => items != [] && IsObject(items[0]) && ItemsReachNull(value, 0)
    case JObj(_) => ReachesNull(value)
    case _ => false
  }

  /** Some item of a list from position `j` on reaches `null`. */
  predicate ItemsReachNull(list: Value, j: nat)
    requires list.JArr?
    decreases list, 0
  {
    exists k :: j <= k < |list.items| && ReachesNull(list.items[k])
  }

  /** An entry reaches `null` from position `i` on when entry `i` does, or a
      later one. */
  lemma EntriesReachNullStep(v: Value, i: nat)
    requires (v.JObj? && i < |v.members|) || (v.JArr? && i < |v.items|)
    ensures EntriesReachNull(v, i) <==>
              MemberReachesNull(if v.JObj? then v.members[i].value else v.items[i]) || EntriesReachNull(v, i + 1)
  {
    if v.JObj? && EntriesReachNull(v, i) {
      var j :| i <= j < |v.members| && MemberReachesNull(v.members[j].value);
      if j > i {
        assert EntriesReachNull(v, i + 1);
      }
    } else if v.JArr? && EntriesReachNull(v, i) {
      var j :| i <= j < |v.items| && MemberReachesNull(v.items[j]);
      if j > i {
        assert EntriesReachNull(v, i + 1);
      }
    }
  }

  lemma ItemsReachNullStep(list: Value, j: nat)
    requires list.JArr? && j < |list.items|
    ensures ItemsReachNull(list, j) <==> ReachesNull(list.items[j]) || ItemsReachNull(list, j + 1)
  {
    if ItemsReachNull(list, j) {
      var k :| j <= k < |list.items| && ReachesNull(list.items[k]);
      if k > j {
        assert ItemsReachNull(list, j + 1);
      }
    }
  }

  /** `formatKeyValue(v)` throws exactly when it reaches `null`, and then with
      the message of `Object.entries(null)`. */
  lemma {:induction false} KeyValueFailure(v: Value, indent: nat)
    ensures KeyValueWrites(v, indent).failure == if ReachesNull(v) then Some(EntriesOfNull) else None
    decreases v, 1
  {
    match v
    case JObj(_) => EntryFailure(v, 0, indent);
    case JArr(_) => EntryFailure(v, 0, indent);
    case _ =>
  }

  lemma {:induction false} EntryFailure(v: Value, i: nat, indent: nat)
    requires v.JObj? || v.JArr?
    requires i <= |Entries(v)|
    ensures EntryWrites(v, i, indent).failure == if EntriesReachNull(v, i) then Some(EntriesOfNull) else None
    decreases v, 1, |Entries(v)| - i
  {
    if i < |Entries(v)| {
      var key := if v.JObj? then v.members[i].key else Text.NatToString(i);
      var value := if v.JObj? then v.members[i].value else v.items[i];
      MemberFailure(key, value, indent);
      EntryFailure(v, i + 1, indent);
      EntriesReachNullStep(v, i);
    } else {
      assert !EntriesReachNull(v, i);
    }
  }

  lemma {:induction false} MemberFailure(key: string, value: Value, indent: nat)
    ensures MemberWrites(key, value, indent).failure == if MemberReachesNull(value) then Some(EntriesOfNull) else None
    decreases value, 2
  {
    match value
    case JArr(items) =>
      if items != [] && IsObject(items[0]) {
        ItemsFailure(value, 0, indent);
      }
    case JObj(_) => KeyValueFailure(value, indent + 2);
    case _ =>
  }

  lemma {:induction false} ItemsFailure(list: Value, j: nat, indent: nat)
    requires list.JArr? && j <= |list.items|
    ensures ItemBlocks(list, j, indent).failure == if ItemsReachNull(list, j) then Some(EntriesOfNull) else None
    decreases list, 1, |list.items| - j
  {
    if j < |list.items| {
      KeyValueFailure(list.items[j], indent + 4);
      ItemsFailure(list, j + 1, indent);
      ItemsReachNullStep(list, j);
    } else {
      assert !ItemsReachNull(list, j);
    }
  }

  /** In a list whose first item is an object, a `null` item throws after its
      `---` line, so the entry's block ends in the error. */
  lemma NullItemThrows(key: string, items: seq<Value>, indent: nat, k: nat)
    requires items != [] && IsObject(items[0])
    requires k < |items| && items[k].JNull?
    ensures MemberWrites(key, JArr(items), indent).failure == Some(EntriesOfNull)
  {
    assert ReachesNull(items[k]);
    assert ItemsReachNull(JArr(items), 0);
    MemberFailure(key, JArr(items), indent);
  }

  /** Every write is a whole line indented by at least `n` spaces. */
  predicate IndentedLines(ws: seq<Write>, n: nat)
  {
    forall i :: 0 <= i < |ws| ==>
      ws[i].Str? && |ws[i].text| > n && ws[i].text[..n] == Indent(n) && ws[i].text[|ws[i].text| - 1] == '\n'
  }

  lemma IndentedLinesConcat(a: seq<Write>, b: seq<Write>, n: nat)
    requires IndentedLines(a, n) && IndentedLines(b, n)
    ensures IndentedLines(a + b, n)
  {
    assert forall i :: 0 <= i < |a + b| ==> (a + b)[i] == if i < |a| then a[i] else b[i - |a|];
  }

  lemma IndentedLinesDeeper(ws: seq<Write>, n: nat, m: nat)
    requires n <= m && IndentedLines(ws, m)
    ensures IndentedLines(ws, n)
  {
    forall i | 0 <= i < |ws|
      ensures ws[i].text[..n] == Indent(n)
    {
      assert ws[i].text[..n] == ws[i].text[..m][..n];
    }
  }

  /** A line built from the indentation prefix. */
  lemma PrefixedLine(n: nat, rest: string)
    requires |rest| > 0 && rest[|rest| - 1] == '\n'
    ensures IndentedLines([Str(Indent(n) + rest)], n)
  {
    assert (Indent(n) + rest)[..n] == Indent(n);
  }

  /** Indented renderings stay indented when one follows the other. */
  lemma IndentedThen(a: Rendered, b: Rendered, n: nat)
    requires IndentedLines(a.writes, n) && IndentedLines(b.writes, n)
    ensures IndentedLines(Then(a, b).writes, n)
  {
    if a.failure.None? {
      IndentedLinesConcat(a.writes, b.writes, n);
    }
  }

  /** Every line `formatKeyValue(v, indent)` writes is indented by `indent` or
      more and ends with a newline. */
  lemma {:induction false} KeyValueIndented(v: Value, indent: nat)
    ensures IndentedLines(KeyValueWrites(v, indent).writes, indent)
    decreases v, 1
  {
    match v
    case JObj(_) => EntryIndented(v, 0, indent);
    case JArr(_) => EntryIndented(v, 0, indent);
    case JStr(s) =>
      var ws := KeyValueWrites(v, indent).writes;
      forall i | 0 <= i < |ws|
        ensures ws[i].Str? && |ws[i].text| > indent && ws[i].text[..indent] == Indent(indent)
        ensures ws[i].text[|ws[i].text| - 1] == '\n'
      {
        PrefixedLine(indent, Text.NatToString(i) + ": " + [s[i]] + "\n");
        assert [Str(Indent(indent) + Text.NatToString(i) + ": " + [s[i]] + "\n")][0] == ws[i];
      }
    case _ =>
  }

  lemma {:induction false} EntryIndented(v: Value, i: nat, indent: nat)
    requires v.JObj? || v.JArr?
    requires i <= |Entries(v)|
    ensures IndentedLines(EntryWrites(v, i, indent).writes, indent)
    decreases v, 1, |Entries(v)| - i
  {
    if i < |Entries(v)| {
      var key := if v.JObj? then v.members[i].key else Text.NatToString(i);
      var value := if v.JObj? then v.members[i].value else v.items[i];
      MemberIndented(key, value, indent);
      EntryIndented(v, i + 1, indent);
      IndentedThen(MemberWrites(key, value, indent), EntryWrites(v, i + 1, indent), indent);
    }
  }

  lemma {:induction false} MemberIndented(key: string, value: Value, indent: nat)
    ensures IndentedLines(MemberWrites(key, value, indent).writes, indent)
    decreases value, 2
  {
    match value
    case JNull =>
    case JArr(items) =>
      PrefixedLine(indent, key + ":\n");
      var head := [Str(Indent(indent) + key + ":\n")];
      if items == [] {
        PrefixedLine(indent, "  (empty)\n");
        IndentedLinesConcat(head, [Str(Indent(indent) + "  (empty)\n")], indent);
        assert head + [Str(Indent(indent) + "  (empty)\n")] == MemberWrites(key, value, indent).writes;
      } else if IsObject(items[0]) {
        ItemsIndented(value, 0, indent);
        IndentedLinesConcat(head, ItemBlocks(value, 0, indent).writes, indent);
      } else {
        var rest := seq(|items|, j requires 0 <= j < |items| => Str(Indent(indent) + "  - " + Display(items[j]) + "\n"));
        forall j | 0 <= j < |items|
          ensures rest[j].Str? && |rest[j].text| > indent && rest[j].text[..indent] == Indent(indent)
          ensures rest[j].text[|rest[j].text| - 1] == '\n'
        {
          PrefixedLine(indent, "  - " + Display(items[j]) + "\n");
          assert [Str(Indent(indent) + "  - " + Display(items[j]) + "\n")][0] == rest[j];
        }
        IndentedLinesConcat(head, rest, indent);
      }
    case JObj(_) =>
      var inner := KeyValueWrites(value, indent + 2).writes;
      PrefixedLine(indent, key + ":\n");
      KeyValueIndented(value, indent + 2);
      IndentedLinesDeeper(inner, indent, indent + 2);
      IndentedLinesConcat([Str(Indent(indent) + key + ":\n")], inner, indent);
    case _ =>
      PrefixedLine(indent, key + ": " + Display(value) + "\n");
  }

  lemma {:induction false} ItemsIndented(list: Value, j: nat, indent: nat)
    requires list.JArr? && j <= |list.items|
    ensures IndentedLines(ItemBlocks(list, j, indent).writes, indent)
    decreases list, 1, |list.items| - j
  {
    if j < |list.items| {
      var item := KeyValueWrites(list.items[j], indent + 4);
      var separator := [Str(Indent(indent) + "  ---\n")];
      PrefixedLine(indent, "  ---\n");
      KeyValueIndented(list.items[j], indent + 4);
      IndentedLinesDeeper(item.writes, indent, indent + 4);
      ItemsIndented(list, j + 1, indent);
      IndentedLinesConcat(separator, item.writes, indent);
      IndentedThen(Rendered(separator + item.writes, item.failure), ItemBlocks(list, j + 1, indent), indent);
    }
  }

  // ----- Writing -----

  /** `formatHumanOutput(data)`: writes up to a throw, then returns what it threw. */
  method FormatHumanOutput(console: Console, data: Option<Value>) returns (failure: Option<string>)
    requires console.Open()
    modifies console
    ensures console.stdout == old(console.stdout) + HumanWrites(data).writes
    ensures failure == HumanWrites(data).failure
    ensures console.stderr == old(console.stderr) && console.exitCode == old(console.exitCode)
  {
    match data
    case None => failure := None;
    case Some(JNull) => failure := None;
    case Some(JArr(items)) =>
      var table := FormatTable(items);
      console.OutAll(table.writes);
      failure := table.failure;
    case Some(JObj(ms)) =>
      var lines := KeyValueWrites(JObj(ms), 0);
      console.OutAll(lines.writes);
      failure := lines.failure;
    case Some(v) =>
      console.Out(Str(Display(v) + "\n"));
      failure := None;
  }

  /** `formatOutput({ data, errors, isJson, fields, isQuiet })`: writes up to a
      throw, then returns what it threw. */
  method FormatOutput(console: Console, data: Option<Value>, errors: seq<ActionError>, isJson: bool,
                      fields: Option<string>, isQuiet: bool) returns (failure: Option<string>)
    requires console.Open()
    modifies console
    ensures console.stdout == old(console.stdout) + OutputWrites(data, errors, isJson, fields, isQuiet, console.stdoutTty)
    ensures failure == OutputFailure(data, errors, isJson, fields, isQuiet, console.stdoutTty)
    ensures console.stderr == old(console.stderr) && console.exitCode == old(console.exitCode)
  {
    if |errors| > 0 && !(data.Some? && Truthy(data.value)) {
      var actionError := errors[0];
      if isJson || !console.stdoutTty {
        console.Out(JsonLine(true, ErrorEnvelope(actionError)));
      } else if !isQuiet {
        console.Out(Str("Error: " + actionError.message + " (" + actionError.errorType + ")\n"));
      }
      return None;
    }
    var outputData := data;
    if fields.Some? && fields.value != "" && outputData.Some? {
      outputData := Some(FieldSelector.SelectFields(outputData.value, fields.value));
    }
    if isJson || !console.stdoutTty {
      console.Out(JsonLine(true, SuccessEnvelope(if outputData.Some? then outputData.value else JNull)));
      failure := None;
    } else {
      failure := FormatHumanOutput(console, outputData);
    }
  }

  /** `formatVoidOutput({ errors, isJson, isQuiet, successMessage })`. */
  method FormatVoidOutput(console: Console, errors: seq<ActionError>, isJson: bool, isQuiet: bool,
                          successMessage: string)
    requires console.Open()
    modifies console
    ensures console.stdout == old(console.stdout) + VoidWrites(errors, isJson, isQuiet, successMessage, console.stdoutTty)
    ensures console.stderr == old(console.stderr) && console.exitCode == old(console.exitCode)
  {
    if |errors| > 0 {
      var actionError := errors[0];
      if isJson || !console.stdoutTty {
        console.Out(JsonLine(true, ErrorEnvelope(actionError)));
      } else if !isQuiet {
        console.Out(Str("Error: " + actionError.message + " (" + actionError.errorType + ")\n"));
      }
      return;
    }
    if isJson || !console.stdoutTty {
      console.Out(JsonLine(true, SuccessEnvelope(JNull)));
    } else if !isQuiet {
      console.Out(Str(successMessage + "\n"));
    }
  }
}
