/** The multi-row INSERT that the Postgres plugins build in WriteBatch. */
module Placeholders {
  import opened Collections
  import opened Strings
  import opened BatcherSpec
  import opened Pipeline
  import opened FanOut

  /** One row; the statement names the columns in this order. */
  datatype Row<V> = Row(namespace: V, userId: V, eventId: V, timestamp: V, serverTimestamp: V, payload: V)

  function Column<V>(row: Row<V>, j: nat): V
    requires j < 6
  {
    match j
    case 0 => row.namespace
    case 1 => row.userId
    case 2 => row.eventId
    case 3 => row.timestamp
    case 4 => row.serverTimestamp
    case _ => row.payload
  }

  // ---- Rendering ----

  function DigitChar(d: nat): char
    requires d < 10
  {
    '0' + d as char
  }

  /** The %d verb. */
  function Decimal(n: nat): string {
    if n < 10 then [DigitChar(n)] else Decimal(n / 10) + [DigitChar(n % 10)]
  }

  function Placeholder(n: nat): string { "$" + Decimal(n) }

  function RowNumbers(argPos: nat): seq<nat> {
    [argPos, argPos + 1, argPos + 2, argPos + 3, argPos + 4, argPos + 5]
  }

  function Placeholders(ns: seq<nat>): seq<string> {
    seq(|ns|, i requires 0 <= i < |ns| => Placeholder(ns[i]))
  }

  function RowText(argPos: nat): string {
    "(" + Join(Placeholders(RowNumbers(argPos)), ",") + ")"
  }

  /** The rows that transform did not reject, in batch order. */
  function Survivors<E, V>(batch: seq<E>, transform: E -> Option<Row<V>>): seq<Row<V>> {
    if batch == [] then []
    else
      Survivors(batch[..|batch| - 1], transform)
      + (match transform(batch[|batch| - 1]) case Some(row) => [row] case None => [])
  }

  /** `rows` are the transforms of the events at the positions `at`, in order, and the
      transform of every other event failed. */
  ghost predicate Transformed<E, V>(at: seq<nat>, batch: seq<E>, transform: E -> Option<Row<V>>, rows: seq<Row<V>>) {
    && |at| == |rows|
    && (forall k :: 0 <= k < |at| ==> at[k] < |batch| && transform(batch[at[k]]) == Some(rows[k]))
    && (forall j, k :: 0 <= j < k < |at| ==> at[j] < at[k])
    && (forall i :: 0 <= i < |batch| && i !in at ==> transform(batch[i]).None?)
  }

  /** The surviving rows are those of exactly the events that transform did not reject, in
      batch order. */
  lemma {:induction false} SurvivorsAreTransformed<E, V>(batch: seq<E>, transform: E -> Option<Row<V>>)
    returns (at: seq<nat>)
    ensures Transformed(at, batch, transform, Survivors(batch, transform))
  {
    at := [];
    if batch != [] {
      var n := |batch| - 1;
      at := SurvivorsAreTransformed(batch[..n], transform);
      var rows := Survivors(batch[..n], transform);
      hide Transformed;
      if transform(batch[n]).Some? {
        OneMore(at, batch, transform, rows);
        at := at + [n];
      } else {
        NoneMore(at, batch, transform, rows);
      }
    }
  }

  lemma OneMore<E, V>(at: seq<nat>, batch: seq<E>, transform: E -> Option<Row<V>>, rows: seq<Row<V>>)
    requires batch != [] && Transformed(at, batch[..|batch| - 1], transform, rows)
    requires transform(batch[|batch| - 1]).Some?
    ensures Transformed(at + [|batch| - 1], batch, transform, rows + [transform(batch[|batch| - 1]).value])
  {
    var n := |batch| - 1;
    var at' := at + [n];
    assert forall i :: 0 <= i < n ==> batch[..n][i] == batch[i];
    forall i | 0 <= i < |batch| && i !in at'
      ensures transform(batch[i]).None?
    {
      assert at'[|at|] == n && i < n;
      assert i !in at;
      assert batch[..n][i] == batch[i];
    }
  }

  lemma NoneMore<E, V>(at: seq<nat>, batch: seq<E>, transform: E -> Option<Row<V>>, rows: seq<Row<V>>)
    requires batch != [] && Transformed(at, batch[..|batch| - 1], transform, rows)
    requires transform(batch[|batch| - 1]).None?
    ensures Transformed(at, batch, transform, rows)
  {
    var n := |batch| - 1;
    assert forall i :: 0 <= i < n ==> batch[..n][i] == batch[i];
  }

  datatype Insert<V> = Nothing | AllFailed | Values(text: string, args: seq<V>)

  /** WriteBatch up to the query: an empty batch writes nothing, a batch whose events all
      fail the transformation is an error. */
  method BuildInsert<E, V>(batch: seq<E>, transform: E -> Option<Row<V>>) returns (r: Insert<V>)
    ensures r.Nothing? <==> batch == []
    ensures r.AllFailed? <==> batch != [] && Survivors(batch, transform) == []
    ensures r.Values? ==>
      var rows := Survivors(batch, transform);
      && |r.args| == 6 * |rows|
      && (forall k :: 0 <= k < |rows| ==>
            && r.args[6 * k] == rows[k].namespace && r.args[6 * k + 1] == rows[k].userId
            && r.args[6 * k + 2] == rows[k].eventId && r.args[6 * k + 3] == rows[k].timestamp
            && r.args[6 * k + 4] == rows[k].serverTimestamp && r.args[6 * k + 5] == rows[k].payload)
      && r.text == Join(RowTexts(|rows|), ",")
      && Parse(r.text) == Some(Numbering(|rows|))
      && forall k, j :: 0 <= k < |rows| && 0 <= j < 6 ==>
           && Parse(r.text).value[k][j] == 6 * k + j + 1
           && r.args[Parse(r.text).value[k][j] - 1] == Column(rows[k], j)
  {
    if batch == [] {
      return Nothing;
    }
    var valueStrings: seq<string> := [];
    var valueArgs: seq<V> := [];
    var argPos := 1;
    ghost var rows: seq<Row<V>> := [];
    assert RowTexts(0) == [] && Aligned(valueArgs, rows);
    hide Parse, Join, RowText, Placeholder, Column, RowNumbers, RowTexts, Aligned, Numbering, Decimal;
    for i := 0 to |batch|
      invariant rows == Survivors(batch[..i], transform)
      invariant argPos == 6 * |rows| + 1 && |valueArgs| == 6 * |rows|
      invariant valueStrings == RowTexts(|rows|)
      invariant Aligned(valueArgs, rows)
    {
      assert batch[..i + 1][..i] == batch[..i];
      match transform(batch[i])
      case None =>
      case Some(row) =>
        valueStrings := valueStrings
          + ["(" + Join([Placeholder(argPos), Placeholder(argPos + 1), Placeholder(argPos + 2),
                         Placeholder(argPos + 3), Placeholder(argPos + 4), Placeholder(argPos + 5)], ",") + ")"];
        TextsExtend(|rows|);
        ArgsExtend(valueArgs, rows, row);
        valueArgs := valueArgs
          + [row.namespace, row.userId, row.eventId, row.timestamp, row.serverTimestamp, row.payload];
        argPos := argPos + 6;
        rows := rows + [row];
    }
    assert batch[..|batch|] == batch;
    TextsCount(|rows|);
    if valueStrings == [] {
      return AllFailed;
    }
    r := Values(Join(valueStrings, ","), valueArgs);
    RenderedParsesBack(|rows|);
    NumbersPointAtColumns(valueArgs, rows);
    ColumnsInOrder(valueArgs, rows);
  }

  lemma ColumnsInOrder<V>(args: seq<V>, rows: seq<Row<V>>)
    requires |args| == 6 * |rows| && Aligned(args, rows)
    ensures forall k :: 0 <= k < |rows| ==>
      && args[6 * k] == rows[k].namespace && args[6 * k + 1] == rows[k].userId
      && args[6 * k + 2] == rows[k].eventId && args[6 * k + 3] == rows[k].timestamp
      && args[6 * k + 4] == rows[k].serverTimestamp && args[6 * k + 5] == rows[k].payload
  {
    forall k | 0 <= k < |rows|
      ensures
        && args[6 * k] == rows[k].namespace && args[6 * k + 1] == rows[k].userId
        && args[6 * k + 2] == rows[k].eventId && args[6 * k + 3] == rows[k].timestamp
        && args[6 * k + 4] == rows[k].serverTimestamp && args[6 * k + 5] == rows[k].payload
    {
      assert args[6 * k + 0] == Column(rows[k], 0) && args[6 * k + 1] == Column(rows[k], 1);
      assert args[6 * k + 2] == Column(rows[k], 2) && args[6 * k + 3] == Column(rows[k], 3);
      assert args[6 * k + 4] == Column(rows[k], 4) && args[6 * k + 5] == Column(rows[k], 5);
    }
  }

  lemma TextsCount(rows: nat)
    ensures |RowTexts(rows)| == |Numbering(rows)| == rows
    ensures forall k :: 0 <= k < rows ==> |Numbering(rows)[k]| == 6
  {
  }

  lemma NumbersPointAtColumns<V>(args: seq<V>, rows: seq<Row<V>>)
    requires |args| == 6 * |rows| && Aligned(args, rows)
    ensures forall k, j :: 0 <= k < |rows| && 0 <= j < 6 ==>
      && Numbering(|rows|)[k][j] == 6 * k + j + 1
      && args[Numbering(|rows|)[k][j] - 1] == Column(rows[k], j)
  {
  }

  /** Each row's columns stand where its placeholders point. */
  ghost predicate Aligned<V>(args: seq<V>, rows: seq<Row<V>>)
    requires |args| == 6 * |rows|
  {
    forall k, j :: 0 <= k < |rows| && 0 <= j < 6 ==> args[6 * k + j] == Column(rows[k], j)
  }

  lemma TextsExtend(rows: nat)
    ensures
      var n := 6 * rows + 1;
      RowTexts(rows + 1) == RowTexts(rows)
        + ["(" + Join([Placeholder(n), Placeholder(n + 1), Placeholder(n + 2),
                       Placeholder(n + 3), Placeholder(n + 4), Placeholder(n + 5)], ",") + ")"]
  {
    var n := 6 * rows + 1;
    hide Join, Placeholder;
    assert Placeholders(RowNumbers(n))
      == [Placeholder(n), Placeholder(n + 1), Placeholder(n + 2),
          Placeholder(n + 3), Placeholder(n + 4), Placeholder(n + 5)];
  }

  lemma ArgsExtend<V>(args: seq<V>, rows: seq<Row<V>>, row: Row<V>)
    requires |args| == 6 * |rows| && Aligned(args, rows)
    ensures Aligned(args + [row.namespace, row.userId, row.eventId, row.timestamp, row.serverTimestamp, row.payload],
                  rows + [row])
  {
    var last := [row.namespace, row.userId, row.eventId, row.timestamp, row.serverTimestamp, row.payload];
    forall k, j | 0 <= k < |rows| + 1 && 0 <= j < 6
      ensures (args + last)[6 * k + j] == Column((rows + [row])[k], j)
    {
      if k < |rows| {
        assert 6 * k + j < |args|;
      } else {
        assert (args + last)[6 * k + j] == last[j];
      }
    }
  }

  function RowTexts(rows: nat): seq<string> {
    seq(rows, k requires 0 <= k < rows => RowText(6 * k + 1))
  }

  function Numbering(rows: nat): seq<seq<nat>> {
    seq(rows, k requires 0 <= k < rows => RowNumbers(6 * k + 1))
  }

  // ---- Reading the text back ----

  /** A parser for "($a,$b,...),(...)": what it expects next, and what it has read. */
  datatype Reader =
    | Failed
    | Open(rows: seq<seq<nat>>)                                // a row must start
    | Dollar(rows: seq<seq<nat>>, row: seq<nat>)               // a placeholder must start
    | First(rows: seq<seq<nat>>, row: seq<nat>)                // its first digit
    | Number(rows: seq<seq<nat>>, row: seq<nat>, n: nat)       // more digits, or its end
    | Closed(rows: seq<seq<nat>>)                              // a row has ended

  predicate IsDigit(c: char) { '0' <= c <= '9' }

  function DigitValue(c: char): nat
    requires IsDigit(c)
  {
    (c as int) - ('0' as int)
  }

  function Read(r: Reader, c: char): Reader {
    match r
    case Failed => Failed
    case Open(rows) => if c == '(' then Dollar(rows, []) else Failed
    case Dollar(rows, row) => if c == '$' then First(rows, row) else Failed
    case First(rows, row) => if IsDigit(c) then Number(rows, row, DigitValue(c)) else Failed
    case Number(rows, row, n) =>
      if IsDigit(c) then Number(rows, row, 10 * n + DigitValue(c))
      else if c == ',' then Dollar(rows, row + [n])
      else if c == ')' then Closed(rows + [row + [n]])
      else Failed
    case Closed(rows) => if c == ',' then Open(rows) else Failed
  }

  function ReadAll(r: Reader, text: string): Reader
    decreases |text|
  {
    if text == "" then r else ReadAll(Read(r, text[0]), text[1..])
  }

  /** The groups of placeholder numbers in a VALUES text. */
  function Parse(text: string): Option<seq<seq<nat>>> {
    var r := ReadAll(Open([]), text);
    if r.Closed? then Some(r.rows) else None
  }

  lemma {:induction false} ReadConcat(r: Reader, a: string, b: string)
    ensures ReadAll(r, a + b) == ReadAll(ReadAll(r, a), b)
    decreases |a|
  {
    if a == "" {
      assert a + b == b;
    } else {
      assert (a + b)[1..] == a[1..] + b;
      ReadConcat(Read(r, a[0]), a[1..], b);
    }
  }

  lemma ReadOne(r: Reader, c: char)
    ensures ReadAll(r, [c]) == Read(r, c)
  {
    assert [c][1..] == "";
  }

  lemma DigitReads(d: nat)
    requires d < 10
    ensures IsDigit(DigitChar(d)) && DigitValue(DigitChar(d)) == d
  {
  }

  lemma {:induction false} DecimalReads(rows: seq<seq<nat>>, row: seq<nat>, n: nat)
    ensures ReadAll(First(rows, row), Decimal(n)) == Number(rows, row, n)
  {
    var r := First(rows, row);
    if n < 10 {
      DigitReads(n);
      ReadOne(r, DigitChar(n));
    } else {
      DecimalReads(rows, row, n / 10);
      DigitReads(n % 10);
      ReadConcat(r, Decimal(n / 10), [DigitChar(n % 10)]);
      ReadOne(Number(rows, row, n / 10), DigitChar(n % 10));
    }
  }

  lemma PlaceholderReads(rows: seq<seq<nat>>, row: seq<nat>, n: nat)
    ensures ReadAll(Dollar(rows, row), Placeholder(n)) == Number(rows, row, n)
  {
    ReadConcat(Dollar(rows, row), "$", Decimal(n));
    ReadOne(Dollar(rows, row), '$');
    DecimalReads(rows, row, n);
  }

  /** A comma-separated list of placeholders, up to the last one. */
  lemma {:induction false} ListReads(rows: seq<seq<nat>>, row: seq<nat>, ns: seq<nat>)
    requires ns != []
    ensures ReadAll(Dollar(rows, row), Join(Placeholders(ns), ",")) == Number(rows, row + ns[..|ns| - 1], ns[|ns| - 1])
    decreases |ns|
  {
    var texts := Placeholders(ns);
    PlaceholderReads(rows, row, ns[0]);
    if |ns| == 1 {
      assert row + ns[..0] == row;
    } else {
      var rest := Join(Placeholders(ns[1..]), ",");
      assert texts[1..] == Placeholders(ns[1..]);
      ReadConcat(Dollar(rows, row), texts[0] + ",", rest);
      ReadConcat(Dollar(rows, row), texts[0], ",");
      ReadOne(Number(rows, row, ns[0]), ',');
      ListReads(rows, row + [ns[0]], ns[1..]);
      assert row + [ns[0]] + ns[1..][..|ns| - 2] == row + ns[..|ns| - 1];
    }
  }

  lemma RowReads(rows: seq<seq<nat>>, argPos: nat)
    ensures ReadAll(Open(rows), RowText(argPos)) == Closed(rows + [RowNumbers(argPos)])
  {
    var ns := RowNumbers(argPos);
    var list := Join(Placeholders(ns), ",");
    ListReads(rows, [], ns);
    hide Join, Placeholders;
    ReadConcat(Open(rows), "(" + list, ")");
    ReadConcat(Open(rows), "(", list);
    ReadOne(Open(rows), '(');
    ReadOne(Number(rows, [] + ns[..5], ns[5]), ')');
    assert [] + ns[..5] + [ns[5]] == ns;
  }

  function RowTextsFrom(from: nat, rows: nat): seq<string> {
    seq(rows, k requires 0 <= k < rows => RowText(6 * (from + k) + 1))
  }

  function NumberingFrom(from: nat, rows: nat): seq<seq<nat>> {
    seq(rows, k requires 0 <= k < rows => RowNumbers(6 * (from + k) + 1))
  }

  lemma {:induction false} RowsRead(done: seq<seq<nat>>, from: nat, rows: nat)
    requires rows > 0
    ensures ReadAll(Open(done), Join(RowTextsFrom(from, rows), ",")) == Closed(done + NumberingFrom(from, rows))
    decreases rows
  {
    var texts := RowTextsFrom(from, rows);
    var numbers := NumberingFrom(from, rows);
    RowReads(done, 6 * from + 1);
    assert numbers[0] == RowNumbers(6 * from + 1) && texts[0] == RowText(6 * from + 1);
    if rows == 1 {
      assert numbers == [numbers[0]];
    } else {
      assert texts[1..] == RowTextsFrom(from + 1, rows - 1);
      assert numbers == [numbers[0]] + NumberingFrom(from + 1, rows - 1);
      var rest := Join(texts[1..], ",");
      assert Join(texts, ",") == texts[0] + "," + rest;
      hide Join, RowText, RowNumbers, RowTextsFrom, NumberingFrom;
      ReadConcat(Open(done), texts[0] + ",", rest);
      ReadConcat(Open(done), texts[0], ",");
      ReadOne(Closed(done + [numbers[0]]), ',');
      RowsRead(done + [numbers[0]], from + 1, rows - 1);
      assert done + [numbers[0]] + NumberingFrom(from + 1, rows - 1) == done + numbers;
    }
  }

  /** Parsing the rendered text of any number of rows gives back the numbers 1, 2, 3, ...
      in order, in groups of six. */
  lemma RenderedParsesBack(rows: nat)
    requires rows > 0
    ensures Parse(Join(RowTexts(rows), ",")) == Some(Numbering(rows))
  {
    RowsRead([], 0, rows);
    assert RowTextsFrom(0, rows) == RowTexts(rows);
    assert [] + NumberingFrom(0, rows) == Numbering(rows);
  }

  // ---- The text itself ----

  /** Numbers are written in decimal, most significant digit first, without leading zeros. */
  lemma {:induction false} DecimalIsPlain(n: nat)
    ensures n < 10 ==> Decimal(n) == ["0123456789"[n]]
    ensures n >= 10 ==> Decimal(n) == Decimal(n / 10) + ["0123456789"[n % 10]]
    ensures n >= 1 ==> Decimal(n)[0] != '0'
  {
    var digits := "0123456789";
    assert forall d :: 0 <= d < 10 ==> digits[d] == DigitChar(d);
    if n >= 10 {
      DecimalIsPlain(n / 10);
      assert n / 10 >= 1;
    }
  }

  /** A row is its six numbers, each behind a dollar sign, with commas, in parentheses. */
  lemma RowIsPlain(rows: nat, k: nat)
    requires k < rows
    ensures
      var n := 6 * k + 1;
      RowTexts(rows)[k]
      == "(" + ("$" + Decimal(n) + "," + ("$" + Decimal(n + 1) + "," + ("$" + Decimal(n + 2) + ","
         + ("$" + Decimal(n + 3) + "," + ("$" + Decimal(n + 4) + "," + ("$" + Decimal(n + 5))))))) + ")"
  {
    var n := 6 * k + 1;
    assert Placeholders(RowNumbers(n))
      == [Placeholder(n), Placeholder(n + 1), Placeholder(n + 2),
          Placeholder(n + 3), Placeholder(n + 4), Placeholder(n + 5)];
    hide Decimal, Join;
    SixJoined(Placeholder(n), Placeholder(n + 1), Placeholder(n + 2),
              Placeholder(n + 3), Placeholder(n + 4), Placeholder(n + 5));
  }

  lemma SixJoined(a: string, b: string, c: string, d: string, e: string, f: string)
    ensures Join([a, b, c, d, e, f], ",") == a + "," + (b + "," + (c + "," + (d + "," + (e + "," + f))))
  {
    assert Join([f], ",") == f;
    hide Join;
    CommaJoin(e, [f]);
    CommaJoin(d, [e, f]);
    CommaJoin(c, [d, e, f]);
    CommaJoin(b, [c, d, e, f]);
    CommaJoin(a, [b, c, d, e, f]);
    assert [e] + [f] == [e, f] && [d] + [e, f] == [d, e, f] && [c] + [d, e, f] == [c, d, e, f];
    assert [b] + [c, d, e, f] == [b, c, d, e, f] && [a] + [b, c, d, e, f] == [a, b, c, d, e, f];
  }

  lemma CommaJoin(first: string, rest: seq<string>)
    requires rest != []
    ensures Join([first] + rest, ",") == first + "," + Join(rest, ",")
  {
    assert ([first] + rest)[1..] == rest;
  }

  // ---- Together with the pipeline ----

  lemma {:induction false} SurvivorsAreFewer<E, V>(batch: seq<E>, transform: E -> Option<Row<V>>)
    ensures |Survivors(batch, transform)| <= |batch|
  {
    if batch != [] {
      SurvivorsAreFewer(batch[..|batch| - 1], transform);
    }
  }

  /** No statement the pipeline ever sends binds more than six arguments per event of a
      full batch. */
  lemma ArgumentsAreBounded<V>(cfg: Config, ls: seq<Label>, k: nat, p: nat, i: nat, transform: Item -> Option<Row<V>>)
    requires Run(cfg, ls).Some? && k < |Run(cfg, ls).value.workers| && p < |cfg.plugins|
    requires p < |Run(cfg, ls).value.workers[k].logs| && i < |Run(cfg, ls).value.workers[k].logs[p]|
    ensures
      var slice := Run(cfg, ls).value.workers[k].logs[p][i];
      6 * |Survivors(slice, transform)| <= 6 * Bound(cfg.batchSize)
  {
    FanOutFiltersTheRun(cfg, ls, k, p);
    SurvivorsAreFewer(Run(cfg, ls).value.workers[k].logs[p][i], transform);
  }
}
