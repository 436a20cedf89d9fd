// The two CSV serialisers: `toCsv` of apps/api/src/services/erp/exportRunner.js
// and `generateCsvBundle` of
// legacy/apps/api/src/services/forwarders/bookingPackageService.js, with the
// latter's summary totals and `renderEmail` defaults.

module ExportCsv {
  import opened Wrappers
  import opened Text
  import opened Json

  /** `v.replace(/"/g, '""')` */
  function DoubleQuotes(s: string): (r: string)
    ensures |r| >= |s|
  {
    if s == [] then [] else (if s[0] == '"' then "\"\"" else [s[0]]) + DoubleQuotes(s[1..])
  }

  /** How an RFC 4180 reader (section 2, rule 7) reads the inside of a
      quoted field: a doubled quote stands for one quote. */
  function UndoubleQuotes(s: string): string
    decreases |s|
  {
    if s == [] then []
    else if |s| >= 2 && s[0] == '"' && s[1] == '"' then ['"'] + UndoubleQuotes(s[2..])
    else [s[0]] + UndoubleQuotes(s[1..])
  }

  /** Doubling the quotes is undone by reading the field back. */
  lemma {:induction false} QuoteRoundTrip(s: string)
    ensures UndoubleQuotes(DoubleQuotes(s)) == s
    decreases |s|
  {
    if s != [] {
      QuoteRoundTrip(s[1..]);
      var d := DoubleQuotes(s[1..]);
      if s[0] == '"' {
        assert DoubleQuotes(s) == "\"\"" + d;
        assert ("\"\"" + d)[2..] == d;
      } else {
        assert DoubleQuotes(s) == [s[0]] + d;
        assert ([s[0]] + d)[1..] == d;
      }
    }
  }

  /** One cell: strings are quoted with inner quotes doubled; other values
      are written as `join` writes them (null and undefined as ""). */
  function Cell(v: Value, env: Env): string {
    if v.Str? then "\"" + DoubleQuotes(v.s) + "\""
    else if v.Null? || v.Undefined? then ""
    else ToStr(v, env)
  }

  function Cells(values: seq<Value>, env: Env): (r: seq<string>)
    ensures |r| == |values| && forall i :: 0 <= i < |values| ==> r[i] == Cell(values[i], env)
  {
    if values == [] then [] else [Cell(values[0], env)] + Cells(values[1..], env)
  }

  /** A data line: the row's own values, in the row's own key order. */
  function Line(row: seq<Member>, env: Env): string {
    Join(Cells(ValuesOf(row), env), ",")
  }

  function Lines(rows: seq<seq<Member>>, env: Env): (r: seq<string>)
    ensures |r| == |rows| && forall i :: 0 <= i < |rows| ==> r[i] == Line(rows[i], env)
  {
    if rows == [] then [] else [Line(rows[0], env)] + Lines(rows[1..], env)
  }

  /** Two or more joined parts always hold the separator. */
  lemma {:induction false} JoinHoldsSeparator(parts: seq<string>, c: char)
    requires |parts| >= 2
    ensures c in Join(parts, [c])
  {
    assert Join(parts, [c]) == parts[0] + [c] + Join(parts[1..], [c]);
    assert Join(parts, [c])[|parts[0]|] == c;
  }

  /** `toCsv(data)`: empty output exactly for missing or empty data. */
  function ToCsv(data: Option<seq<seq<Member>>>, env: Env): (r: string)
    ensures r == "" <==> data.None? || data.value == []
  {
    match data
    case None => ""
    case Some(rows) =>
      if rows == [] then ""
      else
        var parts := [Join(KeysOf(rows[0]), ",")] + Lines(rows, env);
        JoinHoldsSeparator(parts, '\n');
        Join(parts, "\n")
  }

  /** With no newline inside the keys or the cells, n rows give n + 1
      lines: the first row's keys, then one line per row. */
  lemma {:induction false} CsvLines(rows: seq<seq<Member>>, env: Env)
    requires rows != []
    requires '\n' !in Join(KeysOf(rows[0]), ",")
    requires forall i :: 0 <= i < |rows| ==> '\n' !in Line(rows[i], env)
    ensures Split(ToCsv(Some(rows), env), '\n') == [Join(KeysOf(rows[0]), ",")] + Lines(rows, env)
    ensures |Split(ToCsv(Some(rows), env), '\n')| == |rows| + 1
  {
    var parts := [Join(KeysOf(rows[0]), ",")] + Lines(rows, env);
    forall i | 0 <= i < |parts| ensures '\n' !in parts[i] {
      if i > 0 {
        assert parts[i] == Line(rows[i - 1], env);
      }
    }
    SplitJoin(parts, '\n');
  }

  /** The columns of a line are the row's own values in the row's own
      order, whatever the header says, provided no cell holds a comma. */
  lemma {:induction false} LineColumns(row: seq<Member>, env: Env)
    requires forall i :: 0 <= i < |row| ==> ',' !in Cell(row[i].val, env)
    ensures Split(Line(row, env), ',') == if row == [] then [""] else Cells(ValuesOf(row), env)
  {
    var cells := Cells(ValuesOf(row), env);
    if cells == [] {
      assert Line(row, env) == "";
    } else {
      forall i | 0 <= i < |cells| ensures ',' !in cells[i] {
        assert cells[i] == Cell(row[i].val, env);
      }
      SplitJoin(cells, ',');
    }
  }
}

module BookingPackage {
  import opened Wrappers
  import opened Text
  import opened Json

  /** The column names of the fixed header line. */
  function Columns(): seq<string> {
    ["Description", "Quantity", "Weight(kg)", "Value(USD)", "HTS Code", "Origin"]
  }

  /** "Description,Quantity,Weight(kg),Value(USD),HTS Code,Origin" */
  function HeaderLine(): string { Join(Columns(), ",") }

  function Field(item: seq<Member>, key: string): Value { Get(Obj(item), key) }

  /** One row: the description quoted without escaping, missing numbers as
      0, missing codes as "", and the unit value in the value column. */
  function Row(item: seq<Member>, env: Env): string {
    Join([ "\"" + ToStr(Or(Field(item, "description"), Str("")), env) + "\"",
           ToStr(Or(Field(item, "quantity"), Num(0.0)), env),
           ToStr(Or(Field(item, "netWeightKg"), Num(0.0)), env),
           ToStr(Or(Field(item, "unitValue"), Num(0.0)), env),
           ToStr(Or(Field(item, "htsCode"), Str("")), env),
           ToStr(Or(Field(item, "countryOfOrigin"), Str("")), env) ], ",")
  }

  function Rows(items: seq<seq<Member>>, env: Env): (r: seq<string>)
    ensures |r| == |items| && forall i :: 0 <= i < |items| ==> r[i] == Row(items[i], env)
  {
    if items == [] then [] else [Row(items[0], env)] + Rows(items[1..], env)
  }

  /** `generateCsvBundle`: the fixed header line, then the rows. */
  function CsvBundle(items: seq<seq<Member>>, env: Env): string {
    HeaderLine() + "\n" + Join(Rows(items, env), "\n")
  }

  /** The bundle reads back as the header line followed by one line per
      item, in order (a lone empty line when there are none), as long as
      no row holds a newline. */
  lemma {:induction false} BundleLines(items: seq<seq<Member>>, env: Env)
    requires forall i :: 0 <= i < |items| ==> '\n' !in Row(items[i], env)
    ensures Split(CsvBundle(items, env), '\n') == [HeaderLine()] + (if items == [] then [""] else Rows(items, env))
  {
    var rows := Rows(items, env);
    HeaderHasNoNewline();
    SplitAfter(HeaderLine(), '\n', Join(rows, "\n"));
    if items != [] {
      forall i | 0 <= i < |rows| ensures '\n' !in rows[i] {
        assert rows[i] == Row(items[i], env);
      }
      SplitJoin(rows, '\n');
    }
  }

  lemma {:induction false} HeaderHasNoNewline()
    ensures '\n' !in HeaderLine()
  {
    var cs := Columns();
    forall i | 0 <= i < |cs| ensures '\n' !in cs[i] {
    }
    JoinLacks(cs, ",", '\n');
  }

  /** Parts and separator free of c join to a text free of c. */
  lemma {:induction false} JoinLacks(parts: seq<string>, sep: string, c: char)
    requires c !in sep && forall i :: 0 <= i < |parts| ==> c !in parts[i]
    ensures c !in Join(parts, sep)
    decreases |parts|
  {
    if |parts| > 1 {
      JoinLacks(parts[1..], sep, c);
    }
  }

  /** The row begins with the description between quotes, untouched. */
  lemma {:induction false} DescriptionUnescaped(item: seq<Member>, env: Env)
    ensures StartsWith(Row(item, env), "\"" + ToStr(Or(Field(item, "description"), Str("")), env) + "\",")
  {
    var d := "\"" + ToStr(Or(Field(item, "description"), Str("")), env) + "\"";
    var rest := [ToStr(Or(Field(item, "quantity"), Num(0.0)), env),
                 ToStr(Or(Field(item, "netWeightKg"), Num(0.0)), env),
                 ToStr(Or(Field(item, "unitValue"), Num(0.0)), env),
                 ToStr(Or(Field(item, "htsCode"), Str("")), env),
                 ToStr(Or(Field(item, "countryOfOrigin"), Str("")), env)];
    assert ([d] + rest)[1..] == rest;
    assert Row(item, env) == d + "," + Join(rest, ",");
    assert (d + "," + Join(rest, ","))[..|d + ","|] == d + ",";
  }

  /** `reduce((sum, item) => sum + (item.netWeightKg || 0), 0)` */
  function TotalWeight(items: seq<seq<Member>>, env: Env): Value
    decreases |items|
  {
    if items == [] then Num(0.0)
    else Add(TotalWeight(items[..|items| - 1], env), Or(Field(items[|items| - 1], "netWeightKg"), Num(0.0)), env)
  }

  /** `reduce((sum, item) => sum + (item.unitValue || 0) * (item.quantity || 0), 0)` */
  function TotalValue(items: seq<seq<Member>>, env: Env): Value
    decreases |items|
  {
    if items == [] then Num(0.0)
    else
      var item := items[|items| - 1];
      Add(TotalValue(items[..|items| - 1], env),
          Mul(Or(Field(item, "unitValue"), Num(0.0)), Or(Field(item, "quantity"), Num(0.0)), env), env)
  }

  datatype Summary = Summary(totalWeight: Value, totalValue: Value, lineItemCount: nat)

  /** The summary of `buildViewModel`, before `toFixed(2)`. */
  function BuildSummary(items: seq<seq<Member>>, env: Env): Summary {
    Summary(TotalWeight(items, env), TotalValue(items, env), |items|)
  }

  /** A field that is a number or falsy, so that `|| 0` yields a number. */
  predicate Numeric(v: Value) { v.Num? || !Truthy(v) }

  /** Every item's netWeightKg is numeric or missing. */
  predicate WeightsNumeric(items: seq<seq<Member>>)
    decreases |items|
  {
    items == [] || (WeightsNumeric(items[..|items| - 1]) && Numeric(Field(items[|items| - 1], "netWeightKg")))
  }

  /** Every item's unitValue and quantity are numeric or missing. */
  predicate ValuesNumeric(items: seq<seq<Member>>)
    decreases |items|
  {
    items == [] ||
      (ValuesNumeric(items[..|items| - 1])
        && Numeric(Field(items[|items| - 1], "unitValue")) && Numeric(Field(items[|items| - 1], "quantity")))
  }

  function NumberOr0(v: Value): real { if v.Num? then v.n else 0.0 }

  function WeightSum(items: seq<seq<Member>>): real
    decreases |items|
  {
    if items == [] then 0.0 else WeightSum(items[..|items| - 1]) + NumberOr0(Field(items[|items| - 1], "netWeightKg"))
  }

  /** unitValue × quantity, missing values as 0. */
  function ItemValue(item: seq<Member>): real {
    NumberOr0(Field(item, "unitValue")) * NumberOr0(Field(item, "quantity"))
  }

  function ValueSum(items: seq<seq<Member>>): real
    decreases |items|
  {
    if items == [] then 0.0 else ValueSum(items[..|items| - 1]) + ItemValue(items[|items| - 1])
  }

  /** With numeric (or missing) fields, the totals are the sums they are
      meant to be: Σ netWeightKg and Σ unitValue × quantity, with missing
      values as 0; the count is the number of items. */
  lemma {:induction false} SummarySpec(items: seq<seq<Member>>, env: Env)
    requires WeightsNumeric(items) && ValuesNumeric(items)
    ensures BuildSummary(items, env) == Summary(Num(WeightSum(items)), Num(ValueSum(items)), |items|)
  {
    WeightTotal(items, env);
    ValueTotal(items, env);
  }

  lemma {:induction false} WeightTotal(items: seq<seq<Member>>, env: Env)
    requires WeightsNumeric(items)
    ensures TotalWeight(items, env) == Num(WeightSum(items))
    decreases |items|
  {
    if items != [] {
      var n := |items| - 1;
      WeightTotal(items[..n], env);
      WeightStep(WeightSum(items[..n]), Field(items[n], "netWeightKg"), env);
    }
  }

  lemma {:induction false} ValueTotal(items: seq<seq<Member>>, env: Env)
    requires ValuesNumeric(items)
    ensures TotalValue(items, env) == Num(ValueSum(items))
    decreases |items|
  {
    if items != [] {
      var n := |items| - 1;
      ValueTotal(items[..n], env);
      ValueStep(ValueSum(items[..n]), items[n], env);
    }
  }

  lemma {:induction false} WeightStep(acc: real, w: Value, env: Env)
    requires Numeric(w)
    ensures Add(Num(acc), Or(w, Num(0.0)), env) == Num(acc + NumberOr0(w))
  {
    OrZero(w);
  }

  lemma {:induction false} ValueStep(acc: real, item: seq<Member>, env: Env)
    requires Numeric(Field(item, "unitValue")) && Numeric(Field(item, "quantity"))
    ensures Add(Num(acc), Mul(Or(Field(item, "unitValue"), Num(0.0)), Or(Field(item, "quantity"), Num(0.0)), env), env)
      == Num(acc + ItemValue(item))
  {
    var u, q := Field(item, "unitValue"), Field(item, "quantity");
    OrZero(u);
    OrZero(q);
  }

  lemma {:induction false} OrZero(v: Value)
    requires Numeric(v)
    ensures Or(v, Num(0.0)) == Num(NumberOr0(v))
  {
  }

  datatype Email = Email(subject: string, body: string, to: Value, cc: Value)

  /** `renderEmail(profile, viewModel)`; template compilation and rendering
      and JSON parsing are passed in. */
  function RenderEmail(profile: seq<Member>, viewModel: Value,
                       render: (string, Value) -> string, parse: string -> Value, env: Env): Email {
    var compile := (template: Value) => if !Truthy(template) then "" else render(ToStr(template, env), viewModel);
    Email(compile(Field(profile, "emailSubjectTemplate")),
          compile(Field(profile, "emailBodyTemplate")),
          parse(ToStr(Or(Field(profile, "emailToJson"), Str("[]")), env)),
          parse(ToStr(Or(Field(profile, "emailCcJson"), Str("[]")), env)))
  }

  /** A missing template renders as "", and missing recipient lists read
      as the empty array. */
  lemma {:induction false} EmailDefaults(profile: seq<Member>, viewModel: Value,
                                         render: (string, Value) -> string, parse: string -> Value, env: Env)
    requires parse("[]") == Arr([])
    ensures !Truthy(Field(profile, "emailSubjectTemplate")) ==> RenderEmail(profile, viewModel, render, parse, env).subject == ""
    ensures !Truthy(Field(profile, "emailBodyTemplate")) ==> RenderEmail(profile, viewModel, render, parse, env).body == ""
    ensures !Truthy(Field(profile, "emailToJson")) ==> RenderEmail(profile, viewModel, render, parse, env).to == Arr([])
    ensures !Truthy(Field(profile, "emailCcJson")) ==> RenderEmail(profile, viewModel, render, parse, env).cc == Arr([])
  {
  }
}
