// The row and OCR mappers of the import path:
// `mapRowsToUnknownShipment` of legacy/apps/api/src/services/import/mapper.js,
// and the two versions of `mapOcrToShipment`,
// apps/api/src/services/import/ocrMapper.js (header/lines form) and
// legacy/apps/api/src/services/import/ocrMapper.js (ShipmentV1 form).
// Rows, OCR results and their lines are JSON values.

module RowMapper {
  import opened Wrappers
  import opened Text
  import opened Json

  /** The first own key equal to k, ignoring case. */
  function FindKey(keys: seq<string>, k: string): (r: Option<string>)
    ensures r.Some? ==> r.value in keys && Lower(r.value) == Lower(k)
    ensures r.None? ==> forall i :: 0 <= i < |keys| ==> Lower(keys[i]) != Lower(k)
  {
    if keys == [] then None
    else if Lower(keys[0]) == Lower(k) then Some(keys[0])
    else FindKey(keys[1..], k)
  }

  /** Candidate k finds a (non-empty) key of the row. */
  predicate Hit(row: seq<Member>, k: string) {
    var f := FindKey(KeysOf(row), k);
    f.Some? && f.value != ""
  }

  /** `getValue(row, ...keys)`: the candidates are tried in order. */
  function GetValue(row: seq<Member>, keys: seq<string>): Value {
    if keys == [] then Null
    else if Hit(row, keys[0]) then Get(Obj(row), FindKey(KeysOf(row), keys[0]).value)
    else GetValue(row, keys[1..])
  }

  /** The first candidate that finds a key gives the value. */
  lemma {:induction false} GetValueFirst(row: seq<Member>, keys: seq<string>, i: nat)
    requires i < |keys| && Hit(row, keys[i])
    requires forall j :: 0 <= j < i ==> !Hit(row, keys[j])
    ensures GetValue(row, keys) == Get(Obj(row), FindKey(KeysOf(row), keys[i]).value)
  {
    if i > 0 {
      GetValueFirst(row, keys[1..], i - 1);
    }
  }

  /** No candidate finds a key: null. */
  lemma {:induction false} GetValueNone(row: seq<Member>, keys: seq<string>)
    requires forall j :: 0 <= j < |keys| ==> !Hit(row, keys[j])
    ensures GetValue(row, keys) == Null
  {
    if keys != [] {
      GetValueNone(row, keys[1..]);
    }
  }

  datatype Header = Header(
    incoterm: Value, currency: Value, originCountry: Value, destinationCountry: Value,
    erpOrderId: Value, totalCustomsValue: Value, totalWeightKg: Value, numPackages: nat)

  datatype Line = Line(
    description: Value, quantity: Value, unitValue: Value, extendedValue: Value,
    netWeightKg: Value, htsCode: Value, countryOfOrigin: Value)

  datatype Shipment = Shipment(header: Header, lines: seq<Line>)

  // The candidate columns of each field, in the order they are tried.
  const IncotermKeys: seq<string> := ["incoterm", "terms"]
  const CurrencyKeys: seq<string> := ["currency", "curr"]
  const OriginKeys: seq<string> := ["origin", "coo", "originCountry"]
  const DestinationKeys: seq<string> := ["destination", "dest", "destinationCountry"]
  const OrderKeys: seq<string> := ["po", "order", "ref"]
  const QuantityKeys: seq<string> := ["qty", "quantity", "units"]
  const PriceKeys: seq<string> := ["price", "value", "unitValue"]
  const WeightKeys: seq<string> := ["weight", "netWeight", "kg"]
  const DescriptionKeys: seq<string> := ["description", "desc", "item"]
  const HtsKeys: seq<string> := ["hts", "hs", "scheduleb"]
  const LineOriginKeys: seq<string> := ["coo", "origin"]

  /** No candidate column is present. */
  predicate Absent(row: seq<Member>, keys: seq<string>) {
    forall j :: 0 <= j < |keys| ==> !Hit(row, keys[j])
  }

  /** `getValue(...) || d` is d when no candidate column is present. */
  lemma {:induction false} DefaultWhenAbsent(row: seq<Member>, keys: seq<string>, d: Value)
    requires Absent(row, keys)
    ensures Or(GetValue(row, keys), d) == d
  {
    GetValueNone(row, keys);
  }

  /** The header fields taken from the first row, totals still 0. */
  function FirstHeader(first: seq<Member>): Header {
    Header(Or(GetValue(first, IncotermKeys), Str("EXW")),
           Or(GetValue(first, CurrencyKeys), Str("USD")),
           Or(GetValue(first, OriginKeys), Str("US")),
           Or(GetValue(first, DestinationKeys), Str("US")),
           GetValue(first, OrderKeys),
           Num(0.0), Num(0.0), 0)
  }

  function Quantity(row: seq<Member>, env: Env): Value {
    NumberValue(Or(GetValue(row, QuantityKeys), Num(0.0)), env)
  }

  function Price(row: seq<Member>, env: Env): Value {
    NumberValue(Or(GetValue(row, PriceKeys), Num(0.0)), env)
  }

  function Weight(row: seq<Member>, env: Env): Value {
    NumberValue(Or(GetValue(row, WeightKeys), Num(0.0)), env)
  }

  /** One output line per row. */
  function MapLine(row: seq<Member>, origin: Value, env: Env): Line {
    var qty := Quantity(row, env);
    var val := Price(row, env);
    Line(Or(GetValue(row, DescriptionKeys), Str("Unknown Item")),
         qty, val, Mul(qty, val, env), Weight(row, env),
         Or(GetValue(row, HtsKeys), Str("0000000000")),
         Or(Or(GetValue(row, LineOriginKeys), origin), Str("US")))
  }

  function MapLines(rows: seq<seq<Member>>, origin: Value, env: Env): (r: seq<Line>)
    ensures |r| == |rows| && forall i :: 0 <= i < |rows| ==> r[i] == MapLine(rows[i], origin, env)
  {
    if rows == [] then [] else [MapLine(rows[0], origin, env)] + MapLines(rows[1..], origin, env)
  }

  /** `lines.reduce((sum, l) => sum + l.extendedValue, 0)` */
  function ValueTotal(lines: seq<Line>, env: Env): Value
    decreases |lines|
  {
    if lines == [] then Num(0.0) else Add(ValueTotal(lines[..|lines| - 1], env), lines[|lines| - 1].extendedValue, env)
  }

  /** `lines.reduce((sum, l) => sum + l.netWeightKg, 0)` */
  function WeightTotal(lines: seq<Line>, env: Env): Value
    decreases |lines|
  {
    if lines == [] then Num(0.0) else Add(WeightTotal(lines[..|lines| - 1], env), lines[|lines| - 1].netWeightKg, env)
  }

  /** What `mapRowsToUnknownShipment` returns; None is null. */
  function MapRows(rows: Option<seq<seq<Member>>>, env: Env): Option<Shipment> {
    if rows.None? || rows.value == [] then None
    else
      var header := FirstHeader(rows.value[0]);
      var lines := MapLines(rows.value, header.originCountry, env);
      Some(Shipment(header.(totalCustomsValue := ValueTotal(lines, env), totalWeightKg := WeightTotal(lines, env),
                            numPackages := |lines|), lines))
  }

  /** `mapRowsToUnknownShipment`: the header is built first and its totals
      are filled in once the lines exist. */
  method MapRowsToUnknownShipment(rows: Option<seq<seq<Member>>>, env: Env) returns (r: Option<Shipment>)
    ensures r == MapRows(rows, env)
  {
    if rows.None? || |rows.value| == 0 {
      return None;
    }
    var header := FirstHeader(rows.value[0]);
    var lines := MapLines(rows.value, header.originCountry, env);
    header := header.(totalCustomsValue := ValueTotal(lines, env));
    header := header.(totalWeightKg := WeightTotal(lines, env));
    header := header.(numPackages := |lines|);
    return Some(Shipment(header, lines));
  }

  /** null for missing or empty input; otherwise one line per row, in row
      order, and as many packages as lines. */
  lemma {:induction false} MapRowsShape(rows: Option<seq<seq<Member>>>, env: Env)
    ensures MapRows(rows, env).None? <==> rows.None? || rows.value == []
    ensures MapRows(rows, env).Some? ==>
      |MapRows(rows, env).value.lines| == |rows.value| == MapRows(rows, env).value.header.numPackages
    ensures MapRows(rows, env).Some? ==> forall i :: 0 <= i < |rows.value| ==>
      MapRows(rows, env).value.lines[i] == MapLine(rows.value[i], MapRows(rows, env).value.header.originCountry, env)
  {
  }

  /** The header's commercial terms default to EXW and USD when no
      candidate column is present. */
  lemma {:induction false} TermsDefaults(first: seq<Member>)
    ensures Absent(first, IncotermKeys) ==> FirstHeader(first).incoterm == Str("EXW")
    ensures Absent(first, CurrencyKeys) ==> FirstHeader(first).currency == Str("USD")
  {
    if Absent(first, IncotermKeys) { DefaultWhenAbsent(first, IncotermKeys, Str("EXW")); }
    if Absent(first, CurrencyKeys) { DefaultWhenAbsent(first, CurrencyKeys, Str("USD")); }
  }

  /** Both countries default to "US"; the origin is never empty. */
  lemma {:induction false} CountryDefaults(first: seq<Member>)
    ensures Truthy(FirstHeader(first).originCountry)
    ensures Absent(first, OriginKeys) ==> FirstHeader(first).originCountry == Str("US")
    ensures Absent(first, DestinationKeys) ==> FirstHeader(first).destinationCountry == Str("US")
  {
    if Absent(first, OriginKeys) { DefaultWhenAbsent(first, OriginKeys, Str("US")); }
    if Absent(first, DestinationKeys) { DefaultWhenAbsent(first, DestinationKeys, Str("US")); }
  }

  /** A line's extendedValue is its quantity times its unit value. */
  lemma {:induction false} LineValue(row: seq<Member>, origin: Value, env: Env)
    ensures var l := MapLine(row, origin, env);
      l.quantity.Num? && l.unitValue.Num? ==> l.extendedValue == Num(l.quantity.n * l.unitValue.n)
  {
  }

  /** The line defaults: "Unknown Item", HTS "0000000000", and the origin
      falls back to the header's (so the final "US" is never reached). */
  lemma {:induction false} LineDefaults(row: seq<Member>, origin: Value, env: Env)
    requires Truthy(origin)
    ensures Absent(row, HtsKeys) ==> MapLine(row, origin, env).htsCode == Str("0000000000")
    ensures Absent(row, LineOriginKeys) ==> MapLine(row, origin, env).countryOfOrigin == origin
    ensures Absent(row, DescriptionKeys) ==> MapLine(row, origin, env).description == Str("Unknown Item")
  {
    if Absent(row, HtsKeys) { DefaultWhenAbsent(row, HtsKeys, Str("0000000000")); }
    if Absent(row, LineOriginKeys) { DefaultWhenAbsent(row, LineOriginKeys, origin); }
    if Absent(row, DescriptionKeys) { DefaultWhenAbsent(row, DescriptionKeys, Str("Unknown Item")); }
  }

  /** 100 × 10.5 = 1050, as the import test expects. */
  lemma {:induction false} ExtendedValueExample(row: seq<Member>, origin: Value, env: Env)
    requires Quantity(row, env) == Num(100.0) && Price(row, env) == Num(10.5)
    ensures MapLine(row, origin, env).extendedValue == Num(1050.0)
  {
  }

  /** Every line's numbers parsed. */
  predicate Parsed(lines: seq<Line>)
    decreases |lines|
  {
    lines == [] ||
      (Parsed(lines[..|lines| - 1]) && lines[|lines| - 1].extendedValue.Num? && lines[|lines| - 1].netWeightKg.Num?)
  }

  function ValueSum(lines: seq<Line>): real
    requires Parsed(lines)
    decreases |lines|
  {
    if lines == [] then 0.0 else ValueSum(lines[..|lines| - 1]) + lines[|lines| - 1].extendedValue.n
  }

  function WeightSum(lines: seq<Line>): real
    requires Parsed(lines)
    decreases |lines|
  {
    if lines == [] then 0.0 else WeightSum(lines[..|lines| - 1]) + lines[|lines| - 1].netWeightKg.n
  }

  /** With every number parsed, the totals are Σ extendedValue and
      Σ netWeightKg. */
  lemma {:induction false} TotalsSpec(lines: seq<Line>, env: Env)
    requires Parsed(lines)
    ensures ValueTotal(lines, env) == Num(ValueSum(lines))
    ensures WeightTotal(lines, env) == Num(WeightSum(lines))
    decreases |lines|
  {
    if lines != [] {
      TotalsSpec(lines[..|lines| - 1], env);
    }
  }

  /** Every extendedValue is a number or NaN, as `Number(...) * Number(...)`
      always is. */
  predicate NumericValues(lines: seq<Line>)
    decreases |lines|
  {
    lines == [] ||
      (NumericValues(lines[..|lines| - 1]) && (lines[|lines| - 1].extendedValue.Num? || lines[|lines| - 1].extendedValue.NaN?))
  }

  /** A line whose quantity or price does not parse makes the customs
      value NaN. */
  lemma {:induction false} UnparsedValuePoisons(lines: seq<Line>, env: Env, i: nat)
    requires NumericValues(lines) && i < |lines| && lines[i].extendedValue.NaN?
    ensures ValueTotal(lines, env).NaN?
    decreases |lines|
  {
    var n := |lines| - 1;
    if i < n {
      assert lines[..n][i] == lines[i];
      UnparsedValuePoisons(lines[..n], env, i);
    } else {
      ValueTotalNumeric(lines[..n], env);
    }
  }

  /** The customs value is a number or NaN. */
  lemma {:induction false} ValueTotalNumeric(lines: seq<Line>, env: Env)
    requires NumericValues(lines)
    ensures ValueTotal(lines, env).Num? || ValueTotal(lines, env).NaN?
    decreases |lines|
  {
    if lines != [] {
      ValueTotalNumeric(lines[..|lines| - 1], env);
    }
  }
}

module OcrMapper {
  import opened Wrappers
  import opened Json

  const MissingHeader := "Invalid OCR result: missing header"
  const TypeError := "TypeError"

  datatype Header = Header(
    incoterm: Value, currency: Value, originCountry: string, destinationCountry: string,
    erpOrderId: Value, shipperName: Value, consigneeName: Value,
    totalCustomsValue: Value, totalWeightKg: Value, numPackages: Value)

  datatype Line = Line(
    description: Value, quantity: Value, unitValue: Value, extendedValue: Value,
    netWeightKg: Value, htsCode: Value, countryOfOrigin: Value, sku: Value)

  datatype Shipment = Shipment(header: Header, lines: seq<Line>)

  /** `ocrResult.checksums?.key` */
  function Checksum(ocr: Value, key: string): Value {
    var c := Get(ocr, "checksums");
    if c.Null? || c.Undefined? then Undefined else Get(c, key)
  }

  /** `lines.reduce((acc, line) => acc + (line.key || 0), 0)` */
  function LineSum(lines: seq<Value>, key: string, env: Env): Value
    decreases |lines|
  {
    if lines == [] then Num(0.0) else Add(LineSum(lines[..|lines| - 1], key, env), Or(Get(lines[|lines| - 1], key), Num(0.0)), env)
  }

  /** The checksum when truthy, otherwise the sum over the lines. */
  function Aggregate(ocr: Value, lines: seq<Value>, key: string, env: Env): Value {
    Or(Checksum(ocr, key), LineSum(lines, key, env))
  }

  /** `valueUsd / quantity` when both are truthy, else 0. */
  function UnitValue(line: Value, env: Env): Value {
    var v := Get(line, "valueUsd");
    var q := Get(line, "quantity");
    if Truthy(v) && Truthy(q) then Div(v, q, env) else Num(0.0)
  }

  function MapLine(line: Value, env: Env): Line {
    Line(Get(line, "description"), Get(line, "quantity"), UnitValue(line, env), Get(line, "valueUsd"),
         Get(line, "netWeightKg"), Get(line, "htsCode"), Get(line, "countryOfOrigin"), Get(line, "partNumber"))
  }

  function MapLines(lines: seq<Value>, env: Env): (r: seq<Line>)
    ensures |r| == |lines| && forall i :: 0 <= i < |lines| ==> r[i] == MapLine(lines[i], env)
  {
    if lines == [] then [] else [MapLine(lines[0], env)] + MapLines(lines[1..], env)
  }

  /** Reading a property of a null or undefined line throws. */
  predicate NoNullish(lines: seq<Value>) {
    forall i :: 0 <= i < |lines| ==> !lines[i].Null? && !lines[i].Undefined?
  }

  /** `mapOcrToShipment(ocrResult)`; a thrown error is an Err. */
  function MapOcr(ocr: Value, env: Env): Result<Shipment, string> {
    var header := Get(ocr, "header");
    if !Truthy(ocr) || !Truthy(header) then Err(MissingHeader)
    else
      var ls := Get(ocr, "lines");
      if !ls.Arr? || !NoNullish(ls.items) then Err(TypeError)
      else
        var lines := ls.items;
        Ok(Shipment(
          Header(Or(Get(header, "incoterm"), Str("EXW")), Or(Get(header, "currency"), Str("USD")), "US", "US",
                 Get(header, "reference"), Get(header, "shipper"), Get(header, "consignee"),
                 Aggregate(ocr, lines, "valueUsd", env), Aggregate(ocr, lines, "netWeightKg", env),
                 Aggregate(ocr, lines, "quantity", env)),
          MapLines(lines, env)))
  }

  /** A missing result or header is the only way to the missing-header
      error. */
  lemma {:induction false} MissingHeaderSpec(ocr: Value, env: Env)
    ensures MapOcr(ocr, env) == Err(MissingHeader) <==> !Truthy(ocr) || !Truthy(Get(ocr, "header"))
  {
  }

  /** The header: EXW and USD by default, both countries "US", parties and
      order id copied; one line per input line, with sku = partNumber and
      extendedValue = valueUsd. */
  lemma {:induction false} ShipmentSpec(ocr: Value, env: Env)
    requires MapOcr(ocr, env).Ok?
    ensures var s := MapOcr(ocr, env).value; var h := Get(ocr, "header");
      s.header.originCountry == "US" && s.header.destinationCountry == "US"
      && (!Truthy(Get(h, "incoterm")) ==> s.header.incoterm == Str("EXW"))
      && (!Truthy(Get(h, "currency")) ==> s.header.currency == Str("USD"))
      && s.header.shipperName == Get(h, "shipper") && s.header.consigneeName == Get(h, "consignee")
      && s.header.erpOrderId == Get(h, "reference")
      && |s.lines| == |Get(ocr, "lines").items|
      && forall i :: 0 <= i < |s.lines| ==>
           s.lines[i].sku == Get(Get(ocr, "lines").items[i], "partNumber")
           && s.lines[i].extendedValue == Get(Get(ocr, "lines").items[i], "valueUsd")
  {
  }

  /** A truthy checksum wins; otherwise the total is the sum over the
      lines. */
  lemma {:induction false} AggregateSpec(ocr: Value, lines: seq<Value>, key: string, env: Env)
    ensures Truthy(Checksum(ocr, key)) ==> Aggregate(ocr, lines, key, env) == Checksum(ocr, key)
    ensures !Truthy(Checksum(ocr, key)) ==> Aggregate(ocr, lines, key, env) == LineSum(lines, key, env)
  {
  }

  /** A field that is a number or falsy, so that `|| 0` gives a number. */
  predicate Numeric(v: Value) { v.Num? || !Truthy(v) }

  function NumberOr0(v: Value): real { if v.Num? then v.n else 0.0 }

  predicate AllNumeric(lines: seq<Value>, key: string)
    decreases |lines|
  {
    lines == [] || (AllNumeric(lines[..|lines| - 1], key) && Numeric(Get(lines[|lines| - 1], key)))
  }

  function Sum(lines: seq<Value>, key: string): real
    decreases |lines|
  {
    if lines == [] then 0.0 else Sum(lines[..|lines| - 1], key) + NumberOr0(Get(lines[|lines| - 1], key))
  }

  /** With numeric (or missing) fields, the sum is Σ field, missing as 0. */
  lemma {:induction false} LineSumSpec(lines: seq<Value>, key: string, env: Env)
    requires AllNumeric(lines, key)
    ensures LineSum(lines, key, env) == Num(Sum(lines, key))
    decreases |lines|
  {
    if lines != [] {
      var n := |lines| - 1;
      LineSumSpec(lines[..n], key, env);
      var v := Get(lines[n], key);
      assert Or(v, Num(0.0)) == Num(NumberOr0(v));
    }
  }

  /** unitValue = valueUsd / quantity for non-zero numbers, 0 when either
      is zero or missing. */
  lemma {:induction false} UnitValueSpec(line: Value, env: Env)
    ensures var v := Get(line, "valueUsd"); var q := Get(line, "quantity");
      (v.Num? && q.Num? && v.n != 0.0 && q.n != 0.0 ==> UnitValue(line, env) == Num(v.n / q.n))
      && (!Truthy(v) || !Truthy(q) ==> UnitValue(line, env) == Num(0.0))
  {
  }
}

module OcrMapperV1 {
  import opened Wrappers
  import opened Json
  import OcrMapper

  const MissingHeader := "Invalid OCR result: missing header"
  const ValidationFailed := "OCR Validation Failed: "

  /** The shipping defaults of the configuration. */
  datatype Defaults = Defaults(currency: string, incoterm: string, originCountry: string, destCountry: string)

  datatype Party = Party(id: string, name: Value, addressLine1: string, city: string, postalCode: string, countryCode: Value)

  datatype LineItem = LineItem(
    id: string, shipmentId: string, description: Value, quantity: Value, uom: Value,
    unitValue: Value, extendedValue: Value, netWeightKg: Value, htsCode: Value,
    countryOfOrigin: Value, sku: Value)

  datatype ShipmentV1 = ShipmentV1(
    id: string, schemaVersion: string, incoterm: Value, currency: Value,
    originCountry: Value, destinationCountry: Value, erpOrderId: Value,
    shipper: Party, consignee: Party,
    totalCustomsValue: Value, totalWeightKg: Value, numPackages: Value,
    lineItems: seq<LineItem>, createdAt: int, updatedAt: int, createdByUserId: string)

  /** One line item; `uuid` is the id generator, called for the shipment
      first and then once per line. */
  function MapLine(line: Value, i: nat, shipmentId: string, defaults: Defaults, uuid: nat -> string, env: Env): LineItem {
    LineItem(uuid(1 + i), shipmentId,
             Or(Get(line, "description"), Str("Unknown Item")), Or(Get(line, "quantity"), Num(1.0)),
             Or(Get(line, "quantityUom"), Str("EA")), OcrMapper.UnitValue(line, env),
             Or(Get(line, "valueUsd"), Num(0.0)), Or(Get(line, "netWeightKg"), Num(0.0)),
             Or(Get(line, "htsCode"), Str("000000")), Or(Get(line, "countryOfOrigin"), Str(defaults.originCountry)),
             Get(line, "partNumber"))
  }

  function MapLines(lines: seq<Value>, shipmentId: string, defaults: Defaults, uuid: nat -> string, env: Env): (r: seq<LineItem>)
    ensures |r| == |lines|
    ensures forall i :: 0 <= i < |lines| ==> r[i] == MapLine(lines[i], i, shipmentId, defaults, uuid, env)
    decreases |lines|
  {
    if lines == [] then []
    else
      var n := |lines| - 1;
      MapLines(lines[..n], shipmentId, defaults, uuid, env) + [MapLine(lines[n], n, shipmentId, defaults, uuid, env)]
  }

  /** `agg >= 0 ? agg : 0` */
  function NonNegative(v: Value, env: Env): Value { if AtLeastZero(v, env) then v else Num(0.0) }

  /** `agg > 0 ? agg : 1` */
  function Positive(v: Value, env: Env): Value { if AboveZero(v, env) then v else Num(1.0) }

  /** The record handed to the schema check; `clock` gives the two
      readings of `new Date()`, in milliseconds, for createdAt and
      updatedAt. */
  function Build(ocr: Value, lines: seq<Value>, defaults: Defaults, uuid: nat -> string, clock: nat -> int, env: Env): ShipmentV1 {
    var header := Get(ocr, "header");
    var shipmentId := uuid(0);
    var origin := Or(Or(Get(header, "originCountry"), Get(header, "origin")), Str(defaults.originCountry));
    var destination := Or(Or(Get(header, "destinationCountry"), Get(header, "destination")), Str(defaults.destCountry));
    var n := |lines|;
    ShipmentV1(
      shipmentId, "shipment.v1",
      Or(Get(header, "incoterm"), Str(defaults.incoterm)), Or(Get(header, "currency"), Str(defaults.currency)),
      origin, destination, Get(header, "reference"),
      Party(uuid(1 + n), Or(Get(header, "shipper"), Str("Unknown Shipper")), "Unknown Address", "Unknown City", "00000", origin),
      Party(uuid(2 + n), Or(Get(header, "consignee"), Str("Unknown Consignee")), "Unknown Address", "Unknown City", "00000", destination),
      NonNegative(OcrMapper.Aggregate(ocr, lines, "valueUsd", env), env),
      NonNegative(OcrMapper.Aggregate(ocr, lines, "netWeightKg", env), env),
      Positive(OcrMapper.Aggregate(ocr, lines, "quantity", env), env),
      MapLines(lines, shipmentId, defaults, uuid, env), clock(0), clock(1), "system-ocr")
  }

  /** `mapOcrToShipment(ocrResult)`: the schema parse is passed in and its
      failure message is wrapped. */
  function MapOcr(ocr: Value, defaults: Defaults, uuid: nat -> string, clock: nat -> int,
                  schemaParse: ShipmentV1 -> Result<ShipmentV1, string>, env: Env): Result<ShipmentV1, string> {
    var header := Get(ocr, "header");
    if !Truthy(ocr) || !Truthy(header) then Err(MissingHeader)
    else
      var ls := Get(ocr, "lines");
      if !ls.Arr? || !OcrMapper.NoNullish(ls.items) then Err(OcrMapper.TypeError)
      else
        match schemaParse(Build(ocr, ls.items, defaults, uuid, clock, env))
        case Ok(parsed) => Ok(parsed)
        case Err(message) => Err(ValidationFailed + message)
  }

  /** The missing-header error, and the schema failure wrapped. */
  lemma {:induction false} ErrorsSpec(ocr: Value, defaults: Defaults, uuid: nat -> string, clock: nat -> int,
                                       schemaParse: ShipmentV1 -> Result<ShipmentV1, string>, env: Env)
    ensures MapOcr(ocr, defaults, uuid, clock, schemaParse, env) == Err(MissingHeader) <==> !Truthy(ocr) || !Truthy(Get(ocr, "header"))
    ensures Truthy(ocr) && Truthy(Get(ocr, "header")) && Get(ocr, "lines").Arr? && OcrMapper.NoNullish(Get(ocr, "lines").items) ==>
      match schemaParse(Build(ocr, Get(ocr, "lines").items, defaults, uuid, clock, env))
      case Ok(parsed) => MapOcr(ocr, defaults, uuid, clock, schemaParse, env) == Ok(parsed)
      case Err(m) => MapOcr(ocr, defaults, uuid, clock, schemaParse, env) == Err(ValidationFailed + m)
  {
    if Truthy(ocr) && Truthy(Get(ocr, "header")) {
      assert MissingHeader != ValidationFailed + "" by {
        assert MissingHeader[0] != ValidationFailed[0];
      }
      var ls := Get(ocr, "lines");
      if ls.Arr? && OcrMapper.NoNullish(ls.items) {
        match schemaParse(Build(ocr, ls.items, defaults, uuid, clock, env))
        case Ok(parsed) =>
        case Err(m) =>
          assert (ValidationFailed + m)[0] == ValidationFailed[0];
      }
    }
  }

  /** Every line item belongs to the new shipment, and the defaults fill
      missing line fields. */
  lemma {:induction false} LineItemsSpec(ocr: Value, lines: seq<Value>, defaults: Defaults, uuid: nat -> string, clock: nat -> int, env: Env, i: nat)
    requires i < |lines|
    ensures var s := Build(ocr, lines, defaults, uuid, clock, env); var item := s.lineItems[i]; var line := lines[i];
      item.shipmentId == s.id
      && (!Truthy(Get(line, "description")) ==> item.description == Str("Unknown Item"))
      && (!Truthy(Get(line, "quantity")) ==> item.quantity == Num(1.0))
      && (!Truthy(Get(line, "quantityUom")) ==> item.uom == Str("EA"))
      && (!Truthy(Get(line, "htsCode")) ==> item.htsCode == Str("000000"))
      && (!Truthy(Get(line, "valueUsd")) ==> item.extendedValue == Num(0.0))
  {
  }

  /** The totals can never be negative and its package count is always
      positive. */
  lemma {:induction false} AggregatesClamped(ocr: Value, lines: seq<Value>, defaults: Defaults, uuid: nat -> string, clock: nat -> int, env: Env)
    ensures var s := Build(ocr, lines, defaults, uuid, clock, env);
      AtLeastZero(s.totalCustomsValue, env) && AtLeastZero(s.totalWeightKg, env) && AboveZero(s.numPackages, env)
  {
  }

  /** Placeholder parties: the shipper's country is the shipment origin and
      the consignee's its destination. */
  lemma {:induction false} PartiesSpec(ocr: Value, lines: seq<Value>, defaults: Defaults, uuid: nat -> string, clock: nat -> int, env: Env)
    ensures var s := Build(ocr, lines, defaults, uuid, clock, env); var h := Get(ocr, "header");
      s.shipper.addressLine1 == "Unknown Address" && s.consignee.addressLine1 == "Unknown Address"
      && s.shipper.countryCode == s.originCountry && s.consignee.countryCode == s.destinationCountry
      && (!Truthy(Get(h, "shipper")) ==> s.shipper.name == Str("Unknown Shipper"))
      && (!Truthy(Get(h, "originCountry")) && !Truthy(Get(h, "origin")) ==> s.originCountry == Str(defaults.originCountry))
  {
  }

  /** The record is stamped with the two clock readings and the system
      user, and has one line item per input line. */
  lemma {:induction false} MetadataSpec(ocr: Value, lines: seq<Value>, defaults: Defaults, uuid: nat -> string, clock: nat -> int, env: Env)
    ensures var s := Build(ocr, lines, defaults, uuid, clock, env);
      s.createdAt == clock(0) && s.updatedAt == clock(1) && s.createdByUserId == "system-ocr"
      && s.schemaVersion == "shipment.v1" && |s.lineItems| == |lines|
  {
  }

  /** A line of value 100 and quantity 10 has unit value 10. */
  lemma {:induction false} UnitValueExample(line: Value, env: Env)
    requires Get(line, "valueUsd") == Num(100.0) && Get(line, "quantity") == Num(10.0)
    ensures OcrMapper.UnitValue(line, env) == Num(10.0)
  {
  }
}
