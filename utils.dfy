// Number and unit cleanup, string normalisation, checksums and the line
// pass of document normalisation in the ingestion service
// (services/ingestion/src/utils.js).

module Utils {
  import opened Wrappers
  import opened Text
  import opened Json
  import opened Seqs
  import Validators
  import Catalog

  /** The characters `[0-9.,-]` that survive the first cleanup pass. */
  predicate NumericChar(c: char) { IsDigit(c) || c == '.' || c == ',' || c == '-' }

  /** `.replace(/[^0-9.,-]/g, '')` */
  function KeepNumeric(s: string): (r: string)
    ensures forall i :: 0 <= i < |r| ==> NumericChar(r[i])
    ensures |r| <= |s|
  {
    if s == [] then [] else (if NumericChar(s[0]) then [s[0]] else []) + KeepNumeric(s[1..])
  }

  /** Three digits at i followed by a non-digit or the end: `\d{3}(\D|$)`. */
  predicate GroupAt(s: string, i: nat) {
    i + 3 <= |s| && IsDigit(s[i]) && IsDigit(s[i + 1]) && IsDigit(s[i + 2]) && (i + 3 == |s| || !IsDigit(s[i + 3]))
  }

  /** A comma that `,(?=\d{3}(\D|$))` matches: a thousands separator. */
  predicate GroupComma(s: string, i: nat) { i < |s| && s[i] == ',' && GroupAt(s, i + 1) }

  /** `.replace(/,(?=\d{3}(\D|$))/g, '')`, scanning from index i; the
      lookahead reads the string as it was before the replacement. */
  function DropGroupCommas(s: string, i: nat): string
    decreases |s| - i
  {
    if i >= |s| then [] else (if GroupComma(s, i) then [] else [s[i]]) + DropGroupCommas(s, i + 1)
  }

  /** `.replace(',', '.')`: only the first comma. */
  function FirstCommaToPoint(s: string): (r: string)
    ensures |r| == |s|
  {
    if s == [] then [] else if s[0] == ',' then ['.'] + s[1..] else [s[0]] + FirstCommaToPoint(s[1..])
  }

  /** The text ensureNumber hands to parseFloat. */
  function CleanNumber(s: string): string {
    FirstCommaToPoint(DropGroupCommas(KeepNumeric(s), 0))
  }

  /** `ensureNumber`: numbers pass through (NaN included), null and
      undefined are NaN, anything else is cleaned and parsed. None is NaN. */
  function EnsureNumber(v: Value, env: Env): Option<real> {
    match v
    case Num(n) => Some(n)
    case NaN => None
    case Null => None
    case Undefined => None
    case _ => env.parseFloat(CleanNumber(ToStr(v, env)))
  }

  /** `toUsd` is ensureNumber. */
  function ToUsd(v: Value, env: Env): Option<real> { EnsureNumber(v, env) }

  const PoundsToKg: real := 0.45359237

  /** `toKg`: a number passes through; otherwise the lower-cased text is
      parsed and scaled from pounds when it mentions "lb". Note that null
      becomes the text "null" here, not NaN directly. */
  function ToKg(v: Value, env: Env): Option<real> {
    if v.Num? || v.NaN? then EnsureNumber(v, env)
    else
      var str := Lower(ToStr(v, env));
      FromPounds(str, EnsureNumber(Str(str), env))
  }

  /** The amount parsed from str, scaled when str mentions "lb". */
  function FromPounds(str: string, numeric: Option<real>): Option<real> {
    if Contains(str, "lb") then Scaled(numeric, PoundsToKg) else numeric
  }

  /** A parsed amount times a factor; NaN stays NaN. */
  function Scaled(numeric: Option<real>, factor: real): Option<real> {
    match numeric case Some(x) => Some(x * factor) case None => None
  }

  /** `normalizeString`: null and undefined become "", anything else its
      trimmed text. */
  function NormalizeString(v: Value, env: Env): (r: string)
    ensures r == [] || (!IsSpace(r[0]) && !IsSpace(r[|r| - 1]))
    ensures v.Str? ==> |r| <= |v.s|
  {
    if v.Undefined? || v.Null? then "" else Trim(ToStr(v, env))
  }

  /** `uppercase` */
  function Uppercase(v: Value, env: Env): string { Upper(NormalizeString(v, env)) }

  // ---- properties of the number cleanup ----

  function Digits(s: string): (r: string)
    ensures AllDigits(r)
  {
    if s == [] then [] else (if IsDigit(s[0]) then [s[0]] else []) + Digits(s[1..])
  }

  lemma {:induction false} DigitsAppend(a: string, b: string)
    ensures Digits(a + b) == Digits(a) + Digits(b)
  {
    if a != [] {
      assert (a + b)[0] == a[0] && (a + b)[1..] == a[1..] + b;
      DigitsAppend(a[1..], b);
    } else {
      assert a + b == b;
    }
  }

  lemma {:induction false} KeepNumericDigits(s: string)
    ensures Digits(KeepNumeric(s)) == Digits(s)
  {
    if s != [] {
      KeepNumericDigits(s[1..]);
      DigitsAppend(if NumericChar(s[0]) then [s[0]] else [], KeepNumeric(s[1..]));
    }
  }

  lemma {:induction false} DropGroupCommasDigits(s: string, i: nat)
    requires i <= |s|
    ensures Digits(DropGroupCommas(s, i)) == Digits(s[i..])
    decreases |s| - i
  {
    if i < |s| {
      DropGroupCommasDigits(s, i + 1);
      DigitsAppend(if GroupComma(s, i) then [] else [s[i]], DropGroupCommas(s, i + 1));
      assert s[i..] == [s[i]] + s[i + 1..];
      DigitsAppend([s[i]], s[i + 1..]);
    }
  }

  lemma {:induction false} FirstCommaToPointDigits(s: string)
    ensures Digits(FirstCommaToPoint(s)) == Digits(s)
  {
    if s != [] && s[0] != ',' {
      FirstCommaToPointDigits(s[1..]);
      DigitsAppend([s[0]], FirstCommaToPoint(s[1..]));
      DigitsAppend([s[0]], s[1..]);
      assert s == [s[0]] + s[1..];
    } else if s != [] {
      DigitsAppend(['.'], s[1..]);
      DigitsAppend([','], s[1..]);
      assert s == [','] + s[1..];
    }
  }

  lemma {:induction false} DropGroupCommasChars(s: string, i: nat)
    requires forall j :: 0 <= j < |s| ==> NumericChar(s[j])
    ensures forall j :: 0 <= j < |DropGroupCommas(s, i)| ==> NumericChar(DropGroupCommas(s, i)[j])
    decreases |s| - i
  {
    if i < |s| {
      DropGroupCommasChars(s, i + 1);
    }
  }

  lemma {:induction false} FirstCommaToPointChars(s: string)
    requires forall j :: 0 <= j < |s| ==> NumericChar(s[j])
    ensures forall j :: 0 <= j < |FirstCommaToPoint(s)| ==> NumericChar(FirstCommaToPoint(s)[j])
  {
    if s != [] && s[0] != ',' {
      FirstCommaToPointChars(s[1..]);
    }
  }

  /** The cleaned text holds only digits, points, commas and minus signs,
      and exactly the digits of the input, in order: cleanup neither loses
      nor invents a digit. */
  lemma {:induction false} CleanNumberSpec(s: string)
    ensures forall j :: 0 <= j < |CleanNumber(s)| ==> NumericChar(CleanNumber(s)[j])
    ensures Digits(CleanNumber(s)) == Digits(s)
  {
    var k := KeepNumeric(s);
    KeepNumericDigits(s);
    DropGroupCommasDigits(k, 0);
    assert k[0..] == k;
    FirstCommaToPointDigits(DropGroupCommas(k, 0));
    DropGroupCommasChars(k, 0);
    FirstCommaToPointChars(DropGroupCommas(k, 0));
  }

  lemma {:induction false} KeepNumericPlain(s: string)
    requires forall j :: 0 <= j < |s| ==> NumericChar(s[j])
    ensures KeepNumeric(s) == s
  {
    if s != [] {
      KeepNumericPlain(s[1..]);
    }
  }

  lemma {:induction false} DropGroupCommasNoComma(s: string, i: nat)
    requires i <= |s| && forall j :: i <= j < |s| ==> s[j] != ','
    ensures DropGroupCommas(s, i) == s[i..]
    decreases |s| - i
  {
    if i < |s| {
      DropGroupCommasNoComma(s, i + 1);
      assert s[i..] == [s[i]] + s[i + 1..];
    }
  }

  lemma {:induction false} FirstCommaToPointNoComma(s: string)
    requires forall j :: 0 <= j < |s| ==> s[j] != ','
    ensures FirstCommaToPoint(s) == s
  {
    if s != [] {
      FirstCommaToPointNoComma(s[1..]);
    }
  }

  /** Text made only of digits, points and minus signs is parsed as it is. */
  lemma {:induction false} CleanPlainNumber(s: string)
    requires forall j :: 0 <= j < |s| ==> IsDigit(s[j]) || s[j] == '.' || s[j] == '-'
    ensures CleanNumber(s) == s
  {
    KeepNumericPlain(s);
    DropGroupCommasNoComma(s, 0);
    FirstCommaToPointNoComma(s);
  }

  /** One step of the scan. */
  lemma {:induction false} DropGroupCommasFrom(s: string, i: nat)
    requires i <= |s|
    ensures DropGroupCommas(s, i) == (if i == |s| then [] else (if GroupComma(s, i) then [] else [s[i]]) + DropGroupCommas(s, i + 1))
  {
  }

  /** "1,234": a comma followed by exactly three digits is a thousands
      separator and is dropped. */
  lemma {:induction false} ThousandsSeparatorDropped(a: string, b: string)
    requires a != [] && AllDigits(a) && |b| == 3 && AllDigits(b)
    ensures CleanNumber(a + "," + b) == a + b
  {
    var s := a + "," + b;
    CommaJoin(a, b);
    KeepNumericPlain(s);
    assert s[..|a|] == a && s[|a| + 1..] == b;
    assert GroupComma(s, |a|) by {
      assert s[|a|] == ',' && s[|a| + 1] == b[0] && s[|a| + 2] == b[1] && s[|a| + 3] == b[2];
    }
    DropsOnly(s, |a|);
    DigitsJoinNoComma(a, b);
    FirstCommaToPointNoComma(a + b);
  }

  /** Two digit strings joined by a comma: numeric text whose only comma
      is the joining one. */
  lemma {:induction false} CommaJoin(a: string, b: string)
    requires AllDigits(a) && AllDigits(b)
    ensures forall j :: 0 <= j < |a + "," + b| ==> NumericChar((a + "," + b)[j])
    ensures forall j :: 0 <= j < |a + "," + b| && j != |a| ==> (a + "," + b)[j] != ','
  {
    var s := a + "," + b;
    forall j | 0 <= j < |s| ensures NumericChar(s[j]) && (j != |a| ==> s[j] != ',') {
      if j < |a| { assert s[j] == a[j]; } else if j > |a| { assert s[j] == b[j - |a| - 1]; }
    }
  }

  lemma {:induction false} DigitsJoinNoComma(a: string, b: string)
    requires AllDigits(a) && AllDigits(b)
    ensures forall j :: 0 <= j < |a + b| ==> (a + b)[j] != ','
  {
    var t := a + b;
    forall j | 0 <= j < |t| ensures t[j] != ',' {
      if j < |a| { assert t[j] == a[j]; } else { assert t[j] == b[j - |a|]; }
    }
  }

  /** A string whose only comma is at k, which the lookahead drops. */
  lemma {:induction false} DropsOnly(s: string, k: nat)
    requires k < |s| && GroupComma(s, k)
    requires forall j :: 0 <= j < |s| && j != k ==> s[j] != ','
    ensures DropGroupCommas(s, 0) == s[..k] + s[k + 1..]
  {
    assert DropGroupCommas(s, 0) == s[0..k] + DropGroupCommas(s, k) by { DropPrefix(s, 0, k); }
    assert DropGroupCommas(s, k) == DropGroupCommas(s, k + 1) by { DropGroupCommasFrom(s, k); }
    assert DropGroupCommas(s, k + 1) == s[k + 1..] by { DropGroupCommasNoComma(s, k + 1); }
    assert s[0..k] == s[..k];
  }

  /** Below the first comma nothing is dropped. */
  lemma {:induction false} DropPrefix(s: string, i: nat, k: nat)
    requires i <= k <= |s|
    requires forall j :: i <= j < k ==> s[j] != ','
    ensures DropGroupCommas(s, i) == s[i..k] + DropGroupCommas(s, k)
    decreases k - i
  {
    if i < k {
      DropPrefix(s, i + 1, k);
      DropGroupCommasFrom(s, i);
      assert !GroupComma(s, i);
      ConsSlice(s, i, k);
      ConcatAssoc([s[i]], s[i + 1..k], DropGroupCommas(s, k));
    }
  }

  /** "12,5": a comma not followed by a three-digit group becomes the
      decimal point. */
  lemma {:induction false} DecimalCommaBecomesPoint(a: string, b: string)
    requires AllDigits(a) && AllDigits(b) && |b| != 3
    ensures CleanNumber(a + "," + b) == a + "." + b
  {
    var s := a + "," + b;
    CommaJoin(a, b);
    KeepNumericPlain(s);
    KeepsAll(s, 0);
    assert s[0..] == s;
    FirstCommaAt(s, |a|);
  }

  /** No comma of s is a thousands separator, so the scan keeps everything. */
  lemma {:induction false} KeepsAll(s: string, i: nat)
    requires i <= |s| && forall j :: 0 <= j < |s| ==> !GroupComma(s, j)
    ensures DropGroupCommas(s, i) == s[i..]
    decreases |s| - i
  {
    if i < |s| {
      KeepsAll(s, i + 1);
      assert s[i..] == [s[i]] + s[i + 1..];
    }
  }

  lemma {:induction false} FirstCommaAt(s: string, k: nat)
    requires k < |s| && s[k] == ',' && forall j :: 0 <= j < k ==> s[j] != ','
    ensures FirstCommaToPoint(s) == s[..k] + "." + s[k + 1..]
  {
    if k > 0 {
      FirstCommaAt(s[1..], k - 1);
      assert s[1..][..k - 1] == s[1..k];
      assert s[..k] == [s[0]] + s[1..k];
    }
  }

  /** Case does not change the parsed number: only digits and punctuation
      survive the cleanup. */
  lemma {:induction false} KeepNumericLower(s: string)
    ensures KeepNumeric(Lower(s)) == KeepNumeric(s)
  {
    if s != [] {
      KeepNumericLower(s[1..]);
      assert Lower(s)[1..] == Lower(s[1..]);
    }
  }

  /** A number given as text in pounds is scaled to kilograms; any other
      text is parsed as it is. */
  lemma {:induction false} ToKgSpec(s: string, env: Env)
    ensures !Contains(Lower(s), "lb") ==> ToKg(Str(s), env) == EnsureNumber(Str(s), env)
    ensures Contains(Lower(s), "lb") ==> ToKg(Str(s), env) == Scaled(EnsureNumber(Str(s), env), PoundsToKg)
  {
    ToKgText(s, env);
    EnsureNumberLower(s, env);
  }

  lemma {:induction false} ToKgText(s: string, env: Env)
    ensures ToKg(Str(s), env) == FromPounds(Lower(s), EnsureNumber(Str(Lower(s)), env))
  {
  }

  /** Case does not change the parsed number. */
  lemma {:induction false} EnsureNumberLower(s: string, env: Env)
    ensures EnsureNumber(Str(Lower(s)), env) == EnsureNumber(Str(s), env)
  {
    KeepNumericLower(s);
  }

  lemma {:induction false} NormalizeTrimmed(s: string, env: Env)
    ensures NormalizeString(Str(Trim(s)), env) == Trim(s)
  {
    TrimIdempotent(s);
  }

  /** Normalising a normalised string changes nothing. */
  lemma {:induction false} NormalizeStringIdempotent(v: Value, env: Env)
    ensures NormalizeString(Str(NormalizeString(v, env)), env) == NormalizeString(v, env)
  {
    if v.Undefined? || v.Null? {
      var e: string := [];
      assert TrimStart(e) == e;
      assert Trim(e) == e;
      NormalizeTrimmed(e, env);
    } else {
      NormalizeTrimmed(ToStr(v, env), env);
    }
  }

  // ---- checksums ----

  /** `lines.reduce((acc, line) => acc + (line[key] || 0), 0)`; reading a
      property of a null line throws. */
  function SumField(lines: seq<Value>, key: string, env: Env): Result<Value, string>
    decreases |lines|
  {
    if lines == [] then Ok(Num(0.0))
    else match SumField(lines[..|lines| - 1], key, env)
      case Err(e) => Err(e)
      case Ok(acc) =>
        var line := lines[|lines| - 1];
        if line.Null? || line.Undefined? then Err(Validators.TypeError)
        else Ok(Add(acc, Or(Get(line, key), Num(0.0)), env))
  }

  datatype Checksums = Checksums(quantity: Option<real>, netWeightKg: Option<real>, valueUsd: Option<real>)

  /** `computeChecksums`: Number(...) of each of the three sums. */
  function ComputeChecksums(lines: seq<Value>, env: Env): Result<Checksums, string> {
    match (SumField(lines, "quantity", env), SumField(lines, "netWeightKg", env), SumField(lines, "valueUsd", env))
    case (Ok(q), Ok(w), Ok(v)) => Ok(Checksums(ToNumber(q, env), ToNumber(w, env), ToNumber(v, env)))
    case _ => Err(Validators.TypeError)
  }

  /** The numeric value of a field that is a number or missing; a missing
      or falsy field counts as 0. */
  function FieldAmount(line: Value, key: string): real {
    var v := Get(line, key);
    if v.Num? then v.n else 0.0
  }

  function AmountSum(lines: seq<Value>, key: string): real
    decreases |lines|
  {
    if lines == [] then 0.0 else AmountSum(lines[..|lines| - 1], key) + FieldAmount(lines[|lines| - 1], key)
  }

  /** The field is a number or absent (falsy non-strings). */
  predicate NumericField(line: Value, key: string) {
    var v := Get(line, key);
    v.Num? || v.NaN? || v.Undefined? || v.Null? || v == Bool(false)
  }

  /** Over object lines whose fields are numbers or absent, the checksum
      is the plain sum with absent values as 0; no lines give 0. */
  lemma {:induction false} SumFieldNumeric(lines: seq<Value>, key: string, env: Env)
    requires forall i :: 0 <= i < |lines| ==> lines[i].Obj? && NumericField(lines[i], key)
    ensures SumField(lines, key, env) == Ok(Num(AmountSum(lines, key)))
    decreases |lines|
  {
    if lines != [] {
      SumFieldNumeric(lines[..|lines| - 1], key, env);
    }
  }

  // ---- the line pass of normalizeDocument ----

  datatype CanonicalLine = CanonicalLine(
    partNumber: string, description: string,
    quantity: real, netWeightKg: real, valueUsd: real,
    htsCode: string, countryOfOrigin: string, purchaseOrderNumber: string)

  function OrZero(x: Option<real>): real { if x.Some? then x.value else 0.0 }

  /** One line of the `rawDoc.lines.map(...)`. */
  function NormalizeLine(line: Value, env: Env): CanonicalLine {
    CanonicalLine(
      Uppercase(Get(line, "partNumber"), env),
      NormalizeString(Get(line, "description"), env),
      OrZero(EnsureNumber(Get(line, "quantity"), env)),
      OrZero(ToKg(Get(line, "netWeightKg"), env)),
      OrZero(ToUsd(Get(line, "valueUsd"), env)),
      Uppercase(Get(line, "htsCode"), env),
      Uppercase(Get(line, "countryOfOrigin"), env),
      NormalizeString(Get(line, "purchaseOrderNumber"), env))
  }

  /** The map callback's normalised line. */
  function Normalizer(env: Env): Value -> CanonicalLine { x => NormalizeLine(x, env) }

  /** `rawDoc.lines.map(...)` on lines none of which is null or undefined. */
  function NormalizeLines(raw: seq<Value>, env: Env): (ls: seq<CanonicalLine>)
    ensures |ls| == |raw|
  {
    MapSeq(Normalizer(env), raw)
  }

  lemma {:induction false} NormalizeLinesAt(raw: seq<Value>, env: Env, i: nat)
    requires i < |raw|
    ensures NormalizeLines(raw, env)[i] == NormalizeLine(raw[i], env)
  {
    MapSeqAt(Normalizer(env), raw, i);
  }

  /** One of the three numbers could not be parsed. */
  predicate Unparsable(line: Value, env: Env) {
    EnsureNumber(Get(line, "quantity"), env).None?
    || ToKg(Get(line, "netWeightKg"), env).None?
    || ToUsd(Get(line, "valueUsd"), env).None?
  }

  /** The map callback's test for a number that did not parse. */
  function UnparsableIn(env: Env): Value -> bool { x => Unparsable(x, env) }

  const LineNote := "One or more numeric fields could not be parsed and were defaulted to 0."

  function LineNoteKey(index: nat): string { "line-" + NatToString(index) }

  type Notes = seq<Member>

  /** `if (isNaN(...) || ...) normalizationNotes[`line-${index}`] = ...` */
  function NoteLine(notes: Notes, index: nat, unparsable: bool): Notes {
    if unparsable then SetMember(notes, LineNoteKey(index), Str(LineNote)) else notes
  }

  /** The notes after the first n lines, starting from the currency note;
      unparsable tells which lines have a number that does not parse. */
  function LineNotes(notes: Notes, lines: seq<Value>, n: nat, unparsable: Value -> bool): Notes
    requires n <= |lines|
  {
    if n == 0 then notes else NoteLine(LineNotes(notes, lines, n - 1, unparsable), n - 1, unparsable(lines[n - 1]))
  }

  function CurrencyNote(currency: string): Notes {
    if currency != "" && Utf16Length(currency) != 3 then [Member("currency", Str("Currency normalized to ISO-like format: " + currency))]
    else []
  }

  /** A canonical line as the JSON object the normaliser returns. */
  function LineObject(l: CanonicalLine): Value {
    Obj([Member("partNumber", Str(l.partNumber)), Member("description", Str(l.description)),
         Member("quantity", Num(l.quantity)), Member("netWeightKg", Num(l.netWeightKg)),
         Member("valueUsd", Num(l.valueUsd)), Member("htsCode", Str(l.htsCode)),
         Member("countryOfOrigin", Str(l.countryOfOrigin)),
         Member("purchaseOrderNumber", Str(l.purchaseOrderNumber))])
  }

  function LineObjects(ls: seq<CanonicalLine>): (vs: seq<Value>)
    ensures |vs| == |ls|
    decreases |ls|
  {
    if ls == [] then [] else LineObjects(ls[..|ls| - 1]) + [LineObject(ls[|ls| - 1])]
  }

  lemma {:induction false} LineObjectsAt(ls: seq<CanonicalLine>, i: nat)
    requires i < |ls|
    ensures LineObjects(ls)[i] == LineObject(ls[i])
    decreases |ls|
  {
    if i < |ls| - 1 {
      LineObjectsAt(ls[..|ls| - 1], i);
    }
  }

  /** The three summed fields of a canonical line. */
  datatype Amount = Quantity | NetWeightKg | ValueUsd

  function AmountKey(f: Amount): string {
    match f
    case Quantity => "quantity"
    case NetWeightKg => "netWeightKg"
    case ValueUsd => "valueUsd"
  }

  function AmountOf(l: CanonicalLine, f: Amount): real {
    match f
    case Quantity => l.quantity
    case NetWeightKg => l.netWeightKg
    case ValueUsd => l.valueUsd
  }

  function Total(ls: seq<CanonicalLine>, f: Amount): real
    decreases |ls|
  {
    if ls == [] then 0.0 else Total(ls[..|ls| - 1], f) + AmountOf(ls[|ls| - 1], f)
  }

  lemma {:induction false} LineObjectAmount(l: CanonicalLine, f: Amount)
    ensures Get(LineObject(l), AmountKey(f)) == Num(AmountOf(l, f))
  {
    var ms := LineObject(l).members;
    match f
    case Quantity =>
      assert ms[2] == Member("quantity", Num(l.quantity));
      LookupAt(ms, 2);
    case NetWeightKg =>
      assert ms[3] == Member("netWeightKg", Num(l.netWeightKg));
      LookupAt(ms, 3);
    case ValueUsd =>
      assert ms[4] == Member("valueUsd", Num(l.valueUsd));
      LookupAt(ms, 4);
  }

  /** What the validators read from a canonical line: its text fields, and
      no netWeight, weightUnit, value or currency property. */
  lemma {:induction false} LineObjectFields(l: CanonicalLine)
    ensures Get(LineObject(l), "htsCode") == Str(l.htsCode)
    ensures Get(LineObject(l), "countryOfOrigin") == Str(l.countryOfOrigin)
    ensures Get(LineObject(l), "description") == Str(l.description)
    ensures Get(LineObject(l), "netWeight") == Undefined && Get(LineObject(l), "weightUnit") == Undefined
    ensures Get(LineObject(l), "value") == Undefined && Get(LineObject(l), "currency") == Undefined
  {
    LineObjectText(l);
    LineObjectNoLegacy(l);
  }

  lemma {:induction false} LineObjectText(l: CanonicalLine)
    ensures Get(LineObject(l), "htsCode") == Str(l.htsCode)
    ensures Get(LineObject(l), "countryOfOrigin") == Str(l.countryOfOrigin)
    ensures Get(LineObject(l), "description") == Str(l.description)
  {
    var ms := LineObject(l).members;
    LookupAt(ms, 5);
    LookupAt(ms, 6);
    LookupAt(ms, 1);
  }

  lemma {:induction false} LineObjectNoLegacy(l: CanonicalLine)
    ensures Get(LineObject(l), "netWeight") == Undefined && Get(LineObject(l), "weightUnit") == Undefined
    ensures Get(LineObject(l), "value") == Undefined && Get(LineObject(l), "currency") == Undefined
  {
    var ms := LineObject(l).members;
    LookupAbsent(ms, "netWeight");
    LookupAbsent(ms, "weightUnit");
    LookupAbsent(ms, "value");
    LookupAbsent(ms, "currency");
  }

  /** The checksums of canonical lines are the totals of their fields. */
  lemma {:induction false} SumFieldTotal(ls: seq<CanonicalLine>, f: Amount, env: Env)
    ensures SumField(LineObjects(ls), AmountKey(f), env) == Ok(Num(Total(ls, f)))
    decreases |ls|
  {
    if ls != [] {
      var pre, last := ls[..|ls| - 1], ls[|ls| - 1];
      assert LineObjects(ls) == LineObjects(pre) + [LineObject(last)];
      assert Total(ls, f) == Total(pre, f) + AmountOf(last, f);
      SumFieldTotal(pre, f, env);
      LineObjectAmount(last, f);
      SumFieldLast(LineObjects(pre), LineObject(last), AmountKey(f), env, Total(pre, f), AmountOf(last, f));
    }
  }

  /** One step of the sum over a line whose field is a number. */
  lemma {:induction false} SumFieldLast(vs: seq<Value>, v: Value, key: string, env: Env, acc: real, x: real)
    requires SumField(vs, key, env) == Ok(Num(acc))
    requires v.Obj? && Get(v, key) == Num(x)
    ensures SumField(vs + [v], key, env) == Ok(Num(acc + x))
  {
    AppendLast(vs, v);
    assert Or(Num(x), Num(0.0)) == Num(x);
  }

  lemma {:induction false} ChecksumsOfLines(ls: seq<CanonicalLine>, env: Env)
    ensures ComputeChecksums(LineObjects(ls), env) ==
      Ok(Checksums(Some(Total(ls, Quantity)), Some(Total(ls, NetWeightKg)), Some(Total(ls, ValueUsd))))
  {
    SumFieldTotal(ls, Quantity, env);
    SumFieldTotal(ls, NetWeightKg, env);
    SumFieldTotal(ls, ValueUsd, env);
  }

  // ---- validation of the canonical lines ----

  /** The report normalizeDocument builds as written: the canonical lines
      are validated as they are, although the validators look for netWeight
      and value, which a canonical line does not have. */
  function AsWrittenValidation(ls: seq<CanonicalLine>, env: Env): Result<seq<Validators.ValidationError>, string> {
    Validators.ComplianceErrors(LineObjects(ls), env)
  }

  /** A canonical line never throws in the validators. */
  lemma {:induction false} LineObjectOk(l: CanonicalLine, env: Env)
    ensures Validators.LineOk(LineObject(l), env)
  {
    LineObjectFields(l);
    Validators.LineNeverThrows(LineObject(l), env);
  }

  /** As written, every canonical line is reported with a missing weight
      and a missing value, whatever its netWeightKg and valueUsd. */
  lemma {:induction false} AsWrittenReportsMissingAmounts(ls: seq<CanonicalLine>, env: Env, i: nat)
    requires i < |ls|
    ensures AsWrittenValidation(ls, env).Ok?
    ensures Validators.ValidationError(Catalog.WeightRequired, i, "netWeight", Undefined) in AsWrittenValidation(ls, env).value
    ensures Validators.ValidationError(Catalog.ValueRequired, i, "value", Undefined) in AsWrittenValidation(ls, env).value
  {
    var objects := LineObjects(ls);
    AsWrittenCompletes(ls, env);
    Validators.ComplianceReports(objects, env);
    LineObjectsAt(ls, i);
    LineObjectNoLegacy(ls[i]);
    MissingAmountChecks(objects[i], env);
  }

  /** A line object without netWeight, weightUnit, value and currency gets
      the two required-amount codes from its weight and value checks. */
  lemma {:induction false} MissingAmountChecks(v: Value, env: Env)
    requires Get(v, "netWeight") == Undefined && Get(v, "weightUnit") == Undefined
    requires Get(v, "value") == Undefined && Get(v, "currency") == Undefined
    ensures Validators.LineChecks(v, env)[3] == ("netWeight", Undefined, Ok(Some(Catalog.WeightRequired)))
    ensures Validators.LineChecks(v, env)[4] == ("value", Undefined, Ok(Some(Catalog.ValueRequired)))
  {
    Validators.WeightOutcome(Undefined, Undefined, env);
    Validators.ValueOutcome(Undefined, Undefined, env);
  }

  /** As written, the validation of canonical lines never throws. */
  lemma {:induction false} AsWrittenCompletes(ls: seq<CanonicalLine>, env: Env)
    ensures AsWrittenValidation(ls, env).Ok?
  {
    var objects := LineObjects(ls);
    forall j | 0 <= j < |objects| ensures Validators.LineOk(objects[j], env) {
      LineObjectsAt(ls, j);
      LineObjectOk(ls[j], env);
    }
    Validators.ComplianceThrows(objects, env);
  }

  /** The object the validators are meant to see for a canonical line: its
      weight in kilograms as netWeight and its value in dollars as value,
      with no separate unit or currency to check. */
  function ValidationObject(l: CanonicalLine): Value {
    Obj([Member("htsCode", Str(l.htsCode)), Member("countryOfOrigin", Str(l.countryOfOrigin)),
         Member("description", Str(l.description)),
         Member("netWeight", Num(l.netWeightKg)), Member("value", Num(l.valueUsd))])
  }

  function ValidationObjects(ls: seq<CanonicalLine>): (vs: seq<Value>)
    ensures |vs| == |ls|
    decreases |ls|
  {
    if ls == [] then [] else ValidationObjects(ls[..|ls| - 1]) + [ValidationObject(ls[|ls| - 1])]
  }

  lemma {:induction false} ValidationObjectsAt(ls: seq<CanonicalLine>, i: nat)
    requires i < |ls|
    ensures ValidationObjects(ls)[i] == ValidationObject(ls[i])
    decreases |ls|
  {
    if i < |ls| - 1 {
      ValidationObjectsAt(ls[..|ls| - 1], i);
    }
  }

  lemma {:induction false} ValidationObjectFields(l: CanonicalLine)
    ensures Get(ValidationObject(l), "htsCode") == Str(l.htsCode)
    ensures Get(ValidationObject(l), "countryOfOrigin") == Str(l.countryOfOrigin)
    ensures Get(ValidationObject(l), "description") == Str(l.description)
    ensures Get(ValidationObject(l), "netWeight") == Num(l.netWeightKg) && Get(ValidationObject(l), "weightUnit") == Undefined
    ensures Get(ValidationObject(l), "value") == Num(l.valueUsd) && Get(ValidationObject(l), "currency") == Undefined
  {
    var ms := ValidationObject(l).members;
    LookupAt(ms, 0);
    LookupAt(ms, 1);
    LookupAt(ms, 2);
    LookupAt(ms, 3);
    LookupAt(ms, 4);
    LookupAbsent(ms, "weightUnit");
    LookupAbsent(ms, "currency");
  }

  /** The weight check of a canonical line, read from netWeightKg. */
  lemma {:induction false} ValidationWeight(l: CanonicalLine, env: Env)
    ensures Validators.LineChecks(ValidationObject(l), env)[3].2 ==
      if l.netWeightKg < 0.0 then Ok(Some(Catalog.WeightInvalid))
      else if l.netWeightKg > 100000.0 then Ok(Some(Catalog.WeightUnreasonable))
      else Ok(None)
  {
    ValidationObjectFields(l);
    Validators.WeightOutcome(Num(l.netWeightKg), Undefined, env);
    Validators.UnitOutcome(Undefined, Validators.WeightUnits, Catalog.WeightUnitInvalid);
  }

  /** The value check of a canonical line, read from valueUsd. */
  lemma {:induction false} ValidationValue(l: CanonicalLine, env: Env)
    ensures Validators.LineChecks(ValidationObject(l), env)[4].2 ==
      if l.valueUsd < 0.0 then Ok(Some(Catalog.ValueInvalid))
      else if l.valueUsd > 10000000.0 then Ok(Some(Catalog.ValueUnreasonable))
      else Ok(None)
  {
    ValidationObjectFields(l);
    Validators.ValueOutcome(Num(l.valueUsd), Undefined, env);
    Validators.UnitOutcome(Undefined, Validators.Currencies, Catalog.CurrencyInvalid);
  }

  lemma {:induction false} ValidationObjectOk(l: CanonicalLine, env: Env)
    ensures Validators.LineOk(ValidationObject(l), env)
  {
    ValidationObjectFields(l);
    Validators.LineNeverThrows(ValidationObject(l), env);
  }

  /** Validating the canonical lines through their kilogram and dollar
      fields never throws, never reports a missing weight or value, and
      reports a weight (value) problem on a line exactly when its
      netWeightKg (valueUsd) is negative or above the plausible bound. */
  lemma {:induction false} CorrectedValidation(ls: seq<CanonicalLine>, env: Env)
    ensures Validators.ComplianceErrors(ValidationObjects(ls), env).Ok?
    ensures forall e :: e in Validators.ComplianceErrors(ValidationObjects(ls), env).value ==>
      e.code != Catalog.WeightRequired && e.code != Catalog.ValueRequired
    ensures forall i :: 0 <= i < |ls| ==>
      ((exists e :: e in Validators.ComplianceErrors(ValidationObjects(ls), env).value && e.lineIndex == i && e.field == "netWeight")
        <==> (ls[i].netWeightKg < 0.0 || ls[i].netWeightKg > 100000.0))
    ensures forall i :: 0 <= i < |ls| ==>
      ((exists e :: e in Validators.ComplianceErrors(ValidationObjects(ls), env).value && e.lineIndex == i && e.field == "value")
        <==> (ls[i].valueUsd < 0.0 || ls[i].valueUsd > 10000000.0))
  {
    var objects := ValidationObjects(ls);
    forall j | 0 <= j < |objects| ensures Validators.LineOk(objects[j], env) {
      ValidationObjectsAt(ls, j);
      ValidationObjectOk(ls[j], env);
    }
    Validators.ComplianceThrows(objects, env);
    Validators.ComplianceReports(objects, env);
    var report := Validators.ComplianceErrors(objects, env).value;
    forall e | e in report ensures e.code != Catalog.WeightRequired && e.code != Catalog.ValueRequired {
      ValidationObjectsAt(ls, e.lineIndex);
      LineChecksCodes(ls[e.lineIndex], env, e);
    }
    forall i | 0 <= i < |ls| ensures
      ((exists e :: e in report && e.lineIndex == i && e.field == "netWeight")
        <==> (ls[i].netWeightKg < 0.0 || ls[i].netWeightKg > 100000.0))
    {
      WeightReported(ls, env, i);
    }
    forall i | 0 <= i < |ls| ensures
      ((exists e :: e in report && e.lineIndex == i && e.field == "value")
        <==> (ls[i].valueUsd < 0.0 || ls[i].valueUsd > 10000000.0))
    {
      ValueReported(ls, env, i);
    }
  }

  /** The codes one corrected line can raise. */
  lemma {:induction false} LineChecksCodes(l: CanonicalLine, env: Env, e: Validators.ValidationError)
    requires (e.field, e.value, Ok(Some(e.code))) in Validators.LineChecks(ValidationObject(l), env)
    ensures e.code != Catalog.WeightRequired && e.code != Catalog.ValueRequired
  {
    ValidationObjectFields(l);
    Validators.HtsOutcome(Str(l.htsCode));
    Validators.CooOutcome(Str(l.countryOfOrigin));
    Validators.DescriptionOutcome(Str(l.description));
    ValidationWeight(l, env);
    ValidationValue(l, env);
    HtsCodes(Str(l.htsCode));
    CooCodes(Str(l.countryOfOrigin));
    DescriptionCodes(Str(l.description));
  }

  lemma {:induction false} HtsCodes(v: Value)
    ensures Validators.ValidateHts(v).Ok? && Validators.ValidateHts(v).value.Some? ==>
      Validators.ValidateHts(v).value.value in {Catalog.HtsRequired, Catalog.HtsInvalidFormat, Catalog.HtsUnknown}
  {
  }

  lemma {:induction false} CooCodes(v: Value)
    ensures Validators.ValidateCoo(v).Ok? && Validators.ValidateCoo(v).value.Some? ==>
      Validators.ValidateCoo(v).value.value in {Catalog.CooRequired, Catalog.CooInvalidFormat, Catalog.CooUnknown}
  {
  }

  lemma {:induction false} DescriptionCodes(v: Value)
    ensures Validators.ValidateDescription(v).Ok? && Validators.ValidateDescription(v).value.Some? ==>
      Validators.ValidateDescription(v).value.value in {Catalog.DescriptionRequired, Catalog.DescriptionTooShort}
  {
  }

  lemma {:induction false} WeightReported(ls: seq<CanonicalLine>, env: Env, i: nat)
    requires i < |ls|
    requires Validators.ComplianceErrors(ValidationObjects(ls), env).Ok?
    ensures (exists e :: e in Validators.ComplianceErrors(ValidationObjects(ls), env).value && e.lineIndex == i && e.field == "netWeight")
      <==> (ls[i].netWeightKg < 0.0 || ls[i].netWeightKg > 100000.0)
  {
    ValidationObjectsAt(ls, i);
    ValidationWeight(ls[i], env);
    Validators.FieldReported(ValidationObjects(ls), env, i, 3);
  }

  lemma {:induction false} ValueReported(ls: seq<CanonicalLine>, env: Env, i: nat)
    requires i < |ls|
    requires Validators.ComplianceErrors(ValidationObjects(ls), env).Ok?
    ensures (exists e :: e in Validators.ComplianceErrors(ValidationObjects(ls), env).value && e.lineIndex == i && e.field == "value")
      <==> (ls[i].valueUsd < 0.0 || ls[i].valueUsd > 10000000.0)
  {
    ValidationObjectsAt(ls, i);
    ValidationValue(ls[i], env);
    Validators.FieldReported(ValidationObjects(ls), env, i, 4);
  }

  /** The `rawDoc.lines.map(...)` loop with its notes. The callback's two
      results are parameters: the normalised line, and whether one of its
      numbers did not parse, which adds the line's note. A null or
      undefined line throws. */
  method MapLines(notes0: Notes, rawLines: seq<Value>, normalize: Value -> CanonicalLine, unparsable: Value -> bool)
    returns (r: Result<(seq<CanonicalLine>, Notes), string>)
    ensures r.Err? <==> exists i :: 0 <= i < |rawLines| && (rawLines[i].Null? || rawLines[i].Undefined?)
    ensures r.Ok? ==>
      && r.value.0 == MapSeq(normalize, rawLines)
      && r.value.1 == LineNotes(notes0, rawLines, |rawLines|, unparsable)
  {
    var notes := notes0;
    var lines: seq<CanonicalLine> := [];
    var index := 0;
    while index < |rawLines|
      invariant 0 <= index <= |rawLines|
      invariant lines == MapSeq(normalize, rawLines[..index])
      invariant notes == LineNotes(notes0, rawLines, index, unparsable)
      invariant forall i :: 0 <= i < index ==> !(rawLines[i].Null? || rawLines[i].Undefined?)
    {
      var line := rawLines[index];
      if line.Null? || line.Undefined? {
        return Err(Validators.TypeError);
      }
      MapSeqPrefix(normalize, rawLines, index);
      if unparsable(line) {
        notes := SetMember(notes, LineNoteKey(index), Str(LineNote));
      }
      lines := lines + [normalize(line)];
      index := index + 1;
    }
    TakeAll(rawLines);
    r := Ok((lines, notes));
  }

  /** The notes, lines, checksums and validation report of normalizeDocument
      (the header's parties and the schema check are left out: the parties
      come from the address parser, the schema check from a library). The
      report is the one the source builds, over the canonical lines, so it
      flags every line's weight and value as missing; CorrectedValidation
      states the report the validators were meant to give. */
  method NormalizeDocument(currencyRaw: Value, rawLines: seq<Value>, env: Env)
    returns (r: Result<(seq<CanonicalLine>, Notes, Checksums, seq<Validators.ValidationError>), string>)
    ensures r.Err? <==> exists i :: 0 <= i < |rawLines| && (rawLines[i].Null? || rawLines[i].Undefined?)
    ensures r.Ok? ==>
      var (lines, notes, sums, report) := r.value;
      && lines == NormalizeLines(rawLines, env)
      && notes == LineNotes(CurrencyNote(Uppercase(currencyRaw, env)), rawLines, |rawLines|, UnparsableIn(env))
      && sums == Checksums(Some(Total(lines, Quantity)), Some(Total(lines, NetWeightKg)), Some(Total(lines, ValueUsd)))
      && AsWrittenValidation(lines, env) == Ok(report)
      && forall i :: 0 <= i < |lines| ==>
           Validators.ValidationError(Catalog.WeightRequired, i, "netWeight", Undefined) in report
           && Validators.ValidationError(Catalog.ValueRequired, i, "value", Undefined) in report
  {
    var currency := Uppercase(currencyRaw, env);
    var mapped := MapLines(CurrencyNote(currency), rawLines, Normalizer(env), UnparsableIn(env));
    if mapped.Err? {
      return Err(mapped.error);
    }
    var (lines, notes) := mapped.value;
    var sums := ComputeChecksums(LineObjects(lines), env);
    ChecksumsOfLines(lines, env);
    var report := Validators.ValidateCompliance(LineObjects(lines), env);
    AsWrittenCompletes(lines, env);
    forall i | 0 <= i < |lines|
      ensures Validators.ValidationError(Catalog.WeightRequired, i, "netWeight", Undefined) in report.value
      ensures Validators.ValidationError(Catalog.ValueRequired, i, "value", Undefined) in report.value
    {
      AsWrittenReportsMissingAmounts(lines, env, i);
    }
    r := Ok((lines, notes, sums.value, report.value));
  }

  // ---- the normalisation notes ----

  /** A line's note is recorded exactly when one of its numbers could not
      be parsed; the currency note is kept. */
  lemma {:induction false} LineNotesSpec(notes: Notes, lines: seq<Value>, n: nat, unparsable: Value -> bool, i: nat)
    requires n <= |lines|
    requires forall k :: 0 <= k < |notes| ==> notes[k].key == "currency"
    ensures Lookup(LineNotes(notes, lines, n, unparsable), LineNoteKey(i)).Some? <==> i < n && unparsable(lines[i])
    ensures Lookup(LineNotes(notes, lines, n, unparsable), "currency") == Lookup(notes, "currency")
  {
    if n == 0 {
      NoLineNoteKey(notes, i);
    } else {
      var before := LineNotes(notes, lines, n - 1, unparsable);
      LineNotesSpec(notes, lines, n - 1, unparsable, i);
      if unparsable(lines[n - 1]) {
        SetMemberLookup(before, LineNoteKey(n - 1), Str(LineNote), LineNoteKey(i));
        SetMemberLookup(before, LineNoteKey(n - 1), Str(LineNote), "currency");
        LineKeyNotCurrency(n - 1);
        LineKeyInjective(i, n - 1);
      }
    }
  }

  lemma {:induction false} LineKeyInjective(i: nat, j: nat)
    ensures LineNoteKey(i) == LineNoteKey(j) ==> i == j
  {
    if LineNoteKey(i) == LineNoteKey(j) {
      assert NatToString(i) == LineNoteKey(i)[5..] && NatToString(j) == LineNoteKey(j)[5..];
      NatToStringInjective(i, j);
    }
  }

  lemma {:induction false} LineKeyNotCurrency(n: nat)
    ensures LineNoteKey(n) != "currency"
  {
    var k := LineNoteKey(n);
    assert k[0] == 'l';
  }

  lemma {:induction false} NoLineNoteKey(notes: Notes, i: nat)
    requires forall k :: 0 <= k < |notes| ==> notes[k].key == "currency"
    ensures Lookup(notes, LineNoteKey(i)).None?
  {
    LineKeyNotCurrency(i);
    NoOtherKey(notes, LineNoteKey(i));
  }

  lemma {:induction false} NoOtherKey(notes: Notes, key: string)
    requires key != "currency" && forall k :: 0 <= k < |notes| ==> notes[k].key == "currency"
    ensures Lookup(notes, key).None?
  {
    if notes != [] {
      NoOtherKey(notes[1..], key);
    }
  }

  /** The currency note is recorded exactly for a non-empty currency whose
      length is not three. */
  lemma {:induction false} CurrencyNoteSpec(currency: string)
    ensures Lookup(CurrencyNote(currency), "currency").Some? <==> currency != "" && Utf16Length(currency) != 3
    ensures forall k :: 0 <= k < |CurrencyNote(currency)| ==> CurrencyNote(currency)[k].key == "currency"
  {
  }
}
