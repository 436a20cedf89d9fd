// Compliance validators of the ingestion service
// (services/ingestion/src/validation/validators.js) and the error catalog
// they return entries of (legacy/services/ingestion/src/validation/catalog.js).

module Catalog {
  datatype Code =
    | HtsRequired | HtsInvalidFormat | HtsUnknown
    | CooRequired | CooInvalidFormat | CooUnknown | CooInvalid
    | WeightRequired | WeightInvalid | WeightUnreasonable | WeightUnitInvalid
    | ValueRequired | ValueInvalid | ValueUnreasonable | CurrencyInvalid
    | DescriptionRequired | DescriptionTooShort
    | DateInvalid | DateUnreasonable

  datatype Severity = Error | Warning

  /** The `code` string of each catalog entry. */
  function CodeName(c: Code): string {
    match c
    case HtsRequired => "HTS_REQUIRED"
    case HtsInvalidFormat => "HTS_INVALID_FORMAT"
    case HtsUnknown => "HTS_UNKNOWN"
    case CooRequired => "COO_REQUIRED"
    case CooInvalidFormat => "COO_INVALID_FORMAT"
    case CooUnknown => "COO_UNKNOWN"
    case CooInvalid => "COO_INVALID"
    case WeightRequired => "WEIGHT_REQUIRED"
    case WeightInvalid => "WEIGHT_INVALID"
    case WeightUnreasonable => "WEIGHT_UNREASONABLE"
    case WeightUnitInvalid => "WEIGHT_UNIT_INVALID"
    case ValueRequired => "VALUE_REQUIRED"
    case ValueInvalid => "VALUE_INVALID"
    case ValueUnreasonable => "VALUE_UNREASONABLE"
    case CurrencyInvalid => "CURRENCY_INVALID"
    case DescriptionRequired => "DESCRIPTION_REQUIRED"
    case DescriptionTooShort => "DESCRIPTION_TOO_SHORT"
    case DateInvalid => "DATE_INVALID"
    case DateUnreasonable => "DATE_UNREASONABLE"
  }

  /** The `severity` of each catalog entry. */
  function SeverityOf(c: Code): Severity {
    match c
    case HtsRequired => Error
    case HtsInvalidFormat => Warning
    case HtsUnknown => Warning
    case CooRequired => Error
    case CooInvalidFormat => Error
    case CooUnknown => Warning
    case CooInvalid => Error
    case WeightRequired => Error
    case WeightInvalid => Error
    case WeightUnreasonable => Warning
    case WeightUnitInvalid => Warning
    case ValueRequired => Error
    case ValueInvalid => Error
    case ValueUnreasonable => Warning
    case CurrencyInvalid => Warning
    case DescriptionRequired => Error
    case DescriptionTooShort => Warning
    case DateInvalid => Error
    case DateUnreasonable => Warning
  }
}

module Validators {
  import opened Wrappers
  import opened Text
  import opened Json
  import opened Catalog

  /** An exception escaping a validator (`x.trim` on a non-string). */
  const TypeError := "TypeError"

  /** null when the field passes, a catalog entry when it fails. */
  type Check = Result<Option<Code>, string>

  const KnownHts: set<string> := {"847150", "902710", "851762"}

  const ValidCountries: set<string> := {
    "US", "CN", "MX", "CA", "DE", "JP", "GB", "FR", "IT", "ES",
    "BR", "IN", "AU", "KR", "TW", "SG", "MY", "TH", "VN", "ID"}

  const WeightUnits: set<string> := {"KG", "LB", "LBS", "G", "OZ"}

  const Currencies: set<string> := {"USD", "EUR", "GBP", "CNY", "JPY", "CAD", "MXN"}

  /** `s.replace(/\./g, '')` */
  function RemoveDots(s: string): (r: string)
    ensures '.' !in r
    ensures |r| <= |s|
  {
    if s == [] then [] else (if s[0] == '.' then [] else [s[0]]) + RemoveDots(s[1..])
  }

  /** `/^\d{6,10}$/` */
  predicate HtsFormat(c: string) { 6 <= |c| <= 10 && AllDigits(c) }

  function CleanHts(s: string): string { Trim(RemoveDots(s)) }

  /** `!x || x.trim() === ''` for a value that is falsy or a string. */
  predicate Blank(v: Value) { !Truthy(v) || (v.Str? && Trim(v.s) == "") }

  function ValidateHts(code: Value): Check
  {
    if Blank(code) then Ok(Some(HtsRequired))
    else if !code.Str? then Err(TypeError)
    else
      var clean := CleanHts(code.s);
      if !HtsFormat(clean) then Ok(Some(HtsInvalidFormat))
      else if clean[..6] !in KnownHts then Ok(Some(HtsUnknown))
      else Ok(None)
  }

  lemma {:induction false} HtsOutcome(code: Value)
    ensures ValidateHts(code).Err? <==> Truthy(code) && !code.Str?
    ensures ValidateHts(code) == Ok(Some(HtsRequired)) <==> Blank(code)
    ensures ValidateHts(code) == Ok(Some(HtsInvalidFormat)) <==> !Blank(code) && code.Str? && !HtsFormat(CleanHts(code.s))
    ensures ValidateHts(code) == Ok(Some(HtsUnknown)) <==>
      !Blank(code) && code.Str? && HtsFormat(CleanHts(code.s)) && CleanHts(code.s)[..6] !in KnownHts
    ensures ValidateHts(code) == Ok(None) <==>
      !Blank(code) && code.Str? && HtsFormat(CleanHts(code.s)) && CleanHts(code.s)[..6] in KnownHts
  {
  }

  /** `/^[A-Z]{2}$/` */
  predicate CountryFormat(c: string) { |c| == 2 && IsUpperLetter(c[0]) && IsUpperLetter(c[1]) }

  function CleanCoo(s: string): string { Trim(Upper(s)) }

  function ValidateCoo(code: Value): Check
  {
    if Blank(code) then Ok(Some(CooRequired))
    else if !code.Str? then Err(TypeError)
    else
      var clean := CleanCoo(code.s);
      if !CountryFormat(clean) then Ok(Some(CooInvalidFormat))
      else if clean !in ValidCountries then Ok(Some(CooUnknown))
      else Ok(None)
  }

  lemma {:induction false} CooOutcome(code: Value)
    ensures ValidateCoo(code).Err? <==> Truthy(code) && !code.Str?
    ensures ValidateCoo(code) == Ok(Some(CooRequired)) <==> Blank(code)
    ensures ValidateCoo(code) == Ok(Some(CooInvalidFormat)) <==> !Blank(code) && code.Str? && !CountryFormat(CleanCoo(code.s))
    ensures ValidateCoo(code) == Ok(Some(CooUnknown)) <==>
      !Blank(code) && code.Str? && CountryFormat(CleanCoo(code.s)) && CleanCoo(code.s) !in ValidCountries
    ensures ValidateCoo(code) == Ok(None) <==>
      !Blank(code) && code.Str? && CountryFormat(CleanCoo(code.s)) && CleanCoo(code.s) in ValidCountries
  {
  }

  /** `!x && x !== 0`: only the number 0 among the falsy values is present. */
  predicate Missing(v: Value) { !Truthy(v) && !StrictEq(v, Num(0.0)) }

  /** `u && !list.includes(u.toUpperCase())`, with the TypeError a truthy
      non-string throws. */
  function UnitCheck(unit: Value, allowed: set<string>, failure: Code): Check {
    if !Truthy(unit) then Ok(None)
    else if !unit.Str? then Err(TypeError)
    else if Upper(unit.s) !in allowed then Ok(Some(failure))
    else Ok(None)
  }

  /** Present, a number, not negative and at most the bound. */
  predicate Plausible(x: Value, env: Env, bound: real) {
    !Missing(x) && ParseFloat(x, env).Some? && 0.0 <= ParseFloat(x, env).value <= bound
  }

  /** An absent unit passes; a string passes when its upper-case form is
      listed; anything else throws. */
  lemma {:induction false} UnitOutcome(unit: Value, allowed: set<string>, failure: Code)
    ensures UnitCheck(unit, allowed, failure).Err? <==> Truthy(unit) && !unit.Str?
    ensures UnitCheck(unit, allowed, failure) == Ok(None) <==> !Truthy(unit) || (unit.Str? && Upper(unit.s) in allowed)
    ensures UnitCheck(unit, allowed, failure).Ok? ==> UnitCheck(unit, allowed, failure).value in {None, Some(failure)}
  {
  }

  function ValidateWeight(weight: Value, unit: Value, env: Env): Check
  {
    if Missing(weight) then Ok(Some(WeightRequired))
    else
      var n := ParseFloat(weight, env);
      if n.None? || n.value < 0.0 then Ok(Some(WeightInvalid))
      else if n.value > 100000.0 then Ok(Some(WeightUnreasonable))
      else UnitCheck(unit, WeightUnits, WeightUnitInvalid)
  }

  lemma {:induction false} WeightOutcome(weight: Value, unit: Value, env: Env)
    ensures ValidateWeight(weight, unit, env) == Ok(Some(WeightRequired)) <==> Missing(weight)
    ensures ValidateWeight(weight, unit, env) == Ok(Some(WeightInvalid)) <==>
      !Missing(weight) && (ParseFloat(weight, env).None? || ParseFloat(weight, env).value < 0.0)
    ensures ValidateWeight(weight, unit, env) == Ok(Some(WeightUnreasonable)) <==>
      !Missing(weight) && ParseFloat(weight, env).Some? && ParseFloat(weight, env).value > 100000.0
    ensures Plausible(weight, env, 100000.0) ==> ValidateWeight(weight, unit, env) == UnitCheck(unit, WeightUnits, WeightUnitInvalid)
  {
  }

  function ValidateValue(value: Value, currency: Value, env: Env): Check
  {
    if Missing(value) then Ok(Some(ValueRequired))
    else
      var n := ParseFloat(value, env);
      if n.None? || n.value < 0.0 then Ok(Some(ValueInvalid))
      else if n.value > 10000000.0 then Ok(Some(ValueUnreasonable))
      else UnitCheck(currency, Currencies, CurrencyInvalid)
  }

  lemma {:induction false} ValueOutcome(value: Value, currency: Value, env: Env)
    ensures ValidateValue(value, currency, env) == Ok(Some(ValueRequired)) <==> Missing(value)
    ensures ValidateValue(value, currency, env) == Ok(Some(ValueInvalid)) <==>
      !Missing(value) && (ParseFloat(value, env).None? || ParseFloat(value, env).value < 0.0)
    ensures ValidateValue(value, currency, env) == Ok(Some(ValueUnreasonable)) <==>
      !Missing(value) && ParseFloat(value, env).Some? && ParseFloat(value, env).value > 10000000.0
    ensures Plausible(value, env, 10000000.0) ==> ValidateValue(value, currency, env) == UnitCheck(currency, Currencies, CurrencyInvalid)
  {
  }

  function ValidateDescription(description: Value): Check
  {
    if Blank(description) then Ok(Some(DescriptionRequired))
    else if !description.Str? then Err(TypeError)
    else if Utf16Length(description.s) < 3 then Ok(Some(DescriptionTooShort))
    else Ok(None)
  }

  lemma {:induction false} DescriptionOutcome(description: Value)
    ensures ValidateDescription(description).Err? <==> Truthy(description) && !description.Str?
    ensures ValidateDescription(description) == Ok(Some(DescriptionRequired)) <==> Blank(description)
    ensures ValidateDescription(description) == Ok(Some(DescriptionTooShort)) <==>
      !Blank(description) && description.Str? && Utf16Length(description.s) < 3
    ensures ValidateDescription(description) == Ok(None) <==>
      !Blank(description) && description.Str? && Utf16Length(description.s) >= 3
  {
  }

  /** The length is counted in UTF-16 units: an emoji and a letter make
      three, enough for a description. */
  lemma {:induction false} DescriptionCountsUnits(description: string)
    requires |description| == 2 && description[0] == '\U{1F600}' && description[1] == 'x'
    ensures ValidateDescription(Str(description)) == Ok(None)
  {
    assert description[..1][..0] == [];
    assert description[..1] == [description[0]];
    assert Utf16Length(description) == 3;
    NotBlankAt(description, 1);
  }

  /** `{...catalogEntry, lineIndex, field, value}` */
  datatype ValidationError = ValidationError(code: Code, lineIndex: nat, field: string, value: Value)

  /** The five checks of one line in the order they run: the field named in
      the error, the value checked, and the outcome (the weight and value
      checks also read the unit and currency beside them). */
  function LineChecks(line: Value, env: Env): seq<(string, Value, Check)> {
    [("htsCode", Get(line, "htsCode"), ValidateHts(Get(line, "htsCode"))),
     ("countryOfOrigin", Get(line, "countryOfOrigin"), ValidateCoo(Get(line, "countryOfOrigin"))),
     ("description", Get(line, "description"), ValidateDescription(Get(line, "description"))),
     ("netWeight", Get(line, "netWeight"), ValidateWeight(Get(line, "netWeight"), Get(line, "weightUnit"), env)),
     ("value", Get(line, "value"), ValidateValue(Get(line, "value"), Get(line, "currency"), env))]
  }

  /** `if (err) errors.push({...err, lineIndex, field, value})`, after a
      check that may have thrown. */
  function Push(acc: Result<seq<ValidationError>, string>, check: (string, Value, Check), index: nat)
    : Result<seq<ValidationError>, string>
  {
    match acc
    case Err(e) => Err(e)
    case Ok(errors) =>
      match check.2
      case Err(e) => Err(e)
      case Ok(None) => Ok(errors)
      case Ok(Some(code)) => Ok(errors + [ValidationError(code, index, check.0, check.1)])
  }

  /** The checks run one after the other. */
  function PushAll(acc: Result<seq<ValidationError>, string>, checks: seq<(string, Value, Check)>, index: nat)
    : Result<seq<ValidationError>, string>
    decreases |checks|
  {
    if checks == [] then acc else Push(PushAll(acc, checks[..|checks| - 1], index), checks[|checks| - 1], index)
  }

  /** The checks of a line, as a function of the line. */
  function Checker(env: Env): Value -> seq<(string, Value, Check)> {
    line => LineChecks(line, env)
  }

  /** One iteration of the forEach over the lines; reading a property of a
      null line throws. */
  function LineStep(acc: Result<seq<ValidationError>, string>, line: Value, index: nat,
                    checker: Value -> seq<(string, Value, Check)>)
    : Result<seq<ValidationError>, string>
  {
    if acc.Err? then acc
    else if line.Null? || line.Undefined? then Err(TypeError)
    else PushAll(acc, checker(line), index)
  }

  /** The line loop with checker giving the checks of each line. */
  function Scan(lines: seq<Value>, checker: Value -> seq<(string, Value, Check)>): Result<seq<ValidationError>, string>
    decreases |lines|
  {
    if lines == [] then Ok([])
    else LineStep(Scan(lines[..|lines| - 1], checker), lines[|lines| - 1], |lines| - 1, checker)
  }

  /** The error list of the line loop, or the exception that ended it. */
  function ComplianceErrors(lines: seq<Value>, env: Env): Result<seq<ValidationError>, string> {
    Scan(lines, Checker(env))
  }

  /** Once a line has thrown, the later lines are not looked at. */
  lemma {:induction false} ScanAbort(lines: seq<Value>, k: nat, checker: Value -> seq<(string, Value, Check)>)
    requires k <= |lines| && Scan(lines[..k], checker).Err?
    ensures Scan(lines, checker) == Scan(lines[..k], checker)
    decreases |lines| - k
  {
    if k < |lines| {
      assert lines[..k + 1][..k] == lines[..k];
      ScanAbort(lines, k + 1, checker);
    } else {
      assert lines[..k] == lines;
    }
  }

  /** Five checks pushed in a row. */
  lemma {:induction false} PushAllFive(acc: Result<seq<ValidationError>, string>, checks: seq<(string, Value, Check)>, index: nat)
    requires |checks| == 5
    ensures PushAll(acc, checks, index)
      == Push(Push(Push(Push(Push(acc, checks[0], index), checks[1], index), checks[2], index), checks[3], index), checks[4], index)
  {
    var p4, p3, p2, p1 := checks[..4], checks[..3], checks[..2], checks[..1];
    assert p4[..3] == p3 && p3[..2] == p2 && p2[..1] == p1 && p1[..0] == [];
    assert PushAll(acc, p1, index) == Push(acc, checks[0], index);
    assert PushAll(acc, p2, index) == Push(PushAll(acc, p1, index), checks[1], index);
    assert PushAll(acc, p3, index) == Push(PushAll(acc, p2, index), checks[2], index);
    assert PushAll(acc, p4, index) == Push(PushAll(acc, p3, index), checks[3], index);
  }

  /** validateCompliance's loop over the document lines (the shipment-date
      check that follows it reads the clock and is left out). */
  method ValidateCompliance(lines: seq<Value>, env: Env) returns (r: Result<seq<ValidationError>, string>)
    ensures r == ComplianceErrors(lines, env)
  {
    var errors: seq<ValidationError> := [];
    var index := 0;
    while index < |lines|
      invariant 0 <= index <= |lines|
      invariant ComplianceErrors(lines[..index], env) == Ok(errors)
    {
      var line := lines[index];
      assert lines[..index + 1][..index] == lines[..index];
      assert lines[..index + 1][index] == line;
      if line.Null? || line.Undefined? {
        r := Err(TypeError);
        ScanAbort(lines, index + 1, Checker(env));
        return;
      }
      ghost var checks := LineChecks(line, env);
      PushAllFive(Ok(errors), checks, index);
      var hts := Get(line, "htsCode");
      var htsError := ValidateHts(hts);
      ghost var a1 := Push(Ok(errors), checks[0], index);
      if htsError.Err? {
        r := Err(htsError.error);
        ScanAbort(lines, index + 1, Checker(env));
        return;
      }
      if htsError.value.Some? {
        errors := errors + [ValidationError(htsError.value.value, index, "htsCode", hts)];
      }
      assert a1 == Ok(errors);
      var coo := Get(line, "countryOfOrigin");
      var cooError := ValidateCoo(coo);
      ghost var a2 := Push(a1, checks[1], index);
      if cooError.Err? {
        r := Err(cooError.error);
        ScanAbort(lines, index + 1, Checker(env));
        return;
      }
      if cooError.value.Some? {
        errors := errors + [ValidationError(cooError.value.value, index, "countryOfOrigin", coo)];
      }
      assert a2 == Ok(errors);
      var description := Get(line, "description");
      var descError := ValidateDescription(description);
      ghost var a3 := Push(a2, checks[2], index);
      if descError.Err? {
        r := Err(descError.error);
        ScanAbort(lines, index + 1, Checker(env));
        return;
      }
      if descError.value.Some? {
        errors := errors + [ValidationError(descError.value.value, index, "description", description)];
      }
      assert a3 == Ok(errors);
      var weight := Get(line, "netWeight");
      var weightError := ValidateWeight(weight, Get(line, "weightUnit"), env);
      ghost var a4 := Push(a3, checks[3], index);
      if weightError.Err? {
        r := Err(weightError.error);
        ScanAbort(lines, index + 1, Checker(env));
        return;
      }
      if weightError.value.Some? {
        errors := errors + [ValidationError(weightError.value.value, index, "netWeight", weight)];
      }
      assert a4 == Ok(errors);
      var value := Get(line, "value");
      var valueError := ValidateValue(value, Get(line, "currency"), env);
      ghost var a5 := Push(a4, checks[4], index);
      if valueError.Err? {
        r := Err(valueError.error);
        ScanAbort(lines, index + 1, Checker(env));
        return;
      }
      if valueError.value.Some? {
        errors := errors + [ValidationError(valueError.value.value, index, "value", value)];
      }
      assert a5 == Ok(errors);
      index := index + 1;
    }
    assert lines[..index] == lines;
    r := Ok(errors);
  }

  /** Pushing checks throws exactly when one of them threw, and otherwise
      adds exactly the errors they raised, tagged with the line index. */
  lemma {:induction false} PushAllSpec(acc: seq<ValidationError>, checks: seq<(string, Value, Check)>, index: nat)
    ensures PushAll(Ok(acc), checks, index).Ok? <==> forall i :: 0 <= i < |checks| ==> checks[i].2.Ok?
    ensures PushAll(Ok(acc), checks, index).Ok? ==> forall e :: e in PushAll(Ok(acc), checks, index).value <==>
      e in acc || (e.lineIndex == index && (e.field, e.value, Ok(Some(e.code))) in checks)
    decreases |checks|
  {
    if checks != [] {
      var pre := checks[..|checks| - 1];
      PushAllSpec(acc, pre, index);
      assert forall i :: 0 <= i < |pre| ==> pre[i] == checks[i];
      assert checks == pre + [checks[|checks| - 1]];
    }
  }

  /** Neither reading the line nor any of its checks throws. */
  predicate StepOk(line: Value, checks: seq<(string, Value, Check)>) {
    !(line.Null? || line.Undefined?) && forall i :: 0 <= i < |checks| ==> checks[i].2.Ok?
  }

  /** No check of the line throws. */
  predicate LineOk(line: Value, env: Env) {
    StepOk(line, LineChecks(line, env))
  }

  /** A value a string method can be called on, or one that is never
      called on because it is falsy. */
  predicate TextOrFalsy(v: Value) { v.Str? || !Truthy(v) }

  /** The checks throw only on a truthy non-string code, country,
      description, unit or currency. */
  lemma {:induction false} LineNeverThrows(line: Value, env: Env)
    requires line.Obj?
    requires TextOrFalsy(Get(line, "htsCode")) && TextOrFalsy(Get(line, "countryOfOrigin"))
    requires TextOrFalsy(Get(line, "description"))
    requires TextOrFalsy(Get(line, "weightUnit")) && TextOrFalsy(Get(line, "currency"))
    ensures LineOk(line, env)
  {
    var checks := LineChecks(line, env);
    assert ValidateHts(Get(line, "htsCode")).Ok? by { HtsOutcome(Get(line, "htsCode")); }
    assert ValidateCoo(Get(line, "countryOfOrigin")).Ok? by { CooOutcome(Get(line, "countryOfOrigin")); }
    assert ValidateDescription(Get(line, "description")).Ok? by { DescriptionOutcome(Get(line, "description")); }
    assert ValidateWeight(Get(line, "netWeight"), Get(line, "weightUnit"), env).Ok? by {
      UnitOutcome(Get(line, "weightUnit"), WeightUnits, WeightUnitInvalid);
    }
    assert ValidateValue(Get(line, "value"), Get(line, "currency"), env).Ok? by {
      UnitOutcome(Get(line, "currency"), Currencies, CurrencyInvalid);
    }
    forall i | 0 <= i < |checks| ensures checks[i].2.Ok? {
      if i == 0 {
      } else if i == 1 {
      } else if i == 2 {
      } else if i == 3 {
      } else {
        assert i == 4;
      }
    }
  }

  /** The loop completes exactly when no line throws. */
  lemma {:induction false} ScanThrows(lines: seq<Value>, checker: Value -> seq<(string, Value, Check)>)
    ensures Scan(lines, checker).Ok? <==> forall i :: 0 <= i < |lines| ==> StepOk(lines[i], checker(lines[i]))
    decreases |lines|
  {
    if lines != [] {
      var pre := lines[..|lines| - 1];
      ScanThrows(pre, checker);
      assert forall i :: 0 <= i < |pre| ==> pre[i] == lines[i];
      var last := lines[|lines| - 1];
      if Scan(pre, checker).Ok? && !(last.Null? || last.Undefined?) {
        PushAllSpec(Scan(pre, checker).value, checker(last), |lines| - 1);
      }
    }
  }

  /** When the loop completes, an error is reported exactly when one of the
      checks of its line raised it for its field and value. */
  lemma {:induction false} ScanReports(lines: seq<Value>, checker: Value -> seq<(string, Value, Check)>)
    requires Scan(lines, checker).Ok?
    ensures forall e :: e in Scan(lines, checker).value <==>
      e.lineIndex < |lines| && (e.field, e.value, Ok(Some(e.code))) in checker(lines[e.lineIndex])
    decreases |lines|
  {
    if lines != [] {
      var pre := lines[..|lines| - 1];
      var last := lines[|lines| - 1];
      assert Scan(pre, checker).Ok?;
      ScanReports(pre, checker);
      assert forall i :: 0 <= i < |pre| ==> pre[i] == lines[i];
      PushAllSpec(Scan(pre, checker).value, checker(last), |lines| - 1);
    }
  }

  /** validateCompliance completes exactly when no line throws. */
  lemma {:induction false} ComplianceThrows(lines: seq<Value>, env: Env)
    ensures ComplianceErrors(lines, env).Ok? <==> forall i :: 0 <= i < |lines| ==> LineOk(lines[i], env)
  {
    ScanThrows(lines, Checker(env));
  }

  /** When validateCompliance completes, an error is reported exactly when
      one of the checks of its line raised it for its field and value. */
  lemma {:induction false} ComplianceReports(lines: seq<Value>, env: Env)
    requires ComplianceErrors(lines, env).Ok?
    ensures forall e :: e in ComplianceErrors(lines, env).value <==>
      e.lineIndex < |lines| && (e.field, e.value, Ok(Some(e.code))) in LineChecks(lines[e.lineIndex], env)
  {
    ScanReports(lines, Checker(env));
  }

  /** The five checks name five different fields. */
  lemma {:induction false} LineChecksFields(line: Value, env: Env, m: nat, k: nat)
    requires m < 5 && k < 5 && LineChecks(line, env)[m].0 == LineChecks(line, env)[k].0
    ensures m == k
  {
  }

  /** When the loop completes, a field of a line is reported exactly when
      its check raised an error. */
  lemma {:induction false} FieldReported(lines: seq<Value>, env: Env, i: nat, k: nat)
    requires ComplianceErrors(lines, env).Ok? && i < |lines| && k < 5
    ensures (exists e :: e in ComplianceErrors(lines, env).value && e.lineIndex == i && e.field == LineChecks(lines[i], env)[k].0)
      <==> LineChecks(lines[i], env)[k].2.Ok? && LineChecks(lines[i], env)[k].2.value.Some?
  {
    ComplianceReports(lines, env);
    var report := ComplianceErrors(lines, env).value;
    var checks := LineChecks(lines[i], env);
    if checks[k].2.Ok? && checks[k].2.value.Some? {
      var e := ValidationError(checks[k].2.value.value, i, checks[k].0, checks[k].1);
      assert checks[k] == (e.field, e.value, Ok(Some(e.code)));
      assert e in report;
    } else {
      forall e | e in report && e.lineIndex == i ensures e.field != checks[k].0 {
        var t := (e.field, e.value, Ok(Some(e.code)));
        assert t in checks;
        var m :| 0 <= m < 5 && checks[m] == t;
        if e.field == checks[k].0 {
          LineChecksFields(lines[i], env, m, k);
        }
      }
    }
  }

  /** A line every field of which passes its validator. */
  predicate ValidLine(line: Value, env: Env) {
    line.Obj? && forall i :: 0 <= i < 5 ==> LineChecks(line, env)[i].2 == Ok(None)
  }

  /** Appending a valid line to a document adds no error. */
  lemma {:induction false} ValidLineAddsNothing(lines: seq<Value>, line: Value, env: Env)
    requires ValidLine(line, env)
    ensures ComplianceErrors(lines + [line], env) == ComplianceErrors(lines, env)
  {
    assert (lines + [line])[..|lines|] == lines;
    if ComplianceErrors(lines, env).Ok? {
      var checks := LineChecks(line, env);
      PushAllFive(ComplianceErrors(lines, env), checks, |lines|);
      assert checks[0].2 == Ok(None) && checks[1].2 == Ok(None) && checks[2].2 == Ok(None);
      assert checks[3].2 == Ok(None) && checks[4].2 == Ok(None);
    }
  }

  lemma {:induction false} TrimUnchanged(s: string)
    requires s != [] && !IsSpace(s[0]) && !IsSpace(s[|s| - 1])
    ensures Trim(s) == s
  {
    assert TrimStart(s) == s;
  }

  lemma {:induction false} RemoveDotsAppend(a: string, b: string)
    ensures RemoveDots(a + b) == RemoveDots(a) + RemoveDots(b)
  {
    if a != [] {
      assert (a + b)[0] == a[0] && (a + b)[1..] == a[1..] + b;
      RemoveDotsAppend(a[1..], b);
      var head := if a[0] == '.' then [] else [a[0]];
      assert RemoveDots(a + b) == head + (RemoveDots(a[1..]) + RemoveDots(b));
      assert RemoveDots(a) == head + RemoveDots(a[1..]);
    } else {
      assert a + b == b;
    }
  }

  lemma {:induction false} RemoveDotsNone(s: string)
    requires forall i :: 0 <= i < |s| ==> s[i] != '.'
    ensures RemoveDots(s) == s
  {
    if s != [] {
      RemoveDotsNone(s[1..]);
    }
  }

  /** A digit string of acceptable length needs no cleaning. */
  lemma {:induction false} CleanDigits(s: string)
    requires HtsFormat(s)
    ensures CleanHts(s) == s
  {
    RemoveDotsNone(s);
    assert IsDigit(s[0]) && IsDigit(s[|s| - 1]);
    TrimUnchanged(s);
  }

  /** Trimming cannot remove a character that is not white space. */
  lemma {:induction false} TrimStartKeeps(s: string, i: nat)
    requires i < |s| && !IsSpace(s[i])
    ensures |TrimStart(s)| >= |s| - i
  {
    if i > 0 && IsSpace(s[0]) {
      TrimStartKeeps(s[1..], i - 1);
    }
  }

  lemma {:induction false} TrimEndKeeps(s: string, i: nat)
    requires i < |s| && !IsSpace(s[i])
    ensures |TrimEnd(s)| > i
  {
    if i < |s| - 1 && IsSpace(s[|s| - 1]) {
      TrimEndKeeps(s[..|s| - 1], i);
    }
  }

  lemma {:induction false} TrimNotEmpty(s: string, i: nat)
    requires i < |s| && !IsSpace(s[i])
    ensures Trim(s) != ""
  {
    TrimStartKeeps(s, i);
    TrimStartSuffix(s);
    var t := TrimStart(s);
    assert t[i - (|s| - |t|)] == s[i];
    TrimEndKeeps(t, i - (|s| - |t|));
  }

  /** A string with a character that is not white space is not blank. */
  lemma {:induction false} NotBlankAt(s: string, i: nat)
    requires i < |s| && !IsSpace(s[i])
    ensures !Blank(Str(s))
  {
    TrimNotEmpty(s, i);
  }

  /** A well-formed code under a known heading passes. */
  lemma {:induction false} HtsKnownHeadingPasses(s: string)
    requires HtsFormat(s) && s[..6] in KnownHts
    ensures ValidateHts(Str(s)) == Ok(None)
  {
    CleanDigits(s);
    TrimUnchanged(s);
  }

  /** A well-formed code under a heading that is not listed is unknown. */
  lemma {:induction false} HtsUnknownHeading(s: string)
    requires HtsFormat(s) && s[..6] !in KnownHts
    ensures ValidateHts(Str(s)) == Ok(Some(HtsUnknown))
  {
    CleanDigits(s);
  }

  /** The HTS check sees only whether the code is blank and its cleaned form. */
  lemma {:induction false} HtsSeesCleanForm(x: string, y: string)
    requires Blank(Str(x)) == Blank(Str(y)) && CleanHts(x) == CleanHts(y)
    ensures ValidateHts(Str(x)) == ValidateHts(Str(y))
  {
  }

  lemma {:induction false} RemoveDotsSkipsDot(a: string, b: string)
    ensures RemoveDots(a + "." + b) == RemoveDots(a + b)
  {
    RemoveDotsAppend(a + ".", b);
    assert RemoveDots(a + ".") == RemoveDots(a) by {
      RemoveDotsAppend(a, ".");
      assert RemoveDots(".") == "";
    }
    RemoveDotsAppend(a, b);
  }

  lemma {:induction false} DottedNotBlank(a: string, b: string)
    ensures Trim(a + "." + b) != ""
  {
    var dotted := a + "." + b;
    assert dotted[|a|] == '.';
    TrimNotEmpty(dotted, |a|);
  }

  /** Dots are ignored: a dotted code is judged as the code without them. */
  lemma {:induction false} HtsDotsIgnored(a: string, b: string)
    requires Trim(a + b) != ""
    ensures ValidateHts(Str(a + "." + b)) == ValidateHts(Str(a + b))
  {
    RemoveDotsSkipsDot(a, b);
    DottedNotBlank(a, b);
    HtsSeesCleanForm(a + "." + b, a + b);
  }

  /** A known heading passes (legacy/services/ingestion/tests/validation.test.js:8-9). */
  lemma {:induction false} HtsKnownPasses(s: string)
    requires s == "847150"
    ensures ValidateHts(Str(s)) == Ok(None)
  {
    assert HtsFormat(s) by { assert AllDigits(s); }
    assert s[..6] == s;
    HtsKnownHeadingPasses(s);
  }

  /** The same heading written with its dot passes (validation.test.js:10). */
  lemma {:induction false} HtsDottedPasses(a: string, b: string)
    requires a == "8471" && b == "50"
    ensures ValidateHts(Str(a + "." + b)) == Ok(None)
  {
    HtsKnownPasses(a + b);
    TrimNotEmpty(a + b, 0);
    HtsDotsIgnored(a, b);
  }

  /** An empty HTS code is missing (validation.test.js:13-16). */
  lemma {:induction false} HtsEmptyRequired(s: string)
    requires s == ""
    ensures ValidateHts(Str(s)) == Ok(Some(HtsRequired))
  {
  }

  /** A three-digit code is malformed (validation.test.js:18-21). */
  lemma {:induction false} HtsShortMalformed(s: string)
    requires s == "123"
    ensures ValidateHts(Str(s)) == Ok(Some(HtsInvalidFormat))
  {
    TrimUnchanged(s);
    RemoveDotsNone(s);
  }

  /** A well-formed code outside the known headings is unknown
      (validation.test.js:23-26). */
  lemma {:induction false} HtsUnlistedUnknown(s: string)
    requires s == "123456"
    ensures ValidateHts(Str(s)) == Ok(Some(HtsUnknown))
  {
    assert HtsFormat(s) by { assert AllDigits(s); }
    assert s[..6] == s;
    HtsUnknownHeading(s);
  }

  lemma {:induction false} UpperOfUpper(s: string)
    requires forall i :: 0 <= i < |s| ==> !IsLowerLetter(s[i])
    ensures Upper(s) == s
  {
  }

  /** Every listed country is two upper-case letters. */
  lemma {:induction false} ListedCountryFormat(c: string)
    requires c in ValidCountries
    ensures CountryFormat(c)
  {
  }

  /** The country check sees only whether the code is blank and its
      cleaned form. */
  lemma {:induction false} CooSeesCleanForm(x: string, y: string)
    requires Blank(Str(x)) == Blank(Str(y)) && CleanCoo(x) == CleanCoo(y)
    ensures ValidateCoo(Str(x)) == ValidateCoo(Str(y))
  {
  }

  lemma {:induction false} CleanListedCountry(s: string)
    requires CountryFormat(Upper(s))
    ensures CleanCoo(s) == Upper(s)
  {
    TrimUnchanged(Upper(s));
  }

  /** A code that is not blank and cleans to a listed country passes. */
  lemma {:induction false} CooCleanListedPasses(s: string)
    requires !Blank(Str(s)) && CleanCoo(s) in ValidCountries
    ensures ValidateCoo(Str(s)) == Ok(None)
  {
    ListedCountryFormat(CleanCoo(s));
  }

  /** A listed country passes in upper case (validation.test.js:30-32). */
  lemma {:induction false} CooUpperPasses(s: string)
    requires |s| == 2 && s[0] == 'U' && s[1] == 'S'
    ensures ValidateCoo(Str(s)) == Ok(None)
  {
    assert !Blank(Str(s)) && CleanCoo(s) in ValidCountries by {
      assert Upper(s) == "US";
      CleanListedCountry(s);
      NotBlankAt(s, 0);
    }
    CooCleanListedPasses(s);
  }

  /** ... and in lower case (validation.test.js:33). */
  lemma {:induction false} CooLowerPasses(s: string)
    requires s == "cn"
    ensures ValidateCoo(Str(s)) == Ok(None)
  {
    assert !Blank(Str(s)) && CleanCoo(s) in ValidCountries by {
      assert Upper(s) == "CN";
      CleanListedCountry(s);
      NotBlankAt(s, 0);
    }
    CooCleanListedPasses(s);
  }

  /** Empty, three-letter and unlisted codes fail (validation.test.js:35-48). */
  lemma {:induction false} CooFailures(s: string)
    requires s == "" || s == "USA" || s == "XX"
    ensures ValidateCoo(Str(s)) == (if s == "" then Ok(Some(CooRequired))
      else if s == "USA" then Ok(Some(CooInvalidFormat)) else Ok(Some(CooUnknown)))
  {
    if s == "USA" {
      UpperOfUpper(s);
      TrimUnchanged(s);
      assert CleanCoo(s) == "USA";
    } else if s == "XX" {
      UpperOfUpper(s);
      TrimUnchanged(s);
      assert CleanCoo(s) == "XX";
    }
  }

  /** Zero passes the presence test, null does not, and a negative or
      unparsable weight is invalid (validation.test.js:52-65). */
  lemma {:induction false} WeightExamples(env: Env, kg: string, lb: string, stone: string)
    requires kg == "KG" && lb == "LB" && stone == "stone"
    ensures ValidateWeight(Num(100.0), Str(kg), env) == Ok(None)
    ensures ValidateWeight(Num(0.0), Str(lb), env) == Ok(None)
    ensures ValidateWeight(Null, Undefined, env) == Ok(Some(WeightRequired))
    ensures ValidateWeight(Num(-5.0), Undefined, env) == Ok(Some(WeightInvalid))
    ensures ValidateWeight(NaN, Undefined, env) == Ok(Some(WeightRequired))
    ensures ValidateWeight(Num(100.0), Str(stone), env) == Ok(Some(WeightUnitInvalid))
  {
    WeightUnitExamples(env, kg, lb, stone);
    WeightValueExamples(env);
  }

  lemma {:induction false} WeightUnitExamples(env: Env, kg: string, lb: string, stone: string)
    requires kg == "KG" && lb == "LB" && stone == "stone"
    ensures ValidateWeight(Num(100.0), Str(kg), env) == Ok(None)
    ensures ValidateWeight(Num(0.0), Str(lb), env) == Ok(None)
    ensures ValidateWeight(Num(100.0), Str(stone), env) == Ok(Some(WeightUnitInvalid))
  {
    UpperOfUpper(kg);
    UpperOfUpper(lb);
    assert Upper(stone) == "STONE";
  }

  lemma {:induction false} WeightValueExamples(env: Env)
    ensures ValidateWeight(Null, Undefined, env) == Ok(Some(WeightRequired))
    ensures ValidateWeight(Num(-5.0), Undefined, env) == Ok(Some(WeightInvalid))
    ensures ValidateWeight(NaN, Undefined, env) == Ok(Some(WeightRequired))
  {
  }
}
