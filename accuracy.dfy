// `compareDocs` of legacy/services/ingestion/scripts/report_accuracy.js:
// the field-by-field comparison of a parsed document against its golden
// expectation. Reading the golden files and printing the report are left
// out. Documents are parsed JSON, so their objects have distinct keys.

module Accuracy {
  import opened Wrappers
  import opened Json

  /** The expected document: header and checksum objects, and the
      expected lines as objects. The golden files are taken to have this
      shape: in JavaScript `Object.keys` throws on a missing header or
      checksum object, and lists the indices of an expected line that is a
      string, which this type does not represent. Likewise the actual
      header and checksums are objects here. */
  datatype Expected = Expected(header: seq<Member>, lines: seq<seq<Member>>, checksums: seq<Member>)

  /** The parsed document; its lines may be any value (or missing). */
  datatype Actual = Actual(header: seq<Member>, lines: seq<Value>, checksums: seq<Member>)

  /** `result.lines[idx]`: false for a missing line, else per-field flags. */
  datatype LineResult = MissingLine | Fields(fields: seq<Member>)

  datatype Comparison = Comparison(header: seq<Member>, lines: seq<LineResult>, checksums: seq<Member>)

  const Tolerance: real := 0.000001

  /** `obj[key] = check(key)` for the first n keys, in order (a key
      `__proto__` makes no own property). */
  function Flags(keys: seq<string>, n: nat, check: string -> bool): seq<Member>
    requires n <= |keys|
  {
    if n == 0 then [] else PutMember(Flags(keys, n - 1, check), keys[n - 1], Bool(check(keys[n - 1])))
  }

  /** The flags hold exactly the keys visited other than `__proto__`, each
      with its check. */
  lemma {:induction false} FlagsLookup(keys: seq<string>, n: nat, check: string -> bool, k: string)
    requires n <= |keys|
    ensures Lookup(Flags(keys, n, check), k) == if k in keys[..n] && k != "__proto__" then Some(Bool(check(k))) else None
  {
    if n > 0 {
      FlagsLookup(keys, n - 1, check, k);
      if keys[n - 1] != "__proto__" {
        SetMemberLookup(Flags(keys, n - 1, check), keys[n - 1], Bool(check(keys[n - 1])), k);
      }
      assert keys[..n] == keys[..n - 1] + [keys[n - 1]];
    }
  }

  /** `expected[key] === actual[key]` */
  function SameField(expected: Value, actual: Value): string -> bool {
    key => StrictEq(Get(expected, key), Get(actual, key))
  }

  /** `Math.abs(Number(e) - Number(a)) < 1e-6`, false when either is NaN. */
  function CloseEnough(expected: seq<Member>, actual: seq<Member>, env: Env): string -> bool {
    key =>
      var e := ToNumber(Get(Obj(expected), key), env);
      var a := ToNumber(Get(Obj(actual), key), env);
      e.Some? && a.Some? && (if e.value >= a.value then e.value - a.value else a.value - e.value) < Tolerance
  }


  function CompareLine(line: seq<Member>, actualLine: Value): LineResult {
    if !Truthy(actualLine) then MissingLine
    else Fields(Flags(KeysOf(line), |line|, SameField(Obj(line), actualLine)))
  }

  function ActualLine(actual: Actual, idx: nat): Value {
    if idx < |actual.lines| then actual.lines[idx] else Undefined
  }

  function CompareLines(expected: Expected, actual: Actual, n: nat): (rs: seq<LineResult>)
    requires n <= |expected.lines|
    ensures |rs| == n
    ensures forall i :: 0 <= i < n ==> rs[i] == CompareLine(expected.lines[i], ActualLine(actual, i))
  {
    if n == 0 then []
    else CompareLines(expected, actual, n - 1) + [CompareLine(expected.lines[n - 1], ActualLine(actual, n - 1))]
  }

  /** The loop filling `obj[key] = expected[key] === actual[key]` over the
      expected object's keys, used for the header and for each line. */
  method CompareFields(expected: seq<Member>, actual: Value) returns (flags: seq<Member>)
    ensures flags == Flags(KeysOf(expected), |expected|, SameField(Obj(expected), actual))
  {
    flags := [];
    var keys := KeysOf(expected);
    for i := 0 to |keys|
      invariant flags == Flags(keys, i, SameField(Obj(expected), actual))
    {
      var key := keys[i];
      flags := PutMember(flags, key, Bool(StrictEq(Get(Obj(expected), key), Get(actual, key))));
    }
  }

  /** The checksum loop: `Math.abs(Number(e) - Number(a)) < 1e-6`. */
  method CompareChecksums(expected: seq<Member>, actual: seq<Member>, env: Env) returns (flags: seq<Member>)
    ensures flags == Flags(KeysOf(expected), |expected|, CloseEnough(expected, actual, env))
  {
    flags := [];
    var keys := KeysOf(expected);
    for k := 0 to |keys|
      invariant flags == Flags(keys, k, CloseEnough(expected, actual, env))
    {
      var key := keys[k];
      var e := ToNumber(Get(Obj(expected), key), env);
      var a := ToNumber(Get(Obj(actual), key), env);
      var equal := e.Some? && a.Some? && (if e.value >= a.value then e.value - a.value else a.value - e.value) < Tolerance;
      flags := PutMember(flags, key, Bool(equal));
    }
  }

  /** `compareDocs` */
  method CompareDocs(expected: Expected, actual: Actual, env: Env) returns (result: Comparison)
    ensures result.header == Flags(KeysOf(expected.header), |expected.header|, SameField(Obj(expected.header), Obj(actual.header)))
    ensures result.lines == CompareLines(expected, actual, |expected.lines|)
    ensures result.checksums == Flags(KeysOf(expected.checksums), |expected.checksums|, CloseEnough(expected.checksums, actual.checksums, env))
  {
    var header := CompareFields(expected.header, Obj(actual.header));
    var lines: seq<LineResult> := [];
    for idx := 0 to |expected.lines|
      invariant lines == CompareLines(expected, actual, idx)
    {
      var actualLine := if idx < |actual.lines| then actual.lines[idx] else Undefined;
      if !Truthy(actualLine) {
        lines := lines + [MissingLine];
      } else {
        var fields := CompareFields(expected.lines[idx], actualLine);
        lines := lines + [Fields(fields)];
      }
    }
    var checksums := CompareChecksums(expected.checksums, actual.checksums, env);
    result := Comparison(header, lines, checksums);
  }

  /** The header result covers exactly the expected header's keys but
      `__proto__`, each
      flagged by strict equality with the actual header; extra actual
      fields are ignored. */
  lemma {:induction false} HeaderSpec(expected: Expected, actual: Actual, k: string)
    ensures Lookup(Flags(KeysOf(expected.header), |expected.header|, SameField(Obj(expected.header), Obj(actual.header))), k)
      == if k in KeysOf(expected.header) && k != "__proto__" then Some(Bool(StrictEq(Get(Obj(expected.header), k), Get(Obj(actual.header), k)))) else None
  {
    FlagsLookup(KeysOf(expected.header), |expected.header|, SameField(Obj(expected.header), Obj(actual.header)), k);
    assert KeysOf(expected.header)[..|expected.header|] == KeysOf(expected.header);
  }

  /** One result per expected line: false where the actual line is missing
      or falsy, otherwise flags for exactly the expected line's fields but
      `__proto__`. */
  lemma {:induction false} LinesSpec(expected: Expected, actual: Actual, i: nat, field: string)
    requires i < |expected.lines|
    ensures var r := CompareLines(expected, actual, |expected.lines|)[i];
      && (r.MissingLine? <==> i >= |actual.lines| || !Truthy(actual.lines[i]))
      && (r.Fields? ==>
            Lookup(r.fields, field) ==
              (if field in KeysOf(expected.lines[i]) && field != "__proto__" then
                 Some(Bool(StrictEq(Get(Obj(expected.lines[i]), field), Get(actual.lines[i], field))))
               else None))
  {
    var line := expected.lines[i];
    var actualLine := ActualLine(actual, i);
    if Truthy(actualLine) {
      FlagsLookup(KeysOf(line), |line|, SameField(Obj(line), actualLine), field);
      assert KeysOf(line)[..|line|] == KeysOf(line);
    }
  }

  /** A checksum matches when both sides convert to numbers within 1e-6 of
      each other; a side that is not a number never matches. */
  lemma {:induction false} ChecksumSpec(expected: Expected, actual: Actual, env: Env, k: string)
    requires k in KeysOf(expected.checksums)
    ensures var e := ToNumber(Get(Obj(expected.checksums), k), env);
      var a := ToNumber(Get(Obj(actual.checksums), k), env);
      Lookup(Flags(KeysOf(expected.checksums), |expected.checksums|, CloseEnough(expected.checksums, actual.checksums, env)), k)
        == if k == "__proto__" then None else Some(Bool(e.Some? && a.Some? && -Tolerance < e.value - a.value < Tolerance))
  {
    FlagsLookup(KeysOf(expected.checksums), |expected.checksums|, CloseEnough(expected.checksums, actual.checksums, env), k);
    assert KeysOf(expected.checksums)[..|expected.checksums|] == KeysOf(expected.checksums);
  }

  /** A missing checksum on the actual side is NaN and never matches. */
  lemma {:induction false} MissingChecksum(expected: Expected, actual: Actual, env: Env, k: string)
    requires k in KeysOf(expected.checksums) && Lookup(actual.checksums, k).None?
    ensures Lookup(Flags(KeysOf(expected.checksums), |expected.checksums|, CloseEnough(expected.checksums, actual.checksums, env)), k)
      == if k == "__proto__" then None else Some(Bool(false))
  {
    ChecksumSpec(expected, actual, env, k);
  }
}
