// The naive CSV reader `ImportService.parseCsvSimple` of
// apps/api/src/modules/import/service.ts and the part of `processCsv` that
// runs before the database: the "Empty CSV" guard, the header mapping built
// from the first record's keys and the per-row transform. Records are
// member lists with string values, in insertion order.

module CsvImport {
  import opened Wrappers
  import opened Text
  import opened Json
  import opened Seqs
  import SemanticMapper

  const EmptyCsv := "Empty CSV"

  /** One piece of `text.split(/\r?\n/)`: a line split on "\n" loses the
      "\r" that preceded the "\n". */
  function StripCr(line: string): (r: string)
    ensures r == line || (line == r + ['\r'])
  {
    if line != [] && line[|line| - 1] == '\r' then line[..|line| - 1] else line
  }

  predicate Blank(line: string) { |Trim(line)| == 0 }

  /** `.filter(l => l.trim().length > 0)` */
  function NonBlank(lines: seq<string>): (r: seq<string>)
    ensures |r| <= |lines|
    ensures forall i :: 0 <= i < |r| ==> !Blank(r[i]) && r[i] in lines
    ensures forall l :: l in lines && !Blank(l) ==> l in r
    decreases |lines|
  {
    if lines == [] then []
    else
      var rest := NonBlank(lines[..|lines| - 1]);
      var last := lines[|lines| - 1];
      assert forall l :: l in lines ==> l in lines[..|lines| - 1] || l == last;
      if Blank(last) then rest else rest + [last]
  }

  function Lines(text: string): seq<string> {
    NonBlank(MapSeq(StripCr, Split(text, '\n')))
  }

  /** `.replace(/^"|"$/g, '')`: one quote comes off each end. */
  function Unquote(s: string): (r: string)
    ensures |r| <= |s|
  {
    var a := if s != [] && s[0] == '"' then s[1..] else s;
    if a != [] && a[|a| - 1] == '"' then a[..|a| - 1] else a
  }

  /** `.trim().replace(/^"|"$/g, '')` */
  function Clean(field: string): string { Unquote(Trim(field)) }

  /** The cells of a line: every comma separates. */
  function Cells(line: string): (r: seq<string>)
    ensures |r| == |Split(line, ',')|
  {
    MapSeq(Clean, Split(line, ','))
  }

  /** `values[index] || ''` */
  function Cell(values: seq<string>, index: nat): string {
    if index < |values| && values[index] != "" then values[index] else ""
  }

  /** `obj[h] = value`: assigning a string to `__proto__` does nothing. */
  function Assign(obj: seq<Member>, h: string, value: string): seq<Member> {
    if h == "__proto__" then obj else SetMember(obj, h, Str(value))
  }

  /** The record after the first n headers. */
  function RecordUpTo(headers: seq<string>, values: seq<string>, n: nat): seq<Member>
    requires n <= |headers|
  {
    if n == 0 then [] else Assign(RecordUpTo(headers, values, n - 1), headers[n - 1], Cell(values, n - 1))
  }

  function Record(headers: seq<string>, line: string): seq<Member> {
    RecordUpTo(headers, Cells(line), |headers|)
  }

  /** What `parseCsvSimple` returns. */
  function Parse(text: string): seq<seq<Member>> {
    var lines := Lines(text);
    if |lines| < 2 then []
    else
      var headers := Cells(lines[0]);
      MapSeq((line: string) => Record(headers, line), lines[1..])
  }

  /** `parseCsvSimple`, with its loops over lines and over headers. */
  method ParseCsvSimple(text: string) returns (result: seq<seq<Member>>)
    ensures result == Parse(text)
  {
    var lines := Lines(text);
    if |lines| < 2 {
      return [];
    }
    var headers := Cells(lines[0]);
    ghost var rec := (line: string) => Record(headers, line);
    result := [];
    for i := 1 to |lines|
      invariant result == MapSeq(rec, lines[1..][..i - 1])
    {
      var values := Cells(lines[i]);
      var obj := [];
      for h := 0 to |headers|
        invariant obj == RecordUpTo(headers, values, h)
      {
        obj := Assign(obj, headers[h], Cell(values, h));
      }
      MapSeqPrefix(rec, lines[1..], i - 1);
      result := result + [obj];
    }
    assert lines[1..][..|lines| - 1] == lines[1..];
  }

  /** One record per data line after the header, none for fewer than two
      non-blank lines. */
  lemma {:induction false} RecordCount(text: string)
    ensures |Parse(text)| == if |Lines(text)| < 2 then 0 else |Lines(text)| - 1
  {
  }

  /** The last index at which h occurs among the first n headers. */
  function LastIndex(headers: seq<string>, h: string, n: nat): (k: nat)
    requires n <= |headers| && h in headers[..n]
    ensures k < n && headers[k] == h
    ensures forall j :: k < j < n ==> headers[j] != h
  {
    if headers[n - 1] == h then n - 1
    else
      assert headers[..n] == headers[..n - 1] + [headers[n - 1]];
      LastIndex(headers, h, n - 1)
  }

  /** Every header is a key; its value is the cell in its (last) column,
      or "" when the row is short; nothing else is a key. */
  lemma {:induction false} RecordFields(headers: seq<string>, values: seq<string>, n: nat, h: string)
    requires n <= |headers|
    ensures Lookup(RecordUpTo(headers, values, n), h) ==
      if h in headers[..n] && h != "__proto__" then Some(Str(Cell(values, LastIndex(headers, h, n)))) else None
  {
    if n > 0 {
      RecordFields(headers, values, n - 1, h);
      assert headers[..n] == headers[..n - 1] + [headers[n - 1]];
      if headers[n - 1] != "__proto__" {
        SetMemberLookup(RecordUpTo(headers, values, n - 1), headers[n - 1], Str(Cell(values, n - 1)), h);
      }
    }
  }

  /** No header occurs twice. */
  predicate Distinct(headers: seq<string>)
    decreases |headers|
  {
    headers == [] || (headers[|headers| - 1] !in headers[..|headers| - 1] && Distinct(headers[..|headers| - 1]))
  }

  /** With distinct headers other than `__proto__`, the record's keys are
      exactly the headers, in order. */
  lemma {:induction false} RecordKeys(headers: seq<string>, values: seq<string>, n: nat)
    requires n <= |headers|
    requires Distinct(headers[..n])
    requires "__proto__" !in headers[..n]
    ensures KeysOf(RecordUpTo(headers, values, n)) == headers[..n]
  {
    if n > 0 {
      var h := headers[n - 1];
      assert headers[..n][..n - 1] == headers[..n - 1];
      assert headers[..n][n - 1] == h;
      RecordKeys(headers, values, n - 1);
      RecordLacks(headers, values, n - 1, h);
      KeysStep(RecordUpTo(headers, values, n - 1), h, Str(Cell(values, n - 1)));
      assert headers[..n] == headers[..n - 1] + [h];
    }
  }

  lemma {:induction false} KeysStep(prev: seq<Member>, h: string, v: Value)
    requires Lookup(prev, h) == None
    ensures KeysOf(SetMember(prev, h, v)) == KeysOf(prev) + [h]
  {
    SetMemberKeys(prev, h, v);
  }

  /** A key that is none of the first n headers is absent. */
  lemma {:induction false} RecordLacks(headers: seq<string>, values: seq<string>, n: nat, h: string)
    requires n <= |headers| && h !in headers[..n]
    ensures Lookup(RecordUpTo(headers, values, n), h) == None
  {
    if n > 0 {
      assert headers[..n - 1] == headers[..n][..n - 1];
      RecordLacks(headers, values, n - 1, h);
      assert headers[n - 1] == headers[..n][n - 1];
      if headers[n - 1] != "__proto__" {
        SetMemberLookup(RecordUpTo(headers, values, n - 1), headers[n - 1], Str(Cell(values, n - 1)), h);
      }
    }
  }

  /** Unquoting and trimming only drop characters from the ends. */
  lemma {:induction false} CleanInside(field: string, c: char)
    requires c !in field
    ensures c !in Clean(field)
  {
    TrimStartSuffix(field);
    var t0 := TrimStart(field);
    TrimEndPrefix(t0);
    var t := Trim(field);
    assert c !in t0;
    assert c !in t;
    var a := if t != [] && t[0] == '"' then t[1..] else t;
    assert c !in a;
    assert Clean(field) == if a != [] && a[|a| - 1] == '"' then a[..|a| - 1] else a;
  }

  /** No cell holds a comma: quoted commas are not supported. */
  lemma {:induction false} CellsHaveNoComma(line: string, i: nat)
    requires i < |Cells(line)|
    ensures ',' !in Cells(line)[i]
  {
    MapSeqAt(Clean, Split(line, ','), i);
    CleanInside(Split(line, ',')[i], ',');
  }

  /** A trimmed field wrapped in quotes gives what is between them. */
  lemma {:induction false} QuotedCell(field: string, inner: string)
    requires Trim(field) == ['"'] + inner + ['"']
    ensures Clean(field) == inner
  {
    var a := Trim(field)[1..];
    assert a == inner + ['"'];
    assert a[..|a| - 1] == inner;
  }

  /** The rows `processCsv` hands on: "Empty CSV" when there are none,
      otherwise each record transformed by the mapping generated from the
      first record's keys. */
  function Canonical(text: string, env: Env): Result<seq<seq<Member>>, string> {
    var rows := Parse(text);
    if |rows| == 0 then Err(EmptyCsv)
    else
      var headers := KeysOf(rows[0]);
      var mapping := SemanticMapper.MappingUpTo(SemanticMapper.CurrentSynonyms(), headers, |headers|);
      Ok(MapSeq((row: seq<Member>) => CanonicalRow(mapping, env, row), rows))
  }

  /** `SemanticMapper.transform(row, mapping)` */
  function CanonicalRow(mapping: seq<Member>, env: Env, row: seq<Member>): seq<Member> {
    SemanticMapper.Transformed(row, mapping, env)
  }

  /** The transform loop of `processCsv`. */
  method TransformAll(rows: seq<seq<Member>>, mapping: seq<Member>, env: Env) returns (out: seq<seq<Member>>)
    ensures out == MapSeq((row: seq<Member>) => CanonicalRow(mapping, env, row), rows)
  {
    ghost var f := (row: seq<Member>) => CanonicalRow(mapping, env, row);
    out := [];
    for i := 0 to |rows|
      invariant out == MapSeq(f, rows[..i])
    {
      var canonical := SemanticMapper.Transform(rows[i], mapping, env);
      assert canonical == f(rows[i]);
      MapSeqPrefix(f, rows, i);
      out := out + [canonical];
    }
    assert rows[..|rows|] == rows;
  }

  /** `processCsv` up to the database writes. */
  method ProcessCsv(text: string, env: Env) returns (r: Result<seq<seq<Member>>, string>)
    ensures r == Canonical(text, env)
  {
    var rows := ParseCsvSimple(text);
    if |rows| == 0 {
      return Err(EmptyCsv);
    }
    var headers := KeysOf(rows[0]);
    var mapping := SemanticMapper.GenerateMapping(SemanticMapper.CurrentSynonyms(), headers);
    var out := TransformAll(rows, mapping, env);
    return Ok(out);
  }

  /** The guard: an error exactly when no record was parsed. */
  lemma {:induction false} EmptyGuard(text: string, env: Env)
    ensures Canonical(text, env).Err? <==> (|Lines(text)| < 2)
    ensures Canonical(text, env).Err? ==> Canonical(text, env).error == EmptyCsv
  {
    RecordCount(text);
  }
}
