// The header-synonym mappers: `SemanticMapper.generateMapping` and
// `transform` of apps/api/src/modules/import/mapper.ts (eight canonical
// fields) and of legacy/apps/api/src/domains/import/SemanticMapper.js (four
// fields). Both run the same loops over their own synonym table. The
// legacy version's log line is left out.

module SemanticMapper {
  import opened Wrappers
  import opened Text
  import opened Json
  import opened Seqs

  /** A canonical field and its synonyms, in declaration order. */
  datatype Entry = Entry(canonical: string, synonyms: seq<string>)

  /** `SYNONYM_MAP` of mapper.ts */
  function CurrentSynonyms(): seq<Entry> {
    [ Entry("trackingNumber", ["track", "tracking", "ref", "reference", "trk#", "pro number"]),
      Entry("totalWeight", ["wgt", "weight (lb)", "weight (kg)", "gross weight", "mass", "total weight"]),
      Entry("consignee", ["receiver", "to", "destination party", "ship to"]),
      Entry("shipper", ["sender", "from", "origin party", "ship from"]),
      Entry("incoterm", ["terms", "incoterms", "shipping terms"]),
      Entry("currency", ["curr", "currency code"]),
      Entry("originCountry", ["origin", "country of origin", "coo", "from country"]),
      Entry("destinationCountry", ["destination", "dest", "to country"]) ]
  }

  /** `SYNONYM_MAP` of the legacy SemanticMapper.js */
  function LegacySynonyms(): seq<Entry> {
    [ Entry("trackingNumber", ["track", "tracking", "ref", "reference", "trk#", "pro number"]),
      Entry("weight", ["wgt", "weight (lb)", "weight (kg)", "gross weight", "mass"]),
      Entry("consignee", ["receiver", "to", "destination party", "ship to"]),
      Entry("shipper", ["sender", "from", "origin party", "ship from"]) ]
  }

  /** `header.toLowerCase().trim()` */
  function Normalize(header: string): string { Trim(Lower(header)) }

  predicate IsCanonical(m: seq<Entry>, key: string) {
    exists k :: 0 <= k < |m| && m[k].canonical == key
  }

  /** The lower-case names every plain object inherits, which make
      `SYNONYM_MAP[normalized]` truthy. */
  predicate Inherited(key: string) {
    key == "constructor" || key == "__proto__"
  }

  /** `synonyms.some(s => normalized.includes(s))` */
  predicate AnyContained(normalized: string, synonyms: seq<string>) {
    exists i :: 0 <= i < |synonyms| && Contains(normalized, synonyms[i])
  }

  /** The first entry, in declaration order, with a contained synonym, or
      |m| when there is none. */
  function FirstSynonym(m: seq<Entry>, normalized: string): (k: nat)
    ensures k <= |m|
    ensures k < |m| ==> AnyContained(normalized, m[k].synonyms)
    ensures forall j :: 0 <= j < k ==> !AnyContained(normalized, m[j].synonyms)
  {
    if m == [] then 0
    else if AnyContained(normalized, m[0].synonyms) then 0
    else 1 + FirstSynonym(m[1..], normalized)
  }

  /** The match for one header: the direct key hit (own or inherited),
      then the first field with a contained synonym. */
  function MatchOf(m: seq<Entry>, header: string): Option<string> {
    var normalized := Normalize(header);
    if IsCanonical(m, normalized) || Inherited(normalized) then Some(normalized)
    else
      var k := FirstSynonym(m, normalized);
      if k < |m| then Some(m[k].canonical) else None
  }

  /** `mapping[header] = match`; assigning a string to `__proto__` is
      ignored. */
  function Assign(mapping: seq<Member>, header: string, found: Option<string>): seq<Member> {
    if found.Some? && header != "__proto__" then SetMember(mapping, header, Str(found.value)) else mapping
  }

  /** The mapping after the first n headers, each assigned its match. */
  function MappingWith(matcher: string -> Option<string>, headers: seq<string>, n: nat): seq<Member>
    requires n <= |headers|
  {
    if n == 0 then [] else Assign(MappingWith(matcher, headers, n - 1), headers[n - 1], matcher(headers[n - 1]))
  }

  /** The match of a header in table m, as a function of the header. */
  function Matcher(m: seq<Entry>): string -> Option<string> { header => MatchOf(m, header) }

  /** The mapping after the first n headers. */
  function MappingUpTo(m: seq<Entry>, headers: seq<string>, n: nat): seq<Member>
    requires n <= |headers|
  {
    MappingWith(Matcher(m), headers, n)
  }

  /** The match for one header, as the body of `generateMapping`'s loop
      computes it: the direct check, then the scan of the table that stops
      at the first field with a contained synonym. */
  method MatchHeader(m: seq<Entry>, header: string) returns (found: Option<string>)
    ensures found == MatchOf(m, header)
  {
    var normalized := Trim(Lower(header));
    found := None;
    if IsCanonical(m, normalized) || Inherited(normalized) {
      found := Some(normalized);
    }
    if found.None? {
      var e := 0;
      while e < |m|
        invariant 0 <= e <= |m|
        invariant forall j :: 0 <= j < e ==> !AnyContained(normalized, m[j].synonyms)
      {
        if AnyContained(normalized, m[e].synonyms) {
          found := Some(m[e].canonical);
          FirstSynonymAt(m, normalized, e);
          break;
        }
        e := e + 1;
      }
      if e == |m| {
        FirstSynonymAt(m, normalized, e);
      }
    }
  }

  /** FirstSynonym is the first index with a contained synonym. */
  lemma {:induction false} FirstSynonymAt(m: seq<Entry>, normalized: string, e: nat)
    requires e <= |m|
    requires e < |m| ==> AnyContained(normalized, m[e].synonyms)
    requires forall j :: 0 <= j < e ==> !AnyContained(normalized, m[j].synonyms)
    ensures FirstSynonym(m, normalized) == e
  {
    var k := FirstSynonym(m, normalized);
    assert k <= e;
  }

  /** `generateMapping` over the synonym table m. */
  method GenerateMapping(m: seq<Entry>, rawHeaders: seq<string>) returns (mapping: seq<Member>)
    ensures mapping == MappingUpTo(m, rawHeaders, |rawHeaders|)
  {
    mapping := [];
    for h := 0 to |rawHeaders|
      invariant mapping == MappingUpTo(m, rawHeaders, h)
    {
      var header := rawHeaders[h];
      var found := MatchHeader(m, header);
      if found.Some? && header != "__proto__" {
        mapping := SetMember(mapping, header, Str(found.value));
      }
    }
  }

  /** A header is mapped exactly when it matches (and is not `__proto__`),
      to its match; unmatched headers are absent. */
  lemma {:induction false} MappingSpec(m: seq<Entry>, headers: seq<string>, n: nat, h: string)
    requires n <= |headers|
    ensures Lookup(MappingUpTo(m, headers, n), h) ==
      if h in headers[..n] && h != "__proto__" && MatchOf(m, h).Some? then Some(Str(MatchOf(m, h).value)) else None
  {
    MappingWithSpec(Matcher(m), headers, n, h);
  }

  /** MappingSpec for any matcher. */
  lemma {:induction false} MappingWithSpec(matcher: string -> Option<string>, headers: seq<string>, n: nat, h: string)
    requires n <= |headers|
    ensures Lookup(MappingWith(matcher, headers, n), h) ==
      if h in headers[..n] && h != "__proto__" && matcher(h).Some? then Some(Str(matcher(h).value)) else None
  {
    if n > 0 {
      MappingWithSpec(matcher, headers, n - 1, h);
      var header := headers[n - 1];
      assert headers[..n] == headers[..n - 1] + [header];
      assert (h in headers[..n]) == (h in headers[..n - 1] || h == header);
      AssignLookup(MappingWith(matcher, headers, n - 1), header, matcher(header), h);
    }
  }

  /** One assignment changes at most the header's own entry. */
  lemma {:induction false} AssignLookup(mapping: seq<Member>, header: string, found: Option<string>, h: string)
    ensures Lookup(Assign(mapping, header, found), h) ==
      if h == header && found.Some? && header != "__proto__" then Some(Str(found.value)) else Lookup(mapping, h)
  {
    if found.Some? && header != "__proto__" {
      SetMemberLookup(mapping, header, Str(found.value), h);
    }
  }

  /** A direct hit on a canonical key maps to that key; otherwise the first
      field in declaration order with a contained synonym wins. */
  lemma {:induction false} MatchSpec(m: seq<Entry>, header: string)
    ensures IsCanonical(m, Normalize(header)) ==> MatchOf(m, header) == Some(Normalize(header))
    ensures !IsCanonical(m, Normalize(header)) && !Inherited(Normalize(header)) ==>
      (MatchOf(m, header).Some? <==> exists k :: 0 <= k < |m| && AnyContained(Normalize(header), m[k].synonyms))
    ensures !IsCanonical(m, Normalize(header)) && !Inherited(Normalize(header)) && MatchOf(m, header).Some? ==>
      exists k :: 0 <= k < |m| && MatchOf(m, header) == Some(m[k].canonical)
        && AnyContained(Normalize(header), m[k].synonyms)
        && forall j :: 0 <= j < k ==> !AnyContained(Normalize(header), m[j].synonyms)
  {
    var k := FirstSynonym(m, Normalize(header));
    if exists j :: 0 <= j < |m| && AnyContained(Normalize(header), m[j].synonyms) {
      var j :| 0 <= j < |m| && AnyContained(Normalize(header), m[j].synonyms);
      assert k <= j;
    }
  }

  /** Trimming a lower-case text leaves it lower-case. */
  lemma {:induction false} TrimKeepsLower(x: string)
    requires forall i :: 0 <= i < |x| ==> LowerChar(x[i]) == x[i]
    ensures Lower(Trim(x)) == Trim(x)
  {
    TrimStartSuffix(x);
    var t := TrimStart(x);
    TrimEndPrefix(t);
    var r := Trim(x);
    forall i | 0 <= i < |r| ensures LowerChar(r[i]) == r[i] {
      assert r[i] == t[i] == x[|x| - |t| + i];
    }
  }

  /** Only the lower-cased, trimmed header counts: a header already in
      that form matches like the raw one. */
  lemma {:induction false} MatchNormalized(m: seq<Entry>, header: string)
    ensures MatchOf(m, Normalize(header)) == MatchOf(m, header)
  {
    var l := Lower(header);
    TrimKeepsLower(l);
    TrimIdempotent(l);
  }

  /** Every value of the mapping names a field of the table or, as
      written, an inherited property name. */
  lemma {:induction false} MappingValues(m: seq<Entry>, headers: seq<string>, n: nat, h: string)
    requires n <= |headers|
    ensures Lookup(MappingUpTo(m, headers, n), h).Some? ==>
      var v := Lookup(MappingUpTo(m, headers, n), h).value;
      v.Str? && (IsCanonical(m, v.s) || Inherited(v.s))
  {
    MappingSpec(m, headers, n, h);
  }

  /** A needle with a character the text lacks is not contained in it. */
  lemma {:induction false} MissingChar(hay: string, needle: string, c: char)
    requires c in needle && c !in hay
    ensures !Contains(hay, needle)
    decreases |hay|
  {
    assert !StartsWith(hay, needle) by {
      var i :| 0 <= i < |needle| && needle[i] == c;
      if |needle| <= |hay| {
        assert hay[i] in hay;
        assert hay[..|needle|][i] != needle[i];
      }
    }
    if hay != [] {
      MissingChar(hay[1..], needle, c);
    }
  }

  // ---- finding: canonical keys with capitals and inherited names ----

  /** A needle whose first two characters never stand side by side in
      the text is not contained in it. */
  lemma {:induction false} MissingPair(hay: string, needle: string)
    requires |needle| >= 2
    requires forall j :: 0 <= j < |hay| - 1 ==> hay[j] != needle[0] || hay[j + 1] != needle[1]
    ensures !Contains(hay, needle)
    decreases |hay|
  {
    if |needle| <= |hay| {
      assert hay[..|needle|][0] == hay[0] && hay[..|needle|][1] == hay[1];
    }
    if hay != [] {
      MissingPair(hay[1..], needle);
    }
  }

  lemma {:induction false} NormalizeTotalWeight(header: string)
    requires header == "totalWeight"
    ensures Normalize(header) == "totalweight"
  {
    var l := Lower(header);
    assert l == "totalweight" by {
      assert l[0] == 't' && l[1] == 'o' && l[2] == 't' && l[3] == 'a' && l[4] == 'l' && l[5] == 'w';
      assert l[6] == 'e' && l[7] == 'i' && l[8] == 'g' && l[9] == 'h' && l[10] == 't';
    }
    TrimPlain(l);
  }

  /** A text with neither leading nor trailing white space trims to itself. */
  lemma {:induction false} TrimPlain(s: string)
    requires s != [] && !IsSpace(s[0]) && !IsSpace(s[|s| - 1])
    ensures Trim(s) == s
  {
  }

  /** "totalweight" is no key of the current table. */
  lemma {:induction false} TotalweightNotCanonical(n: string)
    requires n == "totalweight"
    ensures !IsCanonical(CurrentSynonyms(), n)
  {
    var m := CurrentSynonyms();
    forall k | 0 <= k < |m| ensures m[k].canonical != n {
      assert |m[k].canonical| != |n| || m[k].canonical[5] != n[5];
    }
  }

  /** "totalweight" holds no trackingNumber synonym: each has an 'r'. */
  lemma {:induction false} TotalweightNoTracking(n: string)
    requires n == "totalweight"
    ensures !AnyContained(n, CurrentSynonyms()[0].synonyms)
  {
    var s := CurrentSynonyms()[0].synonyms;
    assert 'r' !in n;
    forall i | 0 <= i < |s| ensures !Contains(n, s[i]) {
      assert 'r' in s[i];
      MissingChar(n, s[i], 'r');
    }
  }

  /** "totalweight" holds no totalWeight synonym: "wgt" would need a 'g'
      after its only 'w', the others have a character it lacks. */
  lemma {:induction false} TotalweightNoWeight(n: string)
    requires n == "totalweight"
    ensures !AnyContained(n, CurrentSynonyms()[1].synonyms)
  {
    var s := CurrentSynonyms()[1].synonyms;
    TotalweightNoWeightPhrase(n, s);
    TotalweightNoWgt(n, s[0]);
  }

  lemma {:induction false} TotalweightNoWeightPhrase(n: string, s: seq<string>)
    requires n == "totalweight" && s == CurrentSynonyms()[1].synonyms
    ensures forall i :: 1 <= i < |s| ==> !Contains(n, s[i])
  {
    MissingChars(n, s, "w  rm ", 1);
  }

  /** Each synonym from index `from` on has its character of cs, which the
      text lacks. */
  lemma {:induction false} MissingChars(hay: string, synonyms: seq<string>, cs: seq<char>, from: nat)
    requires |cs| == |synonyms|
    requires forall i :: from <= i < |synonyms| ==> cs[i] in synonyms[i] && cs[i] !in hay
    ensures forall i :: from <= i < |synonyms| ==> !Contains(hay, synonyms[i])
  {
    forall i | from <= i < |synonyms| ensures !Contains(hay, synonyms[i]) {
      MissingChar(hay, synonyms[i], cs[i]);
    }
  }

  lemma {:induction false} TotalweightNoWgt(n: string, wgt: string)
    requires n == "totalweight" && wgt == "wgt"
    ensures !Contains(n, wgt)
  {
    forall j | 0 <= j < |n| - 1 ensures n[j] != wgt[0] || n[j + 1] != wgt[1] {
      if j != 5 {
        assert n[j] != 'w';
      }
    }
    MissingPair(n, wgt);
  }

  /** "totalweight" misses the direct check and first meets a synonym,
      "to", in the consignee entry. */
  lemma {:induction false} TotalweightFirstSynonym(n: string)
    requires n == "totalweight"
    ensures !IsCanonical(CurrentSynonyms(), n) && !Inherited(n)
    ensures FirstSynonym(CurrentSynonyms(), n) == 2
  {
    var m := CurrentSynonyms();
    TotalweightNotCanonical(n);
    TotalweightNoTracking(n);
    TotalweightNoWeight(n);
    assert StartsWith(n, m[2].synonyms[1]);
    FirstSynonymAt(m, n, 2);
  }

  /** As written: the header "totalWeight", the canonical key itself, is
      lower-cased to "totalweight", misses the direct check and the
      totalWeight synonyms, and maps to consignee through "to". */
  lemma {:induction false} TotalWeightMapsToConsignee(header: string)
    requires header == "totalWeight"
    ensures MatchOf(CurrentSynonyms(), header) == Some("consignee")
  {
    NormalizeTotalWeight(header);
    TotalweightFirstSynonym(Normalize(header));
  }

  /** The match when the direct check misses and field k is the first
      with a contained synonym. */
  lemma {:induction false} MatchViaSynonym(m: seq<Entry>, header: string, k: nat)
    requires k < |m| && !IsCanonical(m, Normalize(header)) && !Inherited(Normalize(header))
    requires forall j :: 0 <= j < k ==> !AnyContained(Normalize(header), m[j].synonyms)
    requires AnyContained(Normalize(header), m[k].synonyms)
    ensures MatchOf(m, header) == Some(m[k].canonical)
  {
    FirstSynonymAt(m, Normalize(header), k);
  }

  /** As written: "Constructor" hits the inherited `constructor` property
      and maps to a name that is no canonical field. */
  lemma {:induction false} ConstructorMapsOutsideTable(header: string)
    requires header == "Constructor"
    ensures MatchOf(CurrentSynonyms(), header) == Some("constructor")
    ensures !IsCanonical(CurrentSynonyms(), "constructor")
  {
    var l := Lower(header);
    assert l == "constructor" by {
      assert l[0] == 'c' && l[1] == 'o' && l[2] == 'n' && l[3] == 's' && l[4] == 't' && l[5] == 'r';
      assert l[6] == 'u' && l[7] == 'c' && l[8] == 't' && l[9] == 'o' && l[10] == 'r';
    }
    TrimPlain(l);
    var m := CurrentSynonyms();
    forall k | 0 <= k < |m| ensures m[k].canonical != "constructor" {
      assert |m[k].canonical| != 11 || m[k].canonical[0] != 'c';
    }
  }

  /** In the legacy table `weight` is a canonical key, so its header in
      any case maps to it directly. */
  lemma {:induction false} LegacyWeightDirect(header: string)
    requires header == "Weight"
    ensures MatchOf(LegacySynonyms(), header) == Some("weight")
  {
    var l := Lower(header);
    assert l == "weight" by {
      assert l[0] == 'w' && l[1] == 'e' && l[2] == 'i' && l[3] == 'g' && l[4] == 'h' && l[5] == 't';
    }
    TrimPlain(l);
    assert LegacySynonyms()[1].canonical == "weight";
  }

  /** Corrected: the direct check compares the normalized header with the
      lower-cased canonical keys of the table itself, so inherited names
      never match and a header spelled like a canonical key maps to it. */
  function DirectKey(m: seq<Entry>, normalized: string): (k: nat)
    ensures k <= |m|
    ensures k < |m| ==> Lower(m[k].canonical) == normalized
    ensures forall j :: 0 <= j < k ==> Lower(m[j].canonical) != normalized
  {
    if m == [] then 0 else if Lower(m[0].canonical) == normalized then 0 else 1 + DirectKey(m[1..], normalized)
  }

  function CorrectedMatchOf(m: seq<Entry>, header: string): Option<string> {
    var normalized := Normalize(header);
    var d := DirectKey(m, normalized);
    if d < |m| then Some(m[d].canonical)
    else
      var k := FirstSynonym(m, normalized);
      if k < |m| then Some(m[k].canonical) else None
  }

  /** Corrected: every mapped value is a canonical key of the table. */
  lemma {:induction false} CorrectedMatchCanonical(m: seq<Entry>, header: string)
    ensures CorrectedMatchOf(m, header).Some? ==> IsCanonical(m, CorrectedMatchOf(m, header).value)
  {
  }

  /** Corrected: with distinct lower-cased keys free of surrounding white
      space, each canonical key, in any case, maps to itself. */
  lemma {:induction false} CorrectedDirect(m: seq<Entry>, k: nat, header: string)
    requires k < |m|
    requires forall i, j :: 0 <= i < j < |m| ==> Lower(m[i].canonical) != Lower(m[j].canonical)
    requires Normalize(header) == Lower(m[k].canonical)
    ensures CorrectedMatchOf(m, header) == Some(m[k].canonical)
  {
    var d := DirectKey(m, Normalize(header));
    assert d <= k;
  }

  // ---- transform ----

  /** `mapping[rawKey]` when it is truthy, as the key it gives: an own
      entry, or else a property every object inherits. */
  function MappedKey(mapping: seq<Member>, key: string, env: Env): Option<string> {
    match Lookup(mapping, key)
    case Some(v) => if Truthy(v) then Some(ToStr(v, env)) else None
    case None => if key in ObjectPrototypeNames then Some(InheritedText(key)) else None
  }

  /** The output key and value for one raw member: a truthy mapping entry
      renames the key, anything else keeps it. */
  function Rename(mapping: seq<Member>, env: Env): Member -> Member {
    (raw: Member) =>
      match MappedKey(mapping, raw.key, env)
      case Some(k) => Member(k, raw.val)
      case None => raw
  }

  /** The row `transform` returns: the renamed members assigned in order. */
  function Transformed(rawRow: seq<Member>, mapping: seq<Member>, env: Env): seq<Member> {
    PutAll(MapSeq(Rename(mapping, env), rawRow))
  }

  /** `transform(rawRow, mapping)` */
  method Transform(rawRow: seq<Member>, mapping: seq<Member>, env: Env) returns (canonical: seq<Member>)
    ensures canonical == Transformed(rawRow, mapping, env)
  {
    canonical := [];
    for i := 0 to |rawRow|
      invariant canonical == PutAll(MapSeq(Rename(mapping, env), rawRow[..i]))
    {
      var rawKey := rawRow[i].key;
      var val := rawRow[i].val;
      var canonicalKey := MappedKey(mapping, rawKey, env);
      MapSeqPrefix(Rename(mapping, env), rawRow, i);
      ghost var renamed := MapSeq(Rename(mapping, env), rawRow[..i + 1]);
      assert renamed[..|renamed| - 1] == MapSeq(Rename(mapping, env), rawRow[..i]);
      if canonicalKey.Some? {
        canonical := PutMember(canonical, canonicalKey.value, val);
      } else {
        canonical := PutMember(canonical, rawKey, val);
      }
    }
    assert rawRow[..|rawRow|] == rawRow;
  }

  /** The last member with a key is unchanged by a renaming that neither
      moves that key away nor renames another key into it. */
  lemma {:induction false} LastValRenamed(f: Member -> Member, xs: seq<Member>, k: string)
    requires forall i :: 0 <= i < |xs| ==> (f(xs[i]).key == k <==> xs[i].key == k)
    requires forall i :: 0 <= i < |xs| && xs[i].key == k ==> f(xs[i]) == xs[i]
    ensures LastVal(MapSeq(f, xs), k) == LastVal(xs, k)
    decreases |xs|
  {
    if xs != [] {
      var n := |xs| - 1;
      LastValRenamed(f, xs[..n], k);
      assert MapSeq(f, xs)[..n] == MapSeq(f, xs[..n]);
    }
  }

  /** An unmapped raw key other than `__proto__` keeps its value, as long as
      no other raw key is renamed onto it. */
  lemma {:induction false} TransformKeepsUnmapped(rawRow: seq<Member>, mapping: seq<Member>, env: Env, k: string)
    requires MappedKey(mapping, k, env).None? && k != "__proto__"
    requires forall i :: 0 <= i < |rawRow| && rawRow[i].key != k ==> Rename(mapping, env)(rawRow[i]).key != k
    ensures Lookup(Transformed(rawRow, mapping, env), k) == LastVal(rawRow, k)
  {
    LastValRenamed(Rename(mapping, env), rawRow, k);
    PutAllLookup(MapSeq(Rename(mapping, env), rawRow), k);
  }

  /** Nothing is ever stored under `__proto__`: assigning to it sets the
      prototype instead. */
  lemma {:induction false} TransformHasNoProto(rawRow: seq<Member>, mapping: seq<Member>, env: Env)
    ensures Lookup(Transformed(rawRow, mapping, env), "__proto__") == None
  {
    PutAllLookup(MapSeq(Rename(mapping, env), rawRow), "__proto__");
  }

  /** A mapped raw key is renamed to its canonical name, value unchanged. */
  lemma {:induction false} RenameMapped(mapping: seq<Member>, env: Env, raw: Member, canonical: string)
    requires Lookup(mapping, raw.key) == Some(Str(canonical)) && canonical != ""
    ensures Rename(mapping, env)(raw) == Member(canonical, raw.val)
  {
  }

  /** A raw key the mapping has no entry for, but that names a property of
      Object.prototype, is renamed to the text of the inherited value (the
      column "hasOwnProperty" is stored under
      "function hasOwnProperty() { [native code] }"). */
  lemma {:induction false} RenameInherited(mapping: seq<Member>, env: Env, raw: Member)
    requires Lookup(mapping, raw.key).None? && raw.key in ObjectPrototypeNames
    ensures Rename(mapping, env)(raw) == Member(InheritedText(raw.key), raw.val)
  {
  }
}
