// `parseAddress` of services/ingestion/src/pdf/addressParser.js and of its
// legacy version legacy/services/ingestion/src/pdf/addressParser.js. Both
// split the raw block into parts and take the name, a country, a
// city-state-zip line and the address lines out of them, in that order.
// The regular expressions are modelled by span matchers: a tail matcher
// for the anchored end of the pattern and a lazy search for the leading
// `(.*?)`.

module AddressCommon {
  import opened Wrappers
  import opened Text
  import opened Seqs

  datatype Address = Address(
    name: string, address: string, address2: string,
    city: string, state: string, zip: string, country: string)

  datatype CityStateZip = CityStateZip(city: string, state: string, zip: string)

  /** `/,|\n/` */
  predicate IsSeparator(c: char) { c == ',' || c == '\n' }

  predicate NoSeparator(s: string) { forall i :: 0 <= i < |s| ==> !IsSeparator(s[i]) }

  function IndexOfSeparator(s: string): (k: nat)
    ensures k <= |s| && (k < |s| ==> IsSeparator(s[k]))
    ensures NoSeparator(s[..k])
  {
    if s == [] then 0
    else if IsSeparator(s[0]) then 0
    else
      var k := 1 + IndexOfSeparator(s[1..]);
      assert forall i :: 1 <= i < k ==> s[..k][i] == s[1..][..k - 1][i - 1];
      k
  }

  /** `s.split(/,|\n/)` */
  function SplitParts(s: string): (r: seq<string>)
    ensures |r| >= 1 && forall i :: 0 <= i < |r| ==> NoSeparator(r[i])
    decreases |s|
  {
    var k := IndexOfSeparator(s);
    if k == |s| then [s] else [s[..k]] + SplitParts(s[k + 1..])
  }

  /** `.filter(p => p.length > 0)` */
  function NonEmpty(parts: seq<string>): (r: seq<string>)
    ensures |r| <= |parts|
    ensures forall i :: 0 <= i < |r| ==> r[i] != "" && r[i] in parts
    ensures forall p :: p in parts && p != "" ==> p in r
    decreases |parts|
  {
    if parts == [] then []
    else
      var rest := NonEmpty(parts[..|parts| - 1]);
      var last := parts[|parts| - 1];
      assert forall p :: p in parts ==> p in parts[..|parts| - 1] || p == last;
      if last == "" then rest else rest + [last]
  }

  /** `rawString.split(/,|\n/).map(p => p.trim()).filter(p => p.length > 0)` */
  function Pieces(raw: string): seq<string> {
    NonEmpty(MapSeq(Trim, SplitParts(raw)))
  }

  lemma {:induction false} TrimKeeps(s: string, i: nat)
    requires i < |Trim(s)|
    ensures Trim(s)[i] in s
  {
    TrimStartSuffix(s);
    TrimEndPrefix(TrimStart(s));
    var t0 := TrimStart(s);
    assert Trim(s)[i] == t0[i];
    assert t0[i] == s[|s| - |t0| + i];
  }

  /** Every piece is non-empty, trimmed, and free of commas and newlines. */
  lemma {:induction false} PiecesSpec(raw: string, i: nat)
    requires i < |Pieces(raw)|
    ensures var p := Pieces(raw)[i];
      p != "" && !IsSpace(p[0]) && !IsSpace(p[|p| - 1]) && NoSeparator(p)
  {
    var split := SplitParts(raw);
    var p := Pieces(raw)[i];
    assert p in MapSeq(Trim, split);
    var j :| 0 <= j < |split| && MapSeq(Trim, split)[j] == p;
    MapSeqAt(Trim, split, j);
    forall k | 0 <= k < |p|
      ensures !IsSeparator(p[k])
    {
      TrimKeeps(split[j], k);
    }
  }

  /** `.replace(/^FC\s+/i, '')` */
  function StripFc(s: string): string {
    if |s| >= 3 && LowerChar(s[0]) == 'f' && LowerChar(s[1]) == 'c' && IsSpace(s[2]) then TrimStart(s[2..]) else s
  }

  /** `/^(Inc\.?|LLC|Ltd\.?|Pty Ltd\.?)$/i` */
  predicate IsCorporateSuffix(s: string) {
    Lower(s) in {"inc", "inc.", "llc", "ltd", "ltd.", "pty ltd", "pty ltd."}
  }

  /** Steps 2 and 3 and the `shift`: the first part minus an "FC " prefix is
      the name, and a corporate suffix on the second part joins it. */
  method SplitName(raw: string) returns (name: string, parts: seq<string>)
    ensures var ps := Pieces(raw);
      (ps == [] ==> name == "" && parts == [])
      && (|ps| == 1 ==> name == StripFc(ps[0]) && parts == [])
      && (|ps| >= 2 && IsCorporateSuffix(ps[1]) ==> name == StripFc(ps[0]) + ", " + ps[1] && parts == ps[2..])
      && (|ps| >= 2 && !IsCorporateSuffix(ps[1]) ==> name == StripFc(ps[0]) && parts == ps[1..])
  {
    parts := Pieces(raw);
    if |parts| > 0 {
      parts := parts[0 := StripFc(parts[0])];
    }
    if |parts| > 1 && IsCorporateSuffix(parts[1]) {
      parts := parts[0 := parts[0] + ", " + parts[1]];
      parts := parts[..1] + parts[2..];
    }
    name := if |parts| > 0 && parts[0] != "" then parts[0] else "";
    if |parts| > 0 {
      parts := parts[1..];
    }
    if |Pieces(raw)| > 0 {
      PiecesSpec(raw, 0);
      StripFcNonEmpty(Pieces(raw)[0]);
    }
  }

  /** A trimmed non-empty part stays non-empty without its prefix. */
  lemma {:induction false} StripFcNonEmpty(s: string)
    requires s != "" && !IsSpace(s[|s| - 1])
    ensures StripFc(s) != ""
  {
    if |s| >= 3 && LowerChar(s[0]) == 'f' && LowerChar(s[1]) == 'c' && IsSpace(s[2]) {
      var t := s[2..];
      assert !IsSpace(t[|t| - 1]);
      TrimStartKeepsLast(t);
    }
  }

  lemma {:induction false} TrimStartKeepsLast(t: string)
    requires t != "" && !IsSpace(t[|t| - 1])
    ensures TrimStart(t) != ""
    decreases |t|
  {
    if IsSpace(t[0]) {
      TrimStartKeepsLast(t[1..]);
    }
  }

  /** "FC" in any case and white space come off the front; nothing else
      changes. */
  lemma {:induction false} StripFcSpec(s: string)
    ensures StripFc(s) == s || (|s| >= 3 && IsSpace(s[2]) && StripFc(s) == TrimStart(s[2..]))
    ensures |s| >= 3 && (s[0] == 'F' || s[0] == 'f') && (s[1] == 'C' || s[1] == 'c') && IsSpace(s[2]) ==>
      StripFc(s) == TrimStart(s[3..])
  {
    if |s| >= 3 && IsSpace(s[2]) {
      assert s[2..][1..] == s[3..];
    }
  }

  /** Index of the last part the matcher accepts: the backward scan. */
  method FindFromEnd(parts: seq<string>, csz: string -> Option<CityStateZip>) returns (found: Option<nat>)
    ensures found.Some? ==>
      found.value < |parts| && csz(parts[found.value]).Some?
      && forall j :: found.value < j < |parts| ==> csz(parts[j]).None?
    ensures found.None? ==> forall j :: 0 <= j < |parts| ==> csz(parts[j]).None?
  {
    var i: nat := |parts|;
    while i > 0
      invariant i <= |parts|
      invariant forall j :: i <= j < |parts| ==> csz(parts[j]).None?
    {
      i := i - 1;
      if csz(parts[i]).Some? {
        return Some(i);
      }
    }
    return None;
  }

  /** The same scan as a function, for the specifications. */
  function LastMatch(parts: seq<string>, csz: string -> Option<CityStateZip>): (r: Option<nat>)
    ensures r.Some? ==>
      r.value < |parts| && csz(parts[r.value]).Some?
      && forall j :: r.value < j < |parts| ==> csz(parts[j]).None?
    ensures r.None? ==> forall j :: 0 <= j < |parts| ==> csz(parts[j]).None?
    decreases |parts|
  {
    if parts == [] then None
    else if csz(parts[|parts| - 1]).Some? then Some(|parts| - 1)
    else LastMatch(parts[..|parts| - 1], csz)
  }

  /** The scan is determined by its contract. */
  lemma {:induction false} LastMatchUnique(parts: seq<string>, csz: string -> Option<CityStateZip>, found: Option<nat>)
    requires found.Some? ==>
      found.value < |parts| && csz(parts[found.value]).Some?
      && forall j :: found.value < j < |parts| ==> csz(parts[j]).None?
    requires found.None? ==> forall j :: 0 <= j < |parts| ==> csz(parts[j]).None?
    ensures found == LastMatch(parts, csz)
  {
    var r := LastMatch(parts, csz);
    if found.Some? && r.Some? && found.value != r.value {
      assert false;
    }
  }

  /** `parts.splice(i, 1)` */
  function Remove(parts: seq<string>, i: nat): (r: seq<string>)
    requires i < |parts|
    ensures |r| == |parts| - 1
  {
    parts[..i] + parts[i + 1..]
  }

  /** Step 5's tail: the first leftover part is the address, the rest joined
      with ", " the second address line. */
  function AddressLines(parts: seq<string>): (r: (string, string))
    ensures parts == [] ==> r == ("", "")
    ensures |parts| == 1 ==> r == (parts[0], "")
    ensures |parts| > 1 ==> r == (parts[0], Join(parts[1..], ", "))
  {
    if parts == [] then ("", "")
    else if |parts| == 1 then (parts[0], "")
    else (parts[0], Join(parts[1..], ", "))
  }

  /** Steps 2 and 3 of `parseAddress`: the name. */
  function NameOf(ps: seq<string>): string {
    if ps == [] then ""
    else if |ps| >= 2 && IsCorporateSuffix(ps[1]) then StripFc(ps[0]) + ", " + ps[1]
    else StripFc(ps[0])
  }

  /** The parts after the name. */
  function RestOf(ps: seq<string>): seq<string> {
    if ps == [] then []
    else if |ps| >= 2 && IsCorporateSuffix(ps[1]) then ps[2..]
    else ps[1..]
  }

  /** The country and the parts left. */
  datatype CountryRest = CountryRest(country: string, rest: seq<string>)

  /** Step 4: the last part is the country when the test accepts it. */
  function TakeCountry(parts: seq<string>, isCountry: string -> bool): CountryRest {
    if parts != [] && isCountry(parts[|parts| - 1]) then CountryRest(parts[|parts| - 1], parts[..|parts| - 1])
    else CountryRest("", parts)
  }

  /** Step 5 on what step 4 left: the last part the matcher accepts gives
      city, state and zip and is removed; the rest are address lines. */
  function Scan(name: string, cr: CountryRest, cszOf: string -> Option<CityStateZip>): Address {
    var found := LastMatch(cr.rest, cszOf);
    var csz := if found.Some? then cszOf(cr.rest[found.value]).value else CityStateZip("", "", "");
    var left := if found.Some? then Remove(cr.rest, found.value) else cr.rest;
    var lines := AddressLines(left);
    Address(name, lines.0, lines.1, csz.city, csz.state, csz.zip, cr.country)
  }

  /** Step 5 as both versions write it, a backward loop with `splice`. The
      legacy guard `if (csz.state)` in front of the state assignment changes
      nothing, since the state it would keep is "". */
  method ScanParts(name: string, cr: CountryRest, cszOf: string -> Option<CityStateZip>) returns (result: Address)
    ensures result == Scan(name, cr, cszOf)
  {
    var parts := cr.rest;
    result := Address(name, "", "", "", "", "", cr.country);
    var found := FindFromEnd(parts, cszOf);
    LastMatchUnique(parts, cszOf, found);
    if found.Some? {
      var csz := cszOf(parts[found.value]).value;
      result := result.(city := csz.city, state := csz.state, zip := csz.zip);
      parts := parts[..found.value] + parts[found.value + 1..];
    }
    if |parts| > 0 {
      result := result.(address := parts[0]);
      if |parts| > 1 {
        result := result.(address2 := Join(parts[1..], ", "));
      }
    }
  }

  /** The name and country pass through; the city line is the last part
      the matcher accepts and no later part is one; without one the city,
      state and zip are "" and the first part is the address. */
  lemma {:induction false} ScanSpec(name: string, cr: CountryRest, cszOf: string -> Option<CityStateZip>)
    ensures var a := Scan(name, cr, cszOf); var found := LastMatch(cr.rest, cszOf);
      a.name == name && a.country == cr.country
      && (found.None? ==> a.city == "" && a.state == "" && a.zip == ""
                          && a.address == (if cr.rest == [] then "" else cr.rest[0]))
      && (found.Some? ==> CityStateZip(a.city, a.state, a.zip) == cszOf(cr.rest[found.value]).value
                          && forall j :: found.value < j < |cr.rest| ==> cszOf(cr.rest[j]).None?)
      && (|cr.rest| <= 1 ==> a.address2 == "")
  {
    var found := LastMatch(cr.rest, cszOf);
    if found.Some? {
      assert |Remove(cr.rest, found.value)| == |cr.rest| - 1;
    }
  }

  /** `splice(i, 1)` loses exactly the part at i and keeps the order of
      the others. */
  lemma {:induction false} RemoveSpec(parts: seq<string>, i: nat)
    requires i < |parts|
    ensures multiset(Remove(parts, i)) + multiset{parts[i]} == multiset(parts)
    ensures forall j :: 0 <= j < |parts| && j != i ==> Remove(parts, i)[if j < i then j else j - 1] == parts[j]
  {
    assert parts == parts[..i] + [parts[i]] + parts[i + 1..];
  }

  const UsStates: seq<string> := [
    "AL", "AK", "AZ", "AR", "CA", "CO", "CT", "DE", "FL", "GA", "HI", "ID", "IL", "IN", "IA", "KS", "KY",
    "LA", "ME", "MD", "MA", "MI", "MN", "MS", "MO", "MT", "NE", "NV", "NH", "NJ", "NM", "NY", "NC", "ND",
    "OH", "OK", "OR", "PA", "RI", "SC", "SD", "TN", "TX", "UT", "VT", "VA", "WA", "WV", "WI", "WY"]

  const AuStates: seq<string> := ["NSW", "VIC", "QLD", "WA", "SA", "TAS", "ACT", "NT"]

  /** Line terminators, which `.` does not match. */
  predicate IsLineTerminator(c: char) {
    c == '\n' || c == '\r' || c == '\U{2028}' || c == '\U{2029}'
  }

  predicate NoTerminator(s: string) { forall i :: 0 <= i < |s| ==> !IsLineTerminator(s[i]) }

  /** The end of the run of characters with property p from i. */
  function Span(t: string, i: nat, p: char -> bool): (j: nat)
    requires i <= |t|
    ensures i <= j <= |t|
    ensures forall k :: i <= k < j ==> p(t[k])
    ensures j == |t| || !p(t[j])
    decreases |t| - i
  {
    if i == |t| || !p(t[i]) then i else Span(t, i + 1, p)
  }

  /** A run that ends where the property fails is the span. */
  lemma {:induction false} SpanAt(t: string, i: nat, j: nat, p: char -> bool)
    requires i <= j <= |t|
    requires forall k :: i <= k < j ==> p(t[k])
    requires j == |t| || !p(t[j])
    ensures Span(t, i, p) == j
    decreases j - i
  {
    if i < j {
      SpanAt(t, i + 1, j, p);
    }
  }

  /** The run of p at the start of w + rest is w when rest does not
      continue it. */
  lemma {:induction false} RunPrefix(w: string, rest: string, p: char -> bool)
    requires forall k :: 0 <= k < |w| ==> p(w[k])
    requires rest == [] || !p(rest[0])
    ensures Span(w + rest, 0, p) == |w|
    ensures (w + rest)[..|w|] == w && (w + rest)[|w|..] == rest
  {
    var t := w + rest;
    assert forall k :: 0 <= k < |w| ==> t[k] == w[k];
    assert rest != [] ==> t[|w|] == rest[0];
    SpanAt(t, 0, |w|, p);
  }

  lemma {:induction false} EndsWithSlice(t: string, k: nat, z: string)
    requires k <= |t| && EndsWith(t[k..], z)
    ensures EndsWith(t, z)
  {
    assert t[k..][|t[k..]| - |z|..] == t[|t| - |z|..];
  }

  /** The lazy `^(.*?)` in front of an anchored tail: the first split point
      from which the tail matches, the prefix free of line terminators. */
  function FirstFit<T>(str: string, tail: string -> Option<T>, from: nat): (r: Option<nat>)
    requires from <= |str| && NoTerminator(str[..from])
    ensures r.Some? ==>
      from <= r.value <= |str| && tail(str[r.value..]).Some? && NoTerminator(str[..r.value])
      && forall l :: from <= l < r.value ==> tail(str[l..]).None?
    ensures r.None? ==> forall l :: from <= l <= |str| && NoTerminator(str[..l]) ==> tail(str[l..]).None?
    decreases |str| - from
  {
    if tail(str[from..]).Some? then Some(from)
    else if from < |str| && !IsLineTerminator(str[from]) then
      assert str[..from + 1] == str[..from] + [str[from]];
      FirstFit(str, tail, from + 1)
    else
      assert forall l :: from < l <= |str| ==> str[..l][from] == str[from];
      None
  }

  predicate AllUpper(s: string) { forall i :: 0 <= i < |s| ==> IsUpperLetter(s[i]) }

  predicate AllLetters(s: string) { forall i :: 0 <= i < |s| ==> IsLetter(s[i]) }

  predicate AllSpace(s: string) { forall i :: 0 <= i < |s| ==> IsSpace(s[i]) }

  datatype StateZip = StateZip(state: string, zip: string)
  /** A string ending in a digit is neither a name ending in something else
      nor ends with a space and that name. */
  lemma {:induction false} DigitEndNotName(low: string, c: string)
    requires low != "" && IsDigit(low[|low| - 1]) && c != "" && !IsDigit(c[|c| - 1])
    ensures low != c && !EndsWith(low, " " + c)
  {
    var suffix := " " + c;
    assert suffix[|suffix| - 1] == c[|c| - 1];
  }
}

module AddressParser {
  import opened Wrappers
  import opened Text
  import opened AddressCommon

  const KnownCountries: seq<string> := ["USA", "United States", "Australia", "United Kingdom", "GB", "UK", "Canada", "Japan", "China"]

  /** `knownCountries.some(c => last.toLowerCase().includes(c.toLowerCase()))` */
  predicate KnownIn(last: string) {
    exists i :: 0 <= i < |KnownCountries| && Contains(Lower(last), Lower(KnownCountries[i]))
  }

  /** `\s+([A-Z]{2,3})\s+(\d{4,5})$` at the start of t. */
  function Tail(t: string): (r: Option<StateZip>)
    ensures r.Some? ==>
      2 <= |r.value.state| <= 3 && AllUpper(r.value.state)
      && 4 <= |r.value.zip| <= 5 && AllDigits(r.value.zip) && EndsWith(t, r.value.zip)
  {
    var a := Span(t, 0, IsSpace);
    if a == 0 then None
    else
      var r := StateAndZip(t[a..]);
      if r.Some? then EndsWithSlice(t, a, r.value.zip); r
      else r
  }

  /** `([A-Z]{2,3})\s+(\d{4,5})$` */
  function StateAndZip(u: string): (r: Option<StateZip>)
    ensures r.Some? ==>
      2 <= |r.value.state| <= 3 && AllUpper(r.value.state)
      && 4 <= |r.value.zip| <= 5 && AllDigits(r.value.zip) && EndsWith(u, r.value.zip)
  {
    var b := Span(u, 0, IsUpperLetter);
    if b < 2 || b > 3 then None
    else match ZipAfter(u[b..])
      case Some(z) => EndsWithSlice(u, b, z); Some(StateZip(u[..b], z))
      case None => None
  }

  /** `\s+(\d{4,5})$` */
  function ZipAfter(v: string): (r: Option<string>)
    ensures r.Some? ==> 4 <= |r.value| <= 5 && AllDigits(r.value) && EndsWith(v, r.value)
  {
    var c := Span(v, 0, IsSpace);
    if c == 0 then None
    else if 4 <= |v| - c <= 5 && AllDigits(v[c..]) then Some(v[c..])
    else None
  }

  lemma {:induction false} ZipAfterComplete(w: string, zip: string)
    requires w != "" && AllSpace(w) && 4 <= |zip| <= 5 && AllDigits(zip)
    ensures ZipAfter(w + zip) == Some(zip)
  {
    RunPrefix(w, zip, IsSpace);
  }

  lemma {:induction false} StateAndZipComplete(state: string, w: string, zip: string)
    requires w != "" && AllSpace(w) && 2 <= |state| <= 3 && AllUpper(state) && 4 <= |zip| <= 5 && AllDigits(zip)
    ensures StateAndZip(state + (w + zip)) == Some(StateZip(state, zip))
  {
    assert (w + zip)[0] == w[0];
    RunPrefix(state, w + zip, IsUpperLetter);
    ZipAfterComplete(w, zip);
  }

  /** Any tail of that shape is matched, with its own state and zip. */
  lemma {:induction false} TailComplete(w1: string, state: string, w2: string, zip: string)
    requires w1 != "" && AllSpace(w1) && w2 != "" && AllSpace(w2)
    requires 2 <= |state| <= 3 && AllUpper(state) && 4 <= |zip| <= 5 && AllDigits(zip)
    ensures Tail(w1 + state + w2 + zip) == Some(StateZip(state, zip))
  {
    var rest := state + (w2 + zip);
    assert w1 + state + w2 + zip == w1 + rest;
    assert rest[0] == state[0];
    RunPrefix(w1, rest, IsSpace);
    StateAndZipComplete(state, w2, zip);
  }

  /** `str.match(/^(.*?)\s+([A-Z]{2,3})\s+(\d{4,5})$/)`, city trimmed. */
  function CityStateZipOf(str: string): Option<CityStateZip> {
    match FirstFit(str, Tail, 0)
    case Some(l) => Some(CityStateZip(Trim(str[..l]), Tail(str[l..]).value.state, Tail(str[l..]).value.zip))
    case None => None
  }

  /** A line "City ST 12345" yields its state and zip; the city is what
      precedes the first such tail. */
  lemma {:induction false} CityStateZipFound(city: string, w1: string, state: string, w2: string, zip: string)
    requires NoTerminator(city)
    requires w1 != "" && AllSpace(w1) && w2 != "" && AllSpace(w2)
    requires 2 <= |state| <= 3 && AllUpper(state) && 4 <= |zip| <= 5 && AllDigits(zip)
    ensures CityStateZipOf(city + w1 + state + w2 + zip).Some?
  {
    var str := city + w1 + state + w2 + zip;
    assert str[|city|..] == w1 + state + w2 + zip;
    assert str[..|city|] == city;
    TailComplete(w1, state, w2, zip);
  }

  /** The result's state and zip have the pattern's shape. */
  lemma {:induction false} CityStateZipShape(str: string)
    requires CityStateZipOf(str).Some?
    ensures var r := CityStateZipOf(str).value;
      2 <= |r.state| <= 3 && AllUpper(r.state) && 4 <= |r.zip| <= 5 && AllDigits(r.zip) && EndsWith(str, r.zip)
    ensures str != "" && IsDigit(str[|str| - 1])
  {
    var l := FirstFit(str, Tail, 0).value;
    var zip := Tail(str[l..]).value.zip;
    EndsWithSlice(str, l, zip);
    assert str[|str| - 1] == zip[|zip| - 1];
  }

  /** Step 6, US states before Australian ones. */
  function InferCountry(country: string, state: string): string {
    if country == "" && state != "" then
      if Upper(state) in UsStates then "United States"
      else if Upper(state) in AuStates then "Australia"
      else country
    else country
  }

  /** What `parseAddress` returns, the country test given as a parameter so
      that the corrected test below can use the same steps. */
  function Parse(raw: Option<string>, isCountry: string -> bool): Option<Address> {
    if raw.None? || raw.value == "" then None
    else
      var ps := Pieces(raw.value);
      var a := Scan(NameOf(ps), TakeCountry(RestOf(ps), isCountry), CityStateZipOf);
      Some(a.(country := InferCountry(a.country, a.state)))
  }

  /** `parseAddress(rawString)`: `parts` is changed in place and `result`
      filled field by field. */
  /** Step 4: a last part naming a known country becomes the country. */
  method PopCountry(parts: seq<string>) returns (country: string, rest: seq<string>)
    ensures CountryRest(country, rest) == TakeCountry(parts, KnownIn)
  {
    country := "";
    rest := parts;
    if |rest| > 0 {
      var last := rest[|rest| - 1];
      if KnownIn(last) {
        country := last;
        rest := rest[..|rest| - 1];
      }
    }
  }

  /** Step 6: a country inferred from the state when none was found. */
  method FillCountry(a: Address) returns (result: Address)
    ensures result == a.(country := InferCountry(a.country, a.state))
  {
    result := a;
    if result.country == "" && result.state != "" {
      if Upper(result.state) in UsStates {
        result := result.(country := "United States");
      } else if Upper(result.state) in AuStates {
        result := result.(country := "Australia");
      }
    }
  }

  method ParseAddress(raw: Option<string>) returns (r: Option<Address>)
    ensures r == Parse(raw, KnownIn)
  {
    if raw.None? || raw.value == "" {
      return None;
    }
    var name, parts := SplitName(raw.value);
    assert name == NameOf(Pieces(raw.value)) && parts == RestOf(Pieces(raw.value));
    var country, rest := PopCountry(parts);
    var result := ScanParts(name, CountryRest(country, rest), CityStateZipOf);
    result := FillCountry(result);
    return Some(result);
  }

  /** null exactly for a missing or empty string. */
  lemma {:induction false} NullInput(raw: Option<string>, isCountry: string -> bool)
    ensures Parse(raw, isCountry).None? <==> raw.None? || raw.value == ""
  {
  }

  /** A state listed for both countries ("WA") gives the United States. */
  lemma {:induction false} UsBeforeAu(state: string)
    requires state == "WA"
    ensures InferCountry("", state) == "United States"
  {
    assert Upper(state) == state;
    assert UsStates[46] == state;
  }

  /** An Australian state gives Australia; a known country is kept. */
  lemma {:induction false} InferSpec(country: string, state: string)
    ensures country != "" ==> InferCountry(country, state) == country
    ensures state == "" ==> InferCountry(country, state) == country
    ensures country == "" && Upper(state) !in UsStates && Upper(state) in AuStates && state != "" ==>
      InferCountry(country, state) == "Australia"
  {
  }

  // Finding: the substring test takes a city line for the country.

  /** "Milwaukee WI 53202" holds "uk", so as the last part it is taken as
      the country, although it is a city-state-zip line. */
  lemma {:induction false} MilwaukeeIsCountry(last: string)
    requires last == "Milwaukee WI 53202"
    ensures KnownIn(last)
  {
    var low := Lower(last);
    assert last[5] == 'u' && last[6] == 'k';
    assert low[5..7] == "uk";
    var uk := Lower(KnownCountries[5]);
    assert uk == "uk" by {
      assert KnownCountries[5] == "UK";
    }
    ContainsAt(low, uk, 5);
    assert 0 <= 5 < |KnownCountries| && Contains(Lower(last), Lower(KnownCountries[5]));
  }

  /** ... although it is a city-state-zip line. */
  lemma {:induction false} MilwaukeeIsCityLine(city: string, w: string, state: string, zip: string)
    requires city == "Milwaukee" && w == " " && state == "WI" && zip == "53202"
    ensures CityStateZipOf(city + w + state + w + zip).Some?
  {
    assert NoTerminator(city) && AllSpace(w) && AllUpper(state) && AllDigits(zip);
    CityStateZipFound(city, w, state, w, zip);
  }

  /** The whole-word test: the last part is a listed name, or ends with a
      space and one. */
  predicate CorrectedKnownIn(last: string) {
    exists i :: 0 <= i < |KnownCountries| &&
      (Lower(last) == Lower(KnownCountries[i]) || EndsWith(Lower(last), " " + Lower(KnownCountries[i])))
  }

  lemma {:induction false} CountriesEndInLetters(i: nat)
    requires i < |KnownCountries|
    ensures var c := Lower(KnownCountries[i]); c != "" && IsLowerLetter(c[|c| - 1])
  {
    var c := KnownCountries[i];
    assert c != "" && (IsUpperLetter(c[|c| - 1]) || IsLowerLetter(c[|c| - 1]));
  }

  /** With the corrected test a part ending in a digit, as every
      city-state-zip line does, is never taken for the country. */
  lemma {:induction false} CorrectedKeepsZipLines(last: string)
    requires last != "" && IsDigit(last[|last| - 1])
    ensures !CorrectedKnownIn(last)
  {
    var low := Lower(last);
    assert low[|low| - 1] == last[|last| - 1];
    forall i | 0 <= i < |KnownCountries|
      ensures low != Lower(KnownCountries[i]) && !EndsWith(low, " " + Lower(KnownCountries[i]))
    {
      CountriesEndInLetters(i);
      DigitEndNotName(low, Lower(KnownCountries[i]));
    }
  }

  /** So the corrected parse keeps a city line in last place for the
      city-state-zip scan. */
  lemma {:induction false} CorrectedCountry(parts: seq<string>)
    requires parts != [] && CityStateZipOf(parts[|parts| - 1]).Some?
    ensures TakeCountry(parts, CorrectedKnownIn) == CountryRest("", parts)
  {
    var last := parts[|parts| - 1];
    CityStateZipShape(last);
    CorrectedKeepsZipLines(last);
  }
}

module LegacyAddressParser {
  import opened Wrappers
  import opened Text
  import opened AddressCommon

  const KnownCountries: seq<string> := [
    "USA", "United States", "US", "Australia", "AU", "United Kingdom", "Great Britain", "GB", "UK",
    "Canada", "CA", "Japan", "JP", "China", "CN", "Germany", "DE", "France", "FR",
    "Mexico", "MX", "Brazil", "BR", "India", "IN"]

  const CaStates: seq<string> := ["AB", "BC", "MB", "NB", "NL", "NS", "NT", "NU", "ON", "PE", "QC", "SK", "YT"]

  /** `knownCountries.find(c => last === c || last.endsWith(" " + c))`, both
      sides lower-cased. */
  predicate KnownIn(last: string) {
    var low := Lower(Trim(last));
    exists i :: 0 <= i < |KnownCountries| &&
      (low == Lower(KnownCountries[i]) || EndsWith(low, " " + Lower(KnownCountries[i])))
  }

  /** `\s+([A-Za-z]{2,3})\s+(\d{4,9}(-\d{4})?)$` at the start of t. */
  function MainTail(t: string): (r: Option<StateZip>)
    ensures r.Some? ==> 2 <= |r.value.state| <= 3 && AllLetters(r.value.state) && IsZip(r.value.zip) && EndsWith(t, r.value.zip)
  {
    var a := Span(t, 0, IsSpace);
    if a == 0 then None
    else
      var r := StateAndZip(t[a..]);
      if r.Some? then EndsWithSlice(t, a, r.value.zip); r
      else r
  }

  /** `([A-Za-z]{2,3})\s+(\d{4,9}(-\d{4})?)$` */
  function StateAndZip(u: string): (r: Option<StateZip>)
    ensures r.Some? ==> 2 <= |r.value.state| <= 3 && AllLetters(r.value.state) && IsZip(r.value.zip) && EndsWith(u, r.value.zip)
  {
    var b := Span(u, 0, IsLetter);
    if b < 2 || b > 3 then None
    else match ZipAfter(u[b..])
      case Some(z) => EndsWithSlice(u, b, z); Some(StateZip(u[..b], z))
      case None => None
  }

  /** `\d{4,9}(-\d{4})?` */
  predicate IsZip(z: string) {
    var d := Span(z, 0, IsDigit);
    4 <= d <= 9 && (d == |z| || (|z| == d + 5 && z[d] == '-' && AllDigits(z[d + 1..])))
  }

  /** `\s+(\d{4,9}(-\d{4})?)$` */
  function ZipAfter(v: string): (r: Option<string>)
    ensures r.Some? ==> IsZip(r.value) && EndsWith(v, r.value)
  {
    var c := Span(v, 0, IsSpace);
    if c == 0 then None
    else if IsZip(v[c..]) then Some(v[c..])
    else None
  }

  /** Four to nine digits, with or without "-" and four more. */
  lemma {:induction false} IsZipComplete(digits: string, plus4: string)
    requires 4 <= |digits| <= 9 && AllDigits(digits)
    requires plus4 == "" || (|plus4| == 5 && plus4[0] == '-' && AllDigits(plus4[1..]))
    ensures IsZip(digits + plus4)
  {
    RunPrefix(digits, plus4, IsDigit);
    if plus4 != "" {
      assert (digits + plus4)[|digits| + 1..] == plus4[1..];
    }
  }

  lemma {:induction false} StateAndZipComplete(state: string, w: string, zip: string)
    requires w != "" && AllSpace(w) && 2 <= |state| <= 3 && AllLetters(state) && IsZip(zip)
    ensures StateAndZip(state + (w + zip)) == Some(StateZip(state, zip))
  {
    assert (w + zip)[0] == w[0];
    RunPrefix(state, w + zip, IsLetter);
    assert zip != [] && IsDigit(zip[0]);
    RunPrefix(w, zip, IsSpace);
  }

  /** A state of two or three letters in either case and a 4 to 9 digit
      zip, with or without "-dddd", are matched. */
  lemma {:induction false} MainTailComplete(w1: string, state: string, w2: string, zip: string)
    requires w1 != "" && AllSpace(w1) && w2 != "" && AllSpace(w2)
    requires 2 <= |state| <= 3 && AllLetters(state) && IsZip(zip)
    ensures MainTail(w1 + state + w2 + zip) == Some(StateZip(state, zip))
  {
    var rest := state + (w2 + zip);
    assert w1 + state + w2 + zip == w1 + rest;
    assert rest[0] == state[0];
    RunPrefix(w1, rest, IsSpace);
    StateAndZipComplete(state, w2, zip);
  }

  /** `[A-Za-z0-9\s]` */
  predicate IsZipChar(c: char) { IsLetter(c) || IsDigit(c) || IsSpace(c) }

  predicate AllZipChars(s: string) { forall i :: 0 <= i < |s| ==> IsZipChar(s[i]) }

  /** `\s+([A-Za-z0-9\s]{3,10})$` at the start of t: the greedy `\s+` gives
      back white space until the token has at least three characters. */
  function FallbackTail(t: string): (r: Option<string>)
    ensures r.Some? ==> 3 <= |r.value| <= 10 && AllZipChars(r.value) && EndsWith(t, r.value)
  {
    if t == [] || !IsSpace(t[0]) then None
    else
      var w := Span(t, 0, IsSpace);
      var k := if w < |t| - 3 then w else |t| - 3;
      if k < 1 || |t| - k > 10 || !AllZipChars(t[w..]) then None
      else
        assert forall i :: 0 <= i < |t| - k ==> t[k..][i] == t[k + i];
        Some(t[k..])
  }

  /** The first regex, then the fallback with an empty state. */
  function CityStateZipOf(str: string): Option<CityStateZip> {
    match FirstFit(str, MainTail, 0)
    case Some(l) => Some(CityStateZip(Trim(str[..l]), Upper(MainTail(str[l..]).value.state), MainTail(str[l..]).value.zip))
    case None =>
      match FirstFit(str, FallbackTail, 0)
      case Some(l) => Some(CityStateZip(Trim(str[..l]), "", Trim(FallbackTail(str[l..]).value)))
      case None => None
  }

  /** The main pattern upper-cases the state; the fallback leaves it empty
      and keeps a trimmed trailing token of at most ten characters. */
  lemma {:induction false} CityStateZipSpec(str: string)
    ensures FirstFit(str, MainTail, 0).Some? ==>
      CityStateZipOf(str).Some? && |CityStateZipOf(str).value.state| >= 2
      && CityStateZipOf(str).value.state == Upper(MainTail(str[FirstFit(str, MainTail, 0).value..]).value.state)
    ensures FirstFit(str, MainTail, 0).None? && FirstFit(str, FallbackTail, 0).Some? ==>
      CityStateZipOf(str).Some? && CityStateZipOf(str).value.state == "" && |CityStateZipOf(str).value.zip| <= 10
    ensures FirstFit(str, MainTail, 0).None? && FirstFit(str, FallbackTail, 0).None? ==> CityStateZipOf(str).None?
  {
  }

  /** Step 6 with Canada after Australia. */
  function InferCountry(country: string, state: string): string {
    if country == "" && state != "" then
      var upper := Upper(state);
      if upper in UsStates then "United States"
      else if upper in AuStates then "Australia"
      else if upper in CaStates then "Canada"
      else country
    else country
  }

  /** What the legacy `parseAddress` returns. */
  function Parse(raw: Option<string>): Option<Address> {
    if raw.None? || raw.value == "" then None
    else
      var ps := Pieces(raw.value);
      var a := Scan(NameOf(ps), TakeCountry(RestOf(ps), KnownIn), CityStateZipOf);
      Some(a.(country := InferCountry(a.country, a.state)))
  }

  /** The legacy `parseAddress(rawString)`. */
  /** Step 4 with the longer country list. */
  method PopCountry(parts: seq<string>) returns (country: string, rest: seq<string>)
    ensures CountryRest(country, rest) == TakeCountry(parts, KnownIn)
  {
    country := "";
    rest := parts;
    if |rest| > 0 && KnownIn(rest[|rest| - 1]) {
      country := rest[|rest| - 1];
      rest := rest[..|rest| - 1];
    }
  }

  /** Step 6 with Canada after Australia. */
  method FillCountry(a: Address) returns (result: Address)
    ensures result == a.(country := InferCountry(a.country, a.state))
  {
    result := a;
    if result.country == "" && result.state != "" {
      var stateUpper := Upper(result.state);
      if stateUpper in UsStates {
        result := result.(country := "United States");
      } else if stateUpper in AuStates {
        result := result.(country := "Australia");
      } else if stateUpper in CaStates {
        result := result.(country := "Canada");
      }
    }
  }

  method ParseAddress(raw: Option<string>) returns (r: Option<Address>)
    ensures r == Parse(raw)
  {
    if raw.None? || raw.value == "" {
      return None;
    }
    var name, parts := SplitName(raw.value);
    assert name == NameOf(Pieces(raw.value)) && parts == RestOf(Pieces(raw.value));
    var country, rest := PopCountry(parts);
    var result := ScanParts(name, CountryRest(country, rest), CityStateZipOf);
    result := FillCountry(result);
    return Some(result);
  }

  /** null exactly for a missing or empty string. */
  lemma {:induction false} NullInput(raw: Option<string>)
    ensures Parse(raw).None? <==> raw.None? || raw.value == ""
  {
  }

  /** US states come first, so "WA" is Washington, not Western Australia;
      Australia comes before Canada, so a state listed for both is Australian; a
      province listed only for Canada gives Canada. */
  lemma {:induction false} InferOrder(state: string)
    ensures state == "WA" ==> InferCountry("", state) == "United States"
    ensures Upper(state) !in UsStates && Upper(state) in AuStates ==> InferCountry("", state) == "Australia"
    ensures Upper(state) !in UsStates && Upper(state) !in AuStates && Upper(state) in CaStates ==>
      InferCountry("", state) == "Canada"
  {
    if state == "WA" {
      assert Upper(state) == state;
      assert UsStates[46] == state;
    }
    if Upper(state) in AuStates || Upper(state) in CaStates {
      assert |Upper(state)| > 0;
    }
  }

  /** A city line is never taken for the country: it ends in a digit, and
      every listed name ends in a letter. */
  lemma {:induction false} ZipLineNotCountry(last: string)
    requires last != "" && !IsSpace(last[|last| - 1]) && IsDigit(last[|last| - 1])
    ensures !KnownIn(last)
  {
    var t := Trim(last);
    TrimTrimmed(last);
    var low := Lower(t);
    assert low[|low| - 1] == last[|last| - 1];
    forall i | 0 <= i < |KnownCountries|
      ensures low != Lower(KnownCountries[i]) && !EndsWith(low, " " + Lower(KnownCountries[i]))
    {
      CountriesEndInLetters(i);
      DigitEndNotName(low, Lower(KnownCountries[i]));
    }
  }

  /** Every listed country ends in a letter. */
  lemma {:induction false} CountriesEndInLetters(i: nat)
    requires i < |KnownCountries|
    ensures var c := Lower(KnownCountries[i]); c != "" && IsLowerLetter(c[|c| - 1])
  {
    var c := KnownCountries[i];
    assert c != "" && (IsUpperLetter(c[|c| - 1]) || IsLowerLetter(c[|c| - 1]));
  }

  /** Trimming keeps the last character of a part with no trailing space. */
  lemma {:induction false} TrimTrimmed(s: string)
    requires s != "" && !IsSpace(s[|s| - 1])
    ensures Trim(s) != "" && Trim(s)[|Trim(s)| - 1] == s[|s| - 1]
  {
    TrimStartSuffix(s);
    TrimStartKeepsLast(s);
    var t0 := TrimStart(s);
    assert t0[|t0| - 1] == s[|s| - 1];
    assert TrimEnd(t0) == t0;
  }
}
