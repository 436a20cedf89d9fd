// services/ingestion/src/pdf/parser.js: the currency and incoterm rules
// and the invoice number of `parseHeader`, the row filter, section state
// machine, de-duplication, packing candidates and merge of `parseLines`, the
// description token collapse, and the placeholder line and references of
// `parsePdf`. The price-times-quantity search over smashed numbers, the
// noise pattern and the float extraction of a packing row are parameters.

module PdfParser {
  import opened Wrappers
  import opened Text
  import opened Seqs

  // ----- parseHeader -----

  /** `textBlock.includes('USD') || textBlock.includes('$')` */
  function Currency(text: string): (r: string)
    ensures r == "USD" || r == ""
    ensures r == "USD" <==> Contains(text, "USD") || Contains(text, "$")
  {
    if Contains(text, "USD") || Contains(text, "$") then "USD" else ""
  }

  /** A "$" anywhere in the text makes the currency USD. */
  lemma {:induction false} DollarSignMeansUsd(text: string, i: nat)
    requires i < |text| && text[i] == '$'
    ensures Currency(text) == "USD"
  {
    assert text[i..i + 1] == "$";
    ContainsAt(text, "$", i);
  }

  const ValidIncoterms: seq<string> := ["EXW", "FCA", "CPT", "CIP", "DAP", "DPU", "DDP", "FAS", "FOB", "CFR", "CIF", "COLLECT"]

  predicate NamesIncoterm(term: string) {
    exists k :: 0 <= k < |ValidIncoterms| && Contains(Upper(term), ValidIncoterms[k])
  }

  /** The whitelist: an extracted term is kept when its upper-cased form
      contains one of the twelve listed terms, and cleared otherwise. */
  function ValidateIncoterm(term: string): (r: string)
    ensures r == term || r == ""
    ensures r == term <==> term == "" || NamesIncoterm(term)
  {
    if term != "" && !NamesIncoterm(term) then "" else term
  }

  /** Lower case and surrounding words do not matter: "fob shanghai" is
      kept. */
  lemma {:induction false} IncotermInText(term: string)
    requires term == "fob shanghai"
    ensures ValidateIncoterm(term) == term
  {
    var up := Upper(term);
    assert up[..3] == "FOB";
    assert ValidIncoterms[8] == "FOB";
    ContainsAt(up, ValidIncoterms[8], 0);
  }

  /** `textBlock.split('\n').map(l => l.trim()).filter(Boolean)` */
  function HeaderLines(text: string): seq<string> {
    Keep(MapSeq(Trim, Split(text, '\n')), (l: string) => l != "")
  }

  const InvoiceNumberLabel := "invoice number:"

  /** `line.replace(/^invoice number:/i, '').trim()` for a labelled line. */
  function InvoiceNumberIn(line: string): Option<string> {
    var l := Trim(line);
    if StartsWith(Lower(l), InvoiceNumberLabel) then Some(Trim(l[|InvoiceNumberLabel|..])) else None
  }

  /** The last labelled line among the first n decides the number. */
  function InvoiceNumberUpTo(lines: seq<string>, n: nat): string
    requires n <= |lines|
  {
    if n == 0 then ""
    else match InvoiceNumberIn(lines[n - 1])
      case Some(v) => v
      case None => InvoiceNumberUpTo(lines, n - 1)
  }

  /** `header.invoiceNumber` after the scan of the first 60 lines. */
  function InvoiceNumber(text: string): string {
    var lines := HeaderLines(text);
    var relevant := if |lines| <= 60 then lines else lines[..60];
    InvoiceNumberUpTo(relevant, |relevant|)
  }

  /** The scan loop over the header lines, which overwrites the number at
      every labelled line. */
  method ScanInvoiceNumber(text: string) returns (invoiceNumber: string)
    ensures invoiceNumber == InvoiceNumber(text)
  {
    var headerLines := HeaderLines(text);
    var relevant := if |headerLines| <= 60 then headerLines else headerLines[..60];
    invoiceNumber := ScanHeaderLines(relevant);
  }

  /** The header loop over the relevant lines. */
  method ScanHeaderLines(relevant: seq<string>) returns (invoiceNumber: string)
    ensures invoiceNumber == InvoiceNumberUpTo(relevant, |relevant|)
  {
    invoiceNumber := "";
    for i := 0 to |relevant|
      invariant invoiceNumber == InvoiceNumberUpTo(relevant, i)
    {
      var line := Trim(relevant[i]);
      if StartsWith(Lower(line), InvoiceNumberLabel) {
        invoiceNumber := Trim(line[|InvoiceNumberLabel|..]);
      }
    }
  }

  /** Without a labelled line the number is "". */
  lemma {:induction false} NoInvoiceNumber(lines: seq<string>, n: nat)
    requires n <= |lines|
    requires forall j :: 0 <= j < n ==> InvoiceNumberIn(lines[j]).None?
    ensures InvoiceNumberUpTo(lines, n) == ""
  {
    if n > 0 {
      NoInvoiceNumber(lines, n - 1);
    }
  }

  /** The last labelled line wins. */
  lemma {:induction false} LastInvoiceNumberWins(lines: seq<string>, n: nat, j: nat)
    requires j < n <= |lines| && InvoiceNumberIn(lines[j]).Some?
    requires forall k :: j < k < n ==> InvoiceNumberIn(lines[k]).None?
    ensures InvoiceNumberUpTo(lines, n) == InvoiceNumberIn(lines[j]).value
  {
    if j < n - 1 {
      LastInvoiceNumberWins(lines, n - 1, j);
    }
  }

  // ----- parseLines: rows -----

  /** `.filter(p)` */
  function Keep(xs: seq<string>, p: string -> bool): (r: seq<string>)
    ensures |r| <= |xs|
    ensures forall i :: 0 <= i < |r| ==> p(r[i]) && r[i] in xs
    ensures forall x :: x in xs && p(x) ==> x in r
    decreases |xs|
  {
    if xs == [] then []
    else
      var rest := Keep(xs[..|xs| - 1], p);
      var last := xs[|xs| - 1];
      assert forall x :: x in xs ==> x in xs[..|xs| - 1] || x == last;
      if p(last) then rest + [last] else rest
  }

  /** `l && !/^#/.test(l)` */
  predicate IsRow(l: string) { l != "" && l[0] != '#' }

  /** `textBlock.split('\n').map(l => l.trim()).filter(l => l && !/^#/.test(l))` */
  function Rows(text: string): seq<string> {
    Keep(MapSeq(Trim, Split(text, '\n')), IsRow)
  }

  /** Every row is a trimmed non-empty line not starting with "#", and
      every such line of the text is a row. */
  lemma {:induction false} RowsSpec(text: string, line: string)
    ensures line in Rows(text) ==> IsRow(line) && line == Trim(line) && line in MapSeq(Trim, Split(text, '\n'))
    ensures line in MapSeq(Trim, Split(text, '\n')) && IsRow(line) ==> line in Rows(text)
  {
    if line in Rows(text) {
      var ls := MapSeq(Trim, Split(text, '\n'));
      var j :| 0 <= j < |ls| && ls[j] == line;
      MapSeqAt(Trim, Split(text, '\n'), j);
      TrimIdempotent(Split(text, '\n')[j]);
    }
  }

  lemma {:induction false} TrimIdempotent(s: string)
    ensures Trim(Trim(s)) == Trim(s)
  {
    var t := Trim(s);
    if t != [] {
      assert !IsSpace(t[0]) && !IsSpace(t[|t| - 1]);
      TrimStartSuffix(t);
      assert TrimStart(t) == t;
      TrimEndPrefix(t);
      TrimEndNone(t);
    }
  }

  lemma {:induction false} TrimEndNone(t: string)
    requires t != [] && !IsSpace(t[|t| - 1])
    ensures TrimEnd(t) == t
  {
  }

  // ----- parseLines: the state machine -----

  datatype Section = InvoiceSection | PackingSection

  /** Section headings: "PACKING LIST", or "INVOICE" that is not "INVOICE NO"
      or "INVOICE NUMBER". */
  function SectionOf(line: string): Option<Section> {
    if Contains(line, "PACKING LIST") then Some(PackingSection)
    else if Contains(line, "INVOICE") && !Contains(line, "INVOICE NO") && !Contains(line, "INVOICE NUMBER") then Some(InvoiceSection)
    else None
  }

  /** What the price-times-quantity search found at a row: the line's
      fields and how many further rows it used. */
  datatype InvoiceMatch = InvoiceMatch(
    partNumber: string, description: string, qty: nat, total: real, price: real,
    hts: string, poNumber: string, consumed: nat)

  datatype InvoiceLine = InvoiceLine(
    partNumber: string, description: string, quantity: nat, valueUsd: real, unitPrice: real,
    htsCode: string, countryOfOrigin: string, purchaseOrderNumber: string)

  /** `${partNumber}-${qtyCandidate}-${total}` */
  datatype LineKey = LineKey(partNumber: string, qty: nat, total: real)

  function KeyOf(m: InvoiceMatch): LineKey { LineKey(m.partNumber, m.qty, m.total) }

  function LineKeyOf(l: InvoiceLine): LineKey { LineKey(l.partNumber, l.quantity, l.valueUsd) }

  /** The pushed invoice line. */
  function MakeLine(m: InvoiceMatch): (r: InvoiceLine)
    ensures LineKeyOf(r) == KeyOf(m)
    ensures r.description != "" && r.countryOfOrigin == "GB"
  {
    InvoiceLine(m.partNumber, if m.description == "" then "Description" else m.description,
      m.qty, m.total, m.price, m.hts, "GB", m.poNumber)
  }

  datatype Candidate = Candidate(qty: int, net: real, gross: real)

  datatype PackingLine = PackingLine(partNumber: string, candidates: seq<Candidate>)

  /** The parts of the state machine left to parameters: `noiseRegex`, the
      invoice search of one row and the floats of a packing row after the
      HTS codes are blanked and smashed floats split. */
  datatype Heuristics = Heuristics(
    isNoise: string -> bool,
    matchAt: (seq<string>, nat) -> Option<InvoiceMatch>,
    floatsOf: string -> seq<real>)

  datatype State = State(section: Section, seen: set<LineKey>, invoice: seq<InvoiceLine>, packing: seq<PackingLine>)

  const Start := State(InvoiceSection, {}, [], [])

  /** `if (!seenInvoiceKeys.has(lineKey)) { add; push }` */
  function Record(st: State, m: InvoiceMatch): State {
    if KeyOf(m) in st.seen then st
    else st.(seen := st.seen + {KeyOf(m)}, invoice := st.invoice + [MakeLine(m)])
  }

  // A packing part number `/(\d{5}-\d{4})/`.

  predicate PartAt(line: string, j: nat) {
    j + 10 <= |line| && AllDigits(line[j..j + 5]) && line[j + 5] == '-' && AllDigits(line[j + 6..j + 10])
  }

  function FindPart(line: string, from: nat): (r: Option<nat>)
    ensures r.Some? ==> from <= r.value && PartAt(line, r.value) && forall j :: from <= j < r.value ==> !PartAt(line, j)
    ensures r.None? ==> forall j :: from <= j ==> !PartAt(line, j)
    decreases |line| - from
  {
    if from + 10 > |line| then None
    else if PartAt(line, from) then Some(from)
    else FindPart(line, from + 1)
  }

  // Packing candidates from the six rows after a part number.

  /** `Math.round` */
  function Round(v: real): int { (v + 0.5).Floor }

  /** `Math.abs(v - Math.round(v)) < 0.001` */
  predicate IsWhole(v: real) { -0.001 < v - Round(v) as real < 0.001 }

  /** `vals.findIndex(...)` */
  function FirstWhole(vals: seq<real>): (r: Option<nat>)
    ensures r.Some? ==> r.value < |vals| && IsWhole(vals[r.value]) && forall j :: 0 <= j < r.value ==> !IsWhole(vals[j])
    ensures r.None? ==> forall j :: 0 <= j < |vals| ==> !IsWhole(vals[j])
    decreases |vals|
  {
    if vals == [] then None
    else if IsWhole(vals[0]) then Some(0)
    else match FirstWhole(vals[1..])
      case Some(j) => Some(j + 1)
      case None => None
  }

  function MinOf(xs: seq<real>): (m: real)
    requires |xs| >= 1
    ensures m in xs && forall x :: x in xs ==> m <= x
    decreases |xs|
  {
    if |xs| == 1 then xs[0]
    else
      var rest := MinOf(xs[..|xs| - 1]);
      assert forall x :: x in xs ==> x in xs[..|xs| - 1] || x == xs[|xs| - 1];
      if xs[|xs| - 1] < rest then xs[|xs| - 1] else rest
  }

  function MaxOf(xs: seq<real>): (m: real)
    requires |xs| >= 1
    ensures m in xs && forall x :: x in xs ==> x <= m
    decreases |xs|
  {
    if |xs| == 1 then xs[0]
    else
      var rest := MaxOf(xs[..|xs| - 1]);
      assert forall x :: x in xs ==> x in xs[..|xs| - 1] || x == xs[|xs| - 1];
      if xs[|xs| - 1] > rest then xs[|xs| - 1] else rest
  }

  /** `vals.filter((_, idx) => idx !== qtyIndex)` */
  function Without(vals: seq<real>, q: nat): (r: seq<real>)
    requires q < |vals|
    ensures |r| == |vals| - 1
    ensures forall j :: 0 <= j < |vals| && j != q ==> vals[j] in r
    ensures forall x :: x in r ==> x in vals
  {
    var r := vals[..q] + vals[q + 1..];
    assert forall j :: 0 <= j < |vals| && j != q ==> vals[j] == r[if j < q then j else j - 1];
    r
  }

  /** One row's candidate: three or more floats, the first whole one the
      quantity, the least and greatest of the others net and gross. */
  function CandidateOf(vals: seq<real>): Option<Candidate> {
    if |vals| < 3 then None
    else match FirstWhole(vals)
      case None => None
      case Some(q) =>
        var weights := Without(vals, q);
        Some(Candidate(Round(vals[q]), MinOf(weights), MaxOf(weights)))
  }

  lemma {:induction false} WithoutAt(vals: seq<real>, q: nat, i: nat)
    requires q < |vals| && i < |vals| - 1
    ensures Without(vals, q)[i] == vals[if i < q then i else i + 1]
  {
  }

  /** Net is the least and gross the greatest of the floats other than the
      quantity, so net <= gross and every other float lies between. */
  lemma {:induction false} CandidateSpec(vals: seq<real>, c: Candidate)
    requires CandidateOf(vals) == Some(c)
    ensures FirstWhole(vals).Some? && c.qty == Round(vals[FirstWhole(vals).value])
    ensures c.net <= c.gross
    ensures forall j :: 0 <= j < |vals| && j != FirstWhole(vals).value ==> c.net <= vals[j] <= c.gross
    ensures exists j :: 0 <= j < |vals| && j != FirstWhole(vals).value && vals[j] == c.net
    ensures exists j :: 0 <= j < |vals| && j != FirstWhole(vals).value && vals[j] == c.gross
  {
    var q := FirstWhole(vals).value;
    var w := Without(vals, q);
    assert c.net == MinOf(w) && c.gross == MaxOf(w);
    assert w[0] in w;
    var i :| 0 <= i < |w| && w[i] == c.net;
    var k :| 0 <= k < |w| && w[k] == c.gross;
    WithoutAt(vals, q, i);
    WithoutAt(vals, q, k);
  }

  /** How many rows after a part number are searched for floats. */
  const LookAhead: nat := 6

  /** The candidate of one packing row. */
  function RowCandidate(floatsOf: string -> seq<real>): string -> Option<Candidate> {
    (row: string) => CandidateOf(floatsOf(row))
  }

  /** The candidates from rows i+1 .. i+k, as far as the rows go. */
  function CandidatesUpTo(rows: seq<string>, i: nat, candidateOf: string -> Option<Candidate>, k: nat): seq<Candidate>
  {
    if k == 0 then []
    else
      var before := CandidatesUpTo(rows, i, candidateOf, k - 1);
      if i + k >= |rows| then before
      else match candidateOf(rows[i + k])
        case Some(c) => before + [c]
        case None => before
  }

  /** The six-row look-ahead loop with its `break` at the end of the rows. */
  method PackingCandidates(rows: seq<string>, i: nat, candidateOf: string -> Option<Candidate>) returns (candidates: seq<Candidate>)
    ensures candidates == CandidatesUpTo(rows, i, candidateOf, LookAhead)
  {
    candidates := [];
    var k := 1;
    while k <= LookAhead
      invariant 1 <= k <= LookAhead + 1
      invariant candidates == CandidatesUpTo(rows, i, candidateOf, k - 1)
    {
      if i + k >= |rows| {
        PastEnd(rows, i, candidateOf, k - 1, LookAhead);
        return;
      }
      var c := candidateOf(rows[i + k]);
      if c.Some? {
        candidates := candidates + [c.value];
      }
      k := k + 1;
    }
  }

  /** Rows past the end add no candidate. */
  lemma {:induction false} PastEnd(rows: seq<string>, i: nat, candidateOf: string -> Option<Candidate>, k: nat, n: nat)
    requires k <= n && i + k + 1 >= |rows|
    ensures CandidatesUpTo(rows, i, candidateOf, n) == CandidatesUpTo(rows, i, candidateOf, k)
    decreases n - k
  {
    if k < n {
      PastEnd(rows, i, candidateOf, k, n - 1);
    }
  }

  /** One pass of the loop body at row i: the next row index and state. A
      heading switches the section; a noise row is skipped; in the invoice
      section a match is recorded and the rows it used are skipped; in the
      packing section a part number with candidates adds a packing line.
      Its own contract gives progress; StepKeeps and RunDedup state what it
      does to the parsed lines. */
  function Step(rows: seq<string>, i: nat, st: State, h: Heuristics): (r: (nat, State))
    requires i < |rows|
    ensures i < r.0
  {
    var line := rows[i];
    match SectionOf(line)
    case Some(s) => (i + 1, st.(section := s))
    case None =>
      if h.isNoise(line) then (i + 1, st)
      else if st.section == InvoiceSection then
        match h.matchAt(rows, i)
        case Some(m) => (i + m.consumed + 1, Record(st, m))
        case None => (i + 1, st)
      else
        match FindPart(line, 0)
        case Some(j) =>
          var candidates := CandidatesUpTo(rows, i, RowCandidate(h.floatsOf), LookAhead);
          (i + 1, if candidates == [] then st else st.(packing := st.packing + [PackingLine(line[j..j + 10], candidates)]))
        case None => (i + 1, st)
  }

  /** The loop over the rows from i on. */
  function Run(rows: seq<string>, i: nat, st: State, h: Heuristics): State
    decreases |rows| - i
  {
    if i >= |rows| then st
    else
      var next := Step(rows, i, st, h);
      Run(rows, next.0, next.1, h)
  }

  /** The seen keys are the keys of the pushed lines, and no key is pushed
      twice. */
  predicate Dedup(st: State) {
    && st.seen == (set l | l in st.invoice :: LineKeyOf(l))
    && forall a, b :: 0 <= a < b < |st.invoice| ==> LineKeyOf(st.invoice[a]) != LineKeyOf(st.invoice[b])
  }

  lemma {:induction false} RecordKeeps(st: State, m: InvoiceMatch)
    requires Dedup(st)
    ensures Dedup(Record(st, m))
    ensures KeyOf(m) in Record(st, m).seen
    ensures |Record(st, m).invoice| == |st.invoice| + (if KeyOf(m) in st.seen then 0 else 1)
  {
    if KeyOf(m) !in st.seen {
      var inv := st.invoice + [MakeLine(m)];
      assert forall l :: l in inv <==> l in st.invoice || l == MakeLine(m);
      assert (set l | l in inv :: LineKeyOf(l)) == (set l | l in st.invoice :: LineKeyOf(l)) + {KeyOf(m)};
      forall a, b | 0 <= a < b < |inv|
        ensures LineKeyOf(inv[a]) != LineKeyOf(inv[b])
      {
        if b == |st.invoice| {
          assert inv[a] in st.invoice;
        }
      }
    }
  }

  /** A step keeps the de-duplication invariant, keeps the lines already
      pushed in their places, and forgets no key. */
  lemma {:induction false} StepKeeps(rows: seq<string>, i: nat, st: State, h: Heuristics)
    requires i < |rows|
    ensures Dedup(st) ==> Dedup(Step(rows, i, st, h).1)
    ensures var n := Step(rows, i, st, h).1;
      |st.invoice| <= |n.invoice| && n.invoice[..|st.invoice|] == st.invoice
      && |st.packing| <= |n.packing| && n.packing[..|st.packing|] == st.packing
      && st.seen <= n.seen
  {
    var line := rows[i];
    if SectionOf(line).None? && !h.isNoise(line) && st.section == InvoiceSection && h.matchAt(rows, i).Some? {
      var m := h.matchAt(rows, i).value;
      if Dedup(st) {
        RecordKeeps(st, m);
      }
      assert Record(st, m).invoice[..|st.invoice|] == st.invoice;
    } else {
      var n := Step(rows, i, st, h).1;
      assert n.packing[..|st.packing|] == st.packing;
    }
  }

  /** De-duplication holds for the whole loop: the invoice lines have
      pairwise distinct keys `partNumber-qty-total`. */
  lemma {:induction false} RunDedup(rows: seq<string>, i: nat, st: State, h: Heuristics)
    requires Dedup(st)
    ensures Dedup(Run(rows, i, st, h))
    decreases |rows| - i
  {
    if i < |rows| {
      var next := Step(rows, i, st, h);
      StepKeeps(rows, i, st, h);
      RunDedup(rows, next.0, next.1, h);
    }
  }

  /** A line once pushed stays, in its place. */
  lemma {:induction false} RunExtends(rows: seq<string>, i: nat, st: State, h: Heuristics)
    ensures |st.invoice| <= |Run(rows, i, st, h).invoice| && Run(rows, i, st, h).invoice[..|st.invoice|] == st.invoice
    ensures |st.packing| <= |Run(rows, i, st, h).packing| && Run(rows, i, st, h).packing[..|st.packing|] == st.packing
    ensures st.seen <= Run(rows, i, st, h).seen
    decreases |rows| - i
  {
    if i < |rows| {
      var next := Step(rows, i, st, h);
      var r := Run(rows, i, st, h);
      StepKeeps(rows, i, st, h);
      RunExtends(rows, next.0, next.1, h);
      PrefixOfPrefix(r.invoice, next.1.invoice, st.invoice);
      PrefixOfPrefix(r.packing, next.1.packing, st.packing);
    }
  }

  lemma {:induction false} PrefixOfPrefix<T>(c: seq<T>, b: seq<T>, a: seq<T>)
    requires |b| <= |c| && c[..|b|] == b && |a| <= |b| && b[..|a|] == a
    ensures c[..|a|] == a
  {
    assert c[..|a|] == c[..|b|][..|a|];
  }

  // ----- parseLines: the merge -----

  /** `packingLines.find(p => p.partNumber === invLine.partNumber)` */
  function FindPacking(packing: seq<PackingLine>, part: string): (r: Option<nat>)
    ensures r.Some? ==> (r.value < |packing| && packing[r.value].partNumber == part
      && forall j :: 0 <= j < r.value ==> packing[j].partNumber != part)
    ensures r.None? ==> forall j :: 0 <= j < |packing| ==> packing[j].partNumber != part
    decreases |packing|
  {
    if packing == [] then None
    else if packing[0].partNumber == part then Some(0)
    else match FindPacking(packing[1..], part)
      case Some(j) => Some(j + 1)
      case None => None
  }

  /** `packLine.candidates.find(c => c.qty === invLine.quantity)` */
  function FindCandidate(candidates: seq<Candidate>, qty: int): (r: Option<nat>)
    ensures r.Some? ==> (r.value < |candidates| && candidates[r.value].qty == qty
      && forall j :: 0 <= j < r.value ==> candidates[j].qty != qty)
    ensures r.None? ==> forall j :: 0 <= j < |candidates| ==> candidates[j].qty != qty
    decreases |candidates|
  {
    if candidates == [] then None
    else if candidates[0].qty == qty then Some(0)
    else match FindCandidate(candidates[1..], qty)
      case Some(j) => Some(j + 1)
      case None => None
  }

  datatype MergedLine = MergedLine(line: InvoiceLine, netWeightKg: real, grossWeightKg: real)

  function MergeLine(packing: seq<PackingLine>, inv: InvoiceLine): MergedLine {
    match FindPacking(packing, inv.partNumber)
    case None => MergedLine(inv, 0.0, 0.0)
    case Some(p) =>
      var cands := packing[p].candidates;
      match FindCandidate(cands, inv.quantity)
      case Some(c) => MergedLine(inv, cands[c].net, cands[c].gross)
      case None =>
        if |cands| == 1 then MergedLine(inv, cands[0].net, cands[0].gross)
        else MergedLine(inv, 0.0, 0.0)
  }

  /** One merged line per invoice line, in order, with the invoice fields
      unchanged. */
  function Merge(invoice: seq<InvoiceLine>, packing: seq<PackingLine>): (r: seq<MergedLine>)
    ensures |r| == |invoice| && forall i :: 0 <= i < |r| ==> r[i].line == invoice[i]
  {
    seq(|invoice|, i requires 0 <= i < |invoice| => MergeLine(packing, invoice[i]))
  }

  /** The first packing line with the part number and its first candidate
      with the same quantity give the weights. */
  lemma {:induction false} MergeMatchedQuantity(packing: seq<PackingLine>, inv: InvoiceLine, p: nat, c: nat)
    requires p < |packing| && packing[p].partNumber == inv.partNumber
    requires forall q :: 0 <= q < p ==> packing[q].partNumber != inv.partNumber
    requires c < |packing[p].candidates| && packing[p].candidates[c].qty == inv.quantity
    requires forall d :: 0 <= d < c ==> packing[p].candidates[d].qty != inv.quantity
    ensures MergeLine(packing, inv) == MergedLine(inv, packing[p].candidates[c].net, packing[p].candidates[c].gross)
  {
    assert FindPacking(packing, inv.partNumber) == Some(p);
    assert FindCandidate(packing[p].candidates, inv.quantity) == Some(c);
  }

  /** Without a candidate of the same quantity, a packing line with a single
      candidate still gives its weights, and one with several gives 0 and 0. */
  lemma {:induction false} MergeOtherQuantity(packing: seq<PackingLine>, inv: InvoiceLine, p: nat)
    requires p < |packing| && packing[p].partNumber == inv.partNumber
    requires forall q :: 0 <= q < p ==> packing[q].partNumber != inv.partNumber
    requires forall d :: 0 <= d < |packing[p].candidates| ==> packing[p].candidates[d].qty != inv.quantity
    ensures |packing[p].candidates| == 1 ==>
      MergeLine(packing, inv) == MergedLine(inv, packing[p].candidates[0].net, packing[p].candidates[0].gross)
    ensures |packing[p].candidates| != 1 ==> MergeLine(packing, inv) == MergedLine(inv, 0.0, 0.0)
  {
    assert FindPacking(packing, inv.partNumber) == Some(p);
  }

  /** A part number absent from any packing list gets weights 0 and 0. */
  lemma {:induction false} MergeUnpacked(packing: seq<PackingLine>, inv: InvoiceLine)
    requires forall q :: 0 <= q < |packing| ==> packing[q].partNumber != inv.partNumber
    ensures MergeLine(packing, inv) == MergedLine(inv, 0.0, 0.0)
  {
    assert FindPacking(packing, inv.partNumber).None?;
  }

  /** `parseLines(textBlock)` */
  function ParseLines(text: string, h: Heuristics): seq<MergedLine> {
    var st := Run(Rows(text), 0, Start, h);
    Merge(st.invoice, st.packing)
  }

  /** The loop of `parseLines`, with `i`, `currentSection`, `seenInvoiceKeys`
      and the two arrays as variables. */
  method ParseLinesLoop(text: string, h: Heuristics) returns (merged: seq<MergedLine>)
    ensures merged == ParseLines(text, h)
  {
    var rows := Rows(text);
    var invoiceLines, packingLines := ParseRows(rows, h);
    merged := Merge(invoiceLines, packingLines);
  }

  /** The row loop of `parseLines`. */
  method ParseRows(rows: seq<string>, h: Heuristics) returns (invoiceLines: seq<InvoiceLine>, packingLines: seq<PackingLine>)
    ensures invoiceLines == Run(rows, 0, Start, h).invoice && packingLines == Run(rows, 0, Start, h).packing
  {
    var currentSection := InvoiceSection;
    invoiceLines := [];
    packingLines := [];
    var seenInvoiceKeys: set<LineKey> := {};
    var i := 0;
    while i < |rows|
      invariant Run(rows, i, State(currentSection, seenInvoiceKeys, invoiceLines, packingLines), h) == Run(rows, 0, Start, h)
      decreases |rows| - i
    {
      ghost var before := State(currentSection, seenInvoiceKeys, invoiceLines, packingLines);
      ghost var i0 := i;
      var line := rows[i];
      var section := SectionOf(line);
      if section.Some? {
        currentSection := section.value;
        i := i + 1;
      } else if h.isNoise(line) {
        i := i + 1;
      } else if currentSection == InvoiceSection {
        var found := h.matchAt(rows, i);
        if found.Some? {
          var m := found.value;
          var lineKey := KeyOf(m);
          if lineKey !in seenInvoiceKeys {
            seenInvoiceKeys := seenInvoiceKeys + {lineKey};
            invoiceLines := invoiceLines + [MakeLine(m)];
          }
          i := i + m.consumed;
        }
        i := i + 1;
      } else {
        var partMatch := FindPart(line, 0);
        if partMatch.Some? {
          var partNumber := line[partMatch.value..partMatch.value + 10];
          var candidates := PackingCandidates(rows, i, RowCandidate(h.floatsOf));
          if |candidates| > 0 {
            packingLines := packingLines + [PackingLine(partNumber, candidates)];
          }
        }
        i := i + 1;
      }
      assert (i, State(currentSection, seenInvoiceKeys, invoiceLines, packingLines)) == Step(rows, i0, before, h);
    }
  }

  /** The parsed invoice lines never repeat a key. */
  lemma {:induction false} ParsedKeysDistinct(text: string, h: Heuristics)
    ensures var st := Run(Rows(text), 0, Start, h);
      forall a, b :: 0 <= a < b < |st.invoice| ==> LineKeyOf(st.invoice[a]) != LineKeyOf(st.invoice[b])
  {
    assert Start.seen == set l | l in Start.invoice :: LineKeyOf(l);
    RunDedup(Rows(text), 0, Start, h);
  }

  // ----- token collapse of the description -----

  /** `t.replace(/[,;]$/, '')` */
  function CleanToken(t: string): (r: string)
    ensures |r| <= |t| && t[..|r|] == r
  {
    if t != [] && (t[|t| - 1] == ',' || t[|t| - 1] == ';') then t[..|t| - 1] else t
  }

  /** Two tokens overlap when one contains the other. */
  predicate Overlap(last: string, clean: string) { Contains(last, clean) || Contains(clean, last) }

  /** One token of the loop: a token overlapping the last kept one replaces
      it, cleaned, when it is longer and is dropped otherwise; any other
      token is kept as it is. */
  function Absorb(kept: seq<string>, t: string): (r: seq<string>)
    ensures r != [] && |kept| <= |r| <= |kept| + 1
  {
    var clean := CleanToken(t);
    if kept != [] && Overlap(kept[|kept| - 1], clean) then
      if |clean| > |kept[|kept| - 1]| then kept[..|kept| - 1] + [clean] else kept
    else kept + [t]
  }

  /** `uniqueTokens` after the tokens so far. */
  function Collapse(tokens: seq<string>): (r: seq<string>)
    ensures |r| <= |tokens|
    ensures tokens != [] <==> r != []
    decreases |tokens|
  {
    if tokens == [] then [] else Absorb(Collapse(tokens[..|tokens| - 1]), tokens[|tokens| - 1])
  }

  /** The body of the token loop: `continue` after an overlap, else push. */
  method AbsorbToken(uniqueTokens: seq<string>, t: string) returns (kept: seq<string>)
    ensures kept == Absorb(uniqueTokens, t)
  {
    kept := uniqueTokens;
    var cleanT := CleanToken(t);
    if |kept| > 0 {
      var last := kept[|kept| - 1];
      if Contains(last, cleanT) || Contains(cleanT, last) {
        if |cleanT| > |last| {
          UpdateLast(kept, cleanT);
          kept := kept[|kept| - 1 := cleanT];
        }
        return;
      }
    }
    kept := kept + [t];
  }

  /** The token loop of the description cleanup. */
  method CollapseTokens(tokens: seq<string>) returns (uniqueTokens: seq<string>)
    ensures uniqueTokens == Collapse(tokens)
  {
    uniqueTokens := [];
    for n := 0 to |tokens|
      invariant uniqueTokens == Collapse(tokens[..n])
    {
      CollapseStep(tokens, n);
      uniqueTokens := AbsorbToken(uniqueTokens, tokens[n]);
    }
    assert tokens[..|tokens|] == tokens;
  }

  lemma {:induction false} UpdateLast<T>(xs: seq<T>, x: T)
    requires xs != []
    ensures xs[|xs| - 1 := x] == xs[..|xs| - 1] + [x]
  {
  }

  lemma {:induction false} CollapseStep(tokens: seq<string>, n: nat)
    requires n < |tokens|
    ensures Collapse(tokens[..n + 1]) == Absorb(Collapse(tokens[..n]), tokens[n])
  {
    assert tokens[..n + 1][..n] == tokens[..n];
  }

  lemma {:induction false} ContainsSelf(s: string)
    ensures Contains(s, s)
  {
    assert s[0..|s|] == s;
    ContainsAt(s, s, 0);
  }

  /** After each token the last kept token is that token, or overlaps its
      cleaned form and is at least as long. */
  lemma {:induction false} AbsorbLast(kept: seq<string>, t: string)
    ensures var r := Absorb(kept, t); var last := r[|r| - 1];
      last == t || (Overlap(last, CleanToken(t)) && |CleanToken(t)| <= |last|)
  {
    var clean := CleanToken(t);
    if kept != [] && Overlap(kept[|kept| - 1], clean) && |clean| > |kept[|kept| - 1]| {
      ContainsSelf(clean);
    }
  }

  /** Every kept token is a token of the input, or one with its trailing
      "," or ";" removed. */
  lemma {:induction false} CollapseFromInput(tokens: seq<string>)
    ensures forall x :: x in Collapse(tokens) ==> exists k :: 0 <= k < |tokens| && (x == tokens[k] || x == CleanToken(tokens[k]))
    decreases |tokens|
  {
    if tokens != [] {
      var init := tokens[..|tokens| - 1];
      CollapseFromInput(init);
      var acc := Collapse(init);
      var r := Collapse(tokens);
      forall x | x in r
        ensures exists k :: 0 <= k < |tokens| && (x == tokens[k] || x == CleanToken(tokens[k]))
      {
        var i :| 0 <= i < |r| && r[i] == x;
        if i < |r| - 1 {
          assert x in acc;
          var k :| 0 <= k < |init| && (x == init[k] || x == CleanToken(init[k]));
          assert tokens[k] == init[k];
        } else if x != tokens[|tokens| - 1] && x != CleanToken(tokens[|tokens| - 1]) {
          assert x == acc[|acc| - 1];
          assert x in acc;
          var k :| 0 <= k < |init| && (x == init[k] || x == CleanToken(init[k]));
          assert tokens[k] == init[k];
        }
      }
    }
  }

  /** Two adjacent equal tokens collapse to one; and a token that contains
      the kept one replaces it. */
  lemma {:induction false} CollapseExamples(a: string, b: string)
    requires a != "" && a[|a| - 1] != ',' && a[|a| - 1] != ';'
    requires b == a + "X"
    ensures Collapse([a, a]) == [a]
    ensures Collapse([a, b]) == [b]
  {
    assert CleanToken(a) == a;
    assert [a, a][..1] == [a];
    assert [a][..0] == [];
    ContainsSelf(a);
    assert b[|b| - 1] == 'X';
    assert CleanToken(b) == b;
    assert [a, b][..1] == [a];
    assert b[0..|a|] == a;
    ContainsAt(b, a, 0);
  }

  // ----- parsePdf -----

  /** A document line: a merged line, or the placeholder pushed when no
      line was found. */
  datatype DocLine = Parsed(merged: MergedLine) | Placeholder

  const PlaceholderPart := "PARSING_CHECK"

  function PoOf(l: DocLine): string {
    match l
    case Parsed(m) => m.line.purchaseOrderNumber
    case Placeholder => ""
  }

  /** `if (rawDoc.lines.length === 0) rawDoc.lines.push({ partNumber: "PARSING_CHECK", ... })` */
  function DocLines(merged: seq<MergedLine>): (r: seq<DocLine>)
    ensures |r| >= 1
    ensures merged == [] ==> r == [Placeholder]
    ensures merged != [] ==> |r| == |merged| && forall i :: 0 <= i < |r| ==> r[i] == Parsed(merged[i])
  {
    if merged == [] then [Placeholder]
    else seq(|merged|, i requires 0 <= i < |merged| => Parsed(merged[i]))
  }

  datatype RefKind = InvoiceRef | PoRef

  datatype Reference = Reference(kind: RefKind, value: string)

  /** `lines.map(l => l.purchaseOrderNumber)` */
  function PosOf(lines: seq<DocLine>): (r: seq<string>)
    ensures |r| == |lines|
  {
    seq(|lines|, k requires 0 <= k < |lines| => PoOf(lines[k]))
  }

  /** The distinct non-empty POs in first-seen order. */
  function DistinctPos(pos: seq<string>): seq<string>
    decreases |pos|
  {
    if pos == [] then []
    else
      var d := DistinctPos(pos[..|pos| - 1]);
      var p := pos[|pos| - 1];
      if p == "" || p in d then d else d + [p]
  }

  /** Every distinct PO is a non-empty PO of the input, every non-empty PO of
      the input is there, and none twice. */
  lemma {:induction false} DistinctPosSpec(pos: seq<string>)
    ensures forall i :: 0 <= i < |DistinctPos(pos)| ==> DistinctPos(pos)[i] != "" && DistinctPos(pos)[i] in pos
    ensures forall p :: p in pos && p != "" ==> p in DistinctPos(pos)
    ensures forall a, b :: 0 <= a < b < |DistinctPos(pos)| ==> DistinctPos(pos)[a] != DistinctPos(pos)[b]
    decreases |pos|
  {
    if pos != [] {
      var init := pos[..|pos| - 1];
      DistinctPosSpec(init);
      assert forall x :: x in pos ==> x in init || x == pos[|pos| - 1];
    }
  }

  /** First-seen order: the distinct POs of a prefix of the input are a
      prefix of the distinct POs of the whole. */
  lemma {:induction false} DistinctPosPrefix(pos: seq<string>, k: nat)
    requires k <= |pos|
    ensures var d := DistinctPos(pos[..k]); var e := DistinctPos(pos);
      |d| <= |e| && e[..|d|] == d
    decreases |pos| - k
  {
    if k < |pos| {
      var n := |pos| - 1;
      assert pos[..n][..k] == pos[..k];
      DistinctPosPrefix(pos[..n], k);
      PrefixOfPrefix(DistinctPos(pos), DistinctPos(pos[..n]), DistinctPos(pos[..k]));
    } else {
      assert pos[..k] == pos;
    }
  }

  /** One PO reference per PO, in order. */
  function PoRefs(pos: seq<string>): (r: seq<Reference>)
    ensures |r| == |pos| && forall j :: 0 <= j < |r| ==> r[j] == Reference(PoRef, pos[j])
    decreases |pos|
  {
    if pos == [] then [] else PoRefs(pos[..|pos| - 1]) + [Reference(PoRef, pos[|pos| - 1])]
  }

  function InvoiceRefs(invoiceNumber: string): seq<Reference> {
    if invoiceNumber != "" then [Reference(InvoiceRef, invoiceNumber)] else []
  }

  function References(invoiceNumber: string, lines: seq<DocLine>): seq<Reference> {
    InvoiceRefs(invoiceNumber) + PoRefs(DistinctPos(PosOf(lines)))
  }

  /** The references loop with its `uniquePOs` set. */
  method ExtractReferences(invoiceNumber: string, lines: seq<DocLine>) returns (references: seq<Reference>)
    ensures references == References(invoiceNumber, lines)
  {
    references := [];
    if invoiceNumber != "" {
      references := references + [Reference(InvoiceRef, invoiceNumber)];
    }
    references := PushPoReferences(lines, references);
  }

  /** The `forEach` over the lines that pushes each new PO once. */
  method PushPoReferences(lines: seq<DocLine>, head: seq<Reference>) returns (references: seq<Reference>)
    ensures references == head + PoRefs(DistinctPos(PosOf(lines)))
  {
    references := head;
    var uniquePOs: set<string> := {};
    ghost var pos := PosOf(lines);
    ghost var d: seq<string> := [];
    for k := 0 to |lines|
      invariant d == DistinctPos(pos[..k])
      invariant forall p :: p in uniquePOs <==> p in d
      invariant references == head + PoRefs(d)
    {
      var po := PoOf(lines[k]);
      DistinctPosStep(pos, k, d, uniquePOs);
      if po != "" && po !in uniquePOs {
        uniquePOs := uniquePOs + {po};
        ConcatAssoc(head, PoRefs(d), [Reference(PoRef, po)]);
        references := references + [Reference(PoRef, po)];
        d := d + [po];
      }
    }
    assert pos[..|lines|] == pos;
  }

  /** One step of the references loop, with the set tracking the POs seen. */
  lemma {:induction false} DistinctPosStep(pos: seq<string>, k: nat, d: seq<string>, seen: set<string>)
    requires k < |pos| && d == DistinctPos(pos[..k])
    requires forall p :: p in seen <==> p in d
    ensures pos[k] != "" && pos[k] !in seen ==>
      DistinctPos(pos[..k + 1]) == d + [pos[k]] && PoRefs(d + [pos[k]]) == PoRefs(d) + [Reference(PoRef, pos[k])]
    ensures !(pos[k] != "" && pos[k] !in seen) ==> DistinctPos(pos[..k + 1]) == d
  {
    assert pos[..k + 1][..k] == pos[..k];
    assert (d + [pos[k]])[..|d|] == d;
  }

  /** The invoice number, when present, is the first reference. */
  lemma {:induction false} InvoiceReferenceFirst(invoiceNumber: string, lines: seq<DocLine>)
    ensures var refs := References(invoiceNumber, lines);
      invoiceNumber != "" <==> refs != [] && refs[0] == Reference(InvoiceRef, invoiceNumber)
  {
    var refs := References(invoiceNumber, lines);
    var tail := PoRefs(DistinctPos(PosOf(lines)));
    if invoiceNumber == "" && refs != [] {
      assert refs[0] == tail[0];
    }
  }

  /** Every non-empty PO of the lines has a reference. */
  lemma {:induction false} PoReferenced(invoiceNumber: string, lines: seq<DocLine>, k: nat)
    requires k < |lines| && PoOf(lines[k]) != ""
    ensures Reference(PoRef, PoOf(lines[k])) in References(invoiceNumber, lines)
  {
    var pos := PosOf(lines);
    var d := DistinctPos(pos);
    DistinctPosSpec(pos);
    assert pos[k] in pos;
    var j :| 0 <= j < |d| && d[j] == pos[k];
    var head := InvoiceRefs(invoiceNumber);
    assert References(invoiceNumber, lines)[|head| + j] == PoRefs(d)[j];
  }

  /** The placeholder has no PO, so a document without lines has at most
      the invoice reference. */
  lemma {:induction false} PlaceholderReferences(invoiceNumber: string)
    ensures References(invoiceNumber, DocLines([])) == InvoiceRefs(invoiceNumber)
  {
    assert PosOf([Placeholder]) == [""];
    assert DistinctPos([""]) == [];
  }

  datatype Header = Header(currency: string, incoterm: string, invoiceNumber: string)

  datatype RawDoc = RawDoc(header: Header, lines: seq<DocLine>, references: seq<Reference>)

  /** `parsePdf` up to `normalizeDocument`, on the extracted text and the
      incoterm its pattern and replacements gave ("" when none). */
  function ParsePdf(text: string, rawIncoterm: string, h: Heuristics): RawDoc {
    var header := Header(Currency(text), ValidateIncoterm(rawIncoterm), InvoiceNumber(text));
    var lines := DocLines(ParseLines(text, h));
    RawDoc(header, lines, References(header.invoiceNumber, lines))
  }

  method ParsePdfDoc(text: string, rawIncoterm: string, h: Heuristics) returns (doc: RawDoc)
    ensures doc == ParsePdf(text, rawIncoterm, h)
  {
    var invoiceNumber := ScanInvoiceNumber(text);
    var header := Header(Currency(text), ValidateIncoterm(rawIncoterm), invoiceNumber);
    var merged := ParseLinesLoop(text, h);
    var lines := DocLines(merged);
    var references := ExtractReferences(header.invoiceNumber, lines);
    doc := RawDoc(header, lines, references);
  }

  /** A document always has a line; it is the single placeholder exactly
      when no line was parsed. */
  lemma {:induction false} PlaceholderOnlyWhenEmpty(merged: seq<MergedLine>)
    ensures |DocLines(merged)| >= 1
    ensures DocLines(merged) == [Placeholder] <==> merged == []
  {
    if merged != [] {
      assert DocLines(merged)[0] == Parsed(merged[0]);
    }
  }
}
