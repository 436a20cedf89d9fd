// The document view-model builders of
// apps/api/src/services/documents/viewModels.js: the commercial invoice
// and the five documents derived from it. Number formatting (`toFixed(2)`),
// JSON.parse of party snapshots and the date texts are the runtime's and
// are passed in.

module ViewModels {
  import opened Wrappers
  import opened Text
  import opened Json

  /** `x.toFixed(2)`, and JSON.parse (None when it throws). */
  datatype Formats = Formats(toFixed2: real -> string, parseJson: string -> Option<Value>)

  /** `formatDate(shipment.createdAt)` and today's date, already formatted. */
  datatype Dates = Dates(generated: string, created: string)

  datatype LineItem = LineItem(
    description: Option<string>,
    quantity: Option<real>,
    unitValue: Option<real>,
    extendedValue: Option<real>,
    netWeightKg: Option<real>,
    htsCode: Option<string>,
    countryOfOrigin: Option<string>,
    eccn: Option<string>,
    isDangerousGoods: bool,
    dgUnNumber: Option<string>,
    dgHazardClass: Option<string>,
    dgPackingGroup: Option<string>)

  datatype Shipment = Shipment(
    id: string,
    erpOrderId: Option<string>,
    incoterm: Option<string>,
    currency: Option<string>,
    originCountry: Option<string>,
    destinationCountry: Option<string>,
    shipperSnapshot: Value, shipperId: Value,
    consigneeSnapshot: Value, consigneeId: Value,
    forwarderSnapshot: Value, forwarderId: Value,
    numPackages: Option<real>,
    aesRequired: Value,
    aesItn: Option<string>,
    eeiExemptionCode: Option<string>)

  datatype Metadata = Metadata(title: string, dateGenerated: string, documentNumber: string)

  datatype ShipmentView = ShipmentView(
    id: string, erpOrderId: string, incoterm: Option<string>, currency: Option<string>,
    origin: Option<string>, destination: Option<string>, date: string, references: seq<string>)

  datatype Parties = Parties(shipper: Value, consignee: Value, isForwarderSameAsConsignee: bool, forwarder: Value)

  datatype LineView = LineView(
    description: Option<string>, quantity: Option<real>, uom: string,
    unitValue: string, extendedValue: string, weight: string, hts: string, coo: string)

  /** A dangerous-goods line: the invoice line found by description (if
      any) spread under the DG fields. */
  datatype DgLineView = DgLineView(
    base: Option<LineView>, unNumber: Option<string>, hazardClass: Option<string>,
    packingGroup: Option<string>, properShippingName: Option<string>)

  datatype Totals = Totals(subTotal: string, totalWeight: string, totalPackages: real, quantity: real)

  datatype DocLines = InvoiceLines(lines: seq<LineView>) | DangerousLines(dgLines: seq<DgLineView>)

  /** The section a derived document adds. */
  datatype Section =
    | NoSection
    | Sli(instructions: string, isRouted: string, partiesToDeclare: string, eccn: string,
          aesRequired: Value, itn: string, exemption: Option<string>)
    | Coo(primaryOrigin: string, exporterStatement: string)
    | Dg(emergencyContact: string, declaration: string)

  datatype ViewModel = ViewModel(
    metadata: Metadata, shipment: ShipmentView, parties: Parties,
    lines: DocLines, totals: Totals, section: Section)

  /** `x || 0` for a number, `s || ''` for a string. */
  function Amount(x: Option<real>): real { if x.Some? then x.value else 0.0 }
  function TextOr(s: Option<string>, fallback: string): string {
    if s.Some? && s.value != "" then s.value else fallback
  }

  /** `INV-${id.slice(0, 8).toUpperCase()}` and its siblings. */
  function DocumentNumber(prefix: string, id: string): string {
    prefix + "-" + Upper(if |id| <= 8 then id else id[..8])
  }

  /** The number is the prefix, a dash and the first eight characters of
      the id (fewer when it is shorter), upper-cased. */
  lemma {:induction false} DocumentNumberSpec(prefix: string, id: string)
    ensures var n := DocumentNumber(prefix, id); var k := if |id| <= 8 then |id| else 8;
      && StartsWith(n, prefix + "-")
      && |n| == |prefix| + 1 + k
      && forall i :: 0 <= i < k ==> n[|prefix| + 1 + i] == UpperChar(id[i])
  {
    var n := DocumentNumber(prefix, id);
    assert n[..|prefix| + 1] == prefix + "-";
  }

  /** Text without lower-case letters is its own upper-cased form. */
  lemma {:induction false} UpperFixed(t: string)
    requires forall i :: 0 <= i < |t| ==> !IsLowerLetter(t[i])
    ensures Upper(t) == t
  {
    if t != [] {
      UpperFixed(t[1..]);
    }
  }

  /** An id whose first eight characters are already upper case keeps them. */
  lemma {:induction false} DocumentNumberVerbatim(prefix: string, id: string)
    requires 8 <= |id| && forall i :: 0 <= i < 8 ==> !IsLowerLetter(id[i])
    ensures DocumentNumber(prefix, id) == prefix + "-" + id[..8]
  {
    UpperFixed(id[..8]);
  }

  /** view_models.test.js:28: the invoice number of 'SHIP-12345678'. */
  lemma {:induction false} InvoiceNumberExample(id: string)
    requires id == "SHIP-12345678"
    ensures DocumentNumber("INV", id) == "INV-SHIP-123"
  {
    DocumentNumberVerbatim("INV", id);
  }

  /** `parseParty`: a string snapshot is parsed, any other truthy one is
      used as it is, and an absent or unparsable one gives `{ id }`. */
  function ParseParty(snapshot: Value, id: Value, fmt: Formats): Value {
    var fallback := Obj([Member("id", id)]);
    if !Truthy(snapshot) then fallback
    else if snapshot.Str? then (match fmt.parseJson(snapshot.s) case Some(v) => v case None => fallback)
    else snapshot
  }

  /** The party is an object unless its snapshot is a JSON text of
      something else, and it is falsy only when the snapshot is the JSON
      text of a falsy value (such as "null"). */
  lemma {:induction false} ParsePartySpec(snapshot: Value, id: Value, fmt: Formats)
    ensures !(snapshot.Str? && Truthy(snapshot) && fmt.parseJson(snapshot.s).Some?) ==>
      ParseParty(snapshot, id, fmt).Obj? || (Truthy(snapshot) && ParseParty(snapshot, id, fmt) == snapshot)
    ensures !Truthy(ParseParty(snapshot, id, fmt)) <==>
      snapshot.Str? && snapshot.s != "" && fmt.parseJson(snapshot.s).Some? && !Truthy(fmt.parseJson(snapshot.s).value)
    ensures !Truthy(snapshot) ==> ParseParty(snapshot, id, fmt) == Obj([Member("id", id)])
  {
  }

  /** The sum of a numeric field over the lines, missing values as 0. */
  function SumOf(lines: seq<LineItem>, field: LineItem -> Option<real>): real
    decreases |lines|
  {
    if lines == [] then 0.0 else SumOf(lines[..|lines| - 1], field) + Amount(field(lines[|lines| - 1]))
  }

  lemma {:induction false} SumOfAppend(a: seq<LineItem>, b: seq<LineItem>, field: LineItem -> Option<real>)
    ensures SumOf(a + b, field) == SumOf(a, field) + SumOf(b, field)
    decreases |b|
  {
    if b == [] {
      assert a + b == a;
    } else {
      assert (a + b)[..|a + b| - 1] == a + b[..|b| - 1];
      assert (a + b)[|a + b| - 1] == b[|b| - 1];
      SumOfAppend(a, b[..|b| - 1], field);
    }
  }

  /** Lines where the field is absent add nothing. */
  lemma {:induction false} SumOfMissing(lines: seq<LineItem>, field: LineItem -> Option<real>)
    requires forall i :: 0 <= i < |lines| ==> field(lines[i]).None?
    ensures SumOf(lines, field) == 0.0
    decreases |lines|
  {
    if lines != [] {
      SumOfMissing(lines[..|lines| - 1], field);
    }
  }

  /** A single line sums to its own field. */
  lemma {:induction false} SumOfOne(line: LineItem, field: LineItem -> Option<real>)
    ensures SumOf([line], field) == Amount(field(line))
  {
    assert [line][..0] == [];
  }

  function ExtendedValue(l: LineItem): Option<real> { l.extendedValue }
  function NetWeight(l: LineItem): Option<real> { l.netWeightKg }
  function Quantity(l: LineItem): Option<real> { l.quantity }

  function LineViewOf(line: LineItem, fmt: Formats): LineView {
    LineView(line.description, line.quantity, "EA",
      fmt.toFixed2(Amount(line.unitValue)), fmt.toFixed2(Amount(line.extendedValue)),
      fmt.toFixed2(Amount(line.netWeightKg)), TextOr(line.htsCode, ""), TextOr(line.countryOfOrigin, ""))
  }

  function LineViews(lines: seq<LineItem>, fmt: Formats): (vs: seq<LineView>)
    ensures |vs| == |lines|
    ensures forall i :: 0 <= i < |lines| ==> vs[i] == LineViewOf(lines[i], fmt)
  {
    if lines == [] then [] else [LineViewOf(lines[0], fmt)] + LineViews(lines[1..], fmt)
  }

  /** `buildInvoiceViewModel` */
  function Invoice(s: Shipment, lines: seq<LineItem>, fmt: Formats, dates: Dates): ViewModel {
    var forwarder := ParseParty(s.forwarderSnapshot, s.forwarderId, fmt);
    ViewModel(
      Metadata("COMMERCIAL INVOICE", dates.generated, DocumentNumber("INV", s.id)),
      ShipmentView(s.id, TextOr(s.erpOrderId, "N/A"), s.incoterm, s.currency,
        s.originCountry, s.destinationCountry, dates.created, []),
      Parties(ParseParty(s.shipperSnapshot, s.shipperId, fmt), ParseParty(s.consigneeSnapshot, s.consigneeId, fmt),
        !Truthy(forwarder), forwarder),
      InvoiceLines(LineViews(lines, fmt)),
      Totals(fmt.toFixed2(SumOf(lines, ExtendedValue)), fmt.toFixed2(SumOf(lines, NetWeight)),
        Amount(s.numPackages), SumOf(lines, Quantity)),
      NoSection)
  }

  /** The invoice has one line per item, in order, and totals that are
      the sums of the items' values, weights and quantities. */
  lemma {:induction false} InvoiceSpec(s: Shipment, lines: seq<LineItem>, fmt: Formats, dates: Dates)
    ensures var vm := Invoice(s, lines, fmt, dates);
      && vm.lines.InvoiceLines? && |vm.lines.lines| == |lines|
      && (forall i :: 0 <= i < |lines| ==>
            vm.lines.lines[i].extendedValue == fmt.toFixed2(Amount(lines[i].extendedValue))
            && vm.lines.lines[i].description == lines[i].description)
      && vm.totals.subTotal == fmt.toFixed2(SumOf(lines, ExtendedValue))
      && vm.totals.totalWeight == fmt.toFixed2(SumOf(lines, NetWeight))
      && vm.totals.quantity == SumOf(lines, Quantity)
      && vm.parties.isForwarderSameAsConsignee == !Truthy(vm.parties.forwarder)
  {
  }

  /** view_models.test.js:29-31: one line of value 1000 gives a line and
      a subtotal both formatted from 1000. */
  lemma {:induction false} InvoiceTotalsExample(s: Shipment, line: LineItem, fmt: Formats, dates: Dates)
    requires line.extendedValue == Some(1000.0)
    ensures Invoice(s, [line], fmt, dates).lines.lines[0].extendedValue == fmt.toFixed2(1000.0)
    ensures Invoice(s, [line], fmt, dates).totals.subTotal == fmt.toFixed2(1000.0)
  {
    SumOfOne(line, ExtendedValue);
  }

  /** The spread `{...invoiceVM, metadata: {...invoiceVM.metadata, ...}}`. */
  function Retitle(vm: ViewModel, title: string, prefix: string): ViewModel {
    vm.(metadata := vm.metadata.(title := title, documentNumber := DocumentNumber(prefix, vm.shipment.id)))
  }

  function PackingList(s: Shipment, lines: seq<LineItem>, fmt: Formats, dates: Dates): ViewModel {
    Retitle(Invoice(s, lines, fmt, dates), "PACKING LIST", "PL")
  }

  function ProformaInvoice(s: Shipment, lines: seq<LineItem>, fmt: Formats, dates: Dates): ViewModel {
    Retitle(Invoice(s, lines, fmt, dates), "PROFORMA INVOICE", "PRO")
  }

  /** `lineItems.some(l => l.eccn)` */
  predicate AnyEccn(lines: seq<LineItem>) {
    exists i :: 0 <= i < |lines| && lines[i].eccn.Some? && lines[i].eccn.value != ""
  }

  function Sli(s: Shipment, lines: seq<LineItem>, fmt: Formats, dates: Dates): ViewModel {
    Retitle(Invoice(s, lines, fmt, dates), "SHIPPER'S LETTER OF INSTRUCTION", "SLI").(section :=
      Section.Sli("Please route via best available carrier.", "N", "N",
        if AnyEccn(lines) then "Contains EAR99 items" else "No License Required",
        s.aesRequired, TextOr(s.aesItn, "Pending"), s.eeiExemptionCode))
  }

  /** The distinct entries of xs in first-seen order (`[...new Set(xs)]`). */
  function Distinct(xs: seq<string>, n: nat): seq<string>
    requires n <= |xs|
  {
    if n == 0 then []
    else
      var u := Distinct(xs, n - 1);
      if xs[n - 1] in u then u else u + [xs[n - 1]]
  }

  /** `.filter(Boolean)` on the origins. */
  function Origins(lines: seq<LineItem>): (os: seq<string>)
    ensures forall i :: 0 <= i < |os| ==> os[i] != ""
  {
    if lines == [] then []
    else
      var first := if lines[0].countryOfOrigin.Some? && lines[0].countryOfOrigin.value != "" then [lines[0].countryOfOrigin.value] else [];
      first + Origins(lines[1..])
  }

  const ExporterStatement := "The undersigned hereby declares that the above details and statements are correct; that all the goods were produced in the country(ies) listed."

  function PrimaryOrigin(lines: seq<LineItem>): string {
    var os := Origins(lines);
    var joined := Join(Distinct(os, |os|), ", ");
    if joined != "" then joined else "Unknown"
  }

  function CertificateOfOrigin(s: Shipment, lines: seq<LineItem>, fmt: Formats, dates: Dates): ViewModel {
    Retitle(Invoice(s, lines, fmt, dates), "CERTIFICATE OF ORIGIN", "COO").(section :=
      Coo(PrimaryOrigin(lines), ExporterStatement))
  }

  /** `invoiceVM.lines.find(l => l.description === description)` */
  function FindByDescription(views: seq<LineView>, description: Option<string>): (r: Option<LineView>)
    ensures r.Some? ==> r.value in views && r.value.description == description
    ensures r.None? ==> forall i :: 0 <= i < |views| ==> views[i].description != description
  {
    if views == [] then None
    else if views[0].description == description then Some(views[0])
    else FindByDescription(views[1..], description)
  }

  /** `lineItems.filter(l => l.isDangerousGoods)` */
  function DangerousOnly(lines: seq<LineItem>): seq<LineItem> {
    if lines == [] then []
    else (if lines[0].isDangerousGoods then [lines[0]] else []) + DangerousOnly(lines[1..])
  }

  function DgLine(line: LineItem, views: seq<LineView>): DgLineView {
    DgLineView(FindByDescription(views, line.description), line.dgUnNumber, line.dgHazardClass,
      line.dgPackingGroup, line.description)
  }

  function DgLines(dg: seq<LineItem>, views: seq<LineView>): (r: seq<DgLineView>)
    ensures |r| == |dg|
    ensures forall i :: 0 <= i < |dg| ==> r[i] == DgLine(dg[i], views)
  {
    if dg == [] then [] else [DgLine(dg[0], views)] + DgLines(dg[1..], views)
  }

  const EmergencyContact := "CHEMTREC 1-800-424-9300"
  const DgDeclaration := "I hereby declare that the contents of this consignment are fully and accurately described above by the proper shipping name, and are classified, packaged, marked and labeled/placarded, and are in all respects in proper condition for transport according to applicable international and national governmental regulations."

  function DgDeclarationModel(s: Shipment, lines: seq<LineItem>, fmt: Formats, dates: Dates): ViewModel {
    var invoice := Invoice(s, lines, fmt, dates);
    Retitle(invoice, "DANGEROUS GOODS DECLARATION", "DGD").(
      lines := DangerousLines(DgLines(DangerousOnly(lines), invoice.lines.lines)),
      section := Dg(EmergencyContact, DgDeclaration))
  }

  /** What a derived document keeps of the invoice. */
  predicate KeepsInvoice(vm: ViewModel, inv: ViewModel) {
    vm.shipment == inv.shipment && vm.parties == inv.parties && vm.totals == inv.totals
    && vm.metadata.dateGenerated == inv.metadata.dateGenerated
    && (vm.lines.InvoiceLines? ==> vm.lines == inv.lines)
  }

  /** Every derived document keeps the invoice's shipment, parties, totals
      and generation date, takes its own title and number, and (except the
      DG declaration) keeps the invoice lines. */
  lemma {:induction false} DerivedKeepInvoice(s: Shipment, lines: seq<LineItem>, fmt: Formats, dates: Dates)
    ensures KeepsInvoice(PackingList(s, lines, fmt, dates), Invoice(s, lines, fmt, dates))
    ensures KeepsInvoice(ProformaInvoice(s, lines, fmt, dates), Invoice(s, lines, fmt, dates))
    ensures KeepsInvoice(Sli(s, lines, fmt, dates), Invoice(s, lines, fmt, dates))
    ensures KeepsInvoice(CertificateOfOrigin(s, lines, fmt, dates), Invoice(s, lines, fmt, dates))
    ensures KeepsInvoice(DgDeclarationModel(s, lines, fmt, dates), Invoice(s, lines, fmt, dates))
  {
  }

  /** Each derived document's title and number. */
  lemma {:induction false} DerivedTitles(s: Shipment, lines: seq<LineItem>, fmt: Formats, dates: Dates)
    ensures PackingList(s, lines, fmt, dates).metadata == Metadata("PACKING LIST", dates.generated, DocumentNumber("PL", s.id))
    ensures ProformaInvoice(s, lines, fmt, dates).metadata == Metadata("PROFORMA INVOICE", dates.generated, DocumentNumber("PRO", s.id))
    ensures Sli(s, lines, fmt, dates).metadata.documentNumber == DocumentNumber("SLI", s.id)
    ensures CertificateOfOrigin(s, lines, fmt, dates).metadata.documentNumber == DocumentNumber("COO", s.id)
    ensures DgDeclarationModel(s, lines, fmt, dates).metadata.documentNumber == DocumentNumber("DGD", s.id)
    ensures PackingList(s, lines, fmt, dates).section.NoSection? && ProformaInvoice(s, lines, fmt, dates).section.NoSection?
  {
  }

  /** The SLI says "Contains EAR99 items" exactly when some line has an
      ECCN, and the ITN is "Pending" unless the shipment has one. */
  lemma {:induction false} SliSpec(s: Shipment, lines: seq<LineItem>, fmt: Formats, dates: Dates)
    ensures var sec := Sli(s, lines, fmt, dates).section;
      && sec.Sli?
      && (sec.eccn == "Contains EAR99 items" <==> AnyEccn(lines))
      && (sec.eccn != "Contains EAR99 items" ==> sec.eccn == "No License Required")
      && (s.aesItn.Some? && s.aesItn.value != "" ==> sec.itn == s.aesItn.value)
      && (s.aesItn.None? ==> sec.itn == "Pending")
      && sec.aesRequired == s.aesRequired
  {
  }

  /** The distinct list has no repeats and the same members. */
  lemma {:induction false} DistinctSpec(xs: seq<string>, n: nat)
    requires n <= |xs|
    ensures forall i, j :: 0 <= i < j < |Distinct(xs, n)| ==> Distinct(xs, n)[i] != Distinct(xs, n)[j]
    ensures forall x :: x in Distinct(xs, n) <==> x in xs[..n]
  {
    if n > 0 {
      DistinctSpec(xs, n - 1);
      assert xs[..n] == xs[..n - 1] + [xs[n - 1]];
    }
  }

  /** First occurrence of x in xs. */
  function FirstIndex(xs: seq<string>, x: string): (k: nat)
    requires x in xs
    ensures k < |xs| && xs[k] == x && forall j :: 0 <= j < k ==> xs[j] != x
  {
    if xs[0] == x then 0 else 1 + FirstIndex(xs[1..], x)
  }

  /** The distinct entries come in the order of their first occurrence. */
  lemma {:induction false} DistinctFirstSeen(xs: seq<string>, n: nat)
    requires n <= |xs|
    ensures forall i :: 0 <= i < |Distinct(xs, n)| ==> Distinct(xs, n)[i] in xs && FirstIndex(xs, Distinct(xs, n)[i]) < n
    ensures forall i, j :: 0 <= i < j < |Distinct(xs, n)| ==>
      Distinct(xs, n)[i] in xs && Distinct(xs, n)[j] in xs
      && FirstIndex(xs, Distinct(xs, n)[i]) < FirstIndex(xs, Distinct(xs, n)[j])
  {
    if n > 0 {
      DistinctFirstSeen(xs, n - 1);
      var u := Distinct(xs, n - 1);
      var x := xs[n - 1];
      if x !in u {
        DistinctSpec(xs, n - 1);
        assert x !in xs[..n - 1];
        assert FirstIndex(xs, x) == n - 1 by {
          assert forall j :: 0 <= j < n - 1 ==> xs[..n - 1][j] == xs[j];
        }
        DistinctAppend(xs, n, u, x);
      }
    }
  }

  lemma {:induction false} DistinctAppend(xs: seq<string>, n: nat, u: seq<string>, x: string)
    requires 0 < n <= |xs| && u == Distinct(xs, n - 1) && x == xs[n - 1] && x !in u
    requires FirstIndex(xs, x) == n - 1
    requires forall i :: 0 <= i < |u| ==> u[i] in xs && FirstIndex(xs, u[i]) < n - 1
    requires forall i, j :: 0 <= i < j < |u| ==> u[i] in xs && u[j] in xs && FirstIndex(xs, u[i]) < FirstIndex(xs, u[j])
    ensures forall i :: 0 <= i < |Distinct(xs, n)| ==> Distinct(xs, n)[i] in xs && FirstIndex(xs, Distinct(xs, n)[i]) < n
    ensures forall i, j :: 0 <= i < j < |Distinct(xs, n)| ==>
      Distinct(xs, n)[i] in xs && Distinct(xs, n)[j] in xs
      && FirstIndex(xs, Distinct(xs, n)[i]) < FirstIndex(xs, Distinct(xs, n)[j])
  {
    var v := u + [x];
    assert Distinct(xs, n) == v;
    assert forall i :: 0 <= i < |u| ==> v[i] == u[i];
    assert v[|u|] == x;
  }

  lemma {:induction false} JoinNonEmpty(parts: seq<string>, sep: string)
    requires parts != [] && parts[0] != ""
    ensures Join(parts, sep) != ""
  {
    if |parts| > 1 {
      assert Join(parts, sep)[0] == parts[0][0];
    }
  }

  /** The COO origin lists the distinct non-empty origins of the lines,
      and says "Unknown" exactly when no line has one. */
  lemma {:induction false} PrimaryOriginSpec(lines: seq<LineItem>)
    ensures var os := Origins(lines);
      PrimaryOrigin(lines) == if os == [] then "Unknown" else Join(Distinct(os, |os|), ", ")
  {
    var os := Origins(lines);
    if os != [] {
      DistinctSpec(os, |os|);
      assert os[0] in os[..|os|];
      var d := Distinct(os, |os|);
      assert d != [];
      assert d[0] in os[..|os|];
      JoinNonEmpty(d, ", ");
    }
  }

  /** view_models.test.js:53: lines all from "US" give "US". */
  lemma {:induction false} SingleOrigin(lines: seq<LineItem>, us: string)
    requires us == "US" && lines != []
    requires forall i :: 0 <= i < |lines| ==> lines[i].countryOfOrigin == Some(us)
    ensures PrimaryOrigin(lines) == us
  {
    OriginsAll(lines, us);
    var os := Origins(lines);
    DistinctConst(os, |os|, us);
  }

  /** A list of one repeated entry has that entry as its only distinct one. */
  lemma {:induction false} DistinctConst(xs: seq<string>, n: nat, c: string)
    requires 0 < n <= |xs| && forall i :: 0 <= i < n ==> xs[i] == c
    ensures Distinct(xs, n) == [c]
  {
    if n > 1 {
      DistinctConst(xs, n - 1, c);
    }
  }

  lemma {:induction false} OriginsAll(lines: seq<LineItem>, c: string)
    requires c != "" && forall i :: 0 <= i < |lines| ==> lines[i].countryOfOrigin == Some(c)
    ensures |Origins(lines)| == |lines| && forall i :: 0 <= i < |Origins(lines)| ==> Origins(lines)[i] == c
  {
    if lines != [] {
      OriginsAll(lines[1..], c);
    }
  }

  /** The DG filter keeps exactly the dangerous lines, in order. */
  lemma {:induction false} DangerousOnlySpec(lines: seq<LineItem>, l: LineItem)
    ensures l in DangerousOnly(lines) <==> l in lines && l.isDangerousGoods
    ensures |DangerousOnly(lines)| <= |lines|
  {
    if lines != [] {
      DangerousOnlySpec(lines[1..], l);
      assert lines == [lines[0]] + lines[1..];
    }
  }

  /** Every line of the DG declaration is a dangerous line with its own DG
      fields, over the first invoice line with the same description. */
  lemma {:induction false} DgDeclarationSpec(s: Shipment, lines: seq<LineItem>, fmt: Formats, dates: Dates)
    ensures var vm := DgDeclarationModel(s, lines, fmt, dates); var dg := DangerousOnly(lines);
      && vm.lines.DangerousLines? && |vm.lines.dgLines| == |dg|
      && (forall i :: 0 <= i < |dg| ==>
            dg[i].isDangerousGoods && dg[i] in lines
            && vm.lines.dgLines[i].unNumber == dg[i].dgUnNumber
            && vm.lines.dgLines[i].properShippingName == dg[i].description
            && vm.lines.dgLines[i].base == FindByDescription(LineViews(lines, fmt), dg[i].description))
      && vm.section == Dg(EmergencyContact, DgDeclaration)
  {
    var dg := DangerousOnly(lines);
    forall i | 0 <= i < |dg| ensures dg[i].isDangerousGoods && dg[i] in lines {
      DangerousOnlySpec(lines, dg[i]);
    }
  }

  /** When descriptions are distinct, a DG line's base is its own invoice
      line. */
  lemma {:induction false} DgBaseOwnLine(lines: seq<LineItem>, fmt: Formats, k: nat)
    requires k < |lines|
    requires forall i, j :: 0 <= i < j < |lines| ==> lines[i].description != lines[j].description
    ensures FindByDescription(LineViews(lines, fmt), lines[k].description) == Some(LineViewOf(lines[k], fmt))
  {
    var views := LineViews(lines, fmt);
    var r := FindByDescription(views, lines[k].description);
    assert views[k].description == lines[k].description;
    var i :| 0 <= i < |views| && views[i] == r.value;
    assert views[i].description == lines[i].description;
  }
}
