// Export-compliance decisions in their three versions:
// apps/api/src/services/compliance/complianceService.js (ComplianceService),
// apps/api/src/domains/compliance/services/ComplianceService.js
// (ComplianceDomain) and apps/api/src/modules/compliance/service.ts
// (ComplianceModule). The database reads and the audit writes around them
// are left out: the shipment or the record found is a parameter.

/** The denied-party list and the restricted destinations that the three
    versions each declare with the same contents. */
module Screening {
  import opened Wrappers
  import opened Text

  const DeniedParties: seq<string> := ["Bad Guys Ltd", "Embargoed Entity", "Evil Corp"]
  const RestrictedDestinations: seq<string> := ["CN", "RU", "IR", "KP", "SY", "CU"]

  /** `list.some(dp => name.toLowerCase().includes(dp.toLowerCase()))` */
  predicate MatchesAny(name: string, list: seq<string>)
    decreases |list|
  {
    list != [] && (Contains(Lower(name), Lower(list[0])) || MatchesAny(name, list[1..]))
  }

  /** The scan finds a match exactly when some listed name occurs in the
      party's name, ignoring case. */
  lemma {:induction false} MatchesAnySpec(name: string, list: seq<string>)
    ensures MatchesAny(name, list) <==> exists k :: 0 <= k < |list| && Contains(Lower(name), Lower(list[k]))
    decreases |list|
  {
    if list != [] {
      MatchesAnySpec(name, list[1..]);
      if exists k :: 0 <= k < |list| && Contains(Lower(name), Lower(list[k])) {
        var k :| 0 <= k < |list| && Contains(Lower(name), Lower(list[k]));
        if k > 0 { assert list[1..][k - 1] == list[k]; }
      }
    }
  }

  /** A listed name, whatever its case and whatever surrounds it, is a hit. */
  lemma {:induction false} EmbeddedName(name: string, list: seq<string>, k: nat, at: nat)
    requires k < |list|
    requires at + |list[k]| <= |name| && Lower(name[at..at + |list[k]|]) == Lower(list[k])
    ensures MatchesAny(name, list)
  {
    var l := Lower(name);
    var n := Lower(list[k]);
    assert l[at..at + |n|] == n by {
      var sub := name[at..at + |n|];
      assert forall j :: 0 <= j < |n| ==> l[at..at + |n|][j] == Lower(sub)[j];
    }
    ContainsAt(l, n, at);
    MatchesAnySpec(name, list);
  }

  /** `RESTRICTED.includes(code)` */
  predicate Restricted(code: string) { code in RestrictedDestinations }

  /** A party as the screening reads it. */
  datatype Party = Party(id: string, name: string)

  datatype Status = Match | Clear

  datatype PartyResult = PartyResult(partyId: string, name: string, status: Status, details: Option<string>)

  datatype Screening = Screening(status: Status, results: seq<PartyResult>)



  /** `[shipper, consignee, forwarder].filter(Boolean)` */
  function Present(parties: seq<Option<Party>>): (ps: seq<Party>)
    ensures |ps| <= |parties|
  {
    if parties == [] then []
    else (if parties[0].Some? then [parties[0].value] else []) + Present(parties[1..])
  }

  /** One party's entry; `detail` is the version's message for a hit. */
  function ScreenParty(p: Party, denied: seq<string>, detail: string): PartyResult {
    var hit := MatchesAny(p.name, denied);
    PartyResult(p.id, p.name, if hit then Match else Clear, if hit then Some(detail) else None)
  }

  function ScreenAll(ps: seq<Party>, denied: seq<string>, detail: string): (rs: seq<PartyResult>)
    ensures |rs| == |ps|
    ensures forall i :: 0 <= i < |ps| ==> rs[i] == ScreenParty(ps[i], denied, detail)
  {
    if ps == [] then [] else [ScreenParty(ps[0], denied, detail)] + ScreenAll(ps[1..], denied, detail)
  }

  /** `results.some(r => r.status === 'MATCH')` */
  predicate AnyMatch(rs: seq<PartyResult>) {
    rs != [] && (rs[0].status == Match || AnyMatch(rs[1..]))
  }

  /** The screening of the parties that are present. */
  function ScreenParties(parties: seq<Option<Party>>, denied: seq<string>, detail: string): (r: Screening)
    ensures |r.results| == |Present(parties)|
  {
    var results := ScreenAll(Present(parties), denied, detail);
    Screening(if AnyMatch(results) then Match else Clear, results)
  }

  /** Absent parties are skipped and the others keep their order. */
  lemma {:induction false} PresentSpec(parties: seq<Option<Party>>, p: Party)
    ensures p in Present(parties) <==> Some(p) in parties
  {
    if parties != [] {
      PresentSpec(parties[1..], p);
      assert parties == [parties[0]] + parties[1..];
    }
  }

  lemma {:induction false} AnyMatchSpec(rs: seq<PartyResult>)
    ensures AnyMatch(rs) <==> exists i :: 0 <= i < |rs| && rs[i].status == Match
  {
    if rs != [] {
      AnyMatchSpec(rs[1..]);
      if exists i :: 0 <= i < |rs| && rs[i].status == Match {
        var i :| 0 <= i < |rs| && rs[i].status == Match;
        if i > 0 { assert rs[1..][i - 1].status == Match; }
      }
    }
  }

  /** The overall status is MATCH exactly when a present party's name
      contains a denied name; a party is flagged exactly when it matches,
      and then carries the detail text. */
  lemma {:induction false} ScreenPartiesSpec(parties: seq<Option<Party>>, denied: seq<string>, detail: string)
    ensures ScreenParties(parties, denied, detail).status == Match <==>
      exists p :: p in Present(parties) && MatchesAny(p.name, denied)
    ensures forall i :: 0 <= i < |Present(parties)| ==>
      (ScreenParties(parties, denied, detail).results[i].status == Match <==> MatchesAny(Present(parties)[i].name, denied))
      && (ScreenParties(parties, denied, detail).results[i].details.Some? <==> MatchesAny(Present(parties)[i].name, denied))
  {
    var ps := Present(parties);
    var rs := ScreenAll(ps, denied, detail);
    AnyMatchSpec(rs);
    if exists p :: p in ps && MatchesAny(p.name, denied) {
      var p :| p in ps && MatchesAny(p.name, denied);
      var i :| 0 <= i < |ps| && ps[i] == p;
      assert rs[i].status == Match;
    }
  }
}

module ComplianceService {
  import opened Wrappers
  import opened Text
  import opened Screening

  /** A line item with its `valueUsd` (None when absent; a falsy value
      counts as 0 either way). */
  datatype LineItem = LineItem(valueUsd: Option<real>)

  datatype Shipment = Shipment(lineItems: Option<seq<LineItem>>, destinationCountry: Option<string>)

  /** `item.valueUsd || 0` */
  function LineValue(item: LineItem): real {
    match item.valueUsd
    case Some(v) => v
    case None => 0.0
  }

  /** The reduce over the line items. */
  function SumValues(items: seq<LineItem>): real
    decreases |items|
  {
    if items == [] then 0.0 else SumValues(items[..|items| - 1]) + LineValue(items[|items| - 1])
  }

  /** Missing line items total 0. */
  function TotalValue(s: Shipment): real {
    match s.lineItems
    case Some(items) => SumValues(items)
    case None => 0.0
  }

  predicate IsCanada(dest: Option<string>) { dest.Some? && Upper(dest.value) == "CA" }

  /** `determineAesRequirement` */
  predicate AesRequired(s: Shipment) {
    TotalValue(s) > 2500.0 && !IsCanada(s.destinationCountry)
  }

  /** Concatenating line lists adds their totals. */
  lemma {:induction false} SumAppend(a: seq<LineItem>, b: seq<LineItem>)
    ensures SumValues(a + b) == SumValues(a) + SumValues(b)
    decreases |b|
  {
    if b == [] {
      assert a + b == a;
    } else {
      assert (a + b)[..|a + b| - 1] == a + b[..|b| - 1];
      assert (a + b)[|a + b| - 1] == b[|b| - 1];
      SumAppend(a, b[..|b| - 1]);
    }
  }

  /** Adding a line with a non-negative value never withdraws an AES
      requirement. */
  lemma {:induction false} AesMonotone(items: seq<LineItem>, dest: Option<string>, extra: LineItem)
    requires LineValue(extra) >= 0.0
    ensures AesRequired(Shipment(Some(items), dest)) ==> AesRequired(Shipment(Some(items + [extra]), dest))
  {
    SumAppend(items, [extra]);
    assert SumValues([extra]) == LineValue(extra) by {
      assert [extra][..0] == [];
    }
  }

  /** Shipments without line items never need AES. */
  lemma {:induction false} NoLinesNoAes(dest: Option<string>)
    ensures !AesRequired(Shipment(None, dest)) && !AesRequired(Shipment(Some([]), dest))
  {
  }

  /** With non-negative values, any single line over the threshold puts the
      total over it. */
  lemma {:induction false} HighLineHighTotal(items: seq<LineItem>, k: nat)
    requires k < |items| && LineValue(items[k]) > 2500.0
    requires forall i :: 0 <= i < |items| ==> LineValue(items[i]) >= 0.0
    ensures SumValues(items) > 2500.0
  {
    SumNonNegative(items[..k]);
    SumNonNegative(items[k + 1..]);
    SumAppend(items[..k], [items[k]]);
    SumAppend(items[..k] + [items[k]], items[k + 1..]);
    assert items[..k] + [items[k]] + items[k + 1..] == items;
    assert SumValues([items[k]]) == LineValue(items[k]) by {
      assert [items[k]][..0] == [];
    }
  }

  lemma {:induction false} SumNonNegative(items: seq<LineItem>)
    requires forall i :: 0 <= i < |items| ==> LineValue(items[i]) >= 0.0
    ensures SumValues(items) >= 0.0
    decreases |items|
  {
    if items != [] {
      SumNonNegative(items[..|items| - 1]);
    }
  }

  /** The three cases of complianceService.test.js. */
  lemma {:induction false} TestedCases(de: string, ca: string)
    requires de == "DE" && ca == "CA"
    ensures AesRequired(Shipment(Some([LineItem(Some(3000.0))]), Some(de)))
    ensures !AesRequired(Shipment(Some([LineItem(Some(1000.0))]), Some(de)))
    ensures !AesRequired(Shipment(Some([LineItem(Some(5000.0))]), Some(ca)))
  {
    assert Upper(de)[0] == 'D';
    assert Upper(ca) == "CA";
    assert [LineItem(Some(3000.0))][..0] == [];
    assert [LineItem(Some(1000.0))][..0] == [];
  }

  const MatchDetail := "Potentially matches denied party list"

  /** `screenParties` once the shipment has been looked up. */
  function ScreenShipment(parties: Option<seq<Option<Party>>>): (r: Result<Screening, string>)
    ensures parties.None? <==> r == Err("Shipment not found")
    ensures parties.Some? ==> r == Ok(ScreenParties(parties.value, DeniedParties, MatchDetail))
  {
    match parties
    case None => Err("Shipment not found")
    case Some(ps) => Ok(ScreenParties(ps, DeniedParties, MatchDetail))
  }

}

module ComplianceDomain {
  import opened Wrappers
  import opened Seqs
  import ComplianceService
  import opened Text
  import opened Screening

  datatype LineItem = LineItem(valueUsd: Option<real>, eccn: Option<string>)

  datatype Shipment = Shipment(lineItems: Option<seq<LineItem>>, destinationCountry: Option<string>)

  const LicensedGoods := "Contains Licensed Goods (ECCN)"
  const RestrictedDestination := "Restricted Destination"
  const HighValue := "Line values exceed $2500 and dest is not Canada"

  function LineValue(item: LineItem): real {
    match item.valueUsd
    case Some(v) => v
    case None => 0.0
  }

  /** `item.eccn && item.eccn !== 'EAR99'` */
  predicate Licensed(item: LineItem) {
    item.eccn.Some? && item.eccn.value != "" && item.eccn.value != "EAR99"
  }

  /** `lineItems?.some(p)`, false when the items are missing. */
  predicate AnyLine(items: Option<seq<LineItem>>, p: LineItem -> bool) {
    items.Some? && exists i :: 0 <= i < |items.value| && p(items.value[i])
  }

  predicate HighLine(item: LineItem) { LineValue(item) > 2500.0 }

  datatype AesDecision = AesDecision(aesRequired: bool, reason: seq<string>)

  /** `determineAesRequirement`: the first rule that applies gives the one
      reason. */
  function DetermineAes(s: Shipment): AesDecision {
    var dest := if s.destinationCountry.Some? then Some(Upper(s.destinationCountry.value)) else None;
    var isCanada := dest == Some("CA");
    var restricted := dest.Some? && Restricted(dest.value);
    if AnyLine(s.lineItems, Licensed) then AesDecision(true, [LicensedGoods])
    else if restricted then AesDecision(true, [RestrictedDestination])
    else if AnyLine(s.lineItems, HighLine) && !isCanada then AesDecision(true, [HighValue])
    else AesDecision(false, [])
  }

  /** The decision carries one reason when AES is required and none
      otherwise, and the rules take effect in the order licence,
      destination, value. */
  lemma {:induction false} DetermineAesSpec(s: Shipment)
    ensures DetermineAes(s).aesRequired <==> |DetermineAes(s).reason| == 1
    ensures !DetermineAes(s).aesRequired ==> DetermineAes(s).reason == []
    ensures DetermineAes(s).reason == [LicensedGoods] <==> AnyLine(s.lineItems, Licensed)
    ensures DetermineAes(s).reason == [RestrictedDestination] <==>
      !AnyLine(s.lineItems, Licensed) && s.destinationCountry.Some? && Restricted(Upper(s.destinationCountry.value))
    ensures DetermineAes(s).reason == [HighValue] <==>
      !AnyLine(s.lineItems, Licensed)
      && !(s.destinationCountry.Some? && Restricted(Upper(s.destinationCountry.value)))
      && AnyLine(s.lineItems, HighLine)
      && !(s.destinationCountry.Some? && Upper(s.destinationCountry.value) == "CA")
  {
  }

  /** A licensed item requires AES even to Canada and even at low value. */
  lemma {:induction false} LicensedToCanada(v: real, code: string, ca: string)
    requires code == "5A002" && ca == "CA"
    ensures DetermineAes(Shipment(Some([LineItem(Some(v), Some(code))]), Some(ca))) == AesDecision(true, [LicensedGoods])
  {
    var item := LineItem(Some(v), Some(code));
    assert Licensed([item][0]);
  }

  /** EAR99 items do not count as licensed. */
  lemma {:induction false} Ear99NotLicensed(items: seq<LineItem>)
    requires forall i :: 0 <= i < |items| ==> items[i].eccn == Some("EAR99") || items[i].eccn == None
    ensures !AnyLine(Some(items), Licensed)
  {
  }

  /** Without licensed goods or a restricted destination, the per-line
      rule is stricter than the total rule of ComplianceService: what it
      flags, the total rule flags too (values being non-negative). */
  lemma {:induction false} PerLineImpliesTotal(s: Shipment)
    requires s.lineItems.Some?
    requires forall i :: 0 <= i < |s.lineItems.value| ==> LineValue(s.lineItems.value[i]) >= 0.0
    requires !AnyLine(s.lineItems, Licensed)
    requires !(s.destinationCountry.Some? && Restricted(Upper(s.destinationCountry.value)))
    ensures DetermineAes(s).aesRequired ==>
      ComplianceService.AesRequired(ComplianceService.Shipment(Some(Totals(s.lineItems.value)), s.destinationCountry))
  {
    if DetermineAes(s).aesRequired {
      var items := s.lineItems.value;
      var k :| 0 <= k < |items| && HighLine(items[k]);
      TotalsSpec(items);
      ComplianceService.HighLineHighTotal(Totals(items), k);
    }
  }

  /** The same lines as ComplianceService reads them. */
  function Totals(items: seq<LineItem>): (r: seq<ComplianceService.LineItem>)
    ensures |r| == |items|
  {
    MapSeq((item: LineItem) => ComplianceService.LineItem(item.valueUsd), items)
  }

  lemma {:induction false} TotalsSpec(items: seq<LineItem>)
    ensures forall i :: 0 <= i < |items| ==> ComplianceService.LineValue(Totals(items)[i]) == LineValue(items[i])
  {
    forall i | 0 <= i < |items|
      ensures ComplianceService.LineValue(Totals(items)[i]) == LineValue(items[i])
    {
      MapSeqAt((item: LineItem) => ComplianceService.LineItem(item.valueUsd), items, i);
    }
  }

  /** Two lines of 2000 each need AES by total but not per line. */
  lemma {:induction false} TotalWithoutHighLine(de: string)
    requires de == "DE"
    ensures !DetermineAes(Shipment(Some([LineItem(Some(2000.0), None), LineItem(Some(2000.0), None)]), Some(de))).aesRequired
    ensures ComplianceService.AesRequired(ComplianceService.Shipment(
      Some([ComplianceService.LineItem(Some(2000.0)), ComplianceService.LineItem(Some(2000.0))]), Some(de)))
  {
    var items := [LineItem(Some(2000.0), None), LineItem(Some(2000.0), None)];
    assert !AnyLine(Some(items), HighLine) by {
      assert forall i :: 0 <= i < |items| ==> !HighLine(items[i]);
    }
    assert Upper(de) == "DE";
    var c := [ComplianceService.LineItem(Some(2000.0)), ComplianceService.LineItem(Some(2000.0))];
    assert c[..1][..0] == [];
    assert ComplianceService.SumValues(c[..1]) == 2000.0;
    assert c[..|c| - 1] == c[..1];
  }

  /** A dangerous-goods reference record. */
  datatype UnRecord = UnRecord(unNumber: string, properShippingName: string, hazardClass: string, packingGroup: Option<string>)

  /** `lookupUnNumber`: the stored record when the database has one, else
      the two built-in records, else nothing. */
  function LookupUnNumber(unNumber: string, stored: Option<UnRecord>): (r: Option<UnRecord>)
    ensures stored.Some? ==> r == stored
    ensures stored.None? && unNumber == "UN1263" ==>
      r == Some(UnRecord("UN1263", "PAINT", "3", Some("II")))
    ensures stored.None? && unNumber == "UN3481" ==>
      r.Some? && r.value.hazardClass == "9" && r.value.packingGroup.None? && r.value.unNumber == unNumber
    ensures stored.None? && unNumber != "UN1263" && unNumber != "UN3481" ==> r.None?
  {
    if stored.Some? then stored
    else if unNumber == "UN1263" then Some(UnRecord("UN1263", "PAINT", "3", Some("II")))
    else if unNumber == "UN3481" then Some(UnRecord("UN3481", "Lithium ion batteries contained in equipment", "9", None))
    else None
  }

  const MatchDetail := "Potentially matches denied party list"

  /** `screenParties` once the shipment has been looked up. */
  function ScreenShipment(parties: Option<seq<Option<Party>>>): (r: Result<Screening, string>)
    ensures parties.None? <==> r == Err("Shipment not found")
    ensures parties.Some? ==> r.Ok? && r.value.status == ScreenParties(parties.value, DeniedParties, MatchDetail).status
  {
    match parties
    case None => Err("Shipment not found")
    case Some(ps) => Ok(ScreenParties(ps, DeniedParties, MatchDetail))
  }
}

module ComplianceModule {
  import opened Wrappers
  import opened Text
  import opened Screening

  /** A line item's unit value and quantity; a zero or missing quantity
      counts as 1 (`item.quantity || 1`). */
  datatype LineItem = LineItem(unitValue: Option<real>, quantity: Option<int>)

  function LineValue(item: LineItem): real {
    var unit := match item.unitValue case Some(v) => v case None => 0.0;
    var qty := match item.quantity case Some(q) => if q == 0 then 1 else q case None => 1;
    unit * qty as real
  }

  predicate HighLine(item: LineItem) { LineValue(item) > 2500.0 }

  datatype AesDecision = AesDecision(aesRequired: bool, reasons: seq<string>)

  const RestrictedDestination := "Restricted Destination"
  const HighValue := "Line value exceeds $2500 and dest is not Canada"

  /** `determineAesRequirement`, with no licence rule. */
  function DetermineAes(items: seq<LineItem>, destinationCountry: Option<string>): AesDecision {
    var dest := if destinationCountry.Some? then Upper(destinationCountry.value) else "";
    if Restricted(dest) then AesDecision(true, [RestrictedDestination])
    else if (exists i :: 0 <= i < |items| && HighLine(items[i])) && dest != "CA" then AesDecision(true, [HighValue])
    else AesDecision(false, [])
  }

  lemma {:induction false} DetermineAesSpec(items: seq<LineItem>, dest: Option<string>)
    ensures DetermineAes(items, dest).aesRequired <==> |DetermineAes(items, dest).reasons| == 1
    ensures DetermineAes(items, dest).aesRequired <==>
      (dest.Some? && Restricted(Upper(dest.value)))
      || ((exists i :: 0 <= i < |items| && HighLine(items[i])) && !(dest.Some? && Upper(dest.value) == "CA"))
    ensures dest.None? ==> DetermineAes(items, dest).reasons != [RestrictedDestination]
  {
  }

  /** A quantity of 0 is read as 1, so a 3000-dollar line with quantity 0
      is high value. */
  lemma {:induction false} ZeroQuantityCountsOnce()
    ensures HighLine(LineItem(Some(3000.0), Some(0)))
    ensures HighLine(LineItem(Some(3000.0), None))
    ensures !HighLine(LineItem(Some(1000.0), Some(2)))
  {
  }

  /** The hit reasons 'Name Match' and 'Embargoed Country'. */
  datatype HitReason = NameMatch | EmbargoedCountry

  datatype Hit = Hit(reason: HitReason, entity: Option<string>)

  /** 'DENIED' or 'CLEAN' */
  datatype AdHocStatus = Denied | Clean

  datatype AdHoc = AdHoc(status: AdHocStatus, hits: seq<Hit>)

  /** `screenAdHoc` without its timestamp; `denied` is the module's
      DENIED_PARTIES list (Screening.DeniedParties). */
  function ScreenAdHoc(name: string, country: Option<string>, denied: seq<string>): (r: AdHoc)
    ensures r.status == Denied <==> r.hits != []
    ensures |r.hits| <= 2
  {
    var nameHit := MatchesAny(name, denied);
    var countryHit := Restricted(if country.Some? then Upper(country.value) else "");
    var hits := (if nameHit then [Hit(NameMatch, Some(name))] else [])
              + (if countryHit then [Hit(EmbargoedCountry, country)] else []);
    AdHoc(if |hits| > 0 then Denied else Clean, hits)
  }

  /** A name hit comes first and carries the name, a country hit comes last
      and carries the country, and a missing country never hits. */
  lemma {:induction false} ScreenAdHocSpec(name: string, country: Option<string>, denied: seq<string>)
    ensures var r := ScreenAdHoc(name, country, denied);
      && (r.hits != [] && r.hits[0] == Hit(NameMatch, Some(name)) <==> MatchesAny(name, denied))
      && (r.hits != [] && r.hits[|r.hits| - 1] == Hit(EmbargoedCountry, country) <==>
          country.Some? && Restricted(Upper(country.value)))
      && (country.None? ==> (r.status == Denied <==> MatchesAny(name, denied)))
  {
    assert !Restricted("");
  }

  datatype UnRecord = UnRecord(unNumber: string, name: string, hazardClass: string)

  /** `lookupUnNumber`: two fixed records, nothing else. */
  function LookupUnNumber(unNumber: string): (r: Option<UnRecord>)
    ensures r.Some? <==> unNumber == "UN1263" || unNumber == "UN3481"
    ensures r.Some? ==> r.value.unNumber == unNumber
    ensures unNumber == "UN1263" ==> r == Some(UnRecord("UN1263", "PAINT", "3"))
    ensures unNumber == "UN3481" ==> r.Some? && r.value.hazardClass == "9"
  {
    if unNumber == "UN1263" then Some(UnRecord("UN1263", "PAINT", "3"))
    else if unNumber == "UN3481" then Some(UnRecord("UN3481", "Lithium Ion Batteries", "9"))
    else None
  }

  /** `screenShipmentParties`: only shipper and consignee are screened. */
  function ScreenShipmentParties(shipper: Option<Party>, consignee: Option<Party>): (r: Screening)
    ensures |r.results| <= 2
  {
    ScreenParties([shipper, consignee], DeniedParties, "Potential Denial")
  }
}
