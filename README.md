# Shipping document generation: a verified model of its core logic

Shipping-Doc-Gen turns shipment data into customs and forwarding documents:
commercial invoices, packing lists, letters of instruction, certificates of
origin and dangerous-goods declarations. Around that it ingests supplier
documents (PDF invoices, CSV exports, OCR results) into a canonical shipment,
validates the lines for customs (HTS code, country of origin, weight, value,
description), screens shipments for export-compliance rules, routes them with
configurable rules, packs items into bins and serialises data for ERP and
forwarder hand-off. A legacy batch job correlates reference ("JDE") PDFs with
scanned forwarder PDFs by shipment identifier.

This project models the deterministic core of those services in Dafny and
proves what their code promises. One Dafny file covers each part of the system:

- `process_docs.dfy`: the legacy correlation job. It extracts the identifier with `_(\d+)_PDF`, builds a last-write-wins index and matches by first substring. It places files into per-identifier folders, with the single `_2` retry on a name clash. The file system is a map from folder to the names in it.
- `validators.dfy`: the compliance validators and the error catalog. `utils.dfy`: number and unit cleanup, string normalisation, checksums and the line pass of document normalisation.
- `addresses.dfy`: the address parser, current and legacy versions. `pdf_parser.dfy`: the header rules, line filter, de-duplication, token collapse, merge, placeholder and references of the PDF parser.
- `rule_engine.dfy`: the JSON condition engine. `rules_service.dfy`: the in-memory rule store, as a class whose rule list its methods update.
- `bin_packing.dfy`: the first-fit-decreasing guillotine bin packer.
- `auto_tagger.dfy`: the keyword document classifier.
- `semantic_mapper.dfy`, `import_mappers.dfy`, `csv_import.dfy`: the header-synonym mappers, the row and OCR mappers and the naive CSV reader.
- `serializers.dfy`: the ERP export CSV and the forwarder booking package.
- `handlebars.dfy`: the two template-safety validators and the template cache.
- `upload.dfy`, `request_handler.dfy`, `auth.dfy`, `compliance.dfy`, `reports.dfy`, `viewmodels.dfy`, `accuracy.dfy`: the ZIP limits, the result-to-HTTP mapping, password strength, AES and screening in three versions, validation-report aggregation, the document view models and the golden-file accuracy comparator.
- `common.dfy` and `json.dfy`: shared helpers. These are Option and Result, ASCII string operations, sequence lemmas, and JavaScript values with insertion-ordered objects and NaN.

Amounts and weights are `real`. The runtime's number-to-text conversions (`parseFloat`, `Number(string)`, `String(number)`, `toFixed`) are kept abstract: they are parameters, or fields of an environment record passed in. Imperative source code is modelled by methods with loop invariants. Each such method's postcondition ties its result to a specification function, and the promised properties are proved about that function.

## Model

| member | source | states |
|---|---|---|
| Accuracy.FlagsLookup | legacy/services/ingestion/scripts/report_accuracy.js:40-42 | the flags object built over a key list holds exactly the keys visited, each with the outcome of its comparison, except `__proto__`, whose assignment creates no key |
| Accuracy.CompareFields | legacy/services/ingestion/scripts/report_accuracy.js:40-42 | the key loop leaves exactly the flag object of the expected keys compared by strict equality, where a `__proto__` key gets no flag |
| Accuracy.CompareChecksums | legacy/services/ingestion/scripts/report_accuracy.js:57-62 | the checksum loop leaves exactly the flags of the numeric comparison within 1e-6, where a `__proto__` key gets no flag |
| Accuracy.CompareLines | legacy/services/ingestion/scripts/report_accuracy.js:44-55 | one result per expected line, and line i's result is the comparison of expected line i with actual line i (undefined past the end) |
| Accuracy.CompareDocs | legacy/services/ingestion/scripts/report_accuracy.js:32-65 | the report's header, lines and checksum parts are the three comparisons above |
| Accuracy.HeaderSpec | legacy/services/ingestion/scripts/report_accuracy.js:40-42 | the header result has exactly the expected header's keys but `__proto__`, each flagged by strict equality; keys only the actual header has are ignored |
| Accuracy.LinesSpec | legacy/services/ingestion/scripts/report_accuracy.js:44-55 | a line result is false exactly when the actual line is missing or falsy, and otherwise flags exactly the expected line's fields but `__proto__` |
| Accuracy.ChecksumSpec | legacy/services/ingestion/scripts/report_accuracy.js:57-62 | a checksum flag other than `__proto__` is true exactly when both sides are numbers less than 1e-6 apart; `__proto__` gets no flag |
| Accuracy.MissingChecksum | legacy/services/ingestion/scripts/report_accuracy.js:58-61 | a checksum missing from the actual document is NaN and never matches (a `__proto__` key gets no flag at all) |
| AddressCommon.SplitParts | services/ingestion/src/pdf/addressParser.js:11 | the split yields at least one part and no part holds a comma or a newline |
| AddressCommon.NonEmpty | services/ingestion/src/pdf/addressParser.js:11 | the filter keeps exactly the non-empty parts, and nothing else |
| AddressCommon.PiecesSpec | services/ingestion/src/pdf/addressParser.js:11 | every piece is non-empty, trimmed at both ends and free of commas and newlines |
| AddressCommon.SplitName | services/ingestion/src/pdf/addressParser.js:13-36 | the name is the first piece without its "FC " prefix, with a corporate-suffix second piece appended after ", "; the remaining parts are the pieces after the name (and the suffix) |
| AddressCommon.StripFcNonEmpty | services/ingestion/src/pdf/addressParser.js:15 | removing the "FC " prefix from a trimmed non-empty piece leaves it non-empty |
| AddressCommon.StripFcSpec | services/ingestion/src/pdf/addressParser.js:15 | only "FC" in either case followed by white space is removed, together with all the white space after it |
| AddressCommon.FindFromEnd | services/ingestion/src/pdf/addressParser.js:70-82 | the backward loop finds the last part the city-state-zip matcher accepts, or reports that none is accepted |
| AddressCommon.LastMatch | services/ingestion/src/pdf/addressParser.js:70-82 | the last accepted index: accepted, and no later part accepted; none only when no part is accepted |
| AddressCommon.LastMatchUnique | services/ingestion/src/pdf/addressParser.js:70-82 | any answer meeting that contract is the scan's answer |
| AddressCommon.Remove | services/ingestion/src/pdf/addressParser.js:78 | the splice makes the list one shorter |
| AddressCommon.RemoveSpec | services/ingestion/src/pdf/addressParser.js:78 | the splice loses exactly the one part at i and keeps the others in order |
| AddressCommon.AddressLines | services/ingestion/src/pdf/addressParser.js:84-90 | no parts leave both address lines empty, one part is the address, more parts put the rest joined by ", " into address2 |
| AddressCommon.ScanParts | services/ingestion/src/pdf/addressParser.js:70-90 | the loop with its splice gives the address that Scan describes |
| AddressCommon.ScanSpec | services/ingestion/src/pdf/addressParser.js:70-90 | the name and country pass through; city, state and zip come from the last matching part, and the address lines are the other parts in order |
| AddressCommon.FirstFit | services/ingestion/src/pdf/addressParser.js:59 | the lazy prefix is the shortest split point at which the anchored tail matches without crossing a line break; none when no split point matches |
| AddressCommon.Span | services/ingestion/src/pdf/addressParser.js:59 | a run of characters with the property, ending where it fails |
| AddressCommon.DigitEndNotName | legacy/services/ingestion/src/pdf/addressParser.js:57 | a piece ending in a digit neither equals nor ends with " " + a name ending in something else |
| AddressParser.Tail | services/ingestion/src/pdf/addressParser.js:59 | a match has a state of 2-3 uppercase letters and a 4-5 digit zip that ends the text |
| AddressParser.StateAndZip | services/ingestion/src/pdf/addressParser.js:59 | the state-and-zip part of the pattern has that shape |
| AddressParser.ZipAfter | services/ingestion/src/pdf/addressParser.js:59 | white space then a 4-5 digit zip closing the text |
| AddressParser.TailComplete | services/ingestion/src/pdf/addressParser.js:59 | every tail of that shape is matched, with its own state and zip |
| AddressParser.ZipAfterComplete | services/ingestion/src/pdf/addressParser.js:59 | white space followed by a 4-5 digit zip is matched |
| AddressParser.StateAndZipComplete | services/ingestion/src/pdf/addressParser.js:59 | a state, white space and a zip are matched with that state and zip |
| AddressParser.CityStateZipFound | services/ingestion/src/pdf/addressParser.js:52-68 | "City ST 12345" on one line yields a city-state-zip with its state and zip |
| AddressParser.CityStateZipShape | services/ingestion/src/pdf/addressParser.js:59-65 | a parsed state has 2-3 uppercase letters, the zip 4-5 digits, and the line ends in a digit |
| AddressParser.PopCountry | services/ingestion/src/pdf/addressParser.js:38-46 | the last part is popped as the country exactly when it contains a known country name, case-insensitively |
| AddressParser.FillCountry | services/ingestion/src/pdf/addressParser.js:92-102 | the result is unchanged except that its country is the inferred one |
| AddressParser.ParseAddress | services/ingestion/src/pdf/addressParser.js:7-105 | the method's result is the parse: name, country, city line, address lines, inferred country, in that order |
| AddressParser.NullInput | services/ingestion/src/pdf/addressParser.js:8 | null exactly for a missing or empty string |
| AddressParser.UsBeforeAu | services/ingestion/src/pdf/addressParser.js:97-101 | "WA" is in both state lists and gives the United States |
| AddressParser.InferSpec | services/ingestion/src/pdf/addressParser.js:93-101 | a found country or an empty state is kept; a US state gives the United States, an Australian state the country Australia |
| AddressParser.MilwaukeeIsCountry | services/ingestion/src/pdf/addressParser.js:40-46 | as written, "Milwaukee WI 53202" contains "uk" and is taken as the country |
| AddressParser.MilwaukeeIsCityLine | services/ingestion/src/pdf/addressParser.js:59 | that same part is a city-state-zip line |
| AddressParser.CountriesEndInLetters | services/ingestion/src/pdf/addressParser.js:40 | every listed country name ends in a letter |
| AddressParser.CorrectedKeepsZipLines | services/ingestion/src/pdf/addressParser.js:40-46 | with the whole-word test a part ending in a digit is never a country |
| AddressParser.CorrectedCountry | services/ingestion/src/pdf/addressParser.js:40-46 | with the whole-word test a last part that is a city-state-zip line is left for the city scan |
| LegacyAddressParser.MainTail | legacy/services/ingestion/src/pdf/addressParser.js:75 | a match has a 2-3 letter state in either case and a zip of 4-9 digits with an optional "-dddd", ending the text |
| LegacyAddressParser.StateAndZip | legacy/services/ingestion/src/pdf/addressParser.js:75 | the state-and-zip part of the pattern has that shape |
| LegacyAddressParser.ZipAfter | legacy/services/ingestion/src/pdf/addressParser.js:75 | white space then a zip closing the text |
| LegacyAddressParser.IsZipComplete | legacy/services/ingestion/src/pdf/addressParser.js:75 | 4 to 9 digits, with or without "-" and four digits, form a zip |
| LegacyAddressParser.StateAndZipComplete | legacy/services/ingestion/src/pdf/addressParser.js:75 | a state, white space and a zip are matched with that state and zip |
| LegacyAddressParser.MainTailComplete | legacy/services/ingestion/src/pdf/addressParser.js:75 | every tail of that shape is matched, with its own state and zip |
| LegacyAddressParser.FallbackTail | legacy/services/ingestion/src/pdf/addressParser.js:81 | the fallback takes 3 to 10 letters, digits or spaces at the end as the zip |
| LegacyAddressParser.CityStateZipSpec | legacy/services/ingestion/src/pdf/addressParser.js:67-100 | the main pattern upper-cases the state; otherwise the fallback gives an empty state; with neither, no city line |
| LegacyAddressParser.PopCountry | legacy/services/ingestion/src/pdf/addressParser.js:54-61 | the last part is popped as the country exactly when, lower-cased, it equals a listed name or ends with a space and one |
| LegacyAddressParser.FillCountry | legacy/services/ingestion/src/pdf/addressParser.js:124-138 | the result is unchanged except that its country is the inferred one |
| LegacyAddressParser.ParseAddress | legacy/services/ingestion/src/pdf/addressParser.js:7-141 | the method's result is the legacy parse, step by step |
| LegacyAddressParser.NullInput | legacy/services/ingestion/src/pdf/addressParser.js:8 | null exactly for a missing or empty string |
| LegacyAddressParser.InferOrder | legacy/services/ingestion/src/pdf/addressParser.js:125-137 | "WA" gives the United States; an Australian state the country Australia; a Canadian-only state Canada |
| LegacyAddressParser.ZipLineNotCountry | legacy/services/ingestion/src/pdf/addressParser.js:54-61 | a part ending in a digit is never taken as the country |
| LegacyAddressParser.CountriesEndInLetters | legacy/services/ingestion/src/pdf/addressParser.js:40-52 | every listed country name ends in a letter |
| LegacyAddressParser.TrimTrimmed | legacy/services/ingestion/src/pdf/addressParser.js:55 | trimming keeps the last character of a part with no trailing space |
| Auth.ValidatePasswordSpec | legacy/apps/api/src/services/auth.js:24-34 | a password passes exactly when it has at least 8 UTF-16 code units, a letter and a digit; otherwise the message is that of the first rule broken, in the order length, letter, digit |
| Auth.Register | legacy/apps/api/src/services/auth.js:37-40 | registration gets past the checks exactly when the password is strong and the name is not taken |
| Auth.RegisterChecksPasswordFirst | legacy/apps/api/src/services/auth.js:38-40 | a weak password is refused with its own message whatever the user store holds |
| Auth.ShortPassword | legacy/apps/api/src/services/auth.js:25-27 | "abc1" is too short |
| Auth.DigitsOnlyPassword | legacy/apps/api/src/services/auth.js:28-30 | "12345678" lacks a letter |
| Auth.LettersOnlyPassword | legacy/apps/api/src/services/auth.js:31-33 | "abcdefgh" lacks a number |
| Auth.GoodPassword | legacy/apps/api/src/services/auth.js:24-34 | "abcdefg1" passes |
| AutoTagger.Classify | legacy/apps/api/src/services/classification/autoTagger.js:39-68 | the method returns the classification: the tags of the qualifying rules, in rule order |
| AutoTagger.Collect | legacy/apps/api/src/services/classification/autoTagger.js:44-61 | the loop over the rules, with the inner keyword loop, collects exactly the tags of the rules whose score reaches the threshold |
| AutoTagger.HitsBound | legacy/apps/api/src/services/classification/autoTagger.js:48-52 | each keyword adds at most one point |
| AutoTagger.HitsByPresence | legacy/apps/api/src/services/classification/autoTagger.js:48-52 | the score depends only on which keywords occur, not on how often |
| AutoTagger.HitsEmpty | legacy/apps/api/src/services/classification/autoTagger.js:48-52 | empty text hits no keyword |
| AutoTagger.TagsOrdered | legacy/apps/api/src/services/classification/autoTagger.js:42-67 | the result has no repeated tag, and each tag comes from a qualifying rule |
| AutoTagger.TagEmitted | legacy/apps/api/src/services/classification/autoTagger.js:58-60 | with distinct rule tags, a rule's tag is emitted exactly when its rule qualifies |
| AutoTagger.TagRulesDistinct | legacy/apps/api/src/services/classification/autoTagger.js:1-27 | the five rules carry five different tags |
| AutoTagger.ClassifySpec | legacy/apps/api/src/services/classification/autoTagger.js:39-68 | classify emits a tag exactly when its rule's score, from keywords and the filename boost, reaches its threshold |
| AutoTagger.ClassifyIgnoresCase | legacy/apps/api/src/services/classification/autoTagger.js:40-41 | classification is the same for text and filename in any letter case |
| AutoTagger.FilenameBoosts | legacy/apps/api/src/services/classification/autoTagger.js:55-56 | a filename containing "inv" always gives Invoice; one containing "pack" or "pl" always gives Packing List |
| AutoTagger.EmptyGivesNoTags | legacy/apps/api/src/services/classification/autoTagger.js:40-41 | missing or empty text and filename give no tags |
| AutoTagger.NoneQualify | legacy/apps/api/src/services/classification/autoTagger.js:58-60 | when no rule qualifies, no tag is emitted |
| BinPacking.InsertBy | apps/api/src/services/ops/binPackingService.js:18-19 | inserting keeps every element: the result is a permutation of the list plus the new one |
| BinPacking.SortBy | apps/api/src/services/ops/binPackingService.js:18-19 | the sort is a permutation of its input |
| BinPacking.InsertByOrdered | apps/api/src/services/ops/binPackingService.js:18-19 | inserting into a descending list keeps it descending |
| BinPacking.SortByOrdered | apps/api/src/services/ops/binPackingService.js:18-19 | the sort is descending by its key |
| BinPacking.SortOrders | apps/api/src/services/ops/binPackingService.js:18-19 | items come out as a permutation in descending volume, bins as a permutation in ascending volume |
| BinPacking.FitIndex | apps/api/src/services/ops/binPackingService.js:42-47 | the first free space the item fits in its own orientation; none before it fits |
| BinPacking.Remainders | apps/api/src/services/ops/binPackingService.js:66-102 | at most three remainders: right, top and front |
| BinPacking.FirstBin | apps/api/src/services/ops/binPackingService.js:36-37 | the first bin within its weight limit with a space the item fits; no earlier bin accepts it |
| BinPacking.PackUpTo | apps/api/src/services/ops/binPackingService.js:33-116 | packing keeps the number of bin instances |
| BinPacking.Advance | apps/api/src/services/ops/binPackingService.js:113-115 | trying one item keeps the number of bin instances |
| BinPacking.TryBin | apps/api/src/services/ops/binPackingService.js:37-109 | placed exactly when the bin accepts the item; then the item sits at the origin of the first fitting space, which is spliced into its remainders; otherwise the bin is unchanged |
| BinPacking.FitIndexFirst | apps/api/src/services/ops/binPackingService.js:42-47 | a fitting space with no fitting space before it is the one chosen |
| BinPacking.FitIndexNone | apps/api/src/services/ops/binPackingService.js:42-47 | with no fitting space, none is chosen |
| BinPacking.FirstBinFirst | apps/api/src/services/ops/binPackingService.js:36-37 | an accepting bin with no accepting bin before it is the one chosen |
| BinPacking.PlaceItem | apps/api/src/services/ops/binPackingService.js:34-111 | the bin loop with its breaks is one step of first fit |
| BinPacking.Pack | apps/api/src/services/ops/binPackingService.js:16-119 | the method returns a packing described by the functions: sorted inputs, first fit, then the filter |
| BinPacking.FreshSound | apps/api/src/services/ops/binPackingService.js:26-31 | a fresh bin instance has one free space, the whole bin |
| BinPacking.RemaindersSound | apps/api/src/services/ops/binPackingService.js:59-102 | the remainders and the item's box lie inside the used space and do not overlap one another |
| BinPacking.SplicePairwise | apps/api/src/services/ops/binPackingService.js:105 | splicing non-overlapping parts of a space in place of it keeps the free spaces non-overlapping |
| BinPacking.SpliceCross | apps/api/src/services/ops/binPackingService.js:105 | after the splice, no free space overlaps a packed box |
| BinPacking.AppendBox | apps/api/src/services/ops/binPackingService.js:50-55 | a box placed in a free space does not overlap the boxes already packed |
| BinPacking.PlaceAtSound | apps/api/src/services/ops/binPackingService.js:47-107 | placing a non-negative item in a space it fits keeps all packed boxes and free spaces inside the bin and non-overlapping |
| BinPacking.PlaceAtWeight | apps/api/src/services/ops/binPackingService.js:37-56 | placing within the weight limit keeps the bin's weight equal to the sum of its items and within its limit |
| BinPacking.StepGood | apps/api/src/services/ops/binPackingService.js:33-116 | one step keeps every bin sound and within its weight limit |
| BinPacking.PackUpToGood | apps/api/src/services/ops/binPackingService.js:33-116 | the whole loop keeps every bin sound and within its weight limit |
| BinPacking.FreshGood | apps/api/src/services/ops/binPackingService.js:26-31 | the fresh instances start sound and within their limits |
| BinPacking.NonEmptySpec | apps/api/src/services/ops/binPackingService.js:118 | the filter keeps exactly the bins holding an item |
| BinPacking.PackingSound | apps/api/src/services/ops/binPackingService.js:16-119 | every returned bin holds an item, stays within its weight limit, and its packed boxes lie inside it without overlapping |
| BinPacking.StepSpec | apps/api/src/services/ops/binPackingService.js:36-111 | an item is placed exactly when some bin accepts it, and it goes into the first such bin |
| BinPacking.CountUpdate | apps/api/src/services/ops/binPackingService.js:50 | replacing one bin instance changes the count of an item by that bin's difference |
| BinPacking.StepCount | apps/api/src/services/ops/binPackingService.js:33-111 | a step packs the tried item once when it is placed and changes no other count |
| BinPacking.AdvanceCount | apps/api/src/services/ops/binPackingService.js:33-116 | each item is either packed once more or recorded as unplaced |
| BinPacking.PackUpToCount | apps/api/src/services/ops/binPackingService.js:33-116 | after n items, packed plus unplaced copies of every item equal its copies among the first n |
| BinPacking.FreshCount | apps/api/src/services/ops/binPackingService.js:26-31 | fresh bins hold nothing |
| BinPacking.NonEmptyCount | apps/api/src/services/ops/binPackingService.js:118 | the filter drops no packed item |
| BinPacking.PackingOnce | apps/api/src/services/ops/binPackingService.js:16-119 | every input item is packed exactly once or reported as unfit, never both and never twice |
| Screening.MatchesAnySpec | apps/api/src/services/compliance/complianceService.js:78 | a party matches exactly when some listed name occurs in its name, both lower-cased |
| Screening.EmbeddedName | apps/api/src/services/compliance/complianceService.js:78 | a listed name in any case, anywhere inside the party name, is a hit |
| Screening.Present | apps/api/src/services/compliance/complianceService.js:76 | the filter keeps at most the parties given |
| Screening.ScreenAll | apps/api/src/services/compliance/complianceService.js:77-85 | one result per present party, in order, each that party's screening |
| Screening.ScreenParties | apps/api/src/services/compliance/complianceService.js:76-87 | one result per present party |
| Screening.PresentSpec | apps/api/src/services/compliance/complianceService.js:76 | a party is screened exactly when it is present |
| Screening.AnyMatchSpec | apps/api/src/services/compliance/complianceService.js:87 | the overall test holds exactly when some result is MATCH |
| Screening.ScreenPartiesSpec | apps/api/src/services/compliance/complianceService.js:76-98 | the status is MATCH exactly when a present party's name holds a denied name, and each result is MATCH exactly for such a party |
| ComplianceService.SumAppend | apps/api/src/services/compliance/complianceService.js:18 | the reduce over two concatenated line lists is the sum of their totals |
| ComplianceService.AesMonotone | apps/api/src/services/compliance/complianceService.js:15-26 | adding a line of non-negative value never withdraws an AES requirement |
| ComplianceService.NoLinesNoAes | apps/api/src/services/compliance/complianceService.js:18-25 | a shipment without line items never needs AES |
| ComplianceService.HighLineHighTotal | apps/api/src/services/compliance/complianceService.js:18-23 | with non-negative values, one line over 2500 puts the total over 2500 |
| ComplianceService.SumNonNegative | apps/api/src/services/compliance/complianceService.js:18 | non-negative line values give a non-negative total |
| ComplianceService.TestedCases | apps/api/src/services/compliance/complianceService.test.js:27-52 | 3000 to DE needs AES, 1000 to DE does not, 5000 to CA does not |
| ComplianceService.ScreenShipment | apps/api/src/services/compliance/complianceService.js:69-98 | a missing shipment is the error "Shipment not found"; otherwise the screening of its present parties with the service's message |
| ComplianceDomain.DetermineAesSpec | apps/api/src/domains/compliance/services/ComplianceService.js:12-43 | the decision has one reason exactly when AES is required, and the reason is that of the first rule that applies: licensed goods, then restricted destination, then a high line outside Canada |
| ComplianceDomain.LicensedToCanada | apps/api/src/domains/compliance/services/ComplianceService.js:26-33 | a licensed item requires AES even to Canada and even at low value |
| ComplianceDomain.Ear99NotLicensed | apps/api/src/domains/compliance/services/ComplianceService.js:26 | EAR99 or missing ECCNs do not count as licensed |
| ComplianceDomain.PerLineImpliesTotal | apps/api/src/domains/compliance/services/ComplianceService.js:18 | without the other rules, the per-line test implies the older total test of complianceService.js |
| ComplianceDomain.Totals | apps/api/src/domains/compliance/services/ComplianceService.js:18 | the same lines read by the older service, one for one |
| ComplianceDomain.TotalsSpec | apps/api/src/domains/compliance/services/ComplianceService.js:18 | each line keeps its value under both readings |
| ComplianceDomain.TotalWithoutHighLine | apps/api/src/domains/compliance/services/ComplianceService.js:18 | two lines of 2000 to DE need AES by total but not per line |
| ComplianceDomain.LookupUnNumber | apps/api/src/domains/compliance/services/ComplianceService.js:46-61 | a stored record wins; otherwise UN1263 and UN3481 give their fixed records and anything else null |
| ComplianceDomain.ScreenShipment | apps/api/src/domains/compliance/services/ComplianceService.js:64-95 | a missing shipment is the error "Shipment not found"; otherwise the screening status of its present parties |
| ComplianceModule.DetermineAesSpec | apps/api/src/modules/compliance/service.ts:14-47 | the decision has one reason exactly when AES is required: a restricted destination, or else a line worth over 2500 outside Canada; a missing destination is never restricted |
| ComplianceModule.ZeroQuantityCountsOnce | apps/api/src/modules/compliance/service.ts:27 | a missing or zero quantity counts as one |
| ComplianceModule.ScreenAdHoc | apps/api/src/modules/compliance/service.ts:83-96 | DENIED exactly when there is a hit, and there are at most two hits |
| ComplianceModule.ScreenAdHocSpec | apps/api/src/modules/compliance/service.ts:84-89 | a name hit comes first and carries the name, a country hit comes last and carries the country |
| ComplianceModule.LookupUnNumber | apps/api/src/modules/compliance/service.ts:100-105 | only UN1263 and UN3481 are found, each with its own number, PAINT class 3 and class 9 respectively |
| ComplianceModule.ScreenShipmentParties | apps/api/src/modules/compliance/service.ts:51-81 | only shipper and consignee are screened, so there are at most two results |
| CsvImport.StripCr | apps/api/src/modules/import/service.ts:62 | the "\r" before a newline is dropped and nothing else |
| CsvImport.NonBlank | apps/api/src/modules/import/service.ts:62 | the filter keeps exactly the lines that are not blank after trimming |
| CsvImport.Unquote | apps/api/src/modules/import/service.ts:65 | removing the outer quotes never lengthens a field |
| CsvImport.Cells | apps/api/src/modules/import/service.ts:69 | one cell per comma-separated field |
| CsvImport.ParseCsvSimple | apps/api/src/modules/import/service.ts:61-79 | the loop over the data lines and its header loop give the records Parse describes |
| CsvImport.RecordCount | apps/api/src/modules/import/service.ts:62-68 | one record per data line after the header, none for fewer than two non-blank lines |
| CsvImport.LastIndex | apps/api/src/modules/import/service.ts:73-75 | the last column carrying a header, among the first n |
| CsvImport.RecordFields | apps/api/src/modules/import/service.ts:70-75 | every header except __proto__ is a key whose value is the cell of its last column, or "" for a short row; nothing else is a key |
| CsvImport.RecordKeys | apps/api/src/modules/import/service.ts:70-75 | with distinct headers other than __proto__, the record's keys are the headers in order |
| CsvImport.RecordLacks | apps/api/src/modules/import/service.ts:70-75 | a key that is not a header is absent |
| CsvImport.CleanInside | apps/api/src/modules/import/service.ts:65 | trimming and unquoting only remove characters from the ends |
| CsvImport.CellsHaveNoComma | apps/api/src/modules/import/service.ts:69 | no cell holds a comma: quoted commas split the field |
| CsvImport.QuotedCell | apps/api/src/modules/import/service.ts:65 | a trimmed field wrapped in quotes gives what lies between them |
| CsvImport.TransformAll | apps/api/src/modules/import/service.ts:22-23 | each row is transformed with the mapping, in order |
| CsvImport.ProcessCsv | apps/api/src/modules/import/service.ts:9-23 | the "Empty CSV" guard, the mapping from the first record's keys and the per-row transform, as Canonical describes |
| CsvImport.EmptyGuard | apps/api/src/modules/import/service.ts:11-13 | the import fails exactly when fewer than two non-blank lines were read, with the message "Empty CSV" |
| HandlebarsSecurity.FirstBlocked | legacy/apps/api/src/utils/handlebarsSecurity.js:16-20 | the first of the segments that is __proto__, constructor or prototype; none exactly when no segment is blocked |
| HandlebarsSecurity.FirstError | legacy/apps/api/src/utils/handlebarsSecurity.js:34-94 | the walk succeeds exactly when every node's own check succeeds |
| HandlebarsSecurity.FirstErrorAppend | legacy/apps/api/src/utils/handlebarsSecurity.js:39 | the first error of two node lists in a row is that of the first list, else that of the second |
| HandlebarsSecurity.VisitFlat | legacy/apps/api/src/utils/handlebarsSecurity.js:34-92 | the recursive visit fails with the error of the first reached node, in visiting order, whose own check fails |
| HandlebarsSecurity.VisitAllFlat | legacy/apps/api/src/utils/handlebarsSecurity.js:39 | the forEach over a list of nodes is the first error over everything they reach |
| HandlebarsSecurity.VisitOptFlat | legacy/apps/api/src/utils/handlebarsSecurity.js:35 | a missing node passes; a present one is visited |
| HandlebarsSecurity.ValidIffAllLocal | legacy/apps/api/src/utils/handlebarsSecurity.js:34-94 | a template passes exactly when every node the visitor reaches passes its own check |
| HandlebarsSecurity.ForbiddenNodes | legacy/apps/api/src/utils/handlebarsSecurity.js:83-90 | partials and decorators are refused whatever the allowed sets, and unknown node types are refused with the "Unhandled" message |
| HandlebarsSecurity.ForbiddenAnywhere | legacy/apps/api/src/utils/handlebarsSecurity.js:83-90 | a reached partial, decorator or unknown node fails the whole template |
| HandlebarsSecurity.SafePathSpec | legacy/apps/api/src/utils/handlebarsSecurity.js:7-21 | a path is refused exactly when its original is truthy and one of its segments is blocked, with the message naming the first such segment |
| HandlebarsSecurity.LocalSpec | legacy/apps/api/src/utils/handlebarsSecurity.js:43-67 | a block needs an allowed helper; a mustache with parameters or hash pairs needs an allowed helper, one without them a safe path; a subexpression needs an allowed subexpression or helper; a literal in the path slot is judged by its `original`, so a number literal is falsy exactly when its value is 0 |
| HandlebarsSecurity.NumberPathSpec | legacy/apps/api/src/utils/handlebarsSecurity.js:7-49 | a number literal as a mustache path passes when it is 0 and otherwise fails on splitting a non-string; with parameters it is refused as a helper named by the number-to-string of its value |
| HandlebarsSecurity.ConstructorPathRejected | legacy/apps/api/src/utils/handlebarsSecurity.js:5 | {{constructor.name}} is refused under the default sets |
| HandlebarsSecurity.OptionsSpec | legacy/apps/api/src/utils/handlebarsSecurity.js:29-32 | missing option sets fall back to the defaults and given ones replace them; a parse error is reported as such |
| TemplateGenerator.Children | legacy/apps/api/src/services/documents/generator.js:40-48 | every child the key loop enters is smaller than its parent |
| TemplateGenerator.Collect | legacy/apps/api/src/services/documents/generator.js:20-49 | the recursive walk appends exactly every node's own violations, in the order it enters them |
| TemplateGenerator.CollectChildren | legacy/apps/api/src/services/documents/generator.js:40-48 | the loop over the keys and array elements appends the walks of all children, in order |
| TemplateGenerator.ChildWalkStep | legacy/apps/api/src/services/documents/generator.js:40-48 | one more child: its walk's violations follow those of the earlier children |
| TemplateGenerator.WalkShape | legacy/apps/api/src/services/documents/generator.js:20-48 | a node's own violations come before those of its children |
| TemplateGenerator.AssertTemplateSafe | legacy/apps/api/src/services/documents/generator.js:16-56 | the verdict over all violations of the tree: fine when there are none, else one error listing them all |
| TemplateGenerator.ViolationsReported | legacy/apps/api/src/services/documents/generator.js:23-37 | a partial, an unescaped mustache or a disallowed helper anywhere in the tree is reported with its message, a number literal helper being named by the number-to-string of its value |
| TemplateGenerator.NumberHelperSpec | legacy/apps/api/src/services/documents/generator.js:32-37 | a number literal helper with parameters is reported exactly when its value is not 0, named by the number-to-string of the value |
| TemplateGenerator.VerdictSpec | legacy/apps/api/src/services/documents/generator.js:53-55 | a template is accepted exactly when nothing was collected, and the error joins the messages with spaces |
| TemplateGenerator.TemplateCache.constructor | legacy/apps/api/src/services/documents/generator.js:11 | the cache starts empty, with the given reader, parser and number-to-string |
| TemplateGenerator.TemplateCache.GetTemplate | legacy/apps/api/src/services/documents/generator.js:58-72 | a cached template is returned unchanged; otherwise the file is read, parsed and checked, and only a safe template is compiled, cached and returned; every error leaves the cache as it was |
| RowMapper.FindKey | legacy/apps/api/src/services/import/mapper.js:48 | the first own key equal to the candidate ignoring case; none when no key matches |
| RowMapper.GetValueFirst | legacy/apps/api/src/services/import/mapper.js:45-52 | the first candidate that finds a non-empty key gives the value of that key |
| RowMapper.GetValueNone | legacy/apps/api/src/services/import/mapper.js:51 | when no candidate finds a key the value is null |
| RowMapper.DefaultWhenAbsent | legacy/apps/api/src/services/import/mapper.js:55-58 | the default is used when no candidate column is present |
| RowMapper.MapLines | legacy/apps/api/src/services/import/mapper.js:66-80 | one line per row, in order |
| RowMapper.MapRowsToUnknownShipment | legacy/apps/api/src/services/import/mapper.js:38-91 | the method builds the header, the lines and the totals as MapRows describes |
| RowMapper.MapRowsShape | legacy/apps/api/src/services/import/mapper.js:38-91 | null exactly for missing or empty input; otherwise one line per row in order, and its package count is the number of rows |
| RowMapper.TermsDefaults | legacy/apps/api/src/services/import/mapper.js:55-56 | incoterm defaults to EXW and currency to USD |
| RowMapper.CountryDefaults | legacy/apps/api/src/services/import/mapper.js:57-58 | both countries default to "US", so the origin is never empty |
| RowMapper.LineValue | legacy/apps/api/src/services/import/mapper.js:67-75 | a line's extendedValue is its quantity times its unit value |
| RowMapper.LineDefaults | legacy/apps/api/src/services/import/mapper.js:72-78 | a line defaults to "Unknown Item", HTS "0000000000", and the header's origin country |
| RowMapper.ExtendedValueExample | apps/api/tests/csv_import.test.js:86 | quantity 100 at 10.5 gives 1050 |
| RowMapper.TotalsSpec | legacy/apps/api/src/services/import/mapper.js:83-84 | with every number parsed, the totals are the sums of extendedValue and netWeightKg |
| RowMapper.UnparsedValuePoisons | legacy/apps/api/src/services/import/mapper.js:83 | a line whose quantity or price does not parse makes the customs total NaN |
| RowMapper.ValueTotalNumeric | legacy/apps/api/src/services/import/mapper.js:83 | the customs total is a number or NaN |
| OcrMapper.MapLines | apps/api/src/services/import/ocrMapper.js:31-42 | one shipment line per input line, in order |
| OcrMapper.MissingHeaderSpec | apps/api/src/services/import/ocrMapper.js:8-10 | the missing-header error is raised exactly when the result or its header is falsy |
| OcrMapper.ShipmentSpec | apps/api/src/services/import/ocrMapper.js:12-47 | the header takes EXW and USD by default, both countries "US", reference and parties from the header; the lines are mapped one for one |
| OcrMapper.AggregateSpec | apps/api/src/services/import/ocrMapper.js:25-27 | a truthy checksum wins; otherwise the total is the sum over the lines |
| OcrMapper.LineSumSpec | apps/api/src/services/import/ocrMapper.js:25-27 | with numeric or missing fields, the reduce is the sum of the fields, missing ones as 0 |
| OcrMapper.UnitValueSpec | apps/api/src/services/import/ocrMapper.js:34 | the unit value is valueUsd / quantity for non-zero numbers, and 0 when either is falsy |
| OcrMapperV1.MapLines | legacy/apps/api/src/services/import/ocrMapper.js:31-43 | one line item per input line, in order |
| OcrMapperV1.ErrorsSpec | legacy/apps/api/src/services/import/ocrMapper.js:22-99 | the missing-header error exactly when the result or its header is falsy; a schema failure is reported as "OCR Validation Failed: " and its message |
| OcrMapperV1.LineItemsSpec | legacy/apps/api/src/services/import/ocrMapper.js:31-43 | every line item belongs to the new shipment and the defaults fill its missing fields |
| OcrMapperV1.AggregatesClamped | legacy/apps/api/src/services/import/ocrMapper.js:81-83 | the totals are never negative and its package count is at least 1 |
| OcrMapperV1.PartiesSpec | legacy/apps/api/src/services/import/ocrMapper.js:63-78 | placeholder parties: the shipper's country is the origin and the consignee's the destination |
| OcrMapperV1.MetadataSpec | legacy/apps/api/src/services/import/ocrMapper.js:54-91 | the record carries the two clock readings as createdAt and updatedAt, the creator "system-ocr", the schema version "shipment.v1" and one line item per line |
| OcrMapperV1.UnitValueExample | legacy/apps/api/src/services/import/ocrMapper.js:37 | a line of value 100 and quantity 10 has unit value 10 |
| PdfParser.Currency | services/ingestion/src/pdf/parser.js:23 | the currency is "USD" exactly when the text contains "USD" or "$", and "" otherwise |
| PdfParser.DollarSignMeansUsd | services/ingestion/src/pdf/parser.js:23 | a "$" at any position of the text makes the currency USD |
| PdfParser.ValidateIncoterm | services/ingestion/src/pdf/parser.js:89-97 | an extracted term is kept exactly when it is empty or its upper-cased form contains one of the twelve listed incoterms; otherwise it is cleared to "" |
| PdfParser.IncotermInText | services/ingestion/src/pdf/parser.js:90-96 | the check is case-insensitive and by containment: "fob shanghai" is kept |
| PdfParser.ScanInvoiceNumber | services/ingestion/src/pdf/parser.js:27-80 | the header scan over the first 60 non-empty trimmed lines yields the invoice number of the last line starting with "invoice number:" |
| PdfParser.ScanHeaderLines | services/ingestion/src/pdf/parser.js:30-80 | the loop that overwrites the number at every labelled line ends with the number of the last labelled line, as InvoiceNumberUpTo defines it |
| PdfParser.NoInvoiceNumber | services/ingestion/src/pdf/parser.js:79-80 | without a labelled line the invoice number stays "" |
| PdfParser.LastInvoiceNumberWins | services/ingestion/src/pdf/parser.js:79-80 | the labelled line after which no other labelled line follows gives the invoice number |
| PdfParser.Keep | services/ingestion/src/pdf/parser.js:103 | filtering keeps exactly the elements that satisfy the predicate, and no more elements than the input had |
| PdfParser.RowsSpec | services/ingestion/src/pdf/parser.js:103 | a row is a trimmed non-empty input line not starting with "#", and every such line is a row |
| PdfParser.MakeLine | services/ingestion/src/pdf/parser.js:221-233 | the pushed invoice line has the match's key part-quantity-total, a non-empty description ("Description" when none) and origin "GB" |
| PdfParser.FindPart | services/ingestion/src/pdf/parser.js:246-247 | the part number found is the first position with five digits, "-" and four digits; none is found only when no position has one |
| PdfParser.FirstWhole | services/ingestion/src/pdf/parser.js:273 | the quantity index is the first float within 0.001 of a whole number, and none exists only when no float is |
| PdfParser.MinOf | services/ingestion/src/pdf/parser.js:280 | the net weight is a member of the weights and no greater than any of them |
| PdfParser.MaxOf | services/ingestion/src/pdf/parser.js:281 | the gross weight is a member of the weights and no smaller than any of them |
| PdfParser.Without | services/ingestion/src/pdf/parser.js:278 | dropping the quantity's index leaves one float fewer, all others and nothing new |
| PdfParser.CandidateSpec | services/ingestion/src/pdf/parser.js:267-283 | a candidate's quantity is the rounded first whole float; its net and gross are the least and greatest of the other floats, both taken from them, so net <= gross |
| PdfParser.PackingCandidates | services/ingestion/src/pdf/parser.js:254-286 | the look-ahead loop collects the candidates of rows i+1 to i+6 in order, stopping at the end of the rows |
| PdfParser.PastEnd | services/ingestion/src/pdf/parser.js:255 | rows past the end add no candidate, which is why the `break` loses nothing |
| PdfParser.Step | services/ingestion/src/pdf/parser.js:115-292 | each pass of the row loop advances the row index by at least one |
| PdfParser.RecordKeeps | services/ingestion/src/pdf/parser.js:221-234 | recording a match keeps the seen set equal to the keys of the pushed lines with no key pushed twice, adds the key, and pushes a line exactly when the key was new |
| PdfParser.StepKeeps | services/ingestion/src/pdf/parser.js:115-292 | one pass keeps the de-duplication invariant, keeps every line already pushed in its place and forgets no key |
| PdfParser.RunDedup | services/ingestion/src/pdf/parser.js:221-234 | the de-duplication invariant holds over the whole loop |
| PdfParser.RunExtends | services/ingestion/src/pdf/parser.js:106-108 | invoice and packing lines are only appended and seen keys only added over the loop |
| PdfParser.ParseRows | services/ingestion/src/pdf/parser.js:105-293 | the row loop with its section variable, seen set and two arrays yields the invoice and packing lines of the state machine Run |
| PdfParser.ParsedKeysDistinct | services/ingestion/src/pdf/parser.js:221-234 | no two parsed invoice lines share the key part-quantity-total |
| PdfParser.FindPacking | services/ingestion/src/pdf/parser.js:297 | any packing line used is the first with the invoice line's part number; none is used only when none has it |
| PdfParser.FindCandidate | services/ingestion/src/pdf/parser.js:300 | the candidate used is the first with the invoice line's quantity; none is used only when no candidate has it |
| PdfParser.Merge | services/ingestion/src/pdf/parser.js:296-320 | the merge yields one line per invoice line, in order, with the invoice fields unchanged |
| PdfParser.MergeMatchedQuantity | services/ingestion/src/pdf/parser.js:297-306 | the first packing line of the part and its first candidate of the same quantity give net and gross |
| PdfParser.MergeOtherQuantity | services/ingestion/src/pdf/parser.js:308-317 | without a candidate of that quantity, a single candidate still gives its weights, and several give 0 and 0 |
| PdfParser.MergeUnpacked | services/ingestion/src/pdf/parser.js:317 | a part number absent from any packing list gets weights 0 and 0 |
| PdfParser.ParseLinesLoop | services/ingestion/src/pdf/parser.js:102-321 | `parseLines` is the merge of the rows' state machine run |
| PdfParser.CleanToken | services/ingestion/src/pdf/parser.js:196 | the cleaned token is a prefix of the token, at most one "," or ";" shorter |
| PdfParser.Absorb | services/ingestion/src/pdf/parser.js:197-204 | after one token the kept list is non-empty and grew by at most one |
| PdfParser.Collapse | services/ingestion/src/pdf/parser.js:193-205 | the collapsed list is no longer than the tokens, and empty exactly when they are |
| PdfParser.AbsorbToken | services/ingestion/src/pdf/parser.js:196-204 | the loop body with its `continue` and in-place replacement of the last token does what Absorb defines |
| PdfParser.CollapseTokens | services/ingestion/src/pdf/parser.js:194-205 | the token loop yields the collapse of all the tokens |
| PdfParser.AbsorbLast | services/ingestion/src/pdf/parser.js:197-204 | after each token the last kept token is that token, or overlaps its cleaned form and is at least as long |
| PdfParser.CollapseFromInput | services/ingestion/src/pdf/parser.js:196-204 | every kept token is an input token, or one with its trailing "," or ";" removed |
| PdfParser.CollapseExamples | services/ingestion/src/pdf/parser.js:199-201 | two equal adjacent tokens collapse to one, and a longer token containing the kept one replaces it |
| PdfParser.DocLines | services/ingestion/src/pdf/parser.js:363-369 | a document with no parsed line gets the single placeholder line; otherwise its lines are the parsed lines in order |
| PdfParser.PlaceholderOnlyWhenEmpty | services/ingestion/src/pdf/parser.js:363-369 | a document always has a line, and it is the single placeholder exactly when nothing was parsed |
| PdfParser.PosOf | services/ingestion/src/pdf/parser.js:384-385 | one purchase order entry per document line |
| PdfParser.DistinctPosSpec | services/ingestion/src/pdf/parser.js:383-391 | the referenced POs are non-empty POs of the lines, every non-empty PO is among them, and none twice |
| PdfParser.DistinctPosPrefix | services/ingestion/src/pdf/parser.js:384-391 | POs appear in first-seen order: those of a prefix of the lines are a prefix of those of all lines |
| PdfParser.PoRefs | services/ingestion/src/pdf/parser.js:387-390 | one PO reference per distinct PO, in order |
| PdfParser.ExtractReferences | services/ingestion/src/pdf/parser.js:372-394 | the references are the invoice reference when the number is non-empty, then one PO reference per distinct non-empty PO |
| PdfParser.PushPoReferences | services/ingestion/src/pdf/parser.js:383-392 | the forEach with its `uniquePOs` set appends exactly the PO references of the distinct POs in first-seen order |
| PdfParser.InvoiceReferenceFirst | services/ingestion/src/pdf/parser.js:375-380 | the first reference is the invoice reference exactly when the invoice number is non-empty |
| PdfParser.PoReferenced | services/ingestion/src/pdf/parser.js:384-391 | every non-empty PO of a line has a PO reference |
| PdfParser.PlaceholderReferences | services/ingestion/src/pdf/parser.js:364-385 | the placeholder line has no PO, so a document without parsed lines has at most the invoice reference |
| PdfParser.ParsePdfDoc | services/ingestion/src/pdf/parser.js:323-396 | `parsePdf` up to the normalisation: the header's currency, whitelisted incoterm and invoice number, the lines with the placeholder rule, and their references |
| ProcessDocs.DigitRun | legacy/process_docs.py:72 | the greedy `\d+` run from a position is made of digits only and stops at the end or at a non-digit |
| ProcessDocs.MatchAtIsRegex | legacy/process_docs.py:72 | a match attempt at a position succeeds exactly when `_(\d+)_PDF` matches there, and then captures the whole digit run |
| ProcessDocs.SearchFromSound | legacy/process_docs.py:72 | the search from a position returns the first position's match, and finds none only when no later position matches |
| ProcessDocs.ExtractIdIsLeftmostMatch | legacy/process_docs.py:72-74 | the identifier is the capture of the leftmost match of `_(\d+)_PDF`, and there is none exactly when the pattern matches nowhere in the name |
| ProcessDocs.ExtractIdExample | legacy/process_docs.py:71-72 | "R5542305_REF0001_15801341_PDF.pdf" yields the identifier "15801341" |
| ProcessDocs.SearchFromAfterMisses | legacy/process_docs.py:72 | failed attempts before the first successful one do not change the result |
| ProcessDocs.Keys | legacy/process_docs.py:104 | the keys of the dictionary are its entries' keys in insertion order |
| ProcessDocs.PutSpec | legacy/process_docs.py:75 | dictionary assignment makes the key map to the new value, leaves every other key alone, keeps an existing key's position and appends a new key at the end |
| ProcessDocs.RefFiles | legacy/process_docs.py:66 | the reference files are exactly the listed names ending in the case-sensitive ".pdf" |
| ProcessDocs.ProcessDocuments | legacy/process_docs.py:61-122 | the whole job (output folder, reference loop, Forwarder A walk) ends in the file system, dictionary, copy log and unmatched list of Process |
| ProcessDocs.CopyReferences | legacy/process_docs.py:62-86 | the reference loop, with its makedirs and exists checks, ends in the state RunRefs defines |
| ProcessDocs.ScanForwarderA | legacy/process_docs.py:93-122 | the walk over the Forwarder A files ends in the state RunScans defines |
| ProcessDocs.ScanFile | legacy/process_docs.py:95-122 | one scanned file is copied into the group of the first dictionary key in its text, as NEU_<id>.pdf or NEU_<id>_2.pdf when taken, or else reported unmatched; a non-PDF is skipped |
| ProcessDocs.PdfSuffixCase | legacy/process_docs.py:66-95 | a reference name must end in lower-case ".pdf" while a scanned name is compared after lower-casing, so ".PDF" is dropped from the reference folder but scanned in Forwarder A |
| ProcessDocs.LowerConcat | legacy/process_docs.py:95 | lower-casing distributes over concatenation |
| ProcessDocs.RefsWithoutIdIgnored | legacy/process_docs.py:72-73 | a reference file without an identifier adds no entry, folder or copy |
| ProcessDocs.IndexIsLastWriteWins | legacy/process_docs.py:70-75 | after the reference loop each identifier maps to the last file carrying it, and the earlier entry otherwise |
| ProcessDocs.RunRefsPlaces | legacy/process_docs.py:77-86 | folders only gain names, and every reference file with an identifier has its group folder with a JDE_<id>.pdf in it |
| ProcessDocs.RunRefsWhenPlaced | legacy/process_docs.py:79-86 | once every reference file is placed, the reference loop copies nothing and changes no folder |
| ProcessDocs.ReferencePlacementIdempotent | legacy/process_docs.py:79-86 | running the reference loop twice leaves the same folders and copy log as running it once |
| ProcessDocs.FirstMatchSpec | legacy/process_docs.py:103-119 | the chosen identifier is a dictionary key occurring in the text with no earlier key occurring; none is chosen exactly when no key occurs |
| ProcessDocs.ThirdMatchOverwritesRetry | legacy/process_docs.py:110-117 | three scans matching one identifier are copied to NEU_<id>.pdf, NEU_<id>_2.pdf and NEU_<id>_2.pdf again, so the third overwrites the second |
| ProcessDocs.ScanAccounting | legacy/process_docs.py:93-122 | each scanned PDF adds exactly one copy or one unmatched report, other files add neither, every copy goes from the Forwarder A tree into a group folder, and the dictionary is untouched |
| ProcessDocs.PdfCountSnoc | legacy/process_docs.py:95 | one more walked file adds one PDF exactly when its lower-cased name ends in ".pdf" |
| ProcessDocs.SourcesNeverMoved | legacy/process_docs.py:86-117 | files are copied, never moved: every folder keeps all its names and the source folders are unchanged |
| ProcessDocs.RefsKeepSources | legacy/process_docs.py:77-86 | the reference loop changes no source folder and removes no name |
| ProcessDocs.ScansKeepSources | legacy/process_docs.py:93-122 | the scan loop changes no source folder and removes no name |
| ProcessDocs.EndToEndScenario | legacy/process_docs.py:61-122 | with two reference files and three scans (first id, no id, first id), the first group holds JDE, NEU and NEU_2 copies, the second only its JDE copy, and the middle scan is unmatched |
| ProcessDocs.ScenarioRefs | legacy/process_docs.py:66-86 | the scenario's reference loop gives each id a group folder holding only its JDE copy, with the keys in listing order |
| ProcessDocs.ScenarioFirstScan | legacy/process_docs.py:104-119 | the scenario's first scan adds NEU_<id>.pdf to the first group only |
| Reports.Take | apps/api/src/services/reports/reportService.js:89 | the query's `take` keeps the first n rows, or all of them when there are fewer |
| Reports.RecordWellFormed | apps/api/src/services/reports/reportService.js:110-115 | counting one issue keeps the tally well formed: each code listed once, each counter named by its code, counted at least once and over no more shipments than issues |
| Reports.RecordIssuesWellFormed | apps/api/src/services/reports/reportService.js:107-117 | the issue loop of one shipment keeps the tally well formed |
| Reports.TallyWellFormed | apps/api/src/services/reports/reportService.js:97-118 | the tally after the shipment loop is well formed |
| Reports.Rows | apps/api/src/services/reports/reportService.js:121-126 | one row per counted code, in insertion order, with its count and number of distinct shipments |
| Reports.Insert | apps/api/src/services/reports/reportService.js:127 | inserting a row into the sorted rows adds exactly that row |
| Reports.SortByCount | apps/api/src/services/reports/reportService.js:127 | sorting is a permutation of the rows |
| Reports.InsertSorted | apps/api/src/services/reports/reportService.js:127 | inserting into rows sorted by descending count keeps them sorted |
| Reports.SortSorted | apps/api/src/services/reports/reportService.js:127 | the sorted rows are in descending order of count |
| Reports.GetValidationSummary | apps/api/src/services/reports/reportService.js:86-133 | the two nested loops over the newest 50 shipments and their issues yield the summary ValidationSummary defines, or the error of the first shipment that throws: a malformed meta, a meta of null, or an active issue code naming an inherited property of the counts object |
| Reports.ShipmentFailure | apps/api/src/services/reports/reportService.js:100-115 | a shipment throws exactly when its meta is malformed or null, or one of its active issue codes names an inherited property of the counts object, with the matching error |
| Reports.ValidationSummaryFails | apps/api/src/services/reports/reportService.js:97-118 | the summary is an error exactly when some sampled shipment throws, and then it is the error of the first one |
| Reports.RecordIssuesCounts | apps/api/src/services/reports/reportService.js:107-117 | one shipment's issue loop adds to a code's count the number of its active issues with that code, and adds the shipment to the code's set exactly when there is one |
| Reports.AffectedIdsSpec | apps/api/src/services/reports/reportService.js:115-125 | a shipment id is among a code's affected shipments exactly when some sampled shipment with that id has an active issue with the code |
| Reports.TallyCounts | apps/api/src/services/reports/reportService.js:97-118 | each code's count is the number of its active issues over the sample, and its shipments are those having one |
| Reports.RowsFor | apps/api/src/services/reports/reportService.js:121-126 | a well-formed tally has a row for a code exactly when the code was counted, and that row carries its count and shipment count |
| Reports.DismissedNotCounted | apps/api/src/services/reports/reportService.js:108-109 | an issue whose code the shipment dismissed never counts |
| Reports.SortMembers | apps/api/src/services/reports/reportService.js:127 | sorting keeps exactly the rows it was given |
| Reports.ValidationSummaryShape | apps/api/src/services/reports/reportService.js:89-133 | at most 50 shipments are scanned, the dismissed total sums the dismissed lists, rows are sorted by descending count, and each row's shipments are between 1 and its count |
| Reports.ValidationSummaryRows | apps/api/src/services/reports/reportService.js:106-126 | the summary has a row for a code exactly when some sampled shipment has an active issue with it; the row counts those issues and the distinct shipments having one |
| Reports.CarrierLabel | apps/api/src/services/reports/reportService.js:68 | a missing or empty carrier code is shown as "Unassigned", any other as itself |
| Reports.GetOverrides | apps/api/src/services/reports/reportService.js:151-178 | the loop over the newest 100 rows pushes, in order, the override of each row with parsable non-null meta and a non-empty dismissed list, skipping the rows whose meta throws |
| Reports.OverridesSpec | apps/api/src/services/reports/reportService.js:160-176 | an override is reported exactly for the rows with a non-empty dismissed list, every one has codes, and there are no more than rows |
| RequestHandler.SuccessResponse | legacy/apps/api/src/shared/utils/requestHandler.js:17-26 | a successful Result answers the configured success status, 200 by default, with the Result's value |
| RequestHandler.PlainResponse | legacy/apps/api/src/shared/utils/requestHandler.js:48-49 | any value that is not a Result is sent as it is with the success status |
| RequestHandler.StringFailure | legacy/apps/api/src/shared/utils/requestHandler.js:28-44 | a failed Result with a string error answers its explicit status code if any, else the status the message heuristic gives, with the string as the error |
| RequestHandler.MessageStatus | legacy/apps/api/src/shared/utils/requestHandler.js:33-39 | ignoring case, "not found" gives 404, then "unauthorized" or "token" 401, then "forbidden" 403, and anything else the configured error status (500 by default) |
| RequestHandler.ObjectFailure | legacy/apps/api/src/shared/utils/requestHandler.js:30-44 | a failed Result with an error object answers result.statusCode, then error.statusCode, then 400, with error.message or "Unknown error" |
| RequestHandler.MissingErrorFailure | legacy/apps/api/src/shared/utils/requestHandler.js:43-60 | a failed Result without an error throws while reading error.message, and the catch answers 500 "Internal Server Error" |
| RequestHandler.ThrownResponse | legacy/apps/api/src/shared/utils/requestHandler.js:51-60 | a thrown error answers its statusCode or 500; a 500 shows "Internal Server Error" rather than the error's message |
| RuleEngine.LookupSmaller | legacy/apps/api/src/shared/rules/RuleEngine.js:41-46 | a property's value is no larger than the object holding it, which is why the recursion into `and` and `or` terminates |
| RuleEngine.WalkFalsy | legacy/apps/api/src/shared/rules/RuleEngine.js:63 | once the path walk meets a falsy value, that value is the result of `getValue` |
| RuleEngine.WalkMissing | legacy/apps/api/src/shared/rules/RuleEngine.js:63 | a segment that is neither an own property nor inherited, under a truthy value, makes the whole path undefined |
| RuleEngine.WalkOneSegment | legacy/apps/api/src/shared/rules/RuleEngine.js:62-64 | a path without dots reads a single property: an own one, an index or `length`, or one inherited from Object.prototype |
| RuleEngine.PropInherited | legacy/apps/api/src/shared/rules/RuleEngine.js:63 | a key of Object.prototype that is not an own property reads the inherited built-in function, and `__proto__` of an object reads Object.prototype |
| RuleEngine.ConstructorName | legacy/apps/api/src/shared/rules/RuleEngine.js:62-64 | the path "constructor.name" on an object without its own `constructor` reads "Object" |
| RuleEngine.WalkTwo | legacy/apps/api/src/shared/rules/RuleEngine.js:63 | a two-segment path reads its second segment only from a truthy first read |
| RuleEngine.MissingConditionHolds | legacy/apps/api/src/shared/rules/RuleEngine.js:38 | a missing (falsy) condition holds |
| RuleEngine.AllOfSpec | legacy/apps/api/src/shared/rules/RuleEngine.js:41-43 | `and` holds exactly when every sub-condition holds, so an empty `and` holds |
| RuleEngine.AnyOfSpec | legacy/apps/api/src/shared/rules/RuleEngine.js:44-46 | `or` is false exactly when every sub-condition is false, so an empty `or` is false |
| RuleEngine.AnyOfHolds | legacy/apps/api/src/shared/rules/RuleEngine.js:44-46 | without errors, `or` holds exactly when some sub-condition holds |
| RuleEngine.AndBeforeOr | legacy/apps/api/src/shared/rules/RuleEngine.js:41-46 | a condition with both `and` and `or` is judged by its `and` alone |
| RuleEngine.UnknownOpFails | legacy/apps/api/src/shared/rules/RuleEngine.js:51-58 | an operator other than eq, neq, gt, lt, in or contains never matches |
| RuleEngine.InAndContains | legacy/apps/api/src/shared/rules/RuleEngine.js:56-57 | `in` holds exactly when the expected value is an array including the field's value; `contains` reads a missing field as "" |
| RuleEngine.InheritedLeaf | legacy/apps/api/src/shared/rules/RuleEngine.js:52-57 | an inherited function or Object.prototype read from the context is `===` to no rule value, is in no array, and `contains` searches its text |
| RuleEngine.NumericComparison | legacy/apps/api/src/shared/rules/RuleEngine.js:54-55 | `gt` and `lt` on two numbers are the numeric order |
| RuleEngine.SurrogateOrder | legacy/apps/api/src/shared/rules/RuleEngine.js:54-55 | strings compare by UTF-16 code units, so a character beyond U+FFFF sorts before U+FF61 |
| RuleEngine.LeafCondition | legacy/apps/api/src/shared/rules/RuleEngine.js:37-59 | a condition without a truthy `and` or `or` and with a string field is its operator applied to the field's value |
| RuleEngine.ConstructorRuleHolds | legacy/apps/api/src/shared/rules/RuleEngine.js:49-52 | the condition {field: "constructor.name", op: "eq", value: "Object"} holds for every object context without its own `constructor` |
| RuleEngine.PrependThen | legacy/apps/api/src/shared/rules/RuleEngine.js:20-28 | putting a rule in front of two rule lists in sequence is the same as putting it in front of the first |
| RuleEngine.EvaluationAppend | legacy/apps/api/src/shared/rules/RuleEngine.js:20-28 | evaluating two rule lists in sequence concatenates their outcomes in order, and the first throwing condition decides |
| RuleEngine.EvaluationOne | legacy/apps/api/src/shared/rules/RuleEngine.js:21-26 | one rule is listed, with its truthy action, exactly when its condition holds, and a throwing condition throws |
| RuleEngine.EvaluationOk | legacy/apps/api/src/shared/rules/RuleEngine.js:20-28 | the evaluation fails exactly when some rule's condition throws |
| RuleEngine.EvaluationBound | legacy/apps/api/src/shared/rules/RuleEngine.js:23-26 | there are no more actions than matches, and no more matches than rules |
| RuleEngine.EvaluationStep | legacy/apps/api/src/shared/rules/RuleEngine.js:20-28 | one more rule adds its own outcome after the prefix's outcome |
| RuleEngine.EvaluationAbort | legacy/apps/api/src/shared/rules/RuleEngine.js:21 | a rule whose condition throws makes the whole evaluation throw |
| RuleEngine.Evaluate | legacy/apps/api/src/shared/rules/RuleEngine.js:14-31 | the loop over the rules gives the names of the matching rules in order and the actions of those that have one, as Evaluation defines, with field paths that read inherited members of the context |
| RuleEngine.AddMatch | legacy/apps/api/src/shared/rules/RuleEngine.js:23-26 | a matching rule appends its name, and its action when truthy |
| RulesService.SeedRuleFields | apps/api/src/services/rulesService.js:10-39 | a seeded rule carries its id, is enabled, and has its priority |
| RulesService.InsertRule | apps/api/src/services/rulesService.js:44 | inserting a rule into the sorted list adds exactly that rule |
| RulesService.SortByPriority | apps/api/src/services/rulesService.js:44 | sorting by priority is a permutation of the rules |
| RulesService.InsertDescending | apps/api/src/services/rulesService.js:44 | inserting into a list in descending priority keeps it descending |
| RulesService.SortDescending | apps/api/src/services/rulesService.js:44 | the sorted rules are in descending priority and are a permutation of the input |
| RulesService.NewRuleFields | apps/api/src/services/rulesService.js:48-53 | a created rule takes each field the caller gives, id included; otherwise its id is "RULE-" and the clock, it is enabled, and it has a creation date |
| RulesService.FindIndex | apps/api/src/services/rulesService.js:59 | the index found is that of the first rule with the id, or the length when none has it |
| RulesService.MergeFields | apps/api/src/services/rulesService.js:62 | the updated rule takes each field from the updates when they have it and keeps the old one otherwise |
| RulesService.WithoutId | apps/api/src/services/rulesService.js:67 | deleting never adds rules |
| RulesService.WithoutIdSpec | apps/api/src/services/rulesService.js:67 | a rule remains after deleting exactly when it was there and does not carry the id |
| RulesService.WithoutAbsentId | apps/api/src/services/rulesService.js:67 | deleting an id no rule carries changes nothing |
| RulesService.EnabledSpec | apps/api/src/services/rulesService.js:75 | the filtered rules are exactly the stored rules whose `enabled` is truthy |
| RulesService.ActiveRulesSpec | apps/api/src/services/rulesService.js:75 | the rules handed to the engine are exactly the enabled ones, in descending priority |
| RulesService.Store.constructor | apps/api/src/services/rulesService.js:8-41 | the store starts with the two seeded rules |
| RulesService.Store.GetAllRules | apps/api/src/services/rulesService.js:43-45 | listing sorts the stored list in place by descending priority and returns it |
| RulesService.Store.CreateRule | apps/api/src/services/rulesService.js:47-56 | creating appends exactly the new rule and returns it |
| RulesService.Store.UpdateRule | apps/api/src/services/rulesService.js:58-64 | updating replaces the first rule with the id by its merge with the updates and returns it; an unknown id fails with "Rule not found" and changes nothing |
| RulesService.Store.DeleteRule | apps/api/src/services/rulesService.js:66-69 | deleting drops every rule with the id and answers true |
| RulesService.Store.EvaluateShipment | apps/api/src/services/rulesService.js:74-77 | the engine runs over the enabled rules by descending priority, and the stored list is not reordered |
| RulesService.SeedSpec | apps/api/src/services/rulesService.js:10-39 | the seeds are RULE-001 with priority 10 and RULE-002 with priority 20, both enabled |
| RulesService.SeedOrder | apps/api/src/services/rulesService.js:44 | listing the seeded store puts RULE-002 first |
| SemanticMapper.FirstSynonym | apps/api/src/modules/import/mapper.ts:29-34 | the field chosen is the first in declaration order with a synonym the normalized header contains; none is chosen only when no field has one |
| SemanticMapper.MatchHeader | apps/api/src/modules/import/mapper.ts:21-35 | the loop body's direct check, then its scan of the table that stops at the first field with a contained synonym, give the header's match MatchOf defines |
| SemanticMapper.FirstSynonymAt | apps/api/src/modules/import/mapper.ts:29-34 | a field with a contained synonym after only fields without one is the one chosen |
| SemanticMapper.GenerateMapping | apps/api/src/modules/import/mapper.ts:17-43 | the header loop yields the mapping MappingUpTo defines |
| SemanticMapper.MappingSpec | apps/api/src/modules/import/mapper.ts:37-39 | a header is mapped exactly when it is among the headers, matches, and is not `__proto__`, and then to its match |
| SemanticMapper.AssignLookup | apps/api/src/modules/import/mapper.ts:38 | one assignment changes only the header's own entry |
| SemanticMapper.MatchSpec | apps/api/src/modules/import/mapper.ts:21-35 | a normalized header equal to a canonical key maps to it; otherwise a header matches exactly when some field has a contained synonym, and then the first such field wins |
| SemanticMapper.MatchNormalized | apps/api/src/modules/import/mapper.ts:21 | only the lower-cased, trimmed header counts, so a header in that form matches like the raw one |
| SemanticMapper.MappingValues | apps/api/src/modules/import/mapper.ts:25-38 | every mapped value is a field of the table or, as written, an inherited property name |
| SemanticMapper.TotalweightFirstSynonym | apps/api/src/modules/import/mapper.ts:3-34 | "totalweight" misses the direct check and first meets a synonym, "to", in the consignee entry |
| SemanticMapper.TotalWeightMapsToConsignee | apps/api/src/modules/import/mapper.ts:4-34 | as written, the header "totalWeight", the canonical key itself, maps to consignee |
| SemanticMapper.MatchViaSynonym | apps/api/src/modules/import/mapper.ts:28-34 | when the direct check misses, the first field with a contained synonym is the match |
| SemanticMapper.ConstructorMapsOutsideTable | apps/api/src/modules/import/mapper.ts:25 | as written, the header "Constructor" hits the inherited `constructor` property and maps to a name that is not a canonical field |
| SemanticMapper.DirectKey | apps/api/src/modules/import/mapper.ts:25 | the corrected direct check finds the first canonical key whose lower-cased form equals the normalized header, or none when no key does |
| SemanticMapper.CorrectedMatchCanonical | apps/api/src/modules/import/mapper.ts:25-39 | with the corrected direct check, every mapped value is a canonical field of the table |
| SemanticMapper.CorrectedDirect | apps/api/src/modules/import/mapper.ts:25 | with the corrected direct check, each canonical key, in any case, maps to itself |
| SemanticMapper.Transform | apps/api/src/modules/import/mapper.ts:48-59 | the row loop assigns, in order, each raw value under its mapped name when the mapping has a truthy own entry, under the text of the inherited function when the key names one of Object.prototype, and under its raw key otherwise; an assignment to `__proto__` creates no key |
| SemanticMapper.LastValRenamed | apps/api/src/modules/import/mapper.ts:50-57 | a key keeps its last value through a renaming that moves neither it away nor another key onto it |
| SemanticMapper.TransformKeepsUnmapped | apps/api/src/modules/import/mapper.ts:54-56 | an unmapped raw key other than `__proto__` that names no inherited property keeps its last value, as long as no other raw key is renamed onto it |
| SemanticMapper.TransformHasNoProto | apps/api/src/modules/import/mapper.ts:49-58 | the canonical row never has an own `__proto__` key |
| SemanticMapper.RenameInherited | apps/api/src/modules/import/mapper.ts:51-53 | a raw key with no mapping entry that names an Object.prototype member is renamed to the text of that inherited function, value unchanged |
| SemanticMapper.RenameMapped | apps/api/src/modules/import/mapper.ts:51-53 | a mapped raw key is renamed to its canonical name with its value unchanged |
| SemanticMapper.LegacyWeightDirect | legacy/apps/api/src/domains/import/SemanticMapper.js:6-26 | in the legacy four-field table `weight` is a canonical key, so the header "Weight" maps to it directly |
| ExportCsv.DoubleQuotes | apps/api/src/services/erp/exportRunner.js:81 | doubling the quotes never shortens a string |
| ExportCsv.QuoteRoundTrip | apps/api/src/services/erp/exportRunner.js:81 | reading a quoted cell back as RFC 4180 (section 2, rule 7) does, with a doubled quote standing for one, gives the original string |
| ExportCsv.Cells | apps/api/src/services/erp/exportRunner.js:80-81 | one cell per value, in order: strings quoted with inner quotes doubled, other values as `join` writes them |
| ExportCsv.Lines | apps/api/src/services/erp/exportRunner.js:79-83 | one data line per row, in order |
| ExportCsv.JoinHoldsSeparator | apps/api/src/services/erp/exportRunner.js:84 | joining two or more parts puts the separator into the text |
| ExportCsv.ToCsv | apps/api/src/services/erp/exportRunner.js:76-85 | the CSV text is empty exactly when the data is missing or has no rows |
| ExportCsv.CsvLines | apps/api/src/services/erp/exportRunner.js:78-84 | with no newline in the keys or cells, n rows read back as n + 1 lines: the first row's keys, then one line per row |
| ExportCsv.LineColumns | apps/api/src/services/erp/exportRunner.js:80-82 | with no comma in a cell, a line's columns are the row's own values in the row's own key order, whatever the header says |
| BookingPackage.Rows | legacy/apps/api/src/services/forwarders/bookingPackageService.js:75-84 | one row per line item, in order |
| BookingPackage.BundleLines | legacy/apps/api/src/services/forwarders/bookingPackageService.js:72-86 | the bundle reads back as the fixed header line, then one line per item in order, or a lone empty line when there are none, as long as no row holds a newline |
| BookingPackage.HeaderHasNoNewline | legacy/apps/api/src/services/forwarders/bookingPackageService.js:74 | the fixed header line holds no newline |
| BookingPackage.JoinLacks | legacy/apps/api/src/services/forwarders/bookingPackageService.js:83-85 | parts and a separator free of a character join to a text free of it |
| BookingPackage.DescriptionUnescaped | legacy/apps/api/src/services/forwarders/bookingPackageService.js:77 | a row starts with the description between quotes, with no escaping of quotes inside it |
| BookingPackage.SummarySpec | legacy/apps/api/src/services/forwarders/bookingPackageService.js:24-41 | with numeric or missing fields, the totals are the sum of netWeightKg and the sum of unitValue × quantity, missing values as 0, and the count is the number of items |
| BookingPackage.WeightTotal | legacy/apps/api/src/services/forwarders/bookingPackageService.js:24 | the weight reduce is the sum of the net weights, missing ones as 0 |
| BookingPackage.ValueTotal | legacy/apps/api/src/services/forwarders/bookingPackageService.js:25 | the value reduce is the sum of unitValue × quantity, missing ones as 0 |
| BookingPackage.WeightStep | legacy/apps/api/src/services/forwarders/bookingPackageService.js:24 | one step of the weight reduce adds the item's weight, 0 when missing |
| BookingPackage.ValueStep | legacy/apps/api/src/services/forwarders/bookingPackageService.js:25 | one step of the value reduce adds the item's unitValue × quantity, missing ones as 0 |
| BookingPackage.OrZero | legacy/apps/api/src/services/forwarders/bookingPackageService.js:24-25 | reading an amount that is a number or falsy gives that number, or 0 when it is falsy |
| BookingPackage.EmailDefaults | legacy/apps/api/src/services/forwarders/bookingPackageService.js:52-65 | a missing template renders as "", and missing recipient lists parse as the empty array |
| Upload.CheckZip | apps/api/src/routes/upload.js:18-49 | the entry loop with its running total gives the verdict ZipVerdict defines: the read error or the first limit broken, prefixed "Invalid ZIP: ", or true |
| Upload.SizeSumMonotone | apps/api/src/routes/upload.js:35 | the running total of entry sizes only grows |
| Upload.EntriesVerdictSpec | apps/api/src/routes/upload.js:31-44 | the loop accepts exactly when all sizes add up to at most 300 MB and no entry name contains ".." |
| Upload.ZipAccepted | apps/api/src/routes/upload.js:24-45 | an archive passes exactly when it has at most 100 entries, at most 300 MB in all and no entry name containing "..", and then the answer is true |
| Upload.EntriesVerdictTrue | apps/api/src/routes/upload.js:37-45 | the entry loop answers true or fails with the size or the Zip Slip message |
| Upload.ZipErrorPrefixed | apps/api/src/routes/upload.js:46-48 | every failure of checkZip starts with "Invalid ZIP: " |
| Upload.ZipSlipRejected | apps/api/tests/upload_security.test.js:83-100 | an archive with the entry "../../etc/passwd" is refused as a Zip Slip |
| Upload.SafeZipAccepted | apps/api/tests/upload_security.test.js:102-117 | an archive with the single 100-byte entry "safe.txt" passes |
| Upload.NoDoubleDot | apps/api/src/routes/upload.js:41 | a name without two adjacent dots does not contain ".." |
| Upload.UploadJob | apps/api/src/routes/upload.js:66-79 | with a valid signature, a ZIP is enqueued only when checkZip passes, and always as PROCESS_UPLOAD; any other file is enqueued as PROCESS_SINGLE_FILE without a look inside it |
| Upload.ZipByName | apps/api/src/routes/upload.js:66-68 | a name ending in ".zip" in any case marks a ZIP, whatever its MIME type |
| Utils.KeepNumeric | services/ingestion/src/utils.js:101 | the first cleanup keeps only digits, points, commas and minus signs and never lengthens the text |
| Utils.FirstCommaToPoint | services/ingestion/src/utils.js:103 | replacing the first comma by a point keeps the length |
| Utils.NormalizeString | services/ingestion/src/utils.js:124-126 | the normalised text has no leading or trailing white space and is no longer than the input text |
| Utils.KeepNumericDigits | services/ingestion/src/utils.js:101 | the first cleanup keeps every digit of the input, in order |
| Utils.DropGroupCommasDigits | services/ingestion/src/utils.js:102 | dropping thousands separators keeps every digit, in order |
| Utils.FirstCommaToPointDigits | services/ingestion/src/utils.js:103 | turning the first comma into a point keeps every digit, in order |
| Utils.CleanNumberSpec | services/ingestion/src/utils.js:100-103 | the text handed to parseFloat holds only digits, points, commas and minus signs, and the same digits in the same order as the raw text |
| Utils.KeepNumericPlain | services/ingestion/src/utils.js:101 | text already made of numeric characters passes the first cleanup unchanged |
| Utils.DropGroupCommasNoComma | services/ingestion/src/utils.js:102 | text without commas passes the separator removal unchanged |
| Utils.FirstCommaToPointNoComma | services/ingestion/src/utils.js:103 | text without commas passes the comma replacement unchanged |
| Utils.CleanPlainNumber | services/ingestion/src/utils.js:100-103 | text made only of digits, points and minus signs reaches parseFloat unchanged |
| Utils.DropGroupCommasFrom | services/ingestion/src/utils.js:102 | the global replace drops exactly the commas the lookahead matches, one position at a time |
| Utils.ThousandsSeparatorDropped | services/ingestion/src/utils.js:102 | in "1,234" the comma before exactly three digits is a thousands separator and is dropped |
| Utils.DropsOnly | services/ingestion/src/utils.js:102 | a text whose only comma is a thousands separator loses exactly that comma |
| Utils.DropPrefix | services/ingestion/src/utils.js:102 | characters before the first comma pass the separator removal unchanged |
| Utils.DecimalCommaBecomesPoint | services/ingestion/src/utils.js:102-103 | in "12,5" a comma not followed by a three-digit group becomes the decimal point |
| Utils.KeepsAll | services/ingestion/src/utils.js:102 | text with no thousands separator is kept whole |
| Utils.FirstCommaAt | services/ingestion/src/utils.js:103 | only the first comma becomes a point; the rest of the text is unchanged |
| Utils.KeepNumericLower | services/ingestion/src/utils.js:112-113 | lower-casing does not change what the first cleanup keeps |
| Utils.ToKgSpec | services/ingestion/src/utils.js:108-118 | text that mentions "lb" in any case is parsed and scaled by 0.45359237; other text is parsed as ensureNumber parses it |
| Utils.ToKgText | services/ingestion/src/utils.js:112-117 | toKg on text parses the lower-cased text and scales it when it contains "lb" |
| Utils.EnsureNumberLower | services/ingestion/src/utils.js:93-113 | parsing the lower-cased text gives the same number as parsing the text |
| Utils.NormalizeTrimmed | services/ingestion/src/utils.js:124-126 | a trimmed string is its own normalisation |
| Utils.NormalizeStringIdempotent | services/ingestion/src/utils.js:124-126 | normalising a normalised string changes nothing |
| Utils.SumFieldNumeric | services/ingestion/src/utils.js:134-136 | over object lines whose field is a number or absent, the reduce never throws and gives the sum of the numbers, missing ones counting 0 |
| Utils.NormalizeLines | services/ingestion/src/utils.js:155-175 | the map gives one canonical line per raw line |
| Utils.NormalizeLinesAt | services/ingestion/src/utils.js:155-168 | the i-th canonical line is the normalisation of the i-th raw line |
| Utils.LineObjectAmount | services/ingestion/src/utils.js:159-168 | the canonical line object carries its quantity, netWeightKg and valueUsd as numbers under those keys |
| Utils.LineObjectFields | services/ingestion/src/utils.js:159-168 | the canonical line object carries its HTS code, country and description, and has no netWeight, weightUnit, value or currency property |
| Utils.SumFieldTotal | services/ingestion/src/utils.js:134-136 | summing a field of canonical line objects gives the total of that field over the lines |
| Utils.ChecksumsOfLines | services/ingestion/src/utils.js:132-138 | the checksums of the canonical lines are the totals of their quantity, weight and value, and computing them never throws |
| Utils.LineObjectOk | services/ingestion/src/utils.js:178-179 | the validators never throw on a canonical line object |
| Utils.AsWrittenReportsMissingAmounts | services/ingestion/src/utils.js:178-179 | as written, validation of the canonical lines reports every line with a missing weight and a missing value, whatever its netWeightKg and valueUsd |
| Utils.MissingAmountChecks | services/ingestion/src/utils.js:178-179 | a line object without netWeight, weightUnit, value and currency gets the weight-required and value-required codes |
| Utils.AsWrittenCompletes | services/ingestion/src/utils.js:178-179 | as written, validation of the canonical lines never throws |
| Utils.ValidationObjectFields | services/ingestion/src/utils.js:159-168 | the corrected validation object of a line carries its kilogram weight as netWeight and its dollar value as value, with no unit or currency |
| Utils.CorrectedValidation | services/ingestion/src/utils.js:178-179 | validating the lines through netWeightKg and valueUsd never throws and never reports a missing weight or value; a line has a weight (value) error exactly when its amount is negative or above the plausible bound |
| Utils.WeightReported | services/ingestion/src/utils.js:178-179 | a corrected line has a netWeight error exactly when its kilogram weight is negative or above 100000 |
| Utils.ValueReported | services/ingestion/src/utils.js:178-179 | a corrected line has a value error exactly when its dollar value is negative or above 10000000 |
| Utils.MapLines | services/ingestion/src/utils.js:155-175 | the map loop throws exactly when some raw line is null or undefined; otherwise it returns the mapped lines and adds a note for each line with an unparsable number |
| Utils.NormalizeDocument | services/ingestion/src/utils.js:140-200 | normalisation throws exactly on a null or undefined line; otherwise it returns the canonical lines, the notes, the checksums as totals and the report the source builds over its canonical lines, in which every line is flagged WEIGHT_REQUIRED and VALUE_REQUIRED |
| Utils.LineNotesSpec | services/ingestion/src/utils.js:170-172 | a "line-i" note is recorded exactly when a number of line i could not be parsed, and the currency note is kept |
| Utils.LineKeyInjective | services/ingestion/src/utils.js:171 | two lines never share a note key |
| Utils.LineKeyNotCurrency | services/ingestion/src/utils.js:152-171 | a line's note key is never the currency key |
| Utils.CurrencyNoteSpec | services/ingestion/src/utils.js:151-153 | the currency note is recorded exactly for a non-empty currency whose length in UTF-16 code units is not three |
| Validators.RemoveDots | services/ingestion/src/validation/validators.js:17 | removing the dots leaves no dot and never lengthens the text |
| Validators.HtsOutcome | services/ingestion/src/validation/validators.js:12-28 | the HTS check throws exactly on a truthy non-string, reports HTS_REQUIRED exactly for a blank code, HTS_INVALID_FORMAT exactly when the cleaned code is not 6-10 digits, HTS_UNKNOWN exactly when its first six digits are not a known heading, and passes otherwise |
| Validators.CooOutcome | services/ingestion/src/validation/validators.js:30-46 | the country check throws exactly on a truthy non-string, reports COO_REQUIRED exactly for a blank code, COO_INVALID_FORMAT exactly when the upper-cased trimmed code is not two capital letters, COO_UNKNOWN exactly when it is not a listed country, and passes otherwise |
| Validators.UnitOutcome | services/ingestion/src/validation/validators.js:63-87 | an absent unit passes, a string passes exactly when its upper-case form is allowed, a truthy non-string throws, and the only failure is the given code |
| Validators.WeightOutcome | services/ingestion/src/validation/validators.js:48-68 | a weight is required exactly when it is falsy and not 0, invalid exactly when it does not parse or is negative, unreasonable exactly above 100000, and a plausible weight is judged by its unit alone |
| Validators.ValueOutcome | services/ingestion/src/validation/validators.js:70-90 | a value is required exactly when it is falsy and not 0, invalid exactly when it does not parse or is negative, unreasonable exactly above 10000000, and a plausible value is judged by its currency alone |
| Validators.DescriptionOutcome | services/ingestion/src/validation/validators.js:114-124 | the description check throws exactly on a truthy non-string, reports DESCRIPTION_REQUIRED exactly for a blank one, DESCRIPTION_TOO_SHORT exactly below three UTF-16 code units, and passes otherwise |
| Validators.DescriptionCountsUnits | services/ingestion/src/validation/validators.js:114-124 | a two-character description made of a character beyond U+FFFF and a letter is three UTF-16 units long and passes |
| Validators.ScanAbort | services/ingestion/src/validation/validators.js:129-184 | once a line has thrown, the later lines are not looked at |
| Validators.ValidateCompliance | services/ingestion/src/validation/validators.js:126-184 | the line loop returns the error list of the five checks over every line, or the exception that stopped it |
| Validators.PushAllSpec | services/ingestion/src/validation/validators.js:130-183 | pushing a line's checks throws exactly when one check threw, and otherwise adds exactly the errors the checks raised, tagged with the line index, field and value |
| Validators.LineNeverThrows | services/ingestion/src/validation/validators.js:12-124 | a line whose code, country, description, unit and currency are strings or falsy never makes a check throw |
| Validators.ScanThrows | services/ingestion/src/validation/validators.js:129-184 | the loop completes exactly when no line throws |
| Validators.ScanReports | services/ingestion/src/validation/validators.js:129-184 | when the loop completes, an error is in the list exactly when a check of its line raised it for that field and value |
| Validators.ComplianceThrows | services/ingestion/src/validation/validators.js:126-184 | validateCompliance completes exactly when no line throws |
| Validators.ComplianceReports | services/ingestion/src/validation/validators.js:126-184 | when validateCompliance completes, each reported error is one a check of its line raised, and each raised error is reported |
| Validators.LineChecksFields | services/ingestion/src/validation/validators.js:130-183 | the five checks of a line report five different fields |
| Validators.FieldReported | services/ingestion/src/validation/validators.js:129-184 | when the loop completes, a field of a line is reported exactly when its check raised an error |
| Validators.ValidLineAddsNothing | services/ingestion/src/validation/validators.js:129-184 | appending a line every field of which passes adds no error to a document's report |
| Validators.CleanDigits | services/ingestion/src/validation/validators.js:17-19 | a digit string of 6-10 digits needs no cleaning |
| Validators.NotBlankAt | services/ingestion/src/validation/validators.js:13 | a string with a character that is not white space is not blank |
| Validators.HtsKnownHeadingPasses | services/ingestion/src/validation/validators.js:19-27 | a well-formed code under a known heading passes |
| Validators.HtsUnknownHeading | services/ingestion/src/validation/validators.js:19-25 | a well-formed code under a heading that is not listed is reported HTS_UNKNOWN |
| Validators.HtsSeesCleanForm | services/ingestion/src/validation/validators.js:12-28 | two codes alike in blankness and cleaned form get the same outcome |
| Validators.HtsDotsIgnored | services/ingestion/src/validation/validators.js:17 | a dotted code is judged as the code without the dot |
| Validators.HtsKnownPasses | legacy/services/ingestion/tests/validation.test.js:8-9 | "847150" passes |
| Validators.HtsDottedPasses | legacy/services/ingestion/tests/validation.test.js:10 | "8471.50" passes |
| Validators.HtsEmptyRequired | legacy/services/ingestion/tests/validation.test.js:13-16 | "" is reported HTS_REQUIRED |
| Validators.HtsShortMalformed | legacy/services/ingestion/tests/validation.test.js:18-21 | "123" is reported HTS_INVALID_FORMAT |
| Validators.HtsUnlistedUnknown | legacy/services/ingestion/tests/validation.test.js:23-26 | "123456" is reported HTS_UNKNOWN |
| Validators.ListedCountryFormat | services/ingestion/src/validation/validators.js:7-37 | every listed country is two capital letters |
| Validators.CooSeesCleanForm | services/ingestion/src/validation/validators.js:30-46 | two country codes alike in blankness and cleaned form get the same outcome |
| Validators.CooCleanListedPasses | services/ingestion/src/validation/validators.js:35-45 | a code that is not blank and cleans to a listed country passes |
| Validators.CooUpperPasses | legacy/services/ingestion/tests/validation.test.js:30-31 | "US" passes |
| Validators.CooLowerPasses | legacy/services/ingestion/tests/validation.test.js:32 | "cn" passes |
| Validators.CooFailures | legacy/services/ingestion/tests/validation.test.js:35-48 | "" is COO_REQUIRED, "USA" COO_INVALID_FORMAT and "XX" COO_UNKNOWN |
| Validators.WeightExamples | legacy/services/ingestion/tests/validation.test.js:52-65 | 100 KG and 0 LB pass, null is WEIGHT_REQUIRED, -5 is WEIGHT_INVALID, NaN is WEIGHT_REQUIRED and the unit "stone" is WEIGHT_UNIT_INVALID |
| ViewModels.DocumentNumberSpec | apps/api/src/services/documents/viewModels.js:33 | a document number is the prefix, a dash and the first eight characters of the shipment id (fewer when it is shorter), upper-cased |
| ViewModels.DocumentNumberVerbatim | apps/api/src/services/documents/viewModels.js:33 | an id whose first eight characters have no lower-case letter keeps them as they are |
| ViewModels.InvoiceNumberExample | apps/api/tests/view_models.test.js:28 | the invoice number of "SHIP-12345678" is "INV-SHIP-123" |
| ViewModels.ParsePartySpec | apps/api/src/services/documents/viewModels.js:12-18 | a party is an object unless its snapshot is JSON text of something else; it is falsy exactly when the snapshot is JSON text of a falsy value; a missing snapshot gives the id fallback |
| ViewModels.SumOfAppend | apps/api/src/services/documents/viewModels.js:25-27 | the reduce over two runs of lines is the sum of their reduces |
| ViewModels.SumOfMissing | apps/api/src/services/documents/viewModels.js:25-27 | lines whose field is absent add nothing |
| ViewModels.SumOfOne | apps/api/src/services/documents/viewModels.js:25-27 | a single line sums to its own field, 0 when absent |
| ViewModels.LineViews | apps/api/src/services/documents/viewModels.js:51-60 | the invoice has one line view per line item, in order |
| ViewModels.InvoiceSpec | apps/api/src/services/documents/viewModels.js:8-68 | the invoice has one line per item with its description and formatted value, totals that are the formatted sums of values and weights and the sum of quantities, and says the forwarder is the consignee exactly when there is no forwarder |
| ViewModels.InvoiceTotalsExample | apps/api/tests/view_models.test.js:29-31 | one line of value 1000 gives a line value and a subtotal of 1000 formatted with two decimals |
| ViewModels.Origins | apps/api/src/services/documents/viewModels.js:145 | the filtered origins are all non-empty |
| ViewModels.FindByDescription | apps/api/src/services/documents/viewModels.js:174 | the found view is one of the invoice views with that description; none is found exactly when no view has it |
| ViewModels.DgLines | apps/api/src/services/documents/viewModels.js:173-179 | the declaration has one line per dangerous item, in order |
| ViewModels.DerivedKeepInvoice | apps/api/src/services/documents/viewModels.js:73-190 | every derived document keeps the invoice's shipment, parties, totals and date |
| ViewModels.DerivedTitles | apps/api/src/services/documents/viewModels.js:73-190 | each derived document has its own title and its own number prefix; packing list and proforma add no section |
| ViewModels.SliSpec | apps/api/src/services/documents/viewModels.js:108-134 | the SLI says "Contains EAR99 items" exactly when some line has an ECCN and "No License Required" otherwise; the ITN is "Pending" unless the shipment has one, and the AES flag is the shipment's |
| ViewModels.DistinctSpec | apps/api/src/services/documents/viewModels.js:145 | the distinct origins have no repeats and the same members as the list |
| ViewModels.DistinctFirstSeen | apps/api/src/services/documents/viewModels.js:145 | the distinct origins come in the order of their first occurrence |
| ViewModels.PrimaryOriginSpec | apps/api/src/services/documents/viewModels.js:145-155 | the primary origin joins the distinct non-empty origins with ", ", and is "Unknown" exactly when no line has an origin |
| ViewModels.SingleOrigin | apps/api/tests/view_models.test.js:48-53 | lines all from "US" give the primary origin "US" |
| ViewModels.DangerousOnlySpec | apps/api/src/services/documents/viewModels.js:169 | the DG filter keeps exactly the dangerous lines |
| ViewModels.DgDeclarationSpec | apps/api/src/services/documents/viewModels.js:165-190 | every line of the DG declaration is a dangerous item of the shipment with its UN number and its description as shipping name, over the first invoice line with the same description, and the declaration carries the emergency contact and the statement |
| ViewModels.DgBaseOwnLine | apps/api/src/services/documents/viewModels.js:174 | when descriptions are distinct, a DG line's base is its own invoice line |

## Left out

- I/O around the cores is not modelled: database queries and writes, file reads and copies, the network, the queue, the Express request and response objects, and logging and console output. Where a core reads the result of such a call, that result is a parameter.
- The clock, `Date.now()` ids, UUIDs and generated shipment ids are not modelled; their values are parameters.
- Floating point is not modelled: numbers are exact reals and NaN is a separate value. A division by zero is not modelled; the model keeps the source's guards. Rounding and `toFixed(2)` formatting are abstract functions.
- JavaScript's ordering of integer-like object keys before other keys is not modelled: objects keep plain insertion order.
- Upper and lower case mapping is modelled for ASCII letters only, and white space (`\s`, `trim`, Python's `strip`) as the ASCII space characters.
- Regular expressions are modelled as the span matchers they amount to (anchored tails, lazy searches, character classes); no general regex engine is modelled.
- PDF text extraction and OCR in legacy/process_docs.py (easyocr, pypdf, PyMuPDF) are not modelled: a file's text is an uninterpreted function. The Forwarder B directory that the job names but never walks is not modelled, nor is its progress output.
- `validateDate` and the shipment-date check at the end of `validateCompliance` are not modelled, because they read the clock.
- The Ajv schema check at the end of `normalizeDocument`, and the `parseAddress` calls for its header parties, are not modelled. Only the notes, lines, checksums and validation report of `normalizeDocument` are.
- The stale test services/ingestion/tests/validation.test.js:29-54 is not modelled: it expects COO_INVALID and exactly two errors, which contradicts validators.js. The model follows the code.
- The pdf parser's OCR fetch (services/ingestion/src/pdf/parser.js:341-361) and the pdf-parse text extraction are not modelled: the document text is an input.
- The header regexes of `parseHeader` for the invoice number, date, shipper and consignee lookahead and payment terms are not modelled, except the invoice-number scan. The incoterm text found is an input.
- The smashed-number price-times-quantity heuristic, the description recovery and the PO lookback of `parseLines` (services/ingestion/src/pdf/parser.js:130-243) are not modelled: they are floating-point searches, passed in as the row matcher. The noise pattern and a packing row's float extraction are passed in as well.
- The dedup key of `parseLines` is modelled as a tuple of part number, quantity and total, not as the joined string. A merged line is modelled with only the weights it gains.
- `generateJsonBundle` and the database fetch of bookingPackageService.js are not modelled.
- exportRunner.js's `runJob`, `deliverToFile` and `deliverToHttp` are not modelled, because they are database, file-system and network work.
- The queries of `getShipmentSummary` are not modelled; only its carrier label is. The date filters of the report queries are not modelled.
- The upload route's multer storage, file-signature check, `saveFile`, `addJob` and temp-file cleanup are not modelled; the signature check's verdict and the archive's entries are inputs.
- `handlebars.parse` and `Handlebars.compile` are not modelled: the syntax tree and the compiled template are inputs.
- A hash slot in a Handlebars node that is not a Hash is read as an empty hash.
- The fixed template directory of generator.js is not modelled.
- The Result class and BaseService.execute are not part of this model. legacy/apps/api/src/config/shippingDefaults.js is not part of this model either.
- The JSON.parse of view-model party snapshots is a parameter. With it, `isForwarderSameAsConsignee` is true exactly when the forwarder snapshot is the JSON text of a falsy value, such as "null"; otherwise the party is an object and the flag is false.
- Hashing, tokens and the user store of auth.js are not modelled. The store lookup that follows the password check is a parameter.
- The tag enumeration of autoTagger.js is a datatype, and TagName gives its emitted string.
- RulesService.Priority: a priority that is not a number makes the sort comparator NaN, which JavaScript's sort treats as "equal". The model reads such a priority as 0, so the order of rules with such priorities is not modelled exactly.
- Bin dimensions and weights are reals, not integers: the source does not restrict them to integers.
- The unused `COLUMN_MAP` of the legacy row mapper is not modelled.
- `createdAt` and `updatedAt` timestamps are values passed in; in the V1 OCR mapper they are the two readings of a clock parameter.
- Assigning a primitive to `__proto__` on a plain object creates no own property, and the model treats it so in the accuracy flags, the CSV records and the mapper's Transform. Assigning an object or null there changes the object's prototype, and that change is not modelled: the row keeps no `__proto__` key and later reads ignore the new prototype.
- Reads of properties inherited from Object.prototype are modelled where they change an outcome: in the header mapper's direct check, in Transform (the mapped name is the text V8 gives the inherited function), in the report tally (the TypeError) and in the rule engine's field paths (RuleEngine.Prop). The template cache reads `templateCache[templateName]` as an own property only; its one caller passes "invoice" or "packingList", which no object inherits. In the accuracy comparison the expected side is a JSON value, so a key that names an inherited property is compared against the actual side's own value, or undefined when there is none, which has the same outcome as comparing against the inherited function, since no JSON value is strictly equal to a function.
- RuleEngine.WalkOneSegment: a field path is read through own properties, indices, `length` and the members of Object.prototype, and a built-in function has its `name`. Not modelled: the other members of Array.prototype, String.prototype, Number.prototype and Boolean.prototype (such as `map`, `charAt` or `toFixed`), `__proto__` of a value that is not an object, and properties of a built-in function other than `name` (such as `length`, `call` or the static methods of Object). All of these read as undefined in the model.
- RuleEngine.Evaluate: the gaps in path reads listed for RuleEngine.WalkOneSegment carry over to rule matching. In addition, an object in the context with its own `toString` or `valueOf` member is converted as a plain object, where JavaScript would call or fail on that member.
- Numeric constants written in the source are the real numbers they denote. A Handlebars number literal carries the value `Number(text)` as its `original`; where the source prints it the text is the runtime's number-to-string, a parameter `show`. Underflow of `Number(text)` to 0 for a literal with hundreds of zero digits is not modelled.
- ProcessDocs.ExtractIdIsLeftmostMatch: `\d` is modelled as the ASCII digits; Python's `\d` on a `str` also matches the decimal digits of other scripts, so a file name with such digits in the identifier is not modelled.
- JavaScript `.length` counts UTF-16 code units, and the model counts them so (Utf16Length) where a length decides an outcome: `.length` read through a JSON value, the description check, the password check and the currency note. The rule engine's `<` and `>` on strings compare UTF-16 code units (Utf16Units). Other indices and slices, such as the view model's `substring(0, 8)` of the document number, count characters; they agree with JavaScript on text without characters beyond U+FFFF.
- Reports.GetValidationSummary: the writes made before the TypeError of an inherited issue code (`count` set to NaN on the inherited function or on Object.prototype) outlive the call and are not modelled. A meta that parses to a value other than an object or null reads as having no dismissed codes, and a `dismissedValidationCodes` that is present but not an array of strings is not modelled.

## Findings

| source | as written | input that shows it | evidently intended | confidence | as-written member | corrected member |
|---|---|---|---|---|---|---|
| services/ingestion/src/utils.js:178-179 | `normalizeDocument` validates its canonical lines, which carry `netWeightKg` and `valueUsd`, with validators that read `netWeight` and `value` | any document with a line, e.g. one line with netWeightKg 5 and valueUsd 100 | the weight and value checks read the line's kilogram weight and dollar value | high, not executed | Utils.AsWrittenReportsMissingAmounts | Utils.CorrectedValidation |
| apps/api/src/modules/import/mapper.ts:21-25 | the direct check looks up the lower-cased header, but the camel-case canonical keys are not lower case | the header "totalWeight" maps to consignee (through the synonym "to") | a header equal to a canonical key, in any case, maps to that key | high, not executed | SemanticMapper.TotalWeightMapsToConsignee | SemanticMapper.CorrectedDirect |
| apps/api/src/modules/import/mapper.ts:25 | `SYNONYM_MAP[normalized]` also finds inherited properties of the object | the header "Constructor" maps to "constructor", which is no canonical field | only the table's own keys match directly | medium, not executed | SemanticMapper.ConstructorMapsOutsideTable | SemanticMapper.CorrectedMatchCanonical |
| services/ingestion/src/pdf/addressParser.js:40-46 | the country test is a substring test, so a city line that contains the letters of a country name is taken as the country | "Acme, 1 Main St, Milwaukee WI 53202": "milwaukee" contains "uk" | the last part is the country only when it is, or ends with, a listed country name, as in the legacy parser | medium, not executed | AddressParser.MilwaukeeIsCountry | AddressParser.CorrectedCountry |

Utils.NormalizeDocument returns the report as the source builds it, so that the normalised document is modelled as written; Utils.CorrectedValidation is the report the evidently intended checks give, with its properties proved beside it.
