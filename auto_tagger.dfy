// The keyword classifier of legacy/apps/api/src/services/classification/autoTagger.js.
// Text and filename are lower-cased (ASCII letters only, as Text.Lower
// does); the tags are an enumeration whose TagName is the emitted string.

module AutoTagger {
  import opened Wrappers
  import opened Text

  datatype Tag = Invoice | PackingList | CertificateOfOrigin | BillOfLading | Urgent

  function TagName(t: Tag): string {
    match t
    case Invoice => "Invoice"
    case PackingList => "Packing List"
    case CertificateOfOrigin => "Certificate of Origin"
    case BillOfLading => "Bill of Lading"
    case Urgent => "Urgent"
  }

  datatype TagRule = TagRule(tag: Tag, keywords: seq<string>, scoreThreshold: nat)

  /** `TAG_RULES` */
  function TagRules(): seq<TagRule> {
    [ TagRule(Invoice, ["invoice", "bill of sale", "amount due", "total amount"], 1),
      TagRule(PackingList, ["packing list", "weight", "net weight", "gross weight", "pcs", "cartons"], 2),
      TagRule(CertificateOfOrigin, ["certificate of origin", "country of origin", "certify that the goods"], 1),
      TagRule(BillOfLading, ["bill of lading", "consignee", "notify party", "vessel", "port of loading"], 2),
      TagRule(Urgent, ["urgent", "rush", "immediate", "asap"], 1) ]
  }

  /** `(s || '').toLowerCase()` */
  function LowerOrEmpty(s: Option<string>): string {
    match s
    case Some(t) => Lower(t)
    case None => ""
  }

  /** The number of the first n keywords the text contains; a keyword
      counts once however often it occurs. */
  function Hits(keywords: seq<string>, text: string, n: nat): nat
    requires n <= |keywords|
  {
    if n == 0 then 0 else Hits(keywords, text, n - 1) + if Contains(text, keywords[n - 1]) then 1 else 0
  }

  /** The filename boosts: 2 for "inv" on Invoice, 2 for "pack" or "pl" on
      Packing List. */
  function Boost(tag: Tag, filename: string): nat {
    (if tag == Invoice && Contains(filename, "inv") then 2 else 0)
    + (if tag == PackingList && (Contains(filename, "pack") || Contains(filename, "pl")) then 2 else 0)
  }

  function Score(rule: TagRule, text: string, filename: string): nat {
    Hits(rule.keywords, text, |rule.keywords|) + Boost(rule.tag, filename)
  }

  predicate Qualifies(rule: TagRule, text: string, filename: string) {
    Score(rule, text, filename) >= rule.scoreThreshold
  }

  /** The tags collected, in insertion order, by the first n rules. */
  function TagsUpTo(rules: seq<TagRule>, text: string, filename: string, n: nat): seq<Tag>
    requires n <= |rules|
  {
    if n == 0 then []
    else
      var found := TagsUpTo(rules, text, filename, n - 1);
      if Qualifies(rules[n - 1], text, filename) && rules[n - 1].tag !in found then found + [rules[n - 1].tag]
      else found
  }

  /** `classify(text, filename)` */
  function Classification(text: Option<string>, filename: Option<string>): seq<Tag> {
    TagsUpTo(TagRules(), LowerOrEmpty(text), LowerOrEmpty(filename), |TagRules()|)
  }

  /** `classify` */
  method Classify(text: Option<string>, filename: Option<string>) returns (tags: seq<Tag>)
    ensures tags == Classification(text, filename)
  {
    var textLower := LowerOrEmpty(text);
    var filenameLower := LowerOrEmpty(filename);
    tags := Collect(TagRules(), textLower, filenameLower);
  }

  /** The loop over the rules, for lower-cased text and filename. */
  method Collect(rules: seq<TagRule>, textLower: string, filenameLower: string) returns (tags: seq<Tag>)
    ensures tags == TagsUpTo(rules, textLower, filenameLower, |rules|)
  {
    tags := [];
    for r := 0 to |rules|
      invariant tags == TagsUpTo(rules, textLower, filenameLower, r)
    {
      var rule := rules[r];
      var score := 0;
      for k := 0 to |rule.keywords|
        invariant score == Hits(rule.keywords, textLower, k)
      {
        if Contains(textLower, rule.keywords[k]) {
          score := score + 1;
        }
      }
      if rule.tag == Invoice && Contains(filenameLower, "inv") {
        score := score + 2;
      }
      if rule.tag == PackingList && (Contains(filenameLower, "pack") || Contains(filenameLower, "pl")) {
        score := score + 2;
      }
      if score >= rule.scoreThreshold && rule.tag !in tags {
        tags := tags + [rule.tag];
      }
    }
  }

  /** A keyword adds at most one point, so the hits never exceed the
      number of keywords. */
  lemma {:induction false} HitsBound(keywords: seq<string>, text: string, n: nat)
    requires n <= |keywords|
    ensures Hits(keywords, text, n) <= n
  {
    if n > 0 {
      HitsBound(keywords, text, n - 1);
    }
  }

  /** The hits depend only on which keywords occur, not how often. */
  lemma {:induction false} HitsByPresence(keywords: seq<string>, t1: string, t2: string, n: nat)
    requires n <= |keywords|
    requires forall k :: 0 <= k < n ==> (Contains(t1, keywords[k]) <==> Contains(t2, keywords[k]))
    ensures Hits(keywords, t1, n) == Hits(keywords, t2, n)
  {
    if n > 0 {
      HitsByPresence(keywords, t1, t2, n - 1);
    }
  }

  /** No text hits no non-empty keyword. */
  lemma {:induction false} HitsEmpty(keywords: seq<string>, n: nat)
    requires n <= |keywords| && forall k :: 0 <= k < |keywords| ==> keywords[k] != ""
    ensures Hits(keywords, "", n) == 0
  {
    if n > 0 {
      HitsEmpty(keywords, n - 1);
      assert !StartsWith("", keywords[n - 1]);
    }
  }

  predicate NoDuplicates(tags: seq<Tag>) {
    forall i, j :: 0 <= i < j < |tags| ==> tags[i] != tags[j]
  }

  /** Some qualifying rule among the first n carries the tag. */
  predicate FromRule(rules: seq<TagRule>, n: nat, t: Tag, text: string, filename: string)
    requires n <= |rules|
  {
    exists k :: 0 <= k < n && rules[k].tag == t && Qualifies(rules[k], text, filename)
  }

  /** Tags come from the rules, each at most once, in rule order. */
  lemma {:induction false} TagsOrdered(rules: seq<TagRule>, text: string, filename: string, n: nat)
    requires n <= |rules|
    ensures NoDuplicates(TagsUpTo(rules, text, filename, n))
    ensures forall i :: 0 <= i < |TagsUpTo(rules, text, filename, n)| ==>
      FromRule(rules, n, TagsUpTo(rules, text, filename, n)[i], text, filename)
  {
    if n > 0 {
      TagsOrdered(rules, text, filename, n - 1);
      var found := TagsUpTo(rules, text, filename, n - 1);
      var tags := TagsUpTo(rules, text, filename, n);
      if tags != found {
        assert tags == found + [rules[n - 1].tag];
        forall i | 0 <= i < |tags| ensures FromRule(rules, n, tags[i], text, filename) {
          if i < |found| {
            assert FromRule(rules, n - 1, found[i], text, filename);
            var k :| 0 <= k < n - 1 && rules[k].tag == found[i] && Qualifies(rules[k], text, filename);
            assert tags[i] == found[i];
          } else {
            assert rules[n - 1].tag == tags[i];
          }
        }
      } else {
        forall i | 0 <= i < |tags| ensures FromRule(rules, n, tags[i], text, filename) {
          assert FromRule(rules, n - 1, found[i], text, filename);
        }
      }
    }
  }

  /** With distinct rule tags, a rule's tag is emitted exactly when its
      score reaches the threshold. */
  lemma {:induction false} TagEmitted(rules: seq<TagRule>, text: string, filename: string, n: nat, k: nat)
    requires k < n <= |rules|
    requires forall i, j :: 0 <= i < j < |rules| ==> rules[i].tag != rules[j].tag
    ensures rules[k].tag in TagsUpTo(rules, text, filename, n) <==> Qualifies(rules[k], text, filename)
  {
    TagsOrdered(rules, text, filename, n - 1);
    var found := TagsUpTo(rules, text, filename, n - 1);
    if k < n - 1 {
      TagEmitted(rules, text, filename, n - 1, k);
    } else {
      forall i | 0 <= i < |found| ensures found[i] != rules[k].tag {
        assert FromRule(rules, n - 1, found[i], text, filename);
        var m :| 0 <= m < n - 1 && rules[m].tag == found[i] && Qualifies(rules[m], text, filename);
        assert rules[m].tag != rules[k].tag;
      }
    }
  }

  lemma {:induction false} TagRulesDistinct()
    ensures forall i, j :: 0 <= i < j < |TagRules()| ==> TagRules()[i].tag != TagRules()[j].tag
  {
  }

  /** `classify` emits a tag exactly when its rule's score, from the
      lower-cased text and filename, reaches the threshold. */
  lemma {:induction false} ClassifySpec(text: Option<string>, filename: Option<string>, k: nat)
    requires k < |TagRules()|
    ensures TagRules()[k].tag in Classification(text, filename)
      <==> Qualifies(TagRules()[k], LowerOrEmpty(text), LowerOrEmpty(filename))
  {
    TagRulesDistinct();
    TagEmitted(TagRules(), LowerOrEmpty(text), LowerOrEmpty(filename), |TagRules()|, k);
  }

  lemma {:induction false} LowerIdempotent(s: string)
    ensures Lower(Lower(s)) == Lower(s)
  {
  }

  /** Matching ignores case. */
  lemma {:induction false} ClassifyIgnoresCase(text: string, filename: string)
    ensures Classification(Some(Lower(text)), Some(Lower(filename))) == Classification(Some(text), Some(filename))
  {
    LowerIdempotent(text);
    LowerIdempotent(filename);
  }

  /** A filename containing "inv" always yields Invoice; one containing
      "pack" or "pl" always yields Packing List. */
  lemma {:induction false} FilenameBoosts(text: Option<string>, filename: Option<string>)
    ensures Contains(LowerOrEmpty(filename), "inv") ==> Invoice in Classification(text, filename)
    ensures Contains(LowerOrEmpty(filename), "pack") || Contains(LowerOrEmpty(filename), "pl")
      ==> PackingList in Classification(text, filename)
  {
    ClassifySpec(text, filename, 0);
    ClassifySpec(text, filename, 1);
  }

  /** Empty (or missing) text and filename give no tags. */
  lemma {:induction false} EmptyGivesNoTags(text: Option<string>, filename: Option<string>)
    requires text == None || text == Some("")
    requires filename == None || filename == Some("")
    ensures Classification(text, filename) == []
  {
    var rules := TagRules();
    assert LowerOrEmpty(text) == "" && LowerOrEmpty(filename) == "";
    forall k | 0 <= k < |rules| ensures !Qualifies(rules[k], "", "") {
      HitsEmpty(rules[k].keywords, |rules[k].keywords|);
      assert !StartsWith("", "inv") && !StartsWith("", "pack") && !StartsWith("", "pl");
    }
    NoneQualify(rules, "", "", |rules|);
  }

  lemma {:induction false} NoneQualify(rules: seq<TagRule>, text: string, filename: string, n: nat)
    requires n <= |rules| && forall k :: 0 <= k < n ==> !Qualifies(rules[k], text, filename)
    ensures TagsUpTo(rules, text, filename, n) == []
  {
    if n > 0 {
      NoneQualify(rules, text, filename, n - 1);
    }
  }
}
