// The in-memory rule store of apps/api/src/services/rulesService.js. Rules
// are JSON objects held in a list that the service reassigns; the clock
// behind `RULE-${Date.now()}` and `new Date()` is a parameter.

module RulesService {
  import opened Wrappers
  import opened Json
  import opened RuleEngine

  const RuleNotFound := "Rule not found"

  /** A seeded rule: enabled, with the given id, name, priority,
      condition and action. */
  function SeedRule(id: string, name: string, priority: real, condition: Value, action: Value): Rule {
    [Member("id", Str(id)), Member("name", Str(name)), Member("enabled", Bool(true)),
     Member("priority", Num(priority)), Member("condition", condition), Member("action", action)]
  }

  /** `{ field, op: 'gt', value }` */
  function Above(field: string, limit: real): Value {
    Obj([Member("field", Str(field)), Member("op", Str("gt")), Member("value", Num(limit))])
  }

  /** `{ type, value }` */
  function Action(kind: string, value: Value): Value {
    Obj([Member("type", Str(kind)), Member("value", value)])
  }

  /** The two rules the store starts with. */
  function SeedRules(): seq<Rule> {
    [ SeedRule("RULE-001", "Heavy Weight Ground", 10.0, Above("packages.0.weight.value", 150.0), Action("SET_CARRIER", Str("FEDEX_FREIGHT"))),
      SeedRule("RULE-002", "High Value Insurance", 20.0, Above("financials.value", 5000.0), Action("ADD_INSURANCE", Bool(true))) ]
  }

  lemma {:induction false} SeedRuleFields(id: string, name: string, priority: real, condition: Value, action: Value)
    ensures var rule := SeedRule(id, name, priority, condition, action);
      Get(Obj(rule), "id") == Str(id) && Get(Obj(rule), "enabled") == Bool(true)
      && Get(Obj(rule), "priority") == Num(priority)
  {
    var rule := SeedRule(id, name, priority, condition, action);
    assert rule[1..][1..] == rule[2..];
    assert rule[2..][1..] == rule[3..];
    assert Lookup(rule, "enabled") == Lookup(rule[1..], "enabled") == Lookup(rule[2..], "enabled");
    assert Lookup(rule, "priority") == Lookup(rule[1..], "priority") == Lookup(rule[2..], "priority")
      == Lookup(rule[3..], "priority");
  }

  /** The number `b.priority - a.priority` subtracts. A priority that is
      not a number makes the comparator NaN, which the sort reads as
      "equal"; the model reads it as 0. */
  function Priority(rule: Rule, env: Env): real {
    match ToNumber(Get(Obj(rule), "priority"), env)
    case Some(p) => p
    case None => 0.0
  }

  /** Stable insertion: x goes before the first rule whose priority does
      not exceed its own. */
  function InsertRule(x: Rule, sorted: seq<Rule>, env: Env): (r: seq<Rule>)
    ensures multiset(r) == multiset(sorted) + multiset{x}
  {
    if sorted == [] || Priority(sorted[0], env) <= Priority(x, env) then [x] + sorted
    else
      assert sorted == [sorted[0]] + sorted[1..];
      [sorted[0]] + InsertRule(x, sorted[1..], env)
  }

  /** `rules.sort((a, b) => b.priority - a.priority)`: a stable sort by
      descending priority. */
  function SortByPriority(rules: seq<Rule>, env: Env): (r: seq<Rule>)
    ensures multiset(r) == multiset(rules)
  {
    if rules == [] then []
    else
      assert rules == [rules[0]] + rules[1..];
      InsertRule(rules[0], SortByPriority(rules[1..], env), env)
  }

  predicate Descending(rules: seq<Rule>, env: Env) {
    forall i, j :: 0 <= i < j < |rules| ==> Priority(rules[i], env) >= Priority(rules[j], env)
  }

  lemma {:induction false} InsertDescending(x: Rule, sorted: seq<Rule>, env: Env)
    requires Descending(sorted, env)
    ensures Descending(InsertRule(x, sorted, env), env)
  {
    if !(sorted == [] || Priority(sorted[0], env) <= Priority(x, env)) {
      InsertDescending(x, sorted[1..], env);
      var r := InsertRule(x, sorted[1..], env);
      forall i | 0 <= i < |r| ensures Priority(sorted[0], env) >= Priority(r[i], env) {
        assert r[i] in multiset(sorted[1..]) + multiset{x};
        if r[i] != x {
          assert r[i] in sorted[1..];
        }
      }
    }
  }

  /** The sorted list is in descending priority and is a permutation. */
  lemma {:induction false} SortDescending(rules: seq<Rule>, env: Env)
    ensures Descending(SortByPriority(rules, env), env)
    ensures multiset(SortByPriority(rules, env)) == multiset(rules)
  {
    if rules != [] {
      SortDescending(rules[1..], env);
      InsertDescending(rules[0], SortByPriority(rules[1..], env), env);
    }
  }

  /** `{ id: 'RULE-' + now, enabled: true, createdAt, ...rule }` */
  function NewRule(rule: Rule, now: string, createdAt: Value): Rule {
    Spread([Member("id", Str("RULE-" + now)), Member("enabled", Bool(true)), Member("createdAt", createdAt)], rule)
  }

  /** Caller fields win, including id; otherwise the defaults hold, and a
      new rule is enabled unless the caller says otherwise. */
  lemma {:induction false} NewRuleFields(rule: Rule, now: string, createdAt: Value, k: string)
    ensures Lookup(NewRule(rule, now, createdAt), k) ==
      if LastVal(rule, k).Some? then LastVal(rule, k)
      else if k == "id" then Some(Str("RULE-" + now))
      else if k == "enabled" then Some(Bool(true))
      else if k == "createdAt" then Some(createdAt)
      else None
  {
    var defaults := [Member("id", Str("RULE-" + now)), Member("enabled", Bool(true)), Member("createdAt", createdAt)];
    SpreadLookup(defaults, rule, k);
    var tail := [Member("createdAt", createdAt)];
    assert defaults[1..][1..] == tail;
    assert tail[1..] == [];
    assert Lookup(tail, k) == if k == "createdAt" then Some(createdAt) else None;
    assert Lookup(defaults[1..], k) == if k == "enabled" then Some(Bool(true)) else Lookup(tail, k);
  }

  /** `r.id === id` */
  predicate HasId(rule: Rule, id: Value) {
    StrictEq(Get(Obj(rule), "id"), id)
  }

  /** `rules.findIndex(r => r.id === id)`, with |rules| for -1. */
  function FindIndex(rules: seq<Rule>, id: Value): (k: nat)
    ensures k <= |rules|
    ensures k < |rules| ==> HasId(rules[k], id)
    ensures forall j :: 0 <= j < k ==> !HasId(rules[j], id)
  {
    if rules == [] then 0 else if HasId(rules[0], id) then 0 else 1 + FindIndex(rules[1..], id)
  }

  /** `{ ...rule, ...updates }` */
  function Merge(rule: Rule, updates: seq<Member>): Rule {
    Spread(Spread([], rule), updates)
  }

  /** The merged rule takes each field from the updates when they have it,
      and keeps the old field otherwise. */
  lemma {:induction false} MergeFields(rule: Rule, updates: seq<Member>, k: string)
    ensures Lookup(Merge(rule, updates), k) == if LastVal(updates, k).Some? then LastVal(updates, k) else LastVal(rule, k)
  {
    SpreadLookup(Spread([], rule), updates, k);
    SpreadLookup([], rule, k);
  }

  /** `rules.filter(r => r.id !== id)` */
  function WithoutId(rules: seq<Rule>, id: Value): (r: seq<Rule>)
    ensures |r| <= |rules|
    decreases |rules|
  {
    if rules == [] then []
    else (if HasId(rules[0], id) then [] else [rules[0]]) + WithoutId(rules[1..], id)
  }

  /** Deleting leaves no rule with that id and keeps every other rule. */
  lemma {:induction false} WithoutIdSpec(rules: seq<Rule>, id: Value, x: Rule)
    ensures x in WithoutId(rules, id) <==> x in rules && !HasId(x, id)
    decreases |rules|
  {
    if rules != [] {
      WithoutIdSpec(rules[1..], id, x);
      assert x in rules <==> x == rules[0] || x in rules[1..];
    }
  }

  /** With no rule carrying the id, deleting changes nothing. */
  lemma {:induction false} WithoutAbsentId(rules: seq<Rule>, id: Value)
    requires forall i :: 0 <= i < |rules| ==> !HasId(rules[i], id)
    ensures WithoutId(rules, id) == rules
    decreases |rules|
  {
    if rules != [] {
      WithoutAbsentId(rules[1..], id);
      assert [rules[0]] + rules[1..] == rules;
    }
  }

  /** `rules.filter(r => r.enabled)` */
  function Enabled(rules: seq<Rule>): (r: seq<Rule>)
    decreases |rules|
  {
    if rules == [] then []
    else (if Truthy(Get(Obj(rules[0]), "enabled")) then [rules[0]] else []) + Enabled(rules[1..])
  }

  lemma {:induction false} EnabledSpec(rules: seq<Rule>, x: Rule)
    ensures x in Enabled(rules) <==> x in rules && Truthy(Get(Obj(x), "enabled"))
    decreases |rules|
  {
    if rules != [] {
      EnabledSpec(rules[1..], x);
      assert x in rules <==> x == rules[0] || x in rules[1..];
    }
  }

  /** The rules `evaluateShipment` hands to the engine. */
  function ActiveRules(rules: seq<Rule>, env: Env): seq<Rule> {
    SortByPriority(Enabled(rules), env)
  }

  /** They are exactly the enabled rules, highest priority first. */
  lemma {:induction false} ActiveRulesSpec(rules: seq<Rule>, env: Env, x: Rule)
    ensures x in ActiveRules(rules, env) <==> x in rules && Truthy(Get(Obj(x), "enabled"))
    ensures Descending(ActiveRules(rules, env), env)
  {
    SortDescending(Enabled(rules), env);
    EnabledSpec(rules, x);
    assert x in ActiveRules(rules, env) <==> x in multiset(ActiveRules(rules, env));
    assert x in Enabled(rules) <==> x in multiset(Enabled(rules));
  }

  class Store {
    var rules: seq<Rule>

    /** The store starts with RULE-001 and RULE-002. */
    constructor ()
      ensures rules == SeedRules()
    {
      rules := SeedRules();
    }

    /** `getAllRules`: sorts the stored list in place and returns it. */
    method GetAllRules(env: Env) returns (sorted: seq<Rule>)
      modifies this
      ensures rules == SortByPriority(old(rules), env)
      ensures sorted == rules
    {
      rules := SortByPriority(rules, env);
      sorted := rules;
    }

    /** `createRule`: appends exactly the new rule. */
    method CreateRule(rule: Rule, now: string, createdAt: Value) returns (newRule: Rule)
      modifies this
      ensures newRule == NewRule(rule, now, createdAt)
      ensures rules == old(rules) + [newRule]
    {
      newRule := NewRule(rule, now, createdAt);
      rules := rules + [newRule];
    }

    /** `updateRule`: merges into the first rule with the id; an unknown id
        throws "Rule not found" and changes nothing. */
    method UpdateRule(id: Value, updates: seq<Member>) returns (r: Result<Rule, string>)
      modifies this
      ensures FindIndex(old(rules), id) == |old(rules)| ==> r == Err(RuleNotFound) && rules == old(rules)
      ensures FindIndex(old(rules), id) < |old(rules)| ==>
        var k := FindIndex(old(rules), id);
        r == Ok(Merge(old(rules)[k], updates)) && rules == old(rules)[k := Merge(old(rules)[k], updates)]
    {
      var index := FindIndex(rules, id);
      if index == |rules| {
        return Err(RuleNotFound);
      }
      rules := rules[index := Merge(rules[index], updates)];
      r := Ok(rules[index]);
    }

    /** `deleteRule`: drops every rule with the id and reports true. */
    method DeleteRule(id: Value) returns (deleted: bool)
      modifies this
      ensures rules == WithoutId(old(rules), id)
      ensures deleted
    {
      rules := WithoutId(rules, id);
      deleted := true;
    }

    /** `evaluateShipment`: the engine over the enabled rules by descending
        priority; the stored list is not reordered. */
    method EvaluateShipment(shipment: Value, env: Env) returns (r: Result<Outcome, string>)
      ensures r == Evaluation(ActiveRules(rules, env), shipment, env)
    {
      var active := ActiveRules(rules, env);
      r := Evaluate(active, shipment, env);
    }
  }

  /** The seed rules: ids, priorities 10 and 20, both enabled. */
  lemma {:induction false} SeedSpec(env: Env)
    ensures |SeedRules()| == 2
    ensures Get(Obj(SeedRules()[0]), "id") == Str("RULE-001") && Priority(SeedRules()[0], env) == 10.0
    ensures Get(Obj(SeedRules()[1]), "id") == Str("RULE-002") && Priority(SeedRules()[1], env) == 20.0
    ensures Truthy(Get(Obj(SeedRules()[0]), "enabled")) && Truthy(Get(Obj(SeedRules()[1]), "enabled"))
  {
    SeedRuleFields("RULE-001", "Heavy Weight Ground", 10.0, Above("packages.0.weight.value", 150.0), Action("SET_CARRIER", Str("FEDEX_FREIGHT")));
    SeedRuleFields("RULE-002", "High Value Insurance", 20.0, Above("financials.value", 5000.0), Action("ADD_INSURANCE", Bool(true)));
  }

  /** Listing the seeded store puts RULE-002 first. */
  lemma {:induction false} SeedOrder(env: Env)
    ensures SortByPriority(SeedRules(), env) == [SeedRules()[1], SeedRules()[0]]
  {
    SeedSpec(env);
    var s := SeedRules();
    var a, b := s[0], s[1];
    assert s[1..] == [b];
    assert [b][1..] == [];
    assert SortByPriority([b], env) == [b];
    assert InsertRule(a, [b], env) == [b, a];
  }
}
