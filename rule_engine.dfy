// The routing-rule engine of legacy/apps/api/src/shared/rules/RuleEngine.js.
// Rules, conditions and the evaluated context are JSON values. Where the
// runtime would throw a TypeError (`condition.and.every` on a non-array,
// `path.split` on a missing field) the model returns Err(TypeError). The
// debug log line is left out.

module RuleEngine {
  import opened Wrappers
  import opened Text
  import opened Json

  const TypeError := "TypeError"

  /** A measure of a value's nesting, for termination. */
  function Size(v: Value): nat
  {
    match v
    case Arr(items) => 1 + ItemsSize(items)
    case Obj(ms) => 1 + MembersSize(ms)
    case _ => 1
  }

  function ItemsSize(items: seq<Value>): nat
  {
    if items == [] then 0 else Size(items[0]) + ItemsSize(items[1..])
  }

  function MembersSize(ms: seq<Member>): nat
  {
    if ms == [] then 0 else Size(ms[0].val) + MembersSize(ms[1..])
  }

  /** A property's value is smaller than the object holding it. */
  lemma {:induction false} LookupSmaller(ms: seq<Member>, key: string)
    ensures Lookup(ms, key).Some? ==> Size(Lookup(ms, key).value) <= MembersSize(ms)
  {
    if ms != [] && ms[0].key != key {
      LookupSmaller(ms[1..], key);
    }
  }

  /** A canonical array index such as "0" or "12". */
  predicate IsIndex(part: string) {
    part != [] && AllDigits(part) && NatToString(DigitsValue(part)) == part
  }

  /** What `acc[part]` can give along a field path: a value of the JSON
      context, one of the runtime's built-in functions (named by its
      `name`), or the object Object.prototype itself. */
  datatype Read = Plain(v: Value) | Native(name: string) | ObjectPrototype

  predicate TruthyRead(r: Read) {
    match r
    case Plain(v) => Truthy(v)
    case _ => true
  }

  /** The `name` of the built-in function that `v[key]` inherits for a
      key of Object.prototype: the constructor of v's kind, or the method
      of that name (the overrides in Array.prototype, String.prototype,
      Number.prototype and Boolean.prototype carry the same name). */
  function InheritedName(v: Value, key: string): (name: string)
    requires key in ObjectPrototypeNames && key != "__proto__"
    ensures key != "constructor" ==> name == key
  {
    if key != "constructor" then key
    else
      match v
      case Arr(_) => "Array"
      case Str(_) => "String"
      case Num(_) => "Number"
      case Bool(_) => "Boolean"
      case _ => "Object"
  }

  /** V8's source text of a built-in function. */
  function NativeText(name: string): string {
    "function " + name + "() { [native code] }"
  }

  /** `acc[part]` for a truthy acc: own properties, array and string
      indices and `length` first, then the members of Object.prototype
      that every value inherits; a built-in function has its `name`. */
  function Prop(r: Read, part: string): Read {
    match r
    case Plain(v) =>
      if IsIndex(part) && (v.Arr? || v.Str?) then Plain(At(v, DigitsValue(part)))
      else if HasKey(v, part) || ((v.Arr? || v.Str?) && part == "length") then Plain(Get(v, part))
      else if part == "__proto__" then (if v.Obj? then ObjectPrototype else Plain(Undefined))
      else if part in ObjectPrototypeNames then Native(InheritedName(v, part))
      else Plain(Undefined)
    case Native(name) => if part == "name" then Plain(Str(name)) else Plain(Undefined)
    case ObjectPrototype =>
      if part == "__proto__" then Plain(Null)
      else if part in ObjectPrototypeNames then Native(InheritedName(Obj([]), part))
      else Plain(Undefined)
  }

  /** `path.split('.').reduce((acc, part) => acc && acc[part], obj)` */
  function Walk(r: Read, parts: seq<string>): Read
    decreases |parts|
  {
    if parts == [] then r
    else Walk(if TruthyRead(r) then Prop(r, parts[0]) else r, parts[1..])
  }

  function GetValue(obj: Value, path: string): Read {
    Walk(Plain(obj), Split(path, '.'))
  }

  /** Once the walk meets a falsy value, that value is the result. */
  lemma {:induction false} WalkFalsy(r: Read, parts: seq<string>)
    requires !TruthyRead(r)
    ensures Walk(r, parts) == r
    decreases |parts|
  {
    if parts != [] {
      WalkFalsy(r, parts[1..]);
    }
  }

  /** A missing segment under a truthy value makes the whole path
      undefined. */
  lemma {:induction false} WalkMissing(r: Read, parts: seq<string>, k: nat)
    requires k < |parts|
    requires TruthyRead(Walk(r, parts[..k])) && Prop(Walk(r, parts[..k]), parts[k]) == Plain(Undefined)
    ensures Walk(r, parts) == Plain(Undefined)
    decreases k
  {
    var w := if TruthyRead(r) then Prop(r, parts[0]) else r;
    if k == 0 {
      assert parts[..0] == [];
      WalkFalsy(w, parts[1..]);
    } else {
      assert parts[..k][1..] == parts[1..][..k - 1];
      WalkMissing(w, parts[1..], k - 1);
    }
  }

  /** A path without dots reads one property. */
  lemma {:induction false} WalkOneSegment(v: Value, path: string)
    requires '.' !in path && Truthy(v)
    ensures GetValue(v, path) == Prop(Plain(v), path)
  {
    var k := IndexOf(path, '.');
    assert k == |path|;
    assert Split(path, '.') == [path];
    assert Walk(Plain(v), [path]) == Walk(Prop(Plain(v), path), [path][1..]);
    assert [path][1..] == [];
  }

  /** A read that is not an own property: a key of Object.prototype gives
      the inherited function, `__proto__` of an object Object.prototype. */
  lemma {:induction false} PropInherited(v: Value, part: string)
    requires Truthy(v) && !HasKey(v, part) && part in ObjectPrototypeNames && !IsIndex(part) && part != "length"
    ensures v.Obj? && part == "__proto__" ==> Prop(Plain(v), part) == ObjectPrototype
    ensures part != "__proto__" ==> Prop(Plain(v), part) == Native(InheritedName(v, part))
  {
  }

  /** A path of two segments splits into them. */
  lemma {:induction false} SplitTwo(a: string, b: string)
    requires '.' !in a && '.' !in b
    ensures Split(a + ['.'] + b, '.') == [a, b]
  {
    SplitAfter(a, '.', b);
    var k := IndexOf(b, '.');
    assert k == |b|;
  }

  /** The path "constructor.name" has two segments. */
  lemma {:induction false} ConstructorNameParts()
    ensures Split("constructor.name", '.') == ["constructor", "name"]
  {
    SplitTwo("constructor", "name");
    assert "constructor" + ['.'] + "name" == "constructor.name";
  }

  /** An object without its own `constructor` inherits Object. */
  lemma {:induction false} ObjectConstructor(context: seq<Member>)
    requires Lookup(context, "constructor").None?
    ensures Prop(Plain(Obj(context)), "constructor") == Native("Object")
  {
    assert !IsIndex("constructor") by { assert !IsDigit("constructor"[0]); }
  }

  /** A two-segment walk reads the second segment only from a truthy first
      read. */
  lemma {:induction false} WalkTwo(r: Read, a: string, b: string)
    ensures Walk(r, [a, b]) ==
      if !TruthyRead(r) then r
      else var x := Prop(r, a); if TruthyRead(x) then Prop(x, b) else x
  {
    var x := if TruthyRead(r) then Prop(r, a) else r;
    var y := if TruthyRead(x) then Prop(x, b) else x;
    assert [a, b][0] == a && [a, b][1..] == [b];
    assert Walk(r, [a, b]) == Walk(x, [b]);
    assert [b][1..] == [];
    assert Walk(x, [b]) == Walk(y, []);
    if !TruthyRead(r) {
      assert x == r;
    }
  }

  /** `{field: "constructor.name"}` on an object without its own
      `constructor` reads "Object". */
  lemma {:induction false} ConstructorName(context: seq<Member>)
    requires Lookup(context, "constructor").None?
    ensures GetValue(Obj(context), "constructor.name") == Plain(Str("Object"))
  {
    ConstructorNameParts();
    ObjectConstructor(context);
    WalkTwo(Plain(Obj(context)), "constructor", "name");
  }

  /** ToPrimitive for the relational operators. */
  function Primitive(v: Value, env: Env): Value {
    if v.Arr? || v.Obj? then Str(ToStr(v, env)) else v
  }

  /** ToPrimitive of a read: a function and Object.prototype become their
      texts. */
  function PrimitiveOf(r: Read, env: Env): Value {
    match r
    case Plain(v) => Primitive(v, env)
    case Native(name) => Str(NativeText(name))
    case ObjectPrototype => Str("[object Object]")
  }

  /** `(value || '').toString()` */
  function TextOf(r: Read, env: Env): string {
    match r
    case Plain(v) => ToStr(Or(v, Str("")), env)
    case Native(name) => NativeText(name)
    case ObjectPrototype => "[object Object]"
  }

  /** Lexicographic order of UTF-16 code unit sequences. */
  predicate UnitsLess(a: seq<int>, b: seq<int>)
    decreases |a|
  {
    if a == [] then b != []
    else if b == [] then false
    else if a[0] != b[0] then a[0] < b[0]
    else UnitsLess(a[1..], b[1..])
  }

  /** `a < b` on strings: the order of their UTF-16 code units. */
  predicate StrLess(a: string, b: string) {
    UnitsLess(Utf16Units(a), Utf16Units(b))
  }

  /** A character beyond U+FFFF starts with a high surrogate, below the
      characters from U+E000 on: "\U{1F600}" < "\U{FF61}". */
  lemma {:induction false} SurrogateOrder()
    ensures StrLess("\U{1F600}", "\U{FF61}") && !StrLess("\U{FF61}", "\U{1F600}")
  {
    assert Utf16Units("\U{1F600}") == [0xD83D, 0xDE00] by {
      assert "\U{1F600}"[..0] == [];
    }
    assert Utf16Units("\U{FF61}") == [0xFF61] by {
      assert "\U{FF61}"[..0] == [];
    }
  }

  /** `a < b`: strings compare by UTF-16 code units, everything else as
      numbers, and NaN compares false. */
  predicate Less(a: Value, b: Value, env: Env) {
    var pa := Primitive(a, env);
    var pb := Primitive(b, env);
    if pa.Str? && pb.Str? then StrLess(pa.s, pb.s)
    else
      match (ToNumber(pa, env), ToNumber(pb, env))
      case (Some(x), Some(y)) => x < y
      case _ => false
  }

  /** SameValueZero, the equality of `Array.prototype.includes`. */
  predicate SameValueZero(a: Value, b: Value) {
    StrictEq(a, b) || (a.NaN? && b.NaN?)
  }

  predicate Includes(items: seq<Value>, v: Value) {
    exists i :: 0 <= i < |items| && SameValueZero(items[i], v)
  }

  /** The leaf switch on `condition.op`. The expected value is JSON, so a
      built-in function read from the context equals none of it. */
  function Leaf(value: Read, op: Value, expected: Value, env: Env): bool {
    var same := value.Plain? && StrictEq(value.v, expected);
    if op == Str("eq") then same
    else if op == Str("neq") then !same
    else if op == Str("gt") then Less(expected, PrimitiveOf(value, env), env)
    else if op == Str("lt") then Less(PrimitiveOf(value, env), expected, env)
    else if op == Str("in") then expected.Arr? && value.Plain? && Includes(expected.items, value.v)
    else if op == Str("contains") then Contains(TextOf(value, env), ToStr(expected, env))
    else false
  }

  /** `checkCondition` */
  function Check(condition: Value, context: Value, env: Env): Result<bool, string>
    decreases Size(condition), 0
  {
    if !Truthy(condition) then Ok(true)
    else
      var all := Get(condition, "and");
      if Truthy(all) then
        if all.Arr? then LookupSmaller(condition.members, "and"); AllOf(all.items, context, env)
        else Err(TypeError)
      else
        var any := Get(condition, "or");
        if Truthy(any) then
          if any.Arr? then LookupSmaller(condition.members, "or"); AnyOf(any.items, context, env)
          else Err(TypeError)
        else
          var field := Get(condition, "field");
          if !field.Str? then Err(TypeError)
          else Ok(Leaf(GetValue(context, field.s), Get(condition, "op"), Get(condition, "value"), env))
  }

  /** `conditions.every(c => checkCondition(c, context))` */
  function AllOf(conditions: seq<Value>, context: Value, env: Env): Result<bool, string>
    decreases ItemsSize(conditions), 1
  {
    if conditions == [] then Ok(true)
    else
      match Check(conditions[0], context, env)
      case Err(e) => Err(e)
      case Ok(b) => if !b then Ok(false) else AllOf(conditions[1..], context, env)
  }

  /** `conditions.some(c => checkCondition(c, context))` */
  function AnyOf(conditions: seq<Value>, context: Value, env: Env): Result<bool, string>
    decreases ItemsSize(conditions), 1
  {
    if conditions == [] then Ok(false)
    else
      match Check(conditions[0], context, env)
      case Err(e) => Err(e)
      case Ok(b) => if b then Ok(true) else AnyOf(conditions[1..], context, env)
  }

  /** A missing (falsy) condition holds. */
  lemma {:induction false} MissingConditionHolds(condition: Value, context: Value, env: Env)
    requires !Truthy(condition)
    ensures Check(condition, context, env) == Ok(true)
  {
  }

  /** `and` holds exactly when every sub-condition holds (so an empty `and`
      holds). */
  lemma {:induction false} AllOfSpec(conditions: seq<Value>, context: Value, env: Env)
    ensures AllOf(conditions, context, env) == Ok(true)
      <==> forall i :: 0 <= i < |conditions| ==> Check(conditions[i], context, env) == Ok(true)
    decreases |conditions|
  {
    if conditions != [] {
      AllOfSpec(conditions[1..], context, env);
      assert forall i :: 1 <= i < |conditions| ==> conditions[1..][i - 1] == conditions[i];
    }
  }

  /** `or` fails exactly when every sub-condition fails (so an empty `or`
      fails). */
  lemma {:induction false} AnyOfSpec(conditions: seq<Value>, context: Value, env: Env)
    ensures AnyOf(conditions, context, env) == Ok(false)
      <==> forall i :: 0 <= i < |conditions| ==> Check(conditions[i], context, env) == Ok(false)
    decreases |conditions|
  {
    if conditions != [] {
      AnyOfSpec(conditions[1..], context, env);
      assert forall i :: 1 <= i < |conditions| ==> conditions[1..][i - 1] == conditions[i];
    }
  }

  /** With no errors, `or` holds exactly when some sub-condition holds. */
  lemma {:induction false} AnyOfHolds(conditions: seq<Value>, context: Value, env: Env)
    requires forall i :: 0 <= i < |conditions| ==> Check(conditions[i], context, env).Ok?
    ensures AnyOf(conditions, context, env) == Ok(true)
      <==> exists i :: 0 <= i < |conditions| && Check(conditions[i], context, env) == Ok(true)
    decreases |conditions|
  {
    if conditions != [] {
      AnyOfHolds(conditions[1..], context, env);
      assert forall i :: 1 <= i < |conditions| ==> conditions[1..][i - 1] == conditions[i];
      if exists i :: 0 <= i < |conditions| && Check(conditions[i], context, env) == Ok(true) {
        var i :| 0 <= i < |conditions| && Check(conditions[i], context, env) == Ok(true);
        if i > 0 && Check(conditions[0], context, env) == Ok(false) {
          assert Check(conditions[1..][i - 1], context, env) == Ok(true);
        }
      }
    }
  }

  /** `and` is consulted before `or`: an object with both is an `and`. */
  lemma {:induction false} AndBeforeOr(condition: Value, context: Value, env: Env)
    requires condition.Obj?
    requires Get(condition, "and").Arr? && Get(condition, "or").Arr?
    ensures Check(condition, context, env) == AllOf(Get(condition, "and").items, context, env)
  {
  }

  /** An operator outside eq/neq/gt/lt/in/contains never matches. */
  lemma {:induction false} UnknownOpFails(value: Read, op: Value, expected: Value, env: Env)
    requires op !in {Str("eq"), Str("neq"), Str("gt"), Str("lt"), Str("in"), Str("contains")}
    ensures !Leaf(value, op, expected, env)
  {
  }

  /** `in` needs an array of candidates; `contains` reads a missing field
      as "". */
  lemma {:induction false} InAndContains(value: Value, expected: Value, env: Env)
    ensures Leaf(Plain(value), Str("in"), expected, env) <==> expected.Arr? && Includes(expected.items, value)
    ensures !Truthy(value) ==>
      (Leaf(Plain(value), Str("contains"), expected, env) <==> Contains("", ToStr(expected, env)))
  {
  }

  /** A built-in function or Object.prototype read from the context is
      never `===` to the rule's value, is in no array, and `contains`
      searches its text. */
  lemma {:induction false} InheritedLeaf(value: Read, expected: Value, env: Env)
    requires !value.Plain?
    ensures !Leaf(value, Str("eq"), expected, env) && Leaf(value, Str("neq"), expected, env)
    ensures !Leaf(value, Str("in"), expected, env)
    ensures Leaf(value, Str("contains"), expected, env) <==>
      Contains(if value.Native? then NativeText(value.name) else "[object Object]", ToStr(expected, env))
  {
  }

  /** `gt` and `lt` on two numbers are the numeric order. */
  lemma {:induction false} NumericComparison(x: real, y: real, env: Env)
    ensures Leaf(Plain(Num(x)), Str("gt"), Num(y), env) <==> x > y
    ensures Leaf(Plain(Num(x)), Str("lt"), Num(y), env) <==> x < y
  {
  }

  /** A condition object without a truthy `and` or `or` and with a string
      `field` is a leaf: its operator applied to the field's value. */
  lemma {:induction false} LeafCondition(condition: Value, context: Value, env: Env)
    requires condition.Obj? && !Truthy(Get(condition, "and")) && !Truthy(Get(condition, "or"))
    requires Get(condition, "field").Str?
    ensures Check(condition, context, env) ==
      Ok(Leaf(GetValue(context, Get(condition, "field").s), Get(condition, "op"), Get(condition, "value"), env))
  {
  }

  /** The rule {field: "constructor.name", op: "eq", value: "Object"} holds
      for every object context without its own `constructor`. */
  lemma {:induction false} ConstructorRuleHolds(context: seq<Member>, env: Env)
    requires Lookup(context, "constructor").None?
    ensures Check(Obj([Member("field", Str("constructor.name")), Member("op", Str("eq")), Member("value", Str("Object"))]),
      Obj(context), env) == Ok(true)
  {
    var c := Obj([Member("field", Str("constructor.name")), Member("op", Str("eq")), Member("value", Str("Object"))]);
    assert Get(c, "and") == Undefined && Get(c, "or") == Undefined;
    assert Get(c, "field") == Str("constructor.name");
    assert Get(c, "op") == Str("eq") && Get(c, "value") == Str("Object");
    LeafCondition(c, Obj(context), env);
    ConstructorName(context);
  }

  /** A rule is a JSON object. */
  type Rule = seq<Member>

  datatype Outcome = Outcome(matches: seq<Value>, actions: seq<Value>)

  /** What one rule contributes once its condition is known to match. */
  function Contribution(rule: Rule): Outcome {
    var action := Get(Obj(rule), "action");
    Outcome([Get(Obj(rule), "name")], if Truthy(action) then [action] else [])
  }

  function Concat(a: Outcome, b: Outcome): Outcome {
    Outcome(a.matches + b.matches, a.actions + b.actions)
  }

  /** The first rule in front of the outcome of the rest: its throwing
      condition aborts, a holding one contributes. */
  function Prepend(rule: Rule, rest: Result<Outcome, string>, context: Value, env: Env): Result<Outcome, string> {
    match Check(Get(Obj(rule), "condition"), context, env)
    case Err(e) => Err(e)
    case Ok(b) =>
      match rest
      case Err(e) => Err(e)
      case Ok(x) => Ok(if b then Concat(Contribution(rule), x) else x)
  }

  /** The outcomes of two rule lists in sequence; the first error wins. */
  function Then(a: Result<Outcome, string>, b: Result<Outcome, string>): Result<Outcome, string> {
    match a
    case Err(e) => Err(e)
    case Ok(x) => (match b case Err(e) => Err(e) case Ok(y) => Ok(Concat(x, y)))
  }

  /** `evaluate`: the names of matching rules in input order, and the
      actions of those that have one; a throwing condition aborts. */
  function Evaluation(rules: seq<Rule>, context: Value, env: Env): Result<Outcome, string>
    decreases |rules|
  {
    if rules == [] then Ok(Outcome([], [])) else Prepend(rules[0], Evaluation(rules[1..], context, env), context, env)
  }

  lemma {:induction false} PrependThen(rule: Rule, x: Result<Outcome, string>, y: Result<Outcome, string>, context: Value, env: Env)
    ensures Prepend(rule, Then(x, y), context, env) == Then(Prepend(rule, x, context, env), y)
  {
    var c := Check(Get(Obj(rule), "condition"), context, env);
    if c.Ok? && c.value && x.Ok? && y.Ok? {
      assert Concat(Concat(Contribution(rule), x.value), y.value)
        == Concat(Contribution(rule), Concat(x.value, y.value));
    }
  }

  /** Evaluating a concatenation: the first throwing rule decides, and the
      outcomes are concatenated in order. */
  lemma {:induction false} EvaluationAppend(a: seq<Rule>, b: seq<Rule>, context: Value, env: Env)
    ensures Evaluation(a + b, context, env) == Then(Evaluation(a, context, env), Evaluation(b, context, env))
    decreases |a|
  {
    if a == [] {
      assert a + b == b;
      var r := Evaluation(b, context, env);
      if r.Ok? {
        assert Concat(Outcome([], []), r.value) == r.value;
      }
    } else {
      assert (a + b)[0] == a[0];
      assert (a + b)[1..] == a[1..] + b;
      EvaluationAppend(a[1..], b, context, env);
      PrependThen(a[0], Evaluation(a[1..], context, env), Evaluation(b, context, env), context, env);
    }
  }

  /** A single rule: listed (with its truthy action) exactly when its
      condition holds. */
  lemma {:induction false} EvaluationOne(rule: Rule, context: Value, env: Env)
    ensures Evaluation([rule], context, env) ==
      match Check(Get(Obj(rule), "condition"), context, env)
      case Err(e) => Err(e)
      case Ok(b) => Ok(if b then Contribution(rule) else Outcome([], []))
  {
    assert [rule][1..] == [];
    var c := Check(Get(Obj(rule), "condition"), context, env);
    if c.Ok? && c.value {
      assert Concat(Contribution(rule), Outcome([], [])) == Contribution(rule);
    }
  }

  /** The evaluation fails exactly when some rule's condition throws. */
  lemma {:induction false} EvaluationOk(rules: seq<Rule>, context: Value, env: Env)
    ensures Evaluation(rules, context, env).Ok?
      <==> forall i :: 0 <= i < |rules| ==> Check(Get(Obj(rules[i]), "condition"), context, env).Ok?
    decreases |rules|
  {
    if rules != [] {
      EvaluationOk(rules[1..], context, env);
      assert forall i :: 1 <= i < |rules| ==> rules[1..][i - 1] == rules[i];
    }
  }

  /** No rule contributes more than one name. */
  lemma {:induction false} EvaluationBound(rules: seq<Rule>, context: Value, env: Env)
    ensures Evaluation(rules, context, env).Ok? ==>
      |Evaluation(rules, context, env).value.actions| <= |Evaluation(rules, context, env).value.matches| <= |rules|
    decreases |rules|
  {
    if rules != [] {
      EvaluationBound(rules[1..], context, env);
    }
  }

  /** One more rule: the prefix's outcome, then what that rule adds. */
  lemma {:induction false} EvaluationStep(rules: seq<Rule>, i: nat, context: Value, env: Env)
    requires i < |rules|
    ensures Evaluation(rules[..i + 1], context, env) ==
      Then(Evaluation(rules[..i], context, env), Prepend(rules[i], Ok(Outcome([], [])), context, env))
  {
    EvaluationAppend(rules[..i], [rules[i]], context, env);
    assert rules[..i + 1] == rules[..i] + [rules[i]];
    assert [rules[i]][1..] == [];
  }

  /** A throwing rule makes the whole evaluation throw. */
  lemma {:induction false} EvaluationAbort(rules: seq<Rule>, i: nat, context: Value, env: Env)
    requires i < |rules| && Evaluation(rules[..i + 1], context, env).Err?
    ensures Evaluation(rules, context, env) == Evaluation(rules[..i + 1], context, env)
  {
    EvaluationAppend(rules[..i + 1], rules[i + 1..], context, env);
    assert rules[..i + 1] + rules[i + 1..] == rules;
  }

  /** `RuleEngine.evaluate` */
  method Evaluate(rules: seq<Rule>, context: Value, env: Env) returns (r: Result<Outcome, string>)
    ensures r == Evaluation(rules, context, env)
  {
    var matches: seq<Value> := [];
    var actions: seq<Value> := [];
    for i := 0 to |rules|
      invariant Evaluation(rules[..i], context, env) == Ok(Outcome(matches, actions))
    {
      var rule := rules[i];
      EvaluationStep(rules, i, context, env);
      var holds := Check(Get(Obj(rule), "condition"), context, env);
      if holds.Err? {
        EvaluationAbort(rules, i, context, env);
        return Err(holds.error);
      }
      ghost var before := Outcome(matches, actions);
      if holds.value {
        assert Concat(Contribution(rule), Outcome([], [])) == Contribution(rule);
        matches, actions := AddMatch(rule, matches, actions);
      } else {
        assert Concat(before, Outcome([], [])) == before;
      }
    }
    assert rules[..|rules|] == rules;
    r := Ok(Outcome(matches, actions));
  }

  /** A matching rule: its name is listed, and its action when truthy. */
  method AddMatch(rule: Rule, matches: seq<Value>, actions: seq<Value>) returns (m: seq<Value>, a: seq<Value>)
    ensures Outcome(m, a) == Concat(Outcome(matches, actions), Contribution(rule))
  {
    m := matches + [Get(Obj(rule), "name")];
    var action := Get(Obj(rule), "action");
    if Truthy(action) {
      a := actions + [action];
    } else {
      a := actions;
      assert actions + [] == actions;
    }
  }
}
