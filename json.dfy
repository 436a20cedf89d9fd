// JavaScript values as the services see them after JSON parsing or object
// construction: objects keep their keys in insertion order, arrays are
// sequences, numbers are reals plus NaN.  The number <-> text conversions
// of the runtime (parseFloat, Number(string), String(number)) are kept
// abstract in an Env record that callers pass in.

module Json {
  import opened Wrappers
  import opened Text

  datatype Value =
    | Undefined
    | Null
    | Bool(b: bool)
    | Num(n: real)
    | NaN
    | Str(s: string)
    | Arr(items: seq<Value>)
    | Obj(members: seq<Member>)

  datatype Member = Member(key: string, val: Value)

  /** The runtime's abstract conversions; None stands for NaN. */
  datatype Env = Env(
    parseFloat: string -> Option<real>,
    number: string -> Option<real>,
    numberToString: real -> string)

  /** JavaScript truthiness. */
  predicate Truthy(v: Value) {
    match v
    case Undefined => false
    case Null => false
    case Bool(b) => b
    case Num(n) => n != 0.0
    case NaN => false
    case Str(s) => s != ""
    case Arr(_) => true
    case Obj(_) => true
  }

  /** `a || b` */
  function Or(a: Value, b: Value): Value {
    if Truthy(a) then a else b
  }

  /** `===`: objects and arrays built separately are never identical, and
      NaN is not equal to itself. */
  predicate StrictEq(a: Value, b: Value) {
    match (a, b)
    case (Undefined, Undefined) => true
    case (Null, Null) => true
    case (Bool(x), Bool(y)) => x == y
    case (Num(x), Num(y)) => x == y
    case (Str(x), Str(y)) => x == y
    case _ => false
  }

  predicate HasKey(v: Value, key: string) {
    v.Obj? && Lookup(v.members, key).Some?
  }

  /** `v.key` for a named own property (and the length of an array or a
      string); anything else reads as undefined. Numeric indexing is At.
      (Reading a property of null or undefined throws; callers that can
      meet those test for them first.) */
  function Get(v: Value, key: string): Value {
    match v
    case Obj(ms) => (match Lookup(ms, key) case Some(x) => x case None => Undefined)
    case Arr(items) => if key == "length" then Num(|items| as real) else Undefined
    case Str(s) => if key == "length" then Num(Utf16Length(s) as real) else Undefined
    case _ => Undefined
  }

  /** `v[i]` for an array or a string. */
  function At(v: Value, i: nat): Value {
    match v
    case Arr(items) => if i < |items| then items[i] else Undefined
    case Str(s) => if i < |s| then Str([s[i]]) else Undefined
    case _ => Undefined
  }

  /** The own property named key, if any. */
  function Lookup(ms: seq<Member>, key: string): Option<Value> {
    if ms == [] then None else if ms[0].key == key then Some(ms[0].val) else Lookup(ms[1..], key)
  }

  /** The first member named key gives the property's value. */
  lemma {:induction false} LookupAt(ms: seq<Member>, k: nat)
    requires k < |ms| && forall j :: 0 <= j < k ==> ms[j].key != ms[k].key
    ensures Lookup(ms, ms[k].key) == Some(ms[k].val)
  {
    if k > 0 {
      LookupAt(ms[1..], k - 1);
    }
  }

  /** No member named key: no property. */
  lemma {:induction false} LookupAbsent(ms: seq<Member>, key: string)
    requires forall j :: 0 <= j < |ms| ==> ms[j].key != key
    ensures Lookup(ms, key) == None
  {
    if ms != [] {
      LookupAbsent(ms[1..], key);
    }
  }

  /** `obj[key] = val` on a member list: an existing key keeps its place,
      a new one is appended, and no other property changes. */
  function SetMember(ms: seq<Member>, key: string, val: Value): seq<Member> {
    if ms == [] then [Member(key, val)]
    else if ms[0].key == key then [Member(key, val)] + ms[1..]
    else [ms[0]] + SetMember(ms[1..], key, val)
  }

  lemma {:induction false} SetMemberLookup(ms: seq<Member>, key: string, val: Value, k: string)
    ensures Lookup(SetMember(ms, key, val), k) == if k == key then Some(val) else Lookup(ms, k)
  {
    if ms != [] && ms[0].key != key {
      SetMemberLookup(ms[1..], key, val, k);
    }
  }

  lemma {:induction false} SetMemberKeys(ms: seq<Member>, key: string, val: Value)
    ensures KeysOf(SetMember(ms, key, val)) == if Lookup(ms, key).Some? then KeysOf(ms) else KeysOf(ms) + [key]
  {
    if ms != [] && ms[0].key != key {
      SetMemberKeys(ms[1..], key, val);
      assert KeysOf(ms) == [ms[0].key] + KeysOf(ms[1..]);
    }
  }

  /** The properties every plain object inherits from Object.prototype. */
  const ObjectPrototypeNames: set<string> :=
    {"constructor", "__defineGetter__", "__defineSetter__", "hasOwnProperty", "__lookupGetter__",
     "__lookupSetter__", "isPrototypeOf", "propertyIsEnumerable", "toString", "valueOf", "__proto__",
     "toLocaleString"}

  /** `String(obj[key])` for a property a plain object inherits: V8's text
      of the built-in function, and for `__proto__` that of Object.prototype
      itself. */
  function InheritedText(key: string): string {
    if key == "__proto__" then "[object Object]"
    else if key == "constructor" then "function Object() { [native code] }"
    else "function " + key + "() { [native code] }"
  }

  /** `obj[key] = val` by assignment: `__proto__` is the prototype's setter
      and makes no own property. */
  function PutMember(ms: seq<Member>, key: string, val: Value): seq<Member> {
    if key == "__proto__" then ms else SetMember(ms, key, val)
  }

  /** The members assigned one after another to a fresh `{}`. */
  function PutAll(ms: seq<Member>): seq<Member>
    decreases |ms|
  {
    if ms == [] then [] else PutMember(PutAll(ms[..|ms| - 1]), ms[|ms| - 1].key, ms[|ms| - 1].val)
  }

  /** An assigned property holds the last value assigned to it; `__proto__`
      never becomes one. */
  lemma {:induction false} PutAllLookup(ms: seq<Member>, key: string)
    ensures Lookup(PutAll(ms), key) == if key == "__proto__" then None else LastVal(ms, key)
    decreases |ms|
  {
    if ms != [] {
      PutAllLookup(ms[..|ms| - 1], key);
      if ms[|ms| - 1].key != "__proto__" {
        SetMemberLookup(PutAll(ms[..|ms| - 1]), ms[|ms| - 1].key, ms[|ms| - 1].val, key);
      }
    }
  }

  /** `{...a, ...b}`: b's own properties override a's, new keys come last. */
  function Spread(a: seq<Member>, b: seq<Member>): seq<Member>
    decreases |b|
  {
    if b == [] then a else SetMember(Spread(a, b[..|b| - 1]), b[|b| - 1].key, b[|b| - 1].val)
  }

  /** The value of the last member named key: spread, like JSON.parse,
      keeps the last duplicate. */
  function LastVal(ms: seq<Member>, key: string): Option<Value>
    decreases |ms|
  {
    if ms == [] then None
    else if ms[|ms| - 1].key == key then Some(ms[|ms| - 1].val)
    else LastVal(ms[..|ms| - 1], key)
  }

  /** A spread property comes from b when b has it, and from a otherwise. */
  lemma {:induction false} SpreadLookup(a: seq<Member>, b: seq<Member>, key: string)
    ensures Lookup(Spread(a, b), key) == if LastVal(b, key).Some? then LastVal(b, key) else Lookup(a, key)
    decreases |b|
  {
    if b != [] {
      SpreadLookup(a, b[..|b| - 1], key);
      SetMemberLookup(Spread(a, b[..|b| - 1]), b[|b| - 1].key, b[|b| - 1].val, key);
    }
  }

  function KeysOf(ms: seq<Member>): (ks: seq<string>)
    ensures |ks| == |ms| && forall i :: 0 <= i < |ms| ==> ks[i] == ms[i].key
  {
    if ms == [] then [] else [ms[0].key] + KeysOf(ms[1..])
  }

  function ValuesOf(ms: seq<Member>): (vs: seq<Value>)
    ensures |vs| == |ms| && forall i :: 0 <= i < |ms| ==> vs[i] == ms[i].val
  {
    if ms == [] then [] else [ms[0].val] + ValuesOf(ms[1..])
  }

  /** String(v). */
  function ToStr(v: Value, env: Env): string
    decreases v, 1
  {
    match v
    case Undefined => "undefined"
    case Null => "null"
    case Bool(b) => if b then "true" else "false"
    case Num(n) => env.numberToString(n)
    case NaN => "NaN"
    case Str(s) => s
    case Arr(items) => Join(ItemStrings(items, env), ",")
    case Obj(_) => "[object Object]"
  }

  /** The texts Array.prototype.join uses for the items: null and
      undefined become empty. */
  function ItemStrings(items: seq<Value>, env: Env): (ts: seq<string>)
    ensures |ts| == |items|
    decreases items, 0
  {
    if items == [] then []
    else [if items[0].Null? || items[0].Undefined? then "" else ToStr(items[0], env)] + ItemStrings(items[1..], env)
  }

  /** Values that the `+` operator turns into a string primitive. */
  predicate Stringish(v: Value) { v.Str? || v.Arr? || v.Obj? }

  /** The `+` operator: concatenation when either side is (or converts to)
      a string, numeric addition otherwise. */
  function Add(a: Value, b: Value, env: Env): (r: Value)
    ensures a.Num? && b.Num? ==> r == Num(a.n + b.n)
    ensures Stringish(a) || Stringish(b) ==> r.Str?
  {
    if Stringish(a) || Stringish(b) then Str(ToStr(a, env) + ToStr(b, env))
    else match (ToNumber(a, env), ToNumber(b, env))
      case (Some(x), Some(y)) => Num(x + y)
      case _ => NaN
  }

  /** `a * b` */
  function Mul(a: Value, b: Value, env: Env): (r: Value)
    ensures a.Num? && b.Num? ==> r == Num(a.n * b.n)
  {
    if a.Num? && b.Num? then Num(a.n * b.n)
    else match (ToNumber(a, env), ToNumber(b, env))
      case (Some(x), Some(y)) => Num(x * y)
      case _ => NaN
  }

  /** `a / b`; a zero divisor, which gives an infinity, is folded into NaN
      here since no infinity is modelled. */
  function Div(a: Value, b: Value, env: Env): (r: Value)
    ensures a.Num? && b.Num? && b.n != 0.0 ==> r == Num(a.n / b.n)
  {
    match (ToNumber(a, env), ToNumber(b, env))
    case (Some(x), Some(y)) => if y == 0.0 then NaN else Num(x / y)
    case _ => NaN
  }

  /** The value `Number(...)` produces. */
  function NumberValue(v: Value, env: Env): (r: Value)
    ensures r.Num? || r.NaN?
  {
    match ToNumber(v, env)
    case Some(x) => Num(x)
    case None => NaN
  }

  /** `v >= 0`, `v > 0`: comparisons convert to numbers; NaN compares false. */
  predicate AtLeastZero(v: Value, env: Env) {
    var x := ToNumber(v, env);
    x.Some? && x.value >= 0.0
  }

  predicate AboveZero(v: Value, env: Env) {
    var x := ToNumber(v, env);
    x.Some? && x.value > 0.0
  }

  /** Number(v) / the ToNumber conversion; None is NaN. */
  function ToNumber(v: Value, env: Env): Option<real> {
    match v
    case Undefined => None
    case Null => Some(0.0)
    case Bool(b) => Some(if b then 1.0 else 0.0)
    case Num(n) => Some(n)
    case NaN => None
    case Str(s) => env.number(s)
    case _ => env.number(ToStr(v, env))
  }

  /** parseFloat(v): the argument is first converted to a string. */
  function ParseFloat(v: Value, env: Env): Option<real> {
    match v
    case Num(n) => Some(n)
    case NaN => None
    case Str(s) => env.parseFloat(s)
    case _ => env.parseFloat(ToStr(v, env))
  }
}
