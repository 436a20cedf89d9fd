// The two Handlebars template guards: the visitor of
// legacy/apps/api/src/utils/handlebarsSecurity.js, which stops at the first
// offending node, and `assertTemplateSafe` of
// legacy/apps/api/src/services/documents/generator.js, which walks every
// child of every node and reports all violations at once, together with the
// template cache that only keeps templates that passed. The tree is the one
// `handlebars.parse` builds; parsing itself is a parameter.

module HandlebarsAst {
  import opened Wrappers

  datatype DecoratorKind = DecoratorBlock | DecoratorStatement | BlockDecorator

  /** The node types of the Handlebars AST, with their child fields in the
      order `Object.keys` lists them. A literal keeps its `original`: the
      text of a string literal, the number `Number(text)` of a number
      literal and the boolean of a boolean literal. */
  datatype Node =
    | Program(body: seq<Node>)
    | Content(content: string)
    | Mustache(path: Node, params: seq<Node>, hash: Option<Node>, escaped: bool)
    | Block(path: Node, params: seq<Node>, hash: Option<Node>, program: Option<Node>, inverse: Option<Node>)
    | SubExpression(path: Node, params: seq<Node>, hash: Option<Node>)
    | PathExpression(original: string, parts: seq<string>)
    | Hash(pairs: seq<Node>)
    | HashPair(key: string, value: Node)
    | StringLiteral(text: string)
    | NumberLiteral(number: real)
    | BooleanLiteral(truth: bool)
    | UndefinedLiteral
    | NullLiteral
    | Partial(name: Node, params: seq<Node>, hash: Option<Node>)
    | PartialBlock(name: Node, params: seq<Node>, hash: Option<Node>, program: Option<Node>)
    | Decorator(decorator: DecoratorKind, path: Node, params: seq<Node>, hash: Option<Node>, program: Option<Node>)
    | Other(typeName: string, children: seq<Node>)

  /** `node.type` */
  function TypeName(n: Node): string {
    match n
    case Program(_) => "Program"
    case Content(_) => "ContentStatement"
    case Mustache(_, _, _, _) => "MustacheStatement"
    case Block(_, _, _, _, _) => "BlockStatement"
    case SubExpression(_, _, _) => "SubExpression"
    case PathExpression(_, _) => "PathExpression"
    case Hash(_) => "Hash"
    case HashPair(_, _) => "HashPair"
    case StringLiteral(_) => "StringLiteral"
    case NumberLiteral(_) => "NumberLiteral"
    case BooleanLiteral(_) => "BooleanLiteral"
    case UndefinedLiteral => "UndefinedLiteral"
    case NullLiteral => "NullLiteral"
    case Partial(_, _, _) => "PartialStatement"
    case PartialBlock(_, _, _, _) => "PartialBlockStatement"
    case Decorator(d, _, _, _, _) =>
      (match d
       case DecoratorBlock => "DecoratorBlock"
       case DecoratorStatement => "Decorator"
       case BlockDecorator => "BlockDecorator")
    case Other(t, _) => t
  }

  /** `node.original` is a string: paths and string literals. */
  predicate StringOriginal(n: Node) {
    n.PathExpression? || n.StringLiteral?
  }

  /** The string `node.original` of a path or a string literal. */
  function StringText(n: Node): string
    requires StringOriginal(n)
  {
    if n.PathExpression? then n.original else n.text
  }

  /** `node.original` is truthy: a non-empty string, a number other than
      zero (the literal grammar has no NaN) or true; the undefined and null
      literals and every other node have none. */
  predicate HasOriginal(n: Node) {
    match n
    case PathExpression(o, _) => o != ""
    case StringLiteral(t) => t != ""
    case NumberLiteral(x) => x != 0.0
    case BooleanLiteral(b) => b
    case _ => false
  }

  /** `${node.original}`, with JavaScript's number-to-string given as
      `show`. */
  function OriginalText(n: Node, show: real -> string): string {
    match n
    case PathExpression(o, _) => o
    case StringLiteral(t) => t
    case NumberLiteral(x) => show(x)
    case BooleanLiteral(b) => if b then "true" else "false"
    case NullLiteral => "null"
    case _ => "undefined"
  }

  /** The string name, when the node has one: `allowed.has(node.original)`
      can only hold for it. */
  predicate NamedIn(n: Node, allowed: set<string>) {
    StringOriginal(n) && StringText(n) in allowed
  }

  /** `hash.pairs.length`; the parser only puts Hash nodes here. */
  function PairCount(hash: Option<Node>): nat {
    if hash.Some? && hash.value.Hash? then |hash.value.pairs| else 0
  }

  function Opt(n: Option<Node>): seq<Node> {
    if n.Some? then [n.value] else []
  }
}

module HandlebarsSecurity {
  import opened Wrappers
  import opened Text
  import opened HandlebarsAst

  const DefaultAllowedHelpers: set<string> := {"if", "each", "unless", "with", "eq"}
  const DefaultAllowedSubexpressions: set<string> := {"eq"}
  const BlockedSegments: set<string> := {"__proto__", "constructor", "prototype"}
  const TypeError := "TypeError"

  /** The caller's `options`; a missing set means the default one. */
  datatype Options = Options(allowedHelpers: Option<set<string>>, allowedSubexpressions: Option<set<string>>)

  /** `parts` when it is a non-empty array, else `original.split('.')`. */
  function PathParts(n: Node): seq<string>
    requires StringOriginal(n)
  {
    if n.PathExpression? && |n.parts| > 0 then n.parts else Split(StringText(n), '.')
  }

  /** The first blocked segment. */
  function FirstBlocked(parts: seq<string>): (r: Option<string>)
    ensures r.Some? ==> r.value in BlockedSegments && r.value in parts
    ensures r.None? <==> forall i :: 0 <= i < |parts| ==> parts[i] !in BlockedSegments
  {
    if parts == [] then None
    else if parts[0] in BlockedSegments then Some(parts[0])
    else
      var r := FirstBlocked(parts[1..]);
      assert forall i :: 1 <= i < |parts| ==> parts[i] == parts[1..][i - 1];
      r
  }

  /** `assertSafePath(node)`. A truthy original that is not a string has no
      `split`. */
  function AssertSafePath(n: Node): Result<(), string> {
    if !HasOriginal(n) then Ok(())
    else if !StringOriginal(n) then Err(TypeError)
    else match FirstBlocked(PathParts(n))
      case Some(part) => Err("Disallowed Handlebars path segment: " + part)
      case None => Ok(())
  }

  /** `assertAllowedHelper(node.original, allowed)` */
  function AssertAllowedHelper(path: Node, allowed: set<string>, show: real -> string): Result<(), string> {
    if NamedIn(path, allowed) then Ok(()) else Err("Disallowed Handlebars helper: " + OriginalText(path, show))
  }

  /** The first error of a, else that of b. */
  function Then(a: Result<(), string>, b: Result<(), string>): Result<(), string> {
    if a.Err? then a else b
  }

  /** The check `visit` makes at a node before visiting its children. */
  function Local(n: Node, helpers: set<string>, subexpressions: set<string>, show: real -> string): Result<(), string> {
    match n
    case Mustache(path, params, hash, _) =>
      if |params| > 0 || PairCount(hash) > 0 then AssertAllowedHelper(path, helpers, show) else AssertSafePath(path)
    case Block(path, _, _, _, _) => AssertAllowedHelper(path, helpers, show)
    case SubExpression(path, _, _) =>
      if NamedIn(path, subexpressions) then Ok(()) else AssertAllowedHelper(path, helpers, show)
    case PathExpression(_, _) => AssertSafePath(n)
    case Partial(_, _, _) => Err("Disallowed Handlebars node type: " + TypeName(n))
    case PartialBlock(_, _, _, _) => Err("Disallowed Handlebars node type: " + TypeName(n))
    case Decorator(_, _, _, _, _) => Err("Disallowed Handlebars node type: " + TypeName(n))
    case Other(t, _) => Err("Unhandled Handlebars node type: " + t)
    case _ => Ok(())
  }

  /** `visit(node)`: the first error in visiting order. */
  function Visit(n: Node, helpers: set<string>, subexpressions: set<string>, show: real -> string): Result<(), string> {
    var local := Local(n, helpers, subexpressions, show);
    match n
    case Program(body) => Then(local, VisitAll(body, helpers, subexpressions, show))
    case Mustache(_, params, hash, _) =>
      Then(local, Then(VisitAll(params, helpers, subexpressions, show), VisitOpt(hash, helpers, subexpressions, show)))
    case Block(_, params, hash, program, inverse) =>
      Then(local, Then(VisitAll(params, helpers, subexpressions, show),
        Then(VisitOpt(hash, helpers, subexpressions, show),
          Then(VisitOpt(program, helpers, subexpressions, show), VisitOpt(inverse, helpers, subexpressions, show)))))
    case SubExpression(_, params, hash) =>
      Then(local, Then(VisitAll(params, helpers, subexpressions, show), VisitOpt(hash, helpers, subexpressions, show)))
    case Hash(pairs) => Then(local, VisitAll(pairs, helpers, subexpressions, show))
    case HashPair(_, value) => Then(local, Visit(value, helpers, subexpressions, show))
    case _ => local
  }

  /** `nodes.forEach(visit)` */
  function VisitAll(ns: seq<Node>, helpers: set<string>, subexpressions: set<string>, show: real -> string): Result<(), string> {
    if ns == [] then Ok(()) else Then(Visit(ns[0], helpers, subexpressions, show), VisitAll(ns[1..], helpers, subexpressions, show))
  }

  /** `if (!node) return;` */
  function VisitOpt(n: Option<Node>, helpers: set<string>, subexpressions: set<string>, show: real -> string): Result<(), string> {
    if n.Some? then Visit(n.value, helpers, subexpressions, show) else Ok(())
  }

  /** `validateHandlebarsTemplate(template, options)`; a parse error is an
      error too. */
  function ValidateTemplate(template: string, options: Options, parse: string -> Result<Node, string>, show: real -> string)
    : Result<(), string>
  {
    var helpers := if options.allowedHelpers.Some? then options.allowedHelpers.value else DefaultAllowedHelpers;
    var subexpressions :=
      if options.allowedSubexpressions.Some? then options.allowedSubexpressions.value else DefaultAllowedSubexpressions;
    match parse(template)
    case Err(e) => Err(e)
    case Ok(ast) => Visit(ast, helpers, subexpressions, show)
  }

  // The reference definition: the nodes `visit` reaches, in order, and the
  // first of their local checks that fails.

  function Reached(n: Node): seq<Node> {
    match n
    case Program(body) => [n] + ReachedAll(body)
    case Mustache(_, params, hash, _) => [n] + ReachedAll(params) + ReachedOpt(hash)
    case Block(_, params, hash, program, inverse) =>
      [n] + ReachedAll(params) + ReachedOpt(hash) + ReachedOpt(program) + ReachedOpt(inverse)
    case SubExpression(_, params, hash) => [n] + ReachedAll(params) + ReachedOpt(hash)
    case Hash(pairs) => [n] + ReachedAll(pairs)
    case HashPair(_, value) => [n] + Reached(value)
    case _ => [n]
  }

  function ReachedAll(ns: seq<Node>): seq<Node> {
    if ns == [] then [] else Reached(ns[0]) + ReachedAll(ns[1..])
  }

  function ReachedOpt(n: Option<Node>): seq<Node> {
    if n.Some? then Reached(n.value) else []
  }

  function FirstError(ns: seq<Node>, helpers: set<string>, subexpressions: set<string>, show: real -> string): (r: Result<(), string>)
    ensures r.Ok? <==> forall i :: 0 <= i < |ns| ==> Local(ns[i], helpers, subexpressions, show).Ok?
  {
    if ns == [] then Ok(())
    else
      var r := Then(Local(ns[0], helpers, subexpressions, show), FirstError(ns[1..], helpers, subexpressions, show));
      assert forall i :: 1 <= i < |ns| ==> ns[i] == ns[1..][i - 1];
      r
  }

  lemma {:induction false} FirstErrorAppend(a: seq<Node>, b: seq<Node>, helpers: set<string>, subexpressions: set<string>, show: real -> string)
    ensures FirstError(a + b, helpers, subexpressions, show) ==
      Then(FirstError(a, helpers, subexpressions, show), FirstError(b, helpers, subexpressions, show))
    decreases |a|
  {
    if a == [] {
      assert a + b == b;
    } else {
      var ab := a + b;
      assert ab[0] == a[0];
      assert ab[1..] == a[1..] + b;
      FirstErrorAppend(a[1..], b, helpers, subexpressions, show);
    }
  }

  /** `visit` fails exactly at the first reached node whose own check fails. */
  lemma {:induction false} VisitFlat(n: Node, helpers: set<string>, subexpressions: set<string>, show: real -> string)
    ensures Visit(n, helpers, subexpressions, show) == FirstError(Reached(n), helpers, subexpressions, show)
    decreases n, 1
  {
    var h, s := helpers, subexpressions;
    FirstErrorAppend([n], [], h, s, show);
    match n
    case Program(body) =>
      VisitAllFlat(body, h, s, show);
      FirstErrorAppend([n], ReachedAll(body), h, s, show);
    case Mustache(_, params, hash, _) =>
      VisitAllFlat(params, h, s, show);
      VisitOptFlat(hash, h, s, show);
      FirstErrorAppend([n] + ReachedAll(params), ReachedOpt(hash), h, s, show);
      FirstErrorAppend([n], ReachedAll(params), h, s, show);
    case Block(_, params, hash, program, inverse) =>
      VisitAllFlat(params, h, s, show);
      VisitOptFlat(hash, h, s, show);
      VisitOptFlat(program, h, s, show);
      VisitOptFlat(inverse, h, s, show);
      var p0 := [n] + ReachedAll(params);
      var p1 := p0 + ReachedOpt(hash);
      var p2 := p1 + ReachedOpt(program);
      FirstErrorAppend(p2, ReachedOpt(inverse), h, s, show);
      FirstErrorAppend(p1, ReachedOpt(program), h, s, show);
      FirstErrorAppend(p0, ReachedOpt(hash), h, s, show);
      FirstErrorAppend([n], ReachedAll(params), h, s, show);
    case SubExpression(_, params, hash) =>
      VisitAllFlat(params, h, s, show);
      VisitOptFlat(hash, h, s, show);
      FirstErrorAppend([n] + ReachedAll(params), ReachedOpt(hash), h, s, show);
      FirstErrorAppend([n], ReachedAll(params), h, s, show);
    case Hash(pairs) =>
      VisitAllFlat(pairs, h, s, show);
      FirstErrorAppend([n], ReachedAll(pairs), h, s, show);
    case HashPair(_, value) =>
      VisitFlat(value, h, s, show);
      FirstErrorAppend([n], Reached(value), h, s, show);
    case _ =>
  }

  lemma {:induction false} VisitAllFlat(ns: seq<Node>, helpers: set<string>, subexpressions: set<string>, show: real -> string)
    ensures VisitAll(ns, helpers, subexpressions, show) == FirstError(ReachedAll(ns), helpers, subexpressions, show)
    decreases ns, 0
  {
    if ns != [] {
      VisitFlat(ns[0], helpers, subexpressions, show);
      VisitAllFlat(ns[1..], helpers, subexpressions, show);
      FirstErrorAppend(Reached(ns[0]), ReachedAll(ns[1..]), helpers, subexpressions, show);
    }
  }

  lemma {:induction false} VisitOptFlat(n: Option<Node>, helpers: set<string>, subexpressions: set<string>, show: real -> string)
    ensures VisitOpt(n, helpers, subexpressions, show) == FirstError(ReachedOpt(n), helpers, subexpressions, show)
    decreases n, 0
  {
    if n.Some? {
      VisitFlat(n.value, helpers, subexpressions, show);
    }
  }

  /** A template passes exactly when every node the visitor reaches passes
      its own check. */
  lemma {:induction false} ValidIffAllLocal(n: Node, helpers: set<string>, subexpressions: set<string>, show: real -> string)
    ensures Visit(n, helpers, subexpressions, show).Ok? <==>
      forall i :: 0 <= i < |Reached(n)| ==> Local(Reached(n)[i], helpers, subexpressions, show).Ok?
  {
    VisitFlat(n, helpers, subexpressions, show);
  }

  /** Partials and decorators are rejected whatever the allowed sets, and
      so are node types the visitor does not know. */
  lemma {:induction false} ForbiddenNodes(n: Node, helpers: set<string>, subexpressions: set<string>, show: real -> string)
    ensures n.Partial? || n.PartialBlock? || n.Decorator? ==>
      Visit(n, helpers, subexpressions, show) == Err("Disallowed Handlebars node type: " + TypeName(n))
    ensures n.Other? ==> Visit(n, helpers, subexpressions, show) == Err("Unhandled Handlebars node type: " + n.typeName)
  {
  }

  /** A reached partial, decorator or unknown node fails the whole
      template. */
  lemma {:induction false} ForbiddenAnywhere(root: Node, helpers: set<string>, subexpressions: set<string>, show: real -> string, i: nat)
    requires i < |Reached(root)|
    requires var m := Reached(root)[i]; m.Partial? || m.PartialBlock? || m.Decorator? || m.Other?
    ensures Visit(root, helpers, subexpressions, show).Err?
  {
    ValidIffAllLocal(root, helpers, subexpressions, show);
  }

  /** A path is rejected exactly when its original is truthy and one of its
      segments is blocked. */
  lemma {:induction false} SafePathSpec(original: string, parts: seq<string>)
    ensures var p := PathExpression(original, parts);
      AssertSafePath(p).Err? <==> original != "" && exists i :: 0 <= i < |PathParts(p)| && PathParts(p)[i] in BlockedSegments
  {
  }

  /** The checks at a node: a block always needs an allowed helper; a
      mustache with params or hash is a helper call, a plain one has its
      path checked; a subexpression in the allowed-subexpression set skips
      the helper check. */
  lemma {:induction false} LocalSpec(n: Node, helpers: set<string>, subexpressions: set<string>, show: real -> string)
    ensures n.Block? ==> (Local(n, helpers, subexpressions, show).Ok? <==> NamedIn(n.path, helpers))
    ensures n.Mustache? && (|n.params| > 0 || PairCount(n.hash) > 0) ==>
      (Local(n, helpers, subexpressions, show).Ok? <==> NamedIn(n.path, helpers))
    ensures n.Mustache? && |n.params| == 0 && PairCount(n.hash) == 0 ==>
      Local(n, helpers, subexpressions, show) == AssertSafePath(n.path)
    ensures n.SubExpression? ==>
      (Local(n, helpers, subexpressions, show).Ok? <==> NamedIn(n.path, subexpressions) || NamedIn(n.path, helpers))
  {
  }

  /** `{{constructor.name}}` is rejected even with no helpers allowed
      beyond the defaults. */
  lemma {:induction false} ConstructorPathRejected(parts: seq<string>, show: real -> string)
    requires parts == ["constructor", "name"]
    ensures Visit(PathExpression("constructor.name", parts), DefaultAllowedHelpers, DefaultAllowedSubexpressions, show)
      == Err("Disallowed Handlebars path segment: " + "constructor")
  {
    var p := PathExpression("constructor.name", parts);
    assert parts[0] in BlockedSegments;
    assert FirstBlocked(parts) == Some("constructor");
    assert HasOriginal(p) by { assert "constructor.name" != []; }
    assert PathParts(p) == parts;
  }

  /** Missing option sets fall back to the defaults; given ones replace
      them. */
  lemma {:induction false} OptionsSpec(template: string, options: Options, parse: string -> Result<Node, string>, show: real -> string)
    requires parse(template).Ok?
    ensures var ast := parse(template).value;
      ValidateTemplate(template, options, parse, show) ==
        Visit(ast,
              if options.allowedHelpers.None? then DefaultAllowedHelpers else options.allowedHelpers.value,
              if options.allowedSubexpressions.None? then DefaultAllowedSubexpressions else options.allowedSubexpressions.value,
              show)
  {
  }

  /** A number literal in a mustache's path: its original is the number, so
      `{{0.0}}` passes like any falsy original, any other number is truthy
      and has no `split`; with a param it is a helper call, refused under
      the number's text. */
  lemma {:induction false} NumberPathSpec(x: real, param: Node, helpers: set<string>, subexpressions: set<string>, show: real -> string)
    ensures Local(Mustache(NumberLiteral(x), [], None, true), helpers, subexpressions, show) ==
      if x == 0.0 then Ok(()) else Err(TypeError)
    ensures Local(Mustache(NumberLiteral(x), [param], None, true), helpers, subexpressions, show) ==
      Err("Disallowed Handlebars helper: " + show(x))
  {
  }
}

module TemplateGenerator {
  import opened Wrappers
  import opened Text
  import opened HandlebarsAst
  import opened Seqs

  const AllowedTemplateHelpers: set<string> := {"if", "each", "unless", "eq"}

  function PartialMessage(templateName: string): string {
    "Partials are not allowed (found in " + templateName + ")."
  }

  function UnescapedMessage(templateName: string): string {
    "Unescaped output is not allowed (found in " + templateName + ")."
  }

  function HelperMessage(helper: string, templateName: string): string {
    "Helper \"" + helper + "\" is not allowed in " + templateName + "."
  }

  /** `node.params.length > 0` with a truthy helper name outside the set. */
  function HelperViolation(path: Node, params: seq<Node>, templateName: string, show: real -> string): seq<string> {
    if |params| > 0 && HasOriginal(path) && !NamedIn(path, AllowedTemplateHelpers)
    then [HelperMessage(OriginalText(path, show), templateName)] else []
  }

  /** What `visit` pushes for the node itself. */
  function Local(n: Node, templateName: string, show: real -> string): seq<string> {
    match n
    case Partial(_, _, _) => [PartialMessage(templateName)]
    case PartialBlock(_, _, _, _) => [PartialMessage(templateName)]
    case Mustache(path, params, _, escaped) =>
      (if !escaped then [UnescapedMessage(templateName)] else []) + HelperViolation(path, params, templateName, show)
    case Block(path, params, _, _, _) => HelperViolation(path, params, templateName, show)
    case SubExpression(path, params, _) => HelperViolation(path, params, templateName, show)
    case _ => []
  }

  /** The child nodes under every key but `loc`, in key order, an array's
      elements in place of the array. */
  function Children(n: Node): (r: seq<Node>)
    ensures forall i :: 0 <= i < |r| ==> r[i] < n
  {
    match n
    case Program(body) => body
    case Mustache(path, params, hash, _) => [path] + params + Opt(hash)
    case Block(path, params, hash, program, inverse) => [path] + params + Opt(hash) + Opt(program) + Opt(inverse)
    case SubExpression(path, params, hash) => [path] + params + Opt(hash)
    case Hash(pairs) => pairs
    case HashPair(_, value) => [value]
    case Partial(name, params, hash) => [name] + params + Opt(hash)
    case PartialBlock(name, params, hash, program) => [name] + params + Opt(hash) + Opt(program)
    case Decorator(_, path, params, hash, program) => [path] + params + Opt(hash) + Opt(program)
    case Other(_, children) => children
    case _ => []
  }

  /** Every node of the tree in the order `visit` enters them: the node,
      then the walks of its children. */
  function AllNodes(n: Node): seq<Node>
    decreases n, 1, 0
  {
    [n] + ChildWalks(n, |Children(n)|)
  }

  /** The walks of the first k children of parent, one after another. */
  function ChildWalks(parent: Node, k: nat): seq<Node>
    requires k <= |Children(parent)|
    decreases parent, 0, k
  {
    if k == 0 then [] else ChildWalks(parent, k - 1) + AllNodes(Children(parent)[k - 1])
  }

  function LocalOf(templateName: string, show: real -> string): Node -> seq<string> {
    (n: Node) => Local(n, templateName, show)
  }

  /** The reference definition: every node's own violations, in walk order. */
  function LocalAll(ns: seq<Node>, templateName: string, show: real -> string): seq<string> {
    Flatten(LocalOf(templateName, show), ns)
  }

  /** The recursive walk of `assertTemplateSafe`, pushing onto the
      violations list. */
  method Collect(n: Node, templateName: string, show: real -> string, violations: seq<string>) returns (out: seq<string>)
    ensures out == violations + LocalAll(AllNodes(n), templateName, show)
    decreases n, 1, 0
  {
    out := violations + Local(n, templateName, show);
    out := CollectChildren(n, templateName, show, out);
    WalkShape(n, templateName, show);
  }

  /** The loop over the keys of `parent` and over the elements of its
      arrays. */
  method CollectChildren(parent: Node, templateName: string, show: real -> string, violations: seq<string>) returns (out: seq<string>)
    ensures out == violations + LocalAll(ChildWalks(parent, |Children(parent)|), templateName, show)
    decreases parent, 0, 0
  {
    var children := Children(parent);
    out := violations;
    for i := 0 to |children|
      invariant out == violations + LocalAll(ChildWalks(parent, i), templateName, show)
    {
      ghost var before := LocalAll(ChildWalks(parent, i), templateName, show);
      assert children[i] < parent;
      out := Collect(children[i], templateName, show, out);
      ChildWalkStep(parent, i, templateName, show);
      ConcatAssoc(violations, before, LocalAll(AllNodes(children[i]), templateName, show));
    }
  }

  /** One more child: its walk's violations follow. */
  lemma {:induction false} ChildWalkStep(parent: Node, i: nat, templateName: string, show: real -> string)
    requires i < |Children(parent)|
    ensures LocalAll(ChildWalks(parent, i + 1), templateName, show) ==
      LocalAll(ChildWalks(parent, i), templateName, show) + LocalAll(AllNodes(Children(parent)[i]), templateName, show)
  {
    FlattenAppend(LocalOf(templateName, show), ChildWalks(parent, i), AllNodes(Children(parent)[i]));
  }

  /** A node's violations come before those of its children. */
  lemma {:induction false} WalkShape(n: Node, templateName: string, show: real -> string)
    ensures LocalAll(AllNodes(n), templateName, show) == Local(n, templateName, show) + LocalAll(ChildWalks(n, |Children(n)|), templateName, show)
  {
    FlattenAppend(LocalOf(templateName, show), [n], ChildWalks(n, |Children(n)|));
    assert LocalAll([n], templateName, show) == Local(n, templateName, show) by {
      assert [n][..0] == [];
    }
  }

  /** The outcome of `assertTemplateSafe`: one error listing every
      violation, or a normal return. */
  function Verdict(violations: seq<string>): Result<(), string> {
    if violations == [] then Ok(()) else Err("Unsafe template content detected: " + Join(violations, " "))
  }

  function Violations(ast: Node, templateName: string, show: real -> string): seq<string> {
    LocalAll(AllNodes(ast), templateName, show)
  }

  predicate Safe(ast: Node, templateName: string, show: real -> string) {
    Violations(ast, templateName, show) == []
  }

  /** `assertTemplateSafe(templateContent, templateName)` on the parsed tree. */
  method AssertTemplateSafe(ast: Node, templateName: string, show: real -> string) returns (r: Result<(), string>)
    ensures r == Verdict(Violations(ast, templateName, show))
  {
    var violations := Collect(ast, templateName, show, []);
    assert violations == Violations(ast, templateName, show);
    if |violations| > 0 {
      return Err("Unsafe template content detected: " + Join(violations, " "));
    }
    return Ok(());
  }

  /** A partial, an unescaped mustache or a disallowed helper anywhere in
      the tree is reported, and so the template is refused. */
  lemma {:induction false} ViolationsReported(ast: Node, templateName: string, show: real -> string, i: nat)
    requires i < |AllNodes(ast)|
    ensures var m := AllNodes(ast)[i];
      ((m.Partial? || m.PartialBlock?) ==> PartialMessage(templateName) in Violations(ast, templateName, show))
      && ((m.Mustache? && !m.escaped) ==> UnescapedMessage(templateName) in Violations(ast, templateName, show))
      && ((m.Mustache? || m.Block? || m.SubExpression?) && |m.params| > 0 && HasOriginal(m.path)
          && !NamedIn(m.path, AllowedTemplateHelpers) ==>
            HelperMessage(OriginalText(m.path, show), templateName) in Violations(ast, templateName, show))
  {
    var m := AllNodes(ast)[i];
    if m.Partial? || m.PartialBlock? {
      FlattenHas(LocalOf(templateName, show), AllNodes(ast), i, PartialMessage(templateName));
    }
    if m.Mustache? && !m.escaped {
      FlattenHas(LocalOf(templateName, show), AllNodes(ast), i, UnescapedMessage(templateName));
    }
    if (m.Mustache? || m.Block? || m.SubExpression?) && |m.params| > 0 && HasOriginal(m.path)
       && !NamedIn(m.path, AllowedTemplateHelpers) {
      assert HelperMessage(OriginalText(m.path, show), templateName) in Local(m, templateName, show);
      FlattenHas(LocalOf(templateName, show), AllNodes(ast), i, HelperMessage(OriginalText(m.path, show), templateName));
    }
  }

  /** A helper call whose path is a number literal: the number 0 is a falsy
      original and is let through, any other number is reported under its
      text. */
  lemma {:induction false} NumberHelperSpec(x: real, params: seq<Node>, templateName: string, show: real -> string)
    requires |params| > 0
    ensures HelperViolation(NumberLiteral(x), params, templateName, show) ==
      if x == 0.0 then [] else [HelperMessage(show(x), templateName)]
  {
  }

  /** A template is accepted exactly when nothing was collected. */
  lemma {:induction false} VerdictSpec(violations: seq<string>)
    ensures Verdict(violations).Ok? <==> violations == []
    ensures violations != [] ==> Verdict(violations).error == "Unsafe template content detected: " + Join(violations, " ")
  {
  }

  /** `handlebars.compile(content, ...)` with the fixed options. */
  datatype Template = Compiled(source: string)

  /** The module-level `templateCache`. Reading the file, the directory it
      lives in, parsing and the runtime's number-to-string are given at
      construction. */
  class TemplateCache {
    var cache: map<string, Template>
    const read: string -> Result<string, string>
    const parse: string -> Result<Node, string>
    const show: real -> string

    /** A cached template's source parsed and passed the check under its
        own name. */
    predicate Valid()
      reads this
    {
      forall name :: name in cache ==>
        var ast := parse(cache[name].source); ast.Ok? && Safe(ast.value, name, show)
    }

    constructor (read: string -> Result<string, string>, parse: string -> Result<Node, string>, show: real -> string)
      ensures cache == map[] && this.read == read && this.parse == parse && this.show == show
      ensures Valid()
    {
      cache := map[];
      this.read := read;
      this.parse := parse;
      this.show := show;
    }

    /** `getTemplate(templateName)` */
    method GetTemplate(name: string) returns (r: Result<Template, string>)
      requires Valid()
      modifies this
      ensures Valid()
      ensures name in old(cache) ==> r == Ok(old(cache)[name]) && cache == old(cache)
      ensures name !in old(cache) ==>
        match read(name + ".hbs")
        case Err(e) => r == Err(e) && cache == old(cache)
        case Ok(content) =>
          match parse(content)
          case Err(e) => r == Err(e) && cache == old(cache)
          case Ok(ast) =>
            if Safe(ast, name, show) then r == Ok(Compiled(content)) && cache == old(cache)[name := Compiled(content)]
            else r == Err(Verdict(Violations(ast, name, show)).error) && cache == old(cache)
    {
      if name in cache {
        return Ok(cache[name]);
      }
      var content := read(name + ".hbs");
      if content.Err? {
        return Err(content.error);
      }
      var ast := parse(content.value);
      if ast.Err? {
        return Err(ast.error);
      }
      var check := AssertTemplateSafe(ast.value, name, show);
      if check.Err? {
        return Err(check.error);
      }
      var compiled := Compiled(content.value);
      cache := cache[name := compiled];
      return Ok(compiled);
    }
  }
}
