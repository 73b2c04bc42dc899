/** What a JSON Schema accepts: an evaluator over the applicators that compaction walks
    through (JSON Schema Core 2020-12, sections 8.2.1, 8.2.3.1, 10 and 11, with the draft-07
    keywords `dependencies` and array `items`), in which `description` plays no part. */
module Meaning {
  import opened Wrappers
  import opened Json
  import opened Schema

  /** The result of one schema on one instance: whether it accepts, and which properties and
      items it has evaluated when it does. */
  datatype Verdict = Verdict(ok: bool, props: set<string>, items: set<nat>)

  const FAIL := Verdict(false, {}, {})
  const PASS := Verdict(true, {}, {})

  /** What the evaluator does not define itself: the value of a number's text, equality of
      values, regular expressions, how an identifier changes the base (`rebase`), where a
      reference against a base points and which base holds there (`target`), whether minContains
      and maxContains admit a number of matches (`counts`), and every other keyword that takes
      no schema.  All of them are arbitrary. */
  datatype Dialect = Dialect(
    number: string -> real,
    integral: string -> bool,
    same: (Json, Json) -> bool,
    matches: (string, string) -> bool,
    rebase: (string, string) -> string,
    target: (string, string) -> Option<(seq<Token>, string)>,
    counts: (map<string, Json>, nat) -> bool,
    others: (map<string, Json>, Json) -> bool)

  /** The dialect, the root schema that references start from, and the base they are read
      against. */
  datatype Context = Context(dialect: Dialect, root: Json, base: string)

  // --- reading keywords -----------------------------------------------------------------------

  function SchemaOf(f: map<string, Json>, key: string): Option<Json> {
    if key in f && !f[key].Arr? then Some(f[key]) else None
  }

  function ListOf(f: map<string, Json>, key: string): seq<Json> {
    if key in f && f[key].Arr? then f[key].items else []
  }

  function MapOf(f: map<string, Json>, key: string): map<string, Json> {
    if key in f && f[key].Obj? then f[key].fields else map[]
  }

  function PropsOf(v: Json): map<string, Json> {
    if v.Obj? then v.fields else map[]
  }

  function ItemsOf(v: Json): seq<Json> {
    if v.Arr? then v.items else []
  }

  /** What a reference to a place in the schema `j` finds.  A path may lead through
      schema-valued keywords to a subschema, or through any other keyword to whatever is there.
      An object of named schemas, an array of schemas and a description are not schemas. */
  function Resolve(j: Json, path: seq<Token>): Option<Json>
    decreases |path|
  {
    if path == [] then Some(j)
    else if !j.Obj? || !path[0].Name? || path[0].name !in j.fields then None
    else
      var k, v := path[0].name, j.fields[path[0].name];
      if k in MAP_KEYWORDS && v.Obj? then
        if |path| > 1 && path[1].Name? && path[1].name in v.fields then Resolve(v.fields[path[1].name], path[2..])
        else None
      else if k in SCHEMA_KEYWORDS && v.Arr? then
        if |path| > 1 && path[1].Index? && path[1].i < |v.items| then Resolve(v.items[path[1].i], path[2..])
        else None
      else if k in SCHEMA_KEYWORDS then Resolve(v, path[1..])
      else if k == DESCRIPTION && v.Str? then None
      else Get(v, path[1..])
  }

  /** The path leads through schema-valued keywords only. */
  predicate Walked(j: Json, path: seq<Token>)
    decreases |path|
  {
    path == [] ||
    (&& j.Obj? && path[0].Name? && path[0].name in j.fields
     && var k, v := path[0].name, j.fields[path[0].name];
     if k in MAP_KEYWORDS && v.Obj? then
       |path| > 1 && path[1].Name? && path[1].name in v.fields && Walked(v.fields[path[1].name], path[2..])
     else if k in SCHEMA_KEYWORDS && v.Arr? then
       |path| > 1 && path[1].Index? && path[1].i < |v.items| && Walked(v.items[path[1].i], path[2..])
     else k in SCHEMA_KEYWORDS && Walked(v, path[1..]))
  }

  // --- combining verdicts ---------------------------------------------------------------------

  function Both(a: Verdict, b: Verdict): Verdict {
    if a.ok && b.ok then Verdict(true, a.props + b.props, a.items + b.items) else FAIL
  }

  function AllOf(vs: seq<Verdict>): Verdict {
    if vs == [] then PASS else Both(vs[0], AllOf(vs[1..]))
  }

  /** The verdicts that accept. */
  function Accepting(vs: seq<Verdict>): seq<Verdict> {
    if vs == [] then [] else (if vs[0].ok then [vs[0]] else []) + Accepting(vs[1..])
  }

  function AnyOf(vs: seq<Verdict>): Verdict {
    if Accepting(vs) == [] then FAIL else AllOf(Accepting(vs))
  }

  function OneOf(vs: seq<Verdict>): Verdict {
    if |Accepting(vs)| == 1 then Accepting(vs)[0] else FAIL
  }

  /** Verdicts on parts of the instance: all must accept, and `done` is what was evaluated. */
  predicate EveryOk<K(!new)>(vs: map<K, Verdict>) {
    forall k :: k in vs ==> vs[k].ok
  }

  function Covering(ok: bool, props: set<string>, items: set<nat>): Verdict {
    if ok then Verdict(true, props, items) else FAIL
  }

  // --- assertions -----------------------------------------------------------------------------

  predicate TypeIs(d: Dialect, name: Json, v: Json) {
    name.Str? && match v
      case Null => name.s == "null"
      case Bool(_) => name.s == "boolean"
      case Num(text) => name.s == "number" || (name.s == "integer" && d.integral(text))
      case Str(_) => name.s == "string"
      case Arr(_) => name.s == "array"
      case Obj(_) => name.s == "object"
  }

  predicate TypeOk(d: Dialect, f: map<string, Json>, v: Json) {
    "type" in f ==>
      if f["type"].Arr? then exists t :: t in f["type"].items && TypeIs(d, t, v) else TypeIs(d, f["type"], v)
  }

  predicate Names(required: Json, v: Json) {
    required.Arr? && v.Obj? ==> forall r :: r in required.items && r.Str? ==> r.s in v.fields
  }

  predicate Compares(d: Dialect, f: map<string, Json>, key: string, v: Json, test: (real, real) -> bool) {
    key in f && f[key].Num? && v.Num? ==> test(d.number(v.text), d.number(f[key].text))
  }

  /** Everything that is neither a description nor holds a schema: what the keywords this evaluator
      does not define may depend on.  The keywords it does define read the schema object itself. */
  function Plain(f: map<string, Json>): map<string, Json> {
    map k | k in f && k != DESCRIPTION && k !in MAP_KEYWORDS && k !in SCHEMA_KEYWORDS :: f[k]
  }

  predicate Assertions(d: Dialect, f: map<string, Json>, v: Json) {
    && TypeOk(d, f, v)
    && ("const" in f ==> d.same(f["const"], v))
    && ("enum" in f && f["enum"].Arr? ==> exists e :: e in f["enum"].items && d.same(e, v))
    && ("required" in f ==> Names(f["required"], v))
    && Compares(d, f, "minimum", v, (x: real, y: real) => x >= y)
    && Compares(d, f, "maximum", v, (x: real, y: real) => x <= y)
    && Compares(d, f, "exclusiveMinimum", v, (x: real, y: real) => x > y)
    && Compares(d, f, "exclusiveMaximum", v, (x: real, y: real) => x < y)
    && d.others(Plain(f), v)
  }

  // --- the evaluator --------------------------------------------------------------------------

  /** `$id` changes the base for the schema that has it. */
  function Rebased(c: Context, f: map<string, Json>): Context {
    if "$id" in f && f["$id"].Str? then c.(base := c.dialect.rebase(c.base, f["$id"].s)) else c
  }

  /** `n` bounds the nesting of schemas and references. */
  function Eval(c: Context, s: Json, v: Json, n: nat): Verdict
    decreases n, 2
  {
    match s
    case Bool(b) => if b then PASS else FAIL
    case Obj(f) => if n == 0 then PASS else EvalObject(Rebased(c, f), f, v, n - 1)
    case _ => PASS
  }

  function Each(c: Context, ss: seq<Json>, v: Json, n: nat): (vs: seq<Verdict>)
    ensures |vs| == |ss|
    decreases n, 3
  {
    seq(|ss|, i requires 0 <= i < |ss| => Eval(c, ss[i], v, n))
  }

  function Optional(c: Context, s: Option<Json>, v: Json, n: nat): Verdict
    decreases n, 3
  {
    if s.Some? then Eval(c, s.value, v, n) else PASS
  }

  /** Schemas by name, each for the property of that name. */
  function ByName(c: Context, ss: map<string, Json>, props: map<string, Json>, n: nat): map<string, Verdict>
    decreases n, 3
  {
    map k | k in ss && k in props :: Eval(c, ss[k], props[k], n)
  }

  /** One schema for several properties. */
  function OnProps(c: Context, s: Json, props: map<string, Json>, names: set<string>, n: nat): map<string, Verdict>
    decreases n, 3
  {
    map k | k in props && k in names :: Eval(c, s, props[k], n)
  }

  function Matched(c: Context, pattern: string, props: map<string, Json>): set<string> {
    set k | k in props && c.dialect.matches(pattern, k)
  }

  /** Schemas by pattern, each for every property whose name matches. */
  function ByPattern(c: Context, ss: map<string, Json>, props: map<string, Json>, n: nat)
      : map<string, map<string, Verdict>>
    decreases n, 4
  {
    map p | p in ss :: OnProps(c, ss[p], props, Matched(c, p, props), n)
  }

  function AllMatched(c: Context, patterns: set<string>, props: map<string, Json>): set<string> {
    set p, k | p in patterns && k in props && c.dialect.matches(p, k) :: k
  }

  /** One schema for the items from `from` on, except those in `skip`. */
  function OnItems(c: Context, s: Json, items: seq<Json>, from: nat, skip: set<nat>, n: nat): map<nat, Verdict>
    decreases n, 3
  {
    map i: nat | from <= i < |items| && i !in skip :: Eval(c, s, items[i], n)
  }

  /** The schema of a keyword, if it is there, for the properties in `names`. */
  function KeywordOnProps(c: Context, f: map<string, Json>, key: string, props: map<string, Json>, names: set<string>,
                          n: nat): map<string, Verdict>
    decreases n, 4
  {
    match SchemaOf(f, key)
    case Some(s) => OnProps(c, s, props, names, n)
    case None => map[]
  }

  function KeywordOnItems(c: Context, f: map<string, Json>, key: string, items: seq<Json>, from: nat, skip: set<nat>,
                          n: nat): map<nat, Verdict>
    decreases n, 4
  {
    match SchemaOf(f, key)
    case Some(s) => OnItems(c, s, items, from, skip, n)
    case None => map[]
  }

  /** properties, patternProperties and additionalProperties. */
  function Properties(c: Context, f: map<string, Json>, v: Json, n: nat): Verdict
    decreases n, 5
  {
    var props := PropsOf(v);
    var named := ByName(c, MapOf(f, "properties"), props, n);
    var patterned := ByPattern(c, MapOf(f, "patternProperties"), props, n);
    var matched := AllMatched(c, MapOf(f, "patternProperties").Keys, props);
    var rest := KeywordOnProps(c, f, "additionalProperties", props, props.Keys - named.Keys - matched, n);
    Covered(named, patterned, matched, rest)
  }

  function Covered(named: map<string, Verdict>, patterned: map<string, map<string, Verdict>>, matched: set<string>,
                   rest: map<string, Verdict>): Verdict {
    Covering(EveryOk(named) && (forall p :: p in patterned ==> EveryOk(patterned[p])) && EveryOk(rest),
             named.Keys + matched + rest.Keys, {})
  }

  /** prefixItems, then items for what it leaves; or items as an array. */
  function Items(c: Context, f: map<string, Json>, v: Json, n: nat): Verdict
    decreases n, 5
  {
    var prefix := Tuple(c, ListOf(f, "prefixItems") + ListOf(f, "items"), ItemsOf(v), n);
    var rest := KeywordOnItems(c, f, "items", ItemsOf(v), |ListOf(f, "prefixItems")|, {}, n);
    Covering(EveryOk(prefix) && EveryOk(rest), {}, prefix.Keys + rest.Keys)
  }

  function Tuple(c: Context, ss: seq<Json>, items: seq<Json>, n: nat): map<nat, Verdict>
    decreases n, 3
  {
    map i: nat | i < |ss| && i < |items| :: Eval(c, ss[i], items[i], n)
  }

  function Contains(c: Context, f: map<string, Json>, v: Json, n: nat): Verdict
    decreases n, 5
  {
    var on := KeywordOnItems(c, f, "contains", ItemsOf(v), 0, {}, n);
    var found := set i | i in on && on[i].ok;
    Covering(SchemaOf(f, "contains").Some? && v.Arr? ==> c.dialect.counts(Plain(f), |found|), {}, found)
  }

  function PropertyNames(c: Context, f: map<string, Json>, v: Json, n: nat): Verdict
    decreases n, 5
  {
    var names := map k | k in PropsOf(v) :: Str(k);
    Covering(EveryOk(KeywordOnProps(c, f, "propertyNames", names, PropsOf(v).Keys, n)), {}, {})
  }

  function Conditional(c: Context, f: map<string, Json>, v: Json, n: nat): Verdict
    decreases n, 4
  {
    match SchemaOf(f, "if")
    case None => PASS
    case Some(s) =>
      var test := Eval(c, s, v, n);
      if test.ok then Both(test, Optional(c, SchemaOf(f, "then"), v, n)) else Optional(c, SchemaOf(f, "else"), v, n)
  }

  function Not(c: Context, f: map<string, Json>, v: Json, n: nat): Verdict
    decreases n, 4
  {
    match SchemaOf(f, "not")
    case None => PASS
    case Some(s) => if Eval(c, s, v, n).ok then FAIL else PASS
  }

  /** dependentSchemas, and dependencies whose value is a schema or a list of names. */
  function Dependent(c: Context, ss: map<string, Json>, v: Json, n: nat): map<string, Verdict>
    decreases n, 3
  {
    map k | k in ss && k in PropsOf(v) ::
      if ss[k].Arr? then (if Names(ss[k], v) then PASS else FAIL) else Eval(c, ss[k], v, n)
  }

  /** All of them must accept, and what any of them evaluated is evaluated. */
  function Merged(vs: map<string, Verdict>): Verdict {
    Covering(EveryOk(vs), set k, p | k in vs && p in vs[k].props :: p, set k, i | k in vs && i in vs[k].items :: i)
  }

  function Reference(c: Context, f: map<string, Json>, v: Json, n: nat): Verdict
    decreases n, 4
  {
    if "$ref" !in f || !f["$ref"].Str? then PASS
    else match c.dialect.target(c.base, f["$ref"].s)
      case None => FAIL
      case Some((path, base)) =>
        var s := Resolve(c.root, path);
        if s.Some? then Eval(c.(base := base), s.value, v, n) else FAIL
  }

  function InPlace(c: Context, f: map<string, Json>, v: Json, n: nat): Verdict
    decreases n, 6
  {
    AllOf([Reference(c, f, v, n), AllOf(Each(c, ListOf(f, "allOf"), v, n)),
           if ListOf(f, "anyOf") == [] then PASS else AnyOf(Each(c, ListOf(f, "anyOf"), v, n)),
           if ListOf(f, "oneOf") == [] then PASS else OneOf(Each(c, ListOf(f, "oneOf"), v, n)),
           Not(c, f, v, n), Conditional(c, f, v, n),
           Merged(Dependent(c, MapOf(f, "dependentSchemas"), v, n)),
           Merged(Dependent(c, MapOf(f, "dependencies"), v, n))])
  }

  function Children(c: Context, f: map<string, Json>, v: Json, n: nat): Verdict
    decreases n, 6
  {
    AllOf([Properties(c, f, v, n), Items(c, f, v, n), Contains(c, f, v, n), PropertyNames(c, f, v, n)])
  }

  /** unevaluatedProperties and unevaluatedItems see what the other keywords have evaluated. */
  function Unevaluated(c: Context, f: map<string, Json>, v: Json, seen: Verdict, n: nat): Verdict
    decreases n, 5
  {
    var props := KeywordOnProps(c, f, "unevaluatedProperties", PropsOf(v), PropsOf(v).Keys - seen.props, n);
    var items := KeywordOnItems(c, f, "unevaluatedItems", ItemsOf(v), 0, seen.items, n);
    Covering(EveryOk(props) && EveryOk(items), props.Keys, items.Keys)
  }

  function EvalObject(c: Context, f: map<string, Json>, v: Json, n: nat): Verdict
    decreases n, 7
  {
    if !Assertions(c.dialect, f, v) then FAIL
    else
      var seen := Both(InPlace(c, f, v, n), Children(c, f, v, n));
      Both(seen, Unevaluated(c, f, v, seen, n))
  }
}
