/** Compaction keeps the meaning of a schema: the evaluator gives the same verdict on every
    instance, at every depth, whatever the dialect. */
module MeaningKept {
  import opened Wrappers
  import opened Json
  import opened Schema
  import opened Meaning

  /** A schema as it is, or compacted: references can reach both kinds. */
  function View(m: bool, s: Json, limit: nat): Json
    requires limit >= |SUFFIX|
  {
    if m then Compact(s, limit) else s
  }

  function ViewAll(m: bool, ss: seq<Json>, limit: nat): (rs: seq<Json>)
    requires limit >= |SUFFIX|
    ensures |rs| == |ss|
  {
    seq(|ss|, i requires 0 <= i < |ss| => View(m, ss[i], limit))
  }

  function ViewEach(m: bool, ss: map<string, Json>, limit: nat): map<string, Json>
    requires limit >= |SUFFIX|
  {
    map k | k in ss :: View(m, ss[k], limit)
  }

  function ViewSome(m: bool, s: Option<Json>, limit: nat): Option<Json>
    requires limit >= |SUFFIX|
  {
    if s.Some? then Some(View(m, s.value, limit)) else None
  }

  function ViewFields(m: bool, f: map<string, Json>, limit: nat): map<string, Json>
    requires limit >= |SUFFIX|
  {
    if m then map k | k in f :: CompactField(k, f[k], limit) else f
  }

  function CompactRoot(c: Context, limit: nat): Context
    requires limit >= |SUFFIX|
  {
    c.(root := Compact(c.root, limit))
  }

  // --- keywords of a viewed schema ---------------------------------------------------------

  lemma SchemaOfView(m: bool, f: map<string, Json>, limit: nat, key: string)
    requires limit >= |SUFFIX| && key in SCHEMA_KEYWORDS
    ensures SchemaOf(ViewFields(m, f, limit), key) == ViewSome(m, SchemaOf(f, key), limit)
  {
    KeywordsApart();
  }

  lemma ListOfView(m: bool, f: map<string, Json>, limit: nat, key: string)
    requires limit >= |SUFFIX| && key in SCHEMA_KEYWORDS
    ensures ListOf(ViewFields(m, f, limit), key) == ViewAll(m, ListOf(f, key), limit)
  {
    KeywordsApart();
    var list := ListOf(f, key);
    if !m {
      assert ViewAll(m, list, limit) == list;
    } else if key in f && f[key].Arr? {
      assert CompactField(key, f[key], limit).items == ViewAll(m, f[key].items, limit);
    } else {
      assert key in f ==> !CompactField(key, f[key], limit).Arr?;
      assert ViewAll(m, [], limit) == [];
    }
  }

  lemma MapOfView(m: bool, f: map<string, Json>, limit: nat, key: string)
    requires limit >= |SUFFIX| && key in MAP_KEYWORDS
    ensures MapOf(ViewFields(m, f, limit), key) == ViewEach(m, MapOf(f, key), limit)
  {
    KeywordsApart();
  }

  lemma PlainView(m: bool, f: map<string, Json>, limit: nat)
    requires limit >= |SUFFIX|
    ensures Plain(ViewFields(m, f, limit)) == Plain(f)
  {
  }

  /** The keywords whose value is a literal, and the bounds, are read from the compacted object as
      they were. */
  lemma LiteralView(m: bool, f: map<string, Json>, limit: nat, key: string)
    requires limit >= |SUFFIX|
    requires key in {"type", "const", "enum", "required", "$ref", "$id",
                     "minimum", "maximum", "exclusiveMinimum", "exclusiveMaximum"}
    ensures key in ViewFields(m, f, limit) <==> key in f
    ensures key in f ==> ViewFields(m, f, limit)[key] == f[key]
  {
    LiteralsApart(key);
  }

  lemma AssertionsView(d: Dialect, m: bool, f: map<string, Json>, limit: nat, v: Json)
    requires limit >= |SUFFIX|
    ensures Assertions(d, ViewFields(m, f, limit), v) <==> Assertions(d, f, v)
  {
    PlainView(m, f, limit);
    LiteralView(m, f, limit, "type");
    LiteralView(m, f, limit, "const");
    LiteralView(m, f, limit, "enum");
    LiteralView(m, f, limit, "required");
    LiteralView(m, f, limit, "minimum");
    LiteralView(m, f, limit, "maximum");
    LiteralView(m, f, limit, "exclusiveMinimum");
    LiteralView(m, f, limit, "exclusiveMaximum");
  }

  /** A reference finds the compacted form of a subschema, and the same text elsewhere. */
  lemma {:induction false} ResolveCompact(j: Json, limit: nat, path: seq<Token>)
    requires limit >= |SUFFIX|
    ensures Resolve(Compact(j, limit), path) == ViewSome(Walked(j, path), Resolve(j, path), limit)
    decreases |path|
  {
    if path != [] && j.Obj? && path[0].Name? && path[0].name in j.fields {
      var k, v := path[0].name, j.fields[path[0].name];
      if k in MAP_KEYWORDS && v.Obj? {
        if |path| > 1 && path[1].Name? && path[1].name in v.fields {
          ResolveCompact(v.fields[path[1].name], limit, path[2..]);
        }
      } else if k in SCHEMA_KEYWORDS && v.Arr? {
        if |path| > 1 && path[1].Index? && path[1].i < |v.items| {
          ResolveCompact(v.items[path[1].i], limit, path[2..]);
        }
      } else if k in SCHEMA_KEYWORDS {
        ResolveCompact(v, limit, path[1..]);
      }
    }
  }

  // --- one keyword at a time ------------------------------------------------------------------

  /** The induction hypothesis: verdicts agree for nesting up to `n`. */
  ghost predicate Agree(c: Context, limit: nat, n: nat)
    requires limit >= |SUFFIX|
  {
    forall m: bool, s, v :: Eval(CompactRoot(c, limit), View(m, s, limit), v, n) == Eval(c, s, v, n)
  }

  /** The same, whatever base references are read against. */
  ghost predicate AgreeOnBases(c: Context, limit: nat, n: nat)
    requires limit >= |SUFFIX|
  {
    forall base :: Agree(c.(base := base), limit, n)
  }

  lemma AgreeHere(c: Context, limit: nat, n: nat)
    requires limit >= |SUFFIX| && AgreeOnBases(c, limit, n)
    ensures Agree(c, limit, n)
  {
    assert c == c.(base := c.base);
  }

  lemma EachAgrees(c: Context, limit: nat, m: bool, ss: seq<Json>, v: Json, n: nat)
    requires limit >= |SUFFIX| && Agree(c, limit, n)
    ensures Each(CompactRoot(c, limit), ViewAll(m, ss, limit), v, n) == Each(c, ss, v, n)
  {
    var a, b := Each(CompactRoot(c, limit), ViewAll(m, ss, limit), v, n), Each(c, ss, v, n);
    forall i | 0 <= i < |ss|
      ensures a[i] == b[i]
    {
      assert a[i] == Eval(CompactRoot(c, limit), View(m, ss[i], limit), v, n);
    }
  }

  lemma TupleAgrees(c: Context, limit: nat, m: bool, ss: seq<Json>, items: seq<Json>, n: nat)
    requires limit >= |SUFFIX| && Agree(c, limit, n)
    ensures Tuple(CompactRoot(c, limit), ViewAll(m, ss, limit), items, n) == Tuple(c, ss, items, n)
  {
  }

  lemma ByNameAgrees(c: Context, limit: nat, m: bool, ss: map<string, Json>, props: map<string, Json>, n: nat)
    requires limit >= |SUFFIX| && Agree(c, limit, n)
    ensures ByName(CompactRoot(c, limit), ViewEach(m, ss, limit), props, n) == ByName(c, ss, props, n)
  {
  }

  lemma OnPropsAgrees(c: Context, limit: nat, m: bool, s: Json, props: map<string, Json>, names: set<string>, n: nat)
    requires limit >= |SUFFIX| && Agree(c, limit, n)
    ensures OnProps(CompactRoot(c, limit), View(m, s, limit), props, names, n) == OnProps(c, s, props, names, n)
  {
  }

  lemma OnItemsAgrees(c: Context, limit: nat, m: bool, s: Json, items: seq<Json>, from: nat, skip: set<nat>, n: nat)
    requires limit >= |SUFFIX| && Agree(c, limit, n)
    ensures OnItems(CompactRoot(c, limit), View(m, s, limit), items, from, skip, n)
         == OnItems(c, s, items, from, skip, n)
  {
  }

  lemma ByPatternAgrees(c: Context, limit: nat, m: bool, ss: map<string, Json>, props: map<string, Json>, n: nat)
    requires limit >= |SUFFIX| && Agree(c, limit, n)
    ensures ByPattern(CompactRoot(c, limit), ViewEach(m, ss, limit), props, n) == ByPattern(c, ss, props, n)
  {
    var a := ByPattern(CompactRoot(c, limit), ViewEach(m, ss, limit), props, n);
    var b := ByPattern(c, ss, props, n);
    forall p | p in ss
      ensures a[p] == b[p]
    {
      assert Matched(CompactRoot(c, limit), p, props) == Matched(c, p, props);
      OnPropsAgrees(c, limit, m, ss[p], props, Matched(c, p, props), n);
    }
    assert a.Keys == b.Keys;
  }

  lemma DependentAgrees(c: Context, limit: nat, m: bool, ss: map<string, Json>, v: Json, n: nat)
    requires limit >= |SUFFIX| && Agree(c, limit, n)
    ensures Dependent(CompactRoot(c, limit), ViewEach(m, ss, limit), v, n) == Dependent(c, ss, v, n)
  {
  }

  lemma KeywordOnPropsAgrees(
    c: Context, limit: nat, m: bool, f: map<string, Json>, key: string, props: map<string, Json>, names: set<string>,
    n: nat)
    requires limit >= |SUFFIX| && Agree(c, limit, n) && key in SCHEMA_KEYWORDS
    ensures KeywordOnProps(CompactRoot(c, limit), ViewFields(m, f, limit), key, props, names, n)
         == KeywordOnProps(c, f, key, props, names, n)
  {
    SchemaOfView(m, f, limit, key);
    if SchemaOf(f, key).Some? {
      OnPropsAgrees(c, limit, m, SchemaOf(f, key).value, props, names, n);
    }
  }

  lemma KeywordOnItemsAgrees(
    c: Context, limit: nat, m: bool, f: map<string, Json>, key: string, items: seq<Json>, from: nat, skip: set<nat>,
    n: nat)
    requires limit >= |SUFFIX| && Agree(c, limit, n) && key in SCHEMA_KEYWORDS
    ensures KeywordOnItems(CompactRoot(c, limit), ViewFields(m, f, limit), key, items, from, skip, n)
         == KeywordOnItems(c, f, key, items, from, skip, n)
  {
    SchemaOfView(m, f, limit, key);
    if SchemaOf(f, key).Some? {
      OnItemsAgrees(c, limit, m, SchemaOf(f, key).value, items, from, skip, n);
    }
  }

  lemma PropertiesAgrees(c: Context, limit: nat, m: bool, f: map<string, Json>, v: Json, n: nat)
    requires limit >= |SUFFIX| && Agree(c, limit, n)
    ensures Properties(CompactRoot(c, limit), ViewFields(m, f, limit), v, n) == Properties(c, f, v, n)
  {
    MapOfView(m, f, limit, "properties");
    MapOfView(m, f, limit, "patternProperties");
    var props, patterns := PropsOf(v), MapOf(f, "patternProperties");
    ByNameAgrees(c, limit, m, MapOf(f, "properties"), props, n);
    ByPatternAgrees(c, limit, m, patterns, props, n);
    var matched := AllMatched(c, patterns.Keys, props);
    assert ViewEach(m, patterns, limit).Keys == patterns.Keys;
    assert AllMatched(CompactRoot(c, limit), patterns.Keys, props) == matched;
    KeywordOnPropsAgrees(c, limit, m, f, "additionalProperties", props,
                         props.Keys - ByName(c, MapOf(f, "properties"), props, n).Keys - matched, n);
  }

  lemma ItemsAgrees(c: Context, limit: nat, m: bool, f: map<string, Json>, v: Json, n: nat)
    requires limit >= |SUFFIX| && Agree(c, limit, n)
    ensures Items(CompactRoot(c, limit), ViewFields(m, f, limit), v, n) == Items(c, f, v, n)
  {
    var prefix, items := ListOf(f, "prefixItems"), ListOf(f, "items");
    ListOfView(m, f, limit, "prefixItems");
    ListOfView(m, f, limit, "items");
    ViewAllAppends(m, prefix, items, limit);
    TupleAgrees(c, limit, m, prefix + items, ItemsOf(v), n);
    KeywordOnItemsAgrees(c, limit, m, f, "items", ItemsOf(v), |prefix|, {}, n);
  }

  lemma ViewAllAppends(m: bool, a: seq<Json>, b: seq<Json>, limit: nat)
    requires limit >= |SUFFIX|
    ensures ViewAll(m, a + b, limit) == ViewAll(m, a, limit) + ViewAll(m, b, limit)
  {
  }

  lemma ContainsAgrees(c: Context, limit: nat, m: bool, f: map<string, Json>, v: Json, n: nat)
    requires limit >= |SUFFIX| && Agree(c, limit, n)
    ensures Contains(CompactRoot(c, limit), ViewFields(m, f, limit), v, n) == Contains(c, f, v, n)
  {
    SchemaOfView(m, f, limit, "contains");
    PlainView(m, f, limit);
    KeywordOnItemsAgrees(c, limit, m, f, "contains", ItemsOf(v), 0, {}, n);
  }

  lemma PropertyNamesAgrees(c: Context, limit: nat, m: bool, f: map<string, Json>, v: Json, n: nat)
    requires limit >= |SUFFIX| && Agree(c, limit, n)
    ensures PropertyNames(CompactRoot(c, limit), ViewFields(m, f, limit), v, n) == PropertyNames(c, f, v, n)
  {
    KeywordOnPropsAgrees(c, limit, m, f, "propertyNames", map k | k in PropsOf(v) :: Str(k), PropsOf(v).Keys, n);
  }

  lemma OptionalAgrees(c: Context, limit: nat, m: bool, f: map<string, Json>, key: string, v: Json, n: nat)
    requires limit >= |SUFFIX| && Agree(c, limit, n) && key in SCHEMA_KEYWORDS
    ensures Optional(CompactRoot(c, limit), SchemaOf(ViewFields(m, f, limit), key), v, n)
         == Optional(c, SchemaOf(f, key), v, n)
  {
    SchemaOfView(m, f, limit, key);
  }

  lemma ConditionalAgrees(c: Context, limit: nat, m: bool, f: map<string, Json>, v: Json, n: nat)
    requires limit >= |SUFFIX| && Agree(c, limit, n)
    ensures Conditional(CompactRoot(c, limit), ViewFields(m, f, limit), v, n) == Conditional(c, f, v, n)
  {
    SchemaOfView(m, f, limit, "if");
    OptionalAgrees(c, limit, m, f, "then", v, n);
    OptionalAgrees(c, limit, m, f, "else", v, n);
  }

  lemma NotAgrees(c: Context, limit: nat, m: bool, f: map<string, Json>, v: Json, n: nat)
    requires limit >= |SUFFIX| && Agree(c, limit, n)
    ensures Not(CompactRoot(c, limit), ViewFields(m, f, limit), v, n) == Not(c, f, v, n)
  {
    SchemaOfView(m, f, limit, "not");
  }

  lemma ReferenceAgrees(c: Context, limit: nat, m: bool, f: map<string, Json>, v: Json, n: nat)
    requires limit >= |SUFFIX| && AgreeOnBases(c, limit, n)
    ensures Reference(CompactRoot(c, limit), ViewFields(m, f, limit), v, n) == Reference(c, f, v, n)
  {
    if "$ref" in f && f["$ref"].Str? && c.dialect.target(c.base, f["$ref"].s).Some? {
      var (path, base) := c.dialect.target(c.base, f["$ref"].s).value;
      assert Agree(c.(base := base), limit, n);
      TargetAgrees(c.(base := base), limit, path, v, n);
    }
  }

  lemma TargetAgrees(c: Context, limit: nat, path: seq<Token>, v: Json, n: nat)
    requires limit >= |SUFFIX| && Agree(c, limit, n)
    ensures var s, t := Resolve(c.root, path), Resolve(Compact(c.root, limit), path);
            && s.Some? == t.Some?
            && (s.Some? ==> Eval(CompactRoot(c, limit), t.value, v, n) == Eval(c, s.value, v, n))
  {
    ResolveCompact(c.root, limit, path);
  }

  lemma InPlaceAgrees(c: Context, limit: nat, m: bool, f: map<string, Json>, v: Json, n: nat)
    requires limit >= |SUFFIX| && Agree(c, limit, n) && AgreeOnBases(c, limit, n)
    ensures InPlace(CompactRoot(c, limit), ViewFields(m, f, limit), v, n) == InPlace(c, f, v, n)
  {
    ReferenceAgrees(c, limit, m, f, v, n);
    ListOfView(m, f, limit, "allOf");
    ListOfView(m, f, limit, "anyOf");
    ListOfView(m, f, limit, "oneOf");
    EachAgrees(c, limit, m, ListOf(f, "allOf"), v, n);
    EachAgrees(c, limit, m, ListOf(f, "anyOf"), v, n);
    EachAgrees(c, limit, m, ListOf(f, "oneOf"), v, n);
    NotAgrees(c, limit, m, f, v, n);
    ConditionalAgrees(c, limit, m, f, v, n);
    MapOfView(m, f, limit, "dependentSchemas");
    MapOfView(m, f, limit, "dependencies");
    DependentAgrees(c, limit, m, MapOf(f, "dependentSchemas"), v, n);
    DependentAgrees(c, limit, m, MapOf(f, "dependencies"), v, n);
  }

  lemma ChildrenAgrees(c: Context, limit: nat, m: bool, f: map<string, Json>, v: Json, n: nat)
    requires limit >= |SUFFIX| && Agree(c, limit, n)
    ensures Children(CompactRoot(c, limit), ViewFields(m, f, limit), v, n) == Children(c, f, v, n)
  {
    PropertiesAgrees(c, limit, m, f, v, n);
    ItemsAgrees(c, limit, m, f, v, n);
    ContainsAgrees(c, limit, m, f, v, n);
    PropertyNamesAgrees(c, limit, m, f, v, n);
  }

  lemma UnevaluatedAgrees(c: Context, limit: nat, m: bool, f: map<string, Json>, v: Json, seen: Verdict, n: nat)
    requires limit >= |SUFFIX| && Agree(c, limit, n)
    ensures Unevaluated(CompactRoot(c, limit), ViewFields(m, f, limit), v, seen, n) == Unevaluated(c, f, v, seen, n)
  {
    KeywordOnPropsAgrees(c, limit, m, f, "unevaluatedProperties", PropsOf(v), PropsOf(v).Keys - seen.props, n);
    KeywordOnItemsAgrees(c, limit, m, f, "unevaluatedItems", ItemsOf(v), 0, seen.items, n);
  }

  // --- the theorem ------------------------------------------------------------------------------

  lemma ObjectAgrees(c: Context, limit: nat, m: bool, f: map<string, Json>, v: Json, n: nat)
    requires limit >= |SUFFIX| && AgreeOnBases(c, limit, n)
    ensures EvalObject(CompactRoot(c, limit), ViewFields(m, f, limit), v, n) == EvalObject(c, f, v, n)
  {
    AgreeHere(c, limit, n);
    AssertionsView(c.dialect, m, f, limit, v);
    InPlaceAgrees(c, limit, m, f, v, n);
    ChildrenAgrees(c, limit, m, f, v, n);
    UnevaluatedAgrees(c, limit, m, f, v, Both(InPlace(c, f, v, n), Children(c, f, v, n)), n);
  }

  /** Compaction leaves identifiers alone. */
  lemma RebasedView(c: Context, limit: nat, m: bool, f: map<string, Json>)
    requires limit >= |SUFFIX|
    ensures Rebased(CompactRoot(c, limit), ViewFields(m, f, limit)) == CompactRoot(Rebased(c, f), limit)
  {
  }

  lemma AgreeRebased(c: Context, limit: nat, f: map<string, Json>, n: nat)
    requires limit >= |SUFFIX| && AgreeOnBases(c, limit, n)
    ensures AgreeOnBases(Rebased(c, f), limit, n)
  {
    forall base
      ensures Agree(Rebased(c, f).(base := base), limit, n)
    {
      assert Rebased(c, f).(base := base) == c.(base := base);
    }
  }

  lemma {:induction false} AllAgree(c: Context, limit: nat, n: nat)
    requires limit >= |SUFFIX|
    ensures Agree(c, limit, n)
    decreases n
  {
    if n > 0 {
      forall base
        ensures Agree(c.(base := base), limit, n - 1)
      {
        AllAgree(c.(base := base), limit, n - 1);
      }
    }
    forall m: bool, s, v
      ensures Eval(CompactRoot(c, limit), View(m, s, limit), v, n) == Eval(c, s, v, n)
    {
      if s.Obj? && n > 0 {
        AgreeRebased(c, limit, s.fields, n - 1);
        ObjectAgrees(Rebased(c, s.fields), limit, m, s.fields, v, n - 1);
        RebasedView(c, limit, m, s.fields);
        assert View(m, s, limit).fields == ViewFields(m, s.fields, limit);
      }
    }
  }

  /** MAIN: an instance is valid against the compacted schema exactly when it is valid against
      the original; even the properties and items counted as evaluated are the same. */
  lemma CompactionKeepsMeaning(d: Dialect, schema: Json, base: string, limit: nat, instance: Json, n: nat)
    requires limit >= |SUFFIX|
    ensures Eval(Context(d, Compact(schema, limit), base), Compact(schema, limit), instance, n)
         == Eval(Context(d, schema, base), schema, instance, n)
  {
    var c := Context(d, schema, base);
    AllAgree(c, limit, n);
    assert Eval(CompactRoot(c, limit), View(true, schema, limit), instance, n) == Eval(c, schema, instance, n);
  }

  /** A reference to a place that is not a schema is outside the theorem, and has to be: if
      the value of `properties` were read as a schema, compaction could turn a `const` that
      the instance meets into one that rejects it. */
  lemma StrayReferenceDiffers(d: Dialect, base: string, long: string)
      returns (root: Json, path: seq<Token>, instance: Json)
    requires forall a, b :: d.same(a, b) <==> a == b
    requires forall f, v :: d.others(f, v)
    requires |long| > 64
    ensures Resolve(root, path).None?
    ensures var before, after := Get(root, path), Get(Compact(root, 64), path);
            && before.Some? && Eval(Context(d, root, base), before.value, instance, 1).ok
            && after.Some? && !Eval(Context(d, Compact(root, 64), base), after.value, instance, 1).ok
  {
    instance := Obj(map[DESCRIPTION := Str(long)]);
    var inner := Obj(map["const" := instance]);
    root := Obj(map["properties" := inner]);
    path := [Name("properties")];
    var short := CompactedInside(long, inner, root);
    AtProperties(root, inner);
    AtProperties(Compact(root, 64), Obj(map["const" := short]));
    ConstVerdict(Context(d, root, base), instance, instance);
    ConstVerdict(Context(d, Compact(root, 64), base), short, instance);
  }

  lemma AtProperties(root: Json, inner: Json)
    requires root == Obj(map["properties" := inner]) && inner.Obj?
    ensures Get(root, [Name("properties")]) == Some(inner) && Resolve(root, [Name("properties")]).None?
  {
    assert [Name("properties")][1..] == [];
    assert "properties" in MAP_KEYWORDS;
  }

  /** A schema with nothing but a `const`. */
  lemma ConstVerdict(c: Context, x: Json, v: Json)
    requires forall f, w :: c.dialect.others(f, w)
    ensures Eval(c, Obj(map["const" := x]), v, 1).ok <==> c.dialect.same(x, v)
  {
    var f := map["const" := x];
    ConstObject(c, f, v);
    assert Rebased(c, f) == c && f["const"] == x;
  }

  lemma ConstObject(c: Context, f: map<string, Json>, v: Json)
    requires f.Keys == {"const"} && forall g, w :: c.dialect.others(g, w)
    ensures EvalObject(c, f, v, 0).ok <==> c.dialect.same(f["const"], v)
  {
    ConstAssertions(c.dialect, f, v);
    NothingInPlace(c, f, v);
    NothingInChildren(c, f, v);
    NothingUnevaluated(c, f, v, Both(InPlace(c, f, v, 0), Children(c, f, v, 0)));
    AssertionsDecide(c, f, v);
  }

  lemma AssertionsDecide(c: Context, f: map<string, Json>, v: Json)
    requires InPlace(c, f, v, 0).ok && Children(c, f, v, 0).ok
    requires Unevaluated(c, f, v, Both(InPlace(c, f, v, 0), Children(c, f, v, 0)), 0).ok
    ensures EvalObject(c, f, v, 0).ok <==> Assertions(c.dialect, f, v)
  {
  }

  lemma ConstAssertions(d: Dialect, f: map<string, Json>, v: Json)
    requires f.Keys == {"const"} && forall g, w :: d.others(g, w)
    ensures Assertions(d, f, v) <==> d.same(f["const"], v)
  {
  }

  lemma {:induction false} AllOfOk(vs: seq<Verdict>)
    requires forall i :: 0 <= i < |vs| ==> vs[i].ok
    ensures AllOf(vs).ok
  {
    if vs != [] {
      AllOfOk(vs[1..]);
    }
  }

  lemma NothingInPlace(c: Context, f: map<string, Json>, v: Json)
    requires f.Keys == {"const"}
    ensures InPlace(c, f, v, 0).ok
  {
    var all, none := AllOf(Each(c, [], v, 0)), Merged(Dependent(c, map[], v, 0));
    var vs := [Reference(c, f, v, 0), all, PASS, PASS, Not(c, f, v, 0), Conditional(c, f, v, 0), none, none];
    NothingApplies(c, f, v);
    AllOfOk(vs);
  }

  lemma NothingApplies(c: Context, f: map<string, Json>, v: Json)
    requires f.Keys == {"const"}
    ensures Reference(c, f, v, 0).ok && Not(c, f, v, 0).ok && Conditional(c, f, v, 0).ok
    ensures AllOf(Each(c, [], v, 0)).ok && Merged(Dependent(c, map[], v, 0)).ok
  {
    assert Each(c, [], v, 0) == [] && Dependent(c, map[], v, 0) == map[];
  }

  lemma NothingInChildren(c: Context, f: map<string, Json>, v: Json)
    requires f.Keys == {"const"}
    ensures Children(c, f, v, 0).ok
  {
    var vs := [Properties(c, f, v, 0), Items(c, f, v, 0), Contains(c, f, v, 0), PropertyNames(c, f, v, 0)];
    NothingInItems(c, f, v);
    assert Properties(c, f, v, 0).ok && Contains(c, f, v, 0).ok && PropertyNames(c, f, v, 0).ok;
    AllOfOk(vs);
  }

  lemma NothingInItems(c: Context, f: map<string, Json>, v: Json)
    requires f.Keys == {"const"}
    ensures Items(c, f, v, 0).ok
  {
    assert [] + [] == ListOf(f, "prefixItems") + ListOf(f, "items");
    assert Tuple(c, [], ItemsOf(v), 0) == map[];
  }

  lemma NothingUnevaluated(c: Context, f: map<string, Json>, v: Json, seen: Verdict)
    requires f.Keys == {"const"}
    ensures Unevaluated(c, f, v, seen, 0).ok
  {
  }

  lemma CompactedInside(long: string, inner: Json, root: Json) returns (short: Json)
    requires |long| > 64
    requires inner == Obj(map["const" := Obj(map[DESCRIPTION := Str(long)])]) && root == Obj(map["properties" := inner])
    ensures Compact(root, 64) == Obj(map["properties" := Obj(map["const" := short])])
    ensures short != inner.fields["const"]
  {
    var instance := Obj(map[DESCRIPTION := Str(long)]);
    assert inner.fields["const"] == instance;
    short := Compact(instance, 64);
    assert CompactField(DESCRIPTION, Str(long), 64) == Str(Shorten(long, 64));
    assert short.fields[DESCRIPTION] == Str(Shorten(long, 64));
    assert "properties" in MAP_KEYWORDS;
    KeywordsApart();
    assert inner.fields.Keys == {"const"};
    var after := CompactField("properties", inner, 64);
    assert after == Obj(map c | c in inner.fields :: Compact(inner.fields[c], 64));
    assert after.fields == map["const" := short];
    assert Compact(root, 64).fields == map["properties" := after];
  }
}
