/** Schema compaction (internal/bridge/metadata.go:15-68) as a function on JSON trees. */
module Schema {
  import opened Wrappers
  import opened Json

  const SUFFIX: string := "… [Full guidance: bridge_describe_tool]"

  /** Keywords whose value is an object of named schemas. */
  const MAP_KEYWORDS: set<string> :=
    {"properties", "patternProperties", "$defs", "definitions", "dependentSchemas", "dependencies"}

  /** Keywords whose value is a schema or an array of schemas. */
  const SCHEMA_KEYWORDS: set<string> :=
    {"items", "additionalProperties", "unevaluatedProperties", "unevaluatedItems", "contains", "propertyNames",
     "if", "then", "else", "not", "contentSchema", "allOf", "anyOf", "oneOf", "prefixItems"}

  const DESCRIPTION: string := "description"

  lemma KeywordsApart()
    ensures MAP_KEYWORDS !! SCHEMA_KEYWORDS
    ensures DESCRIPTION !in MAP_KEYWORDS && DESCRIPTION !in SCHEMA_KEYWORDS
  {
  }

  /** Characters are runes.  A limit below the suffix would slice with a negative bound. */
  function Shorten(text: string, limit: nat): (short: string)
    requires limit >= |SUFFIX|
    ensures |short| <= limit
    ensures |text| <= limit ==> short == text
    ensures |text| > limit ==>
              |short| == limit && SUFFIX <= short[limit - |SUFFIX|..]
              && short[..limit - |SUFFIX|] == text[..limit - |SUFFIX|]
  {
    if |text| <= limit then text else text[..limit - |SUFFIX|] + SUFFIX
  }

  /** What compaction makes of a schema: descriptions shortened, subschemas compacted. */
  function Compact(j: Json, limit: nat): Json
    requires limit >= |SUFFIX|
    decreases j, 0
  {
    if j.Obj? then Obj(map k | k in j.fields :: CompactField(k, j.fields[k], limit)) else j
  }

  function CompactField(key: string, value: Json, limit: nat): Json
    requires limit >= |SUFFIX|
    decreases value, 1
  {
    if key == DESCRIPTION && value.Str? then Str(Shorten(value.s, limit))
    else if key in MAP_KEYWORDS && value.Obj? then Obj(map c | c in value.fields :: Compact(value.fields[c], limit))
    else if key in SCHEMA_KEYWORDS && value.Arr? then
      Arr(seq(|value.items|, i requires 0 <= i < |value.items| => Compact(value.items[i], limit)))
    else if key in SCHEMA_KEYWORDS then Compact(value, limit)
    else value
  }

  // --- what changes -------------------------------------------------------------------------

  /** `path` leads from the schema `j`, through schema-valued keywords only, to a string
      `description` of a schema. */
  predicate DescriptionAt(j: Json, path: seq<Token>)
    decreases |path|
  {
    && j.Obj? && path != [] && path[0].Name? && path[0].name in j.fields
    && var k, v := path[0].name, j.fields[path[0].name];
    if k in MAP_KEYWORDS && v.Obj? then
      |path| > 1 && path[1].Name? && path[1].name in v.fields && DescriptionAt(v.fields[path[1].name], path[2..])
    else if k in SCHEMA_KEYWORDS && v.Arr? then
      |path| > 1 && path[1].Index? && path[1].i < |v.items| && DescriptionAt(v.items[path[1].i], path[2..])
    else if k in SCHEMA_KEYWORDS then DescriptionAt(v, path[1..])
    else k == DESCRIPTION && v.Str? && |path| == 1
  }

  /** Equal scalars, or containers with the same keys or the same length. */
  predicate SameShape(a: Option<Json>, b: Option<Json>) {
    match (a, b)
    case (Some(Obj(f)), Some(Obj(g))) => f.Keys == g.Keys
    case (Some(Arr(x)), Some(Arr(y))) => |x| == |y|
    case _ => a == b
  }

  lemma SameShapeReflexive(a: Option<Json>)
    ensures SameShape(a, a)
  {
  }

  /** MAIN: at every place the compacted tree has what the original has, except that a
      description of a reachable schema is replaced by its shortened text. */
  lemma {:induction false} ChangesOnlyDescriptions(j: Json, limit: nat, path: seq<Token>)
    requires limit >= |SUFFIX|
    ensures var before, after := Get(j, path), Get(Compact(j, limit), path);
            if DescriptionAt(j, path)
            then before.Some? && before.value.Str? && after == Some(Str(Shorten(before.value.s, limit)))
            else SameShape(before, after)
    decreases |path|
  {
    if path == [] || !j.Obj? || !path[0].Name? || path[0].name !in j.fields {
      return;
    }
    var k, v := path[0].name, j.fields[path[0].name];
    var w := CompactField(k, v, limit);
    assert Compact(j, limit).fields[k] == w;
    if k in MAP_KEYWORDS && v.Obj? {
      if |path| > 1 && path[1].Name? && path[1].name in v.fields {
        ChangesOnlyDescriptions(v.fields[path[1].name], limit, path[2..]);
        assert path[1..][1..] == path[2..];
      }
    } else if k in SCHEMA_KEYWORDS && v.Arr? {
      if |path| > 1 && path[1].Index? && path[1].i < |v.items| {
        ChangesOnlyDescriptions(v.items[path[1].i], limit, path[2..]);
        assert path[1..][1..] == path[2..];
      }
    } else if k in SCHEMA_KEYWORDS {
      ChangesOnlyDescriptions(v, limit, path[1..]);
    } else {
      SameShapeReflexive(Get(v, path[1..]));
    }
  }

  // --- name by name ---------------------------------------------------------------------------

  /** The text of a long description at a limit: its start, cut so that the note fits behind it. */
  predicate CutTo(long: string, short: string, limit: nat)
    requires limit >= 39
  {
    short == (if |long| <= limit then long else long[..limit - 39] + "… [Full guidance: bridge_describe_tool]")
  }

  /** No literal keyword is walked through, nor is a bound. */
  lemma LiteralsApart(key: string)
    requires key in {"type", "const", "enum", "required", "default", "examples", "$ref", "$id",
                     "minimum", "maximum", "exclusiveMinimum", "exclusiveMaximum"}
    ensures key !in MAP_KEYWORDS && key !in SCHEMA_KEYWORDS && key != DESCRIPTION
  {
    if |key| <= 5 {
      assert key !in MAP_KEYWORDS && key !in SCHEMA_KEYWORDS;
    }
  }

  /** Values are left as they are: those of the literal keywords, and of every other key that is
      neither one of the twenty-one keywords nor a description. */
  lemma LiteralsKept(f: map<string, Json>, limit: nat, key: string)
    requires limit >= |SUFFIX| && key in f
    ensures Compact(Obj(f), limit).fields.Keys == f.Keys
    ensures key in {"const", "enum", "default", "examples", "required", "type", "$ref", "$id"} ==>
              Compact(Obj(f), limit).fields[key] == f[key]
    ensures
      || key in {"properties", "patternProperties", "$defs", "definitions", "dependentSchemas", "dependencies",
                 "items", "additionalProperties", "unevaluatedProperties", "unevaluatedItems", "contains",
                 "propertyNames", "if", "then", "else", "not", "contentSchema", "allOf", "anyOf", "oneOf",
                 "prefixItems"}
      || (key == "description" && f[key].Str?)
      || Compact(Obj(f), limit).fields[key] == f[key]
  {
    assert Compact(Obj(f), limit).fields[key] == CompactField(key, f[key], limit);
    if key in {"type", "const", "enum", "required", "default", "examples", "$ref", "$id"} {
      LiteralsApart(key);
    }
  }

  /** The schema's own description. */
  lemma OwnDescription(f: map<string, Json>, limit: nat, text: string)
    requires limit >= |SUFFIX| && "description" in f && f["description"] == Str(text)
    ensures limit >= 39
    ensures var after := Compact(Obj(f), limit).fields["description"]; after.Str? && CutTo(text, after.s, limit)
  {
  }

  /** What stands under a keyword, by the keyword's own name: named schemas, a list of schemas or
      one schema are compacted in place. */
  lemma SubschemasCompacted(f: map<string, Json>, limit: nat, key: string)
    requires limit >= |SUFFIX| && key in f
    ensures var before, after := f[key], Compact(Obj(f), limit).fields[key];
            && (key in {"properties", "patternProperties", "$defs", "definitions", "dependentSchemas",
                        "dependencies"} ==>
                  if before.Obj? then
                    && after.Obj? && after.fields.Keys == before.fields.Keys
                    && forall c :: c in before.fields ==> after.fields[c] == Compact(before.fields[c], limit)
                  else after == before)
            && (key in {"items", "additionalProperties", "unevaluatedProperties", "unevaluatedItems", "contains",
                        "propertyNames", "if", "then", "else", "not", "contentSchema", "allOf", "anyOf", "oneOf",
                        "prefixItems"} ==>
                  if before.Arr? then
                    && after.Arr? && |after.items| == |before.items|
                    && forall i :: 0 <= i < |before.items| ==> after.items[i] == Compact(before.items[i], limit)
                  else after == Compact(before, limit))
  {
    assert Compact(Obj(f), limit).fields[key] == CompactField(key, f[key], limit);
    KeywordsApart();
  }

  /** So a description of any schema that stands under one of the twenty-one keywords is
      shortened: of a named one, of one in a list, and of a single one. */
  lemma DescriptionUnder(f: map<string, Json>, limit: nat, key: string, place: seq<Token>, text: string)
    requires limit >= |SUFFIX| && key in f
    requires
      || (key in {"properties", "patternProperties", "$defs", "definitions", "dependentSchemas", "dependencies"}
          && |place| == 1 && place[0].Name?)
      || (key in {"items", "additionalProperties", "unevaluatedProperties", "unevaluatedItems", "contains",
                  "propertyNames", "if", "then", "else", "not", "contentSchema", "allOf", "anyOf", "oneOf",
                  "prefixItems"}
          && (place == [] || (|place| == 1 && place[0].Index?)))
    requires Get(f[key], place + [Name("description")]) == Some(Str(text))
    ensures limit >= 39
    ensures var after := Get(Compact(Obj(f), limit).fields[key], place + [Name("description")]);
            after.Some? && after.value.Str? && CutTo(text, after.value.s, limit)
  {
    SubschemasCompacted(f, limit, key);
    var after := Compact(Obj(f), limit).fields[key];
    GetDescription(f[key], place);
    GetDescription(after, place);
    OwnDescription(Get(f[key], place).value.fields, limit, text);
  }

  lemma GetDescription(j: Json, place: seq<Token>)
    requires |place| <= 1
    ensures Get(j, place + [Name("description")])
         == (match Get(j, place)
             case Some(Obj(f)) => if "description" in f then Some(f["description"]) else None
             case _ => None)
  {
    var path := place + [Name("description")];
    assert path[|place|..] == [Name("description")];
    assert [Name("description")][1..] == [] && forall x: Json :: Get(x, []) == Some(x);
  }

  /** Compacting twice is compacting once. */
  lemma {:induction false} CompactIdempotent(j: Json, limit: nat)
    requires limit >= |SUFFIX|
    ensures Compact(Compact(j, limit), limit) == Compact(j, limit)
    decreases j, 0
  {
    if j.Obj? {
      var once := Compact(j, limit);
      forall k | k in j.fields
        ensures CompactField(k, once.fields[k], limit) == once.fields[k]
      {
        CompactFieldIdempotent(k, j.fields[k], limit);
      }
      assert Compact(once, limit).fields == once.fields;
    }
  }

  lemma {:induction false} CompactFieldIdempotent(key: string, value: Json, limit: nat)
    requires limit >= |SUFFIX|
    ensures CompactField(key, CompactField(key, value, limit), limit) == CompactField(key, value, limit)
    decreases value, 1
  {
    var once := CompactField(key, value, limit);
    if key in MAP_KEYWORDS && value.Obj? {
      forall c | c in value.fields
        ensures Compact(once.fields[c], limit) == once.fields[c]
      {
        CompactIdempotent(value.fields[c], limit);
      }
      assert CompactField(key, once, limit).fields == once.fields;
    } else if key in SCHEMA_KEYWORDS && value.Arr? {
      forall i | 0 <= i < |value.items|
        ensures Compact(once.items[i], limit) == once.items[i]
      {
        CompactIdempotent(value.items[i], limit);
      }
      assert CompactField(key, once, limit).items == once.items;
    } else if key in SCHEMA_KEYWORDS {
      CompactIdempotent(value, limit);
    }
  }
}
