/** shortenSchema and compactSchema as they run: an in-place rewrite of a decoded tree whose
    objects are mutable maps, visited in whatever order a map hands out its keys.  The maps
    of a document are cells of one field; a reference names a cell, so a rewrite of a shared
    cell would be seen everywhere it is referred to. */
module Rewrite {
  import opened Wrappers
  import opened Json
  import opened Schema

  /** Go's `any` after decoding: a scalar, a slice, or a reference to a map. */
  datatype Value = Leaf(json: Json) | List(items: seq<Value>) | Ref(id: nat)

  type Cells = map<nat, map<string, Value>>

  /** A bound on the cells a value refers to; a cell refers only to older ones. */
  function Rank(v: Value): nat
    decreases v, 0
  {
    match v
    case Leaf(_) => 0
    case List(items) => RankAll(items)
    case Ref(id) => id + 1
  }

  function RankAll(items: seq<Value>): (r: nat)
    ensures forall i :: 0 <= i < |items| ==> Rank(items[i]) <= r
    decreases items, 1
  {
    if items == [] then 0
    else var rest := RankAll(items[1..]); if Rank(items[0]) > rest then Rank(items[0]) else rest
  }

  predicate Known(h: Cells, v: Value) {
    match v
    case Leaf(json) => json.Scalar()
    case List(items) => forall i :: 0 <= i < |items| ==> Known(h, items[i])
    case Ref(id) => id in h
  }

  ghost predicate Ordered(h: Cells) {
    forall id, k :: id in h && k in h[id] ==> Rank(h[id][k]) <= id && Known(h, h[id][k])
  }

  /** The cells a value consists of. */
  ghost function Foot(h: Cells, v: Value): (foot: set<nat>)
    requires Ordered(h) && Known(h, v)
    ensures forall i :: i in foot ==> i < Rank(v)
    decreases Rank(v), v
  {
    match v
    case Leaf(_) => {}
    case List(items) => set i, c | 0 <= i < |items| && c in Foot(h, items[i]) :: c
    case Ref(id) => {id} + set k, c | k in h[id] && c in Foot(h, h[id][k]) :: c
  }

  function ToJson(h: Cells, v: Value): Json
    requires Ordered(h) && Known(h, v)
    decreases Rank(v), v
  {
    match v
    case Leaf(json) => json
    case List(items) => Arr(seq(|items|, i requires 0 <= i < |items| => ToJson(h, items[i])))
    case Ref(id) => Obj(map k | k in h[id] :: ToJson(h, h[id][k]))
  }

  /** A tree: no cell is reachable in two ways. */
  ghost predicate Tree(h: Cells, v: Value)
    requires Ordered(h) && Known(h, v)
    decreases Rank(v), v
  {
    match v
    case Leaf(_) => true
    case List(items) =>
      && (forall i :: 0 <= i < |items| ==> Tree(h, items[i]))
      && forall i, j :: 0 <= i < j < |items| ==> Foot(h, items[i]) !! Foot(h, items[j])
    case Ref(id) =>
      && (forall k :: k in h[id] ==> Tree(h, h[id][k]))
      && forall k, l :: k in h[id] && l in h[id] && k != l ==> Foot(h, h[id][k]) !! Foot(h, h[id][l])
  }

  // --- changes that keep the shape ------------------------------------------------------------

  /** Only leaves are replaced, by leaves, and only in cells of `where`. */
  ghost predicate Rewrites(h: Cells, h': Cells, where: set<nat>) {
    && h'.Keys == h.Keys
    && forall id :: id in h ==>
         && h'[id].Keys == h[id].Keys
         && (id !in where ==> h'[id] == h[id])
         && forall k :: k in h[id] && h'[id][k] != h[id][k]
              ==> h[id][k].Leaf? && h'[id][k].Leaf? && h'[id][k].json.Scalar()
  }

  lemma KnownKept(h: Cells, h': Cells, v: Value)
    requires h'.Keys == h.Keys && Known(h, v)
    ensures Known(h', v)
  {
  }

  lemma OrderedKept(h: Cells, h': Cells, where: set<nat>)
    requires Ordered(h) && Rewrites(h, h', where)
    ensures Ordered(h')
  {
    forall id, k | id in h' && k in h'[id]
      ensures Rank(h'[id][k]) <= id && Known(h', h'[id][k])
    {
      KnownKept(h, h', h[id][k]);
    }
  }

  /** The shape is kept: the same cells, in a tree if they were one. */
  lemma {:induction false} ShapeKept(h: Cells, h': Cells, where: set<nat>, v: Value)
    requires Ordered(h) && Known(h, v) && Rewrites(h, h', where)
    ensures Ordered(h') && Known(h', v) && Foot(h', v) == Foot(h, v)
    decreases Rank(v), v
  {
    OrderedKept(h, h', where);
    KnownKept(h, h', v);
    match v
    case Leaf(_) =>
    case List(items) =>
      forall i | 0 <= i < |items|
        ensures Foot(h', items[i]) == Foot(h, items[i])
      {
        ShapeKept(h, h', where, items[i]);
      }
    case Ref(id) =>
      forall k | k in h[id]
        ensures Known(h', h'[id][k]) && Foot(h', h'[id][k]) == Foot(h, h[id][k])
      {
        if h'[id][k] == h[id][k] {
          ShapeKept(h, h', where, h[id][k]);
        }
      }
  }

  lemma {:induction false} TreeKept(h: Cells, h': Cells, where: set<nat>, v: Value)
    requires Ordered(h) && Known(h, v) && Tree(h, v) && Rewrites(h, h', where)
    ensures Ordered(h') && Known(h', v) && Tree(h', v)
    decreases Rank(v), v
  {
    ShapeKept(h, h', where, v);
    match v
    case Leaf(_) =>
    case List(items) =>
      forall i | 0 <= i < |items|
        ensures Tree(h', items[i]) && Foot(h', items[i]) == Foot(h, items[i])
      {
        ShapeKept(h, h', where, items[i]);
        TreeKept(h, h', where, items[i]);
      }
    case Ref(id) =>
      forall k | k in h[id]
        ensures Tree(h', h'[id][k]) && Foot(h', h'[id][k]) == Foot(h, h[id][k])
      {
        if h'[id][k] == h[id][k] {
          ShapeKept(h, h', where, h[id][k]);
          TreeKept(h, h', where, h[id][k]);
        }
      }
  }

  /** A value none of whose cells is rewritten keeps its meaning. */
  lemma {:induction false} ValueKept(h: Cells, h': Cells, where: set<nat>, v: Value)
    requires Ordered(h) && Known(h, v) && Rewrites(h, h', where) && Foot(h, v) !! where
    ensures Ordered(h') && Known(h', v) && ToJson(h', v) == ToJson(h, v)
    decreases Rank(v), v
  {
    OrderedKept(h, h', where);
    KnownKept(h, h', v);
    match v
    case Leaf(_) =>
    case List(items) =>
      forall i | 0 <= i < |items|
        ensures ToJson(h', items[i]) == ToJson(h, items[i])
      {
        ValueKept(h, h', where, items[i]);
      }
    case Ref(id) =>
      assert h'[id] == h[id];
      forall k | k in h[id]
        ensures ToJson(h', h[id][k]) == ToJson(h, h[id][k])
      {
        ValueKept(h, h', where, h[id][k]);
      }
  }

  lemma RewritesTwice(a: Cells, b: Cells, c: Cells, first: set<nat>, second: set<nat>, where: set<nat>)
    requires Rewrites(a, b, first) && Rewrites(b, c, second) && first <= where && second <= where
    ensures Rewrites(a, c, where)
  {
  }

  // --- several values side by side --------------------------------------------------------------

  /** The values of `fs` are trees that share no cell. */
  ghost predicate Forest<K(!new)>(h: Cells, fs: map<K, Value>) {
    && Ordered(h)
    && (forall k :: k in fs ==> Known(h, fs[k]) && Tree(h, fs[k]))
    && forall k, l :: k in fs && l in fs && k != l ==> Foot(h, fs[k]) !! Foot(h, fs[l])
  }

  ghost function ForestFoot<K(!new)>(h: Cells, fs: map<K, Value>): set<nat>
    requires Forest(h, fs)
  {
    set k, c | k in fs && c in Foot(h, fs[k]) :: c
  }

  /** `m` is what is stored under each key. */
  ghost predicate Stores<K(!new)>(h: Cells, fs: map<K, Value>, m: map<K, Json>) {
    Forest(h, fs) && m.Keys == fs.Keys && forall k :: k in fs ==> ToJson(h, fs[k]) == m[k]
  }

  lemma ForestKept<K(!new)>(h: Cells, h': Cells, fs: map<K, Value>, where: set<nat>)
    requires Forest(h, fs) && Rewrites(h, h', where)
    ensures Forest(h', fs) && ForestFoot(h', fs) == ForestFoot(h, fs)
  {
    OrderedKept(h, h', where);
    forall k | k in fs
      ensures Known(h', fs[k]) && Tree(h', fs[k]) && Foot(h', fs[k]) == Foot(h, fs[k])
    {
      ShapeKept(h, h', where, fs[k]);
      TreeKept(h, h', where, fs[k]);
    }
  }

  /** A rewrite within the tree under `k` changes what is stored under `k` only. */
  lemma OneRewritten<K(!new)>(h: Cells, h': Cells, fs: map<K, Value>, k: K, m: map<K, Json>)
    requires Stores(h, fs, m) && k in fs && Rewrites(h, h', Foot(h, fs[k]))
    ensures Forest(h', fs) && ForestFoot(h', fs) == ForestFoot(h, fs)
    ensures Stores(h', fs, m[k := ToJson(h', fs[k])])
  {
    ForestKept(h, h', fs, Foot(h, fs[k]));
    forall l | l in fs && l != k
      ensures ToJson(h', fs[l]) == m[l]
    {
      ValueKept(h, h', Foot(h, fs[k]), fs[l]);
    }
  }

  // --- the rewrite ------------------------------------------------------------------------------

  ghost predicate Good(h: Cells, v: Value) {
    Ordered(h) && Known(h, v) && Tree(h, v)
  }

  /** The entries in `done` are compacted. */
  function Partly<K>(m: map<K, Json>, done: set<K>, limit: nat): map<K, Json>
    requires limit >= |SUFFIX|
  {
    map k | k in m :: if k in done then Compact(m[k], limit) else m[k]
  }

  lemma PartlyMore<K>(m: map<K, Json>, done: set<K>, k: K, limit: nat)
    requires limit >= |SUFFIX| && k in m && k !in done
    ensures var partly := Partly(m, done, limit);
            Partly(m, done + {k}, limit) == partly[k := Compact(partly[k], limit)]
  {
  }

  /** From `start` to `now` only cells of the forest have been rewritten. */
  ghost predicate Within<K(!new)>(start: Cells, now: Cells, fs: map<K, Value>) {
    && Forest(start, fs) && Forest(now, fs) && ForestFoot(now, fs) == ForestFoot(start, fs)
    && Rewrites(start, now, ForestFoot(start, fs))
  }

  lemma WithinMore<K(!new)>(start: Cells, before: Cells, now: Cells, fs: map<K, Value>, k: K, m: map<K, Json>)
    requires Within(start, before, fs) && Stores(before, fs, m) && k in fs && Rewrites(before, now, Foot(before, fs[k]))
    ensures Within(start, now, fs) && Stores(now, fs, m[k := ToJson(now, fs[k])])
  {
    OneRewritten(before, now, fs, k, m);
    RewritesTwice(start, before, now, ForestFoot(start, fs), Foot(before, fs[k]), ForestFoot(start, fs));
  }

  /** The values of a cell, all rewritten, make the cell's new value. */
  lemma CellRewritten(start: Cells, now: Cells, id: nat, fs: map<string, Value>)
    requires Good(start, Ref(id)) && start[id] == fs && Within(start, now, fs)
    ensures now[id] == fs && Rewrites(start, now, Foot(start, Ref(id))) && Good(now, Ref(id))
  {
    assert id !in ForestFoot(start, fs);
    assert ForestFoot(start, fs) <= Foot(start, Ref(id));
    TreeKept(start, now, ForestFoot(start, fs), Ref(id));
  }

  /** A cell stores the fields of its value, and nothing else. */
  lemma CellStores(h: Cells, id: nat)
    requires Good(h, Ref(id))
    ensures Stores(h, h[id], ToJson(h, Ref(id)).fields)
  {
  }

  lemma CellIs(h: Cells, id: nat, m: map<string, Json>)
    requires Good(h, Ref(id)) && Stores(h, h[id], m)
    ensures ToJson(h, Ref(id)) == Obj(m)
  {
    assert ToJson(h, Ref(id)).fields == m;
  }

  lemma NamedField(key: string, m: map<string, Json>, limit: nat)
    requires limit >= |SUFFIX| && key in MAP_KEYWORDS
    ensures CompactField(key, Obj(m), limit) == Obj(Partly(m, m.Keys, limit))
  {
    KeywordsApart();
    assert (map c | c in m :: Compact(m[c], limit)) == Partly(m, m.Keys, limit);
  }

  lemma ListStores(h: Cells, v: Value)
    requires Good(h, v) && v.List?
    ensures Stores(h, Indexed(v.items), Indexed(ToJson(h, v).items))
  {
  }

  lemma ListIs(h: Cells, v: Value, js: seq<Json>)
    requires Good(h, v) && v.List? && |js| == |v.items| && Stores(h, Indexed(v.items), Indexed(js))
    ensures ToJson(h, v) == Arr(js)
  {
    forall i: nat | i < |js|
      ensures ToJson(h, v).items[i] == js[i]
    {
      assert i in Indexed(v.items);
    }
    assert ToJson(h, v).items == js;
  }

  /** The first `n` of them are compacted. */
  function FirstCompact(js: seq<Json>, n: nat, limit: nat): seq<Json>
    requires limit >= |SUFFIX|
  {
    seq(|js|, i requires 0 <= i < |js| => if i < n then Compact(js[i], limit) else js[i])
  }

  lemma FirstMore(js: seq<Json>, i: nat, limit: nat)
    requires limit >= |SUFFIX| && i < |js|
    ensures var first := Indexed(FirstCompact(js, i, limit));
            Indexed(FirstCompact(js, i + 1, limit)) == first[i := Compact(first[i], limit)]
  {
  }

  lemma ListField(key: string, js: seq<Json>, limit: nat)
    requires limit >= |SUFFIX| && key in SCHEMA_KEYWORDS
    ensures CompactField(key, Arr(js), limit) == Arr(FirstCompact(js, |js|, limit))
  {
    KeywordsApart();
    assert CompactField(key, Arr(js), limit).items == FirstCompact(js, |js|, limit);
  }

  lemma ListRewritten(start: Cells, now: Cells, v: Value)
    requires Good(start, v) && v.List? && Within(start, now, Indexed(v.items))
    ensures Rewrites(start, now, Foot(start, v)) && Good(now, v)
  {
    var where := ForestFoot(start, Indexed(v.items));
    assert where <= Foot(start, v);
    TreeKept(start, now, where, v);
  }

  /** The keywords in the order in which the code goes through them. */
  const NAMED: seq<string> :=
    ["properties", "patternProperties", "$defs", "definitions", "dependentSchemas", "dependencies"]

  const SCHEMAS: seq<string> :=
    ["items", "additionalProperties", "unevaluatedProperties", "unevaluatedItems", "contains", "propertyNames",
     "if", "then", "else", "not", "contentSchema", "allOf", "anyOf", "oneOf", "prefixItems"]

  function NamedSet(): set<string> {
    MAP_KEYWORDS
  }

  function Keys(keys: seq<string>): set<string> {
    set k | k in keys
  }

  lemma NamedKeywords()
    ensures Keys(NAMED) == MAP_KEYWORDS
  {
  }

  lemma SchemaKeywords()
    ensures Keys(SCHEMAS) == SCHEMA_KEYWORDS
  {
  }

  lemma KeysMore(keys: seq<string>, i: nat)
    requires i < |keys|
    ensures Keys(keys[..i + 1]) == Keys(keys[..i]) + {keys[i]} && keys[i] in Keys(keys)
  {
    assert keys[..i + 1] == keys[..i] + [keys[i]];
  }

  /** The fields of a schema once the keywords in `done` have been dealt with. */
  function Staged(m: map<string, Json>, done: set<string>, limit: nat): map<string, Json>
    requires limit >= |SUFFIX|
  {
    map k | k in m :: if k in done then CompactField(k, m[k], limit) else m[k]
  }

  lemma StageSkips(m: map<string, Json>, done: set<string>, key: string, limit: nat)
    requires limit >= |SUFFIX| && key !in m
    ensures Staged(m, done + {key}, limit) == Staged(m, done, limit)
  {
  }

  lemma StageMore(start: Cells, before: Cells, now: Cells, fs: map<string, Value>, key: string, m: map<string, Json>,
                  done: set<string>, limit: nat)
    requires limit >= |SUFFIX| && key in fs
    requires Within(start, before, fs) && Stores(before, fs, Staged(m, done, limit))
    requires Rewrites(before, now, Foot(before, fs[key])) && Good(now, fs[key])
    requires ToJson(now, fs[key]) == CompactField(key, ToJson(before, fs[key]), limit)
    ensures Within(start, now, fs) && Stores(now, fs, Staged(m, done + {key}, limit))
  {
    var staged := Staged(m, done, limit);
    WithinMore(start, before, now, fs, key, staged);
    StageIs(m, done, key, limit);
  }

  lemma StageIs(m: map<string, Json>, done: set<string>, key: string, limit: nat)
    requires limit >= |SUFFIX| && key in m
    ensures var staged := Staged(m, done, limit);
            staged[key := CompactField(key, staged[key], limit)] == Staged(m, done + {key}, limit)
  {
    CompactFieldIdempotent(key, m[key], limit);
  }

  /** No other keyword is touched. */
  lemma AllStaged(m: map<string, Json>, limit: nat)
    requires limit >= |SUFFIX|
    ensures Obj(Staged(m, {DESCRIPTION} + MAP_KEYWORDS + SCHEMA_KEYWORDS, limit)) == Compact(Obj(m), limit)
  {
    assert Staged(m, {DESCRIPTION} + MAP_KEYWORDS + SCHEMA_KEYWORDS, limit) == Compact(Obj(m), limit).fields;
  }

  /** The cell rewritten by itself and then through its fields. */
  lemma SchemaDone(start: Cells, mid: Cells, now: Cells, id: nat, fs: map<string, Value>, m: map<string, Json>,
                   limit: nat)
    requires limit >= |SUFFIX| && Good(start, Ref(id)) && ToJson(start, Ref(id)) == Obj(m)
    requires Rewrites(start, mid, {id}) && Good(mid, Ref(id)) && Foot(mid, Ref(id)) == Foot(start, Ref(id))
    requires mid[id] == fs && Within(mid, now, fs)
    requires Stores(now, fs, Staged(m, {DESCRIPTION} + MAP_KEYWORDS + SCHEMA_KEYWORDS, limit))
    ensures Rewrites(start, now, Foot(start, Ref(id))) && Good(now, Ref(id))
    ensures ToJson(now, Ref(id)) == Compact(ToJson(start, Ref(id)), limit)
  {
    AllStaged(m, limit);
    CellRewritten(mid, now, id, fs);
    CellIs(now, id, Staged(m, {DESCRIPTION} + MAP_KEYWORDS + SCHEMA_KEYWORDS, limit));
    RewritesTwice(start, mid, now, {id}, Foot(mid, Ref(id)), Foot(start, Ref(id)));
  }

  function Described(cell: map<string, Value>, limit: nat): map<string, Value>
    requires limit >= |SUFFIX|
  {
    if DESCRIPTION in cell && cell[DESCRIPTION].Leaf? && cell[DESCRIPTION].json.Str?
    then cell[DESCRIPTION := Leaf(Str(Shorten(cell[DESCRIPTION].json.s, limit)))] else cell
  }

  lemma DescriptionDone(h: Cells, h': Cells, id: nat, m: map<string, Json>, limit: nat)
    requires limit >= |SUFFIX| && Good(h, Ref(id)) && ToJson(h, Ref(id)).fields == m
    requires h' == h[id := Described(h[id], limit)]
    ensures Rewrites(h, h', {id}) && Good(h', Ref(id)) && Foot(h', Ref(id)) == Foot(h, Ref(id))
    ensures Stores(h', h'[id], Staged(m, {DESCRIPTION}, limit))
  {
    assert Rewrites(h, h', {id});
    ShapeKept(h, h', {id}, Ref(id));
    TreeKept(h, h', {id}, Ref(id));
    DescriptionStored(h, h', id, m, limit);
  }

  lemma DescriptionStored(h: Cells, h': Cells, id: nat, m: map<string, Json>, limit: nat)
    requires limit >= |SUFFIX| && Good(h, Ref(id)) && ToJson(h, Ref(id)).fields == m
    requires Rewrites(h, h', {id}) && Good(h', Ref(id)) && h'[id] == Described(h[id], limit)
    ensures Stores(h', h'[id], Staged(m, {DESCRIPTION}, limit))
  {
    CellStores(h', id);
    var after := ToJson(h', Ref(id)).fields;
    forall k | k in m
      ensures after[k] == if k == DESCRIPTION then CompactField(k, m[k], limit) else m[k]
    {
      FieldDescribed(h, h', id, k, limit);
    }
    assert after == Staged(m, {DESCRIPTION}, limit);
  }

  lemma FieldDescribed(h: Cells, h': Cells, id: nat, k: string, limit: nat)
    requires limit >= |SUFFIX| && Good(h, Ref(id)) && k in h[id]
    requires Rewrites(h, h', {id}) && Ordered(h') && h'[id] == Described(h[id], limit)
    ensures var was := ToJson(h, h[id][k]);
            && Known(h', h'[id][k])
            && ToJson(h', h'[id][k]) == (if k == DESCRIPTION then CompactField(k, was, limit) else was)
  {
    if h'[id][k] == h[id][k] {
      ValueKept(h, h', {id}, h[id][k]);
      DescriptionUnlessText(h, h[id][k], limit);
    }
  }

  lemma DescriptionUnlessText(h: Cells, v: Value, limit: nat)
    requires limit >= |SUFFIX| && Good(h, v)
    ensures !(v.Leaf? && v.json.Str?) ==> CompactField(DESCRIPTION, ToJson(h, v), limit) == ToJson(h, v)
  {
    KeywordsApart();
  }

  // --- decoding into fresh cells ------------------------------------------------------------------

  /** `h'` has more cells than `h`; the cells of `h` are as they were. */
  ghost predicate Extends(h: Cells, h': Cells) {
    Ordered(h) && Ordered(h') && forall id :: id in h ==> id in h' && h'[id] == h[id]
  }

  /** Values do not notice new cells. */
  lemma {:induction false} ExtendShape(h: Cells, h': Cells, v: Value)
    requires Extends(h, h') && Known(h, v)
    ensures Known(h', v) && Foot(h', v) == Foot(h, v)
    decreases Rank(v), v
  {
    match v
    case Leaf(_) =>
    case List(items) =>
      forall i | 0 <= i < |items|
        ensures Known(h', items[i]) && Foot(h', items[i]) == Foot(h, items[i])
      {
        ExtendShape(h, h', items[i]);
      }
    case Ref(id) =>
      forall k | k in h[id]
        ensures Foot(h', h[id][k]) == Foot(h, h[id][k])
      {
        ExtendShape(h, h', h[id][k]);
      }
  }

  lemma {:induction false} ExtendJson(h: Cells, h': Cells, v: Value)
    requires Extends(h, h') && Known(h, v)
    ensures Known(h', v) && ToJson(h', v) == ToJson(h, v)
    decreases Rank(v), v
  {
    ExtendShape(h, h', v);
    match v
    case Leaf(_) =>
    case List(items) =>
      forall i | 0 <= i < |items|
        ensures ToJson(h', items[i]) == ToJson(h, items[i])
      {
        ExtendJson(h, h', items[i]);
      }
    case Ref(id) =>
      forall k | k in h[id]
        ensures ToJson(h', h[id][k]) == ToJson(h, h[id][k])
      {
        ExtendJson(h, h', h[id][k]);
      }
  }

  lemma {:induction false} ExtendTree(h: Cells, h': Cells, v: Value)
    requires Extends(h, h') && Known(h, v) && Tree(h, v)
    ensures Known(h', v) && Tree(h', v)
    decreases Rank(v), v
  {
    ExtendShape(h, h', v);
    match v
    case Leaf(_) =>
    case List(items) =>
      forall i | 0 <= i < |items|
        ensures Tree(h', items[i]) && Foot(h', items[i]) == Foot(h, items[i])
      {
        ExtendShape(h, h', items[i]);
        ExtendTree(h, h', items[i]);
      }
    case Ref(id) =>
      forall k | k in h[id]
        ensures Tree(h', h[id][k]) && Foot(h', h[id][k]) == Foot(h, h[id][k])
      {
        ExtendShape(h, h', h[id][k]);
        ExtendTree(h, h', h[id][k]);
      }
  }

  lemma ForestExtends<K(!new)>(h: Cells, h': Cells, fs: map<K, Value>, m: map<K, Json>)
    requires Stores(h, fs, m) && Extends(h, h')
    ensures Stores(h', fs, m) && forall k :: k in fs ==> Foot(h', fs[k]) == Foot(h, fs[k])
  {
    forall k | k in fs
      ensures Known(h', fs[k]) && Tree(h', fs[k]) && Foot(h', fs[k]) == Foot(h, fs[k]) && ToJson(h', fs[k]) == m[k]
    {
      ExtendShape(h, h', fs[k]);
      ExtendJson(h, h', fs[k]);
      ExtendTree(h, h', fs[k]);
    }
  }

  /** All cells of the forest are numbered from `lo` up to `hi`. */
  ghost predicate Ranged<K(!new)>(h: Cells, fs: map<K, Value>, lo: nat, hi: nat)
    requires Forest(h, fs)
  {
    forall k, c :: k in fs && c in Foot(h, fs[k]) ==> lo <= c < hi
  }

  /** A forest grows by a tree of newer cells. */
  lemma ForestGrows<K(!new)>(h: Cells, h': Cells, fs: map<K, Value>, m: map<K, Json>, k: K, v: Value,
                             lo: nat, mid: nat, hi: nat)
    requires Stores(h, fs, m) && Ranged(h, fs, lo, mid) && Extends(h, h') && k !in fs && lo <= mid <= hi
    requires Good(h', v) && forall c :: c in Foot(h', v) ==> mid <= c < hi
    ensures Stores(h', fs[k := v], m[k := ToJson(h', v)]) && Ranged(h', fs[k := v], lo, hi)
  {
    ForestExtends(h, h', fs, m);
    ForestAdds(h', fs, m, k, v, mid);
  }

  lemma ForestAdds<K(!new)>(h: Cells, fs: map<K, Value>, m: map<K, Json>, k: K, v: Value, mid: nat)
    requires Stores(h, fs, m) && k !in fs && Good(h, v)
    requires forall l, c :: l in fs && c in Foot(h, fs[l]) ==> c < mid
    requires forall c :: c in Foot(h, v) ==> mid <= c
    ensures Stores(h, fs[k := v], m[k := ToJson(h, v)])
  {
    var gs := fs[k := v];
    forall l, n | l in gs && n in gs && l != n
      ensures Foot(h, gs[l]) !! Foot(h, gs[n])
    {
      assert l != k && n != k ==> Foot(h, fs[l]) !! Foot(h, fs[n]);
    }
  }

  /** The decoded fields become a cell of their own. */
  lemma CellMade(h: Cells, h': Cells, id: nat, cell: map<string, Value>, m: map<string, Json>, lo: nat)
    requires Stores(h, cell, m) && Ranged(h, cell, lo, id) && lo <= id
    requires (forall i :: i in h ==> i < id) && (forall k :: k in cell ==> Rank(cell[k]) <= id)
    requires h' == h[id := cell]
    ensures Extends(h, h') && Good(h', Ref(id)) && ToJson(h', Ref(id)) == Obj(m)
    ensures forall c :: c in Foot(h', Ref(id)) ==> lo <= c <= id
  {
    CellOrdered(h, h', id, cell);
    ForestExtends(h, h', cell, m);
    assert ToJson(h', Ref(id)).fields == m;
  }

  lemma CellOrdered(h: Cells, h': Cells, id: nat, cell: map<string, Value>)
    requires Ordered(h) && id !in h && h' == h[id := cell]
    requires forall k :: k in cell ==> Rank(cell[k]) <= id && Known(h, cell[k])
    ensures Ordered(h')
  {
    forall i, k | i in h' && k in h'[i]
      ensures Rank(h'[i][k]) <= i && Known(h', h'[i][k])
    {
      KnownMore(h, h', if i == id then cell[k] else h[i][k]);
    }
  }

  lemma KnownMore(h: Cells, h': Cells, v: Value)
    requires Known(h, v) && h.Keys <= h'.Keys
    ensures Known(h', v)
  {
  }

  function Indexed<T>(s: seq<T>): map<nat, T> {
    map i: nat | i < |s| :: s[i]
  }

  lemma ItemAdded(items: seq<Value>, v: Value, js: seq<Json>, i: nat)
    requires |items| == i < |js|
    ensures Indexed(items + [v]) == Indexed(items)[i := v]
    ensures Indexed(js[..i + 1]) == Indexed(js[..i])[i := js[i]]
    ensures RankAll(items + [v]) == if RankAll(items) > Rank(v) then RankAll(items) else Rank(v)
  {
    RankAppend(items, v);
    IndexedAppend(items, v);
    assert js[..i + 1] == js[..i] + [js[i]];
    IndexedAppend(js[..i], js[i]);
  }

  lemma IndexedAppend<T>(s: seq<T>, x: T)
    ensures Indexed(s + [x]) == Indexed(s)[|s| := x]
  {
  }

  lemma {:induction false} RankAppend(items: seq<Value>, v: Value)
    ensures RankAll(items + [v]) == if RankAll(items) > Rank(v) then RankAll(items) else Rank(v)
  {
    if items == [] {
      assert items + [v] == [v];
    } else {
      RankAppend(items[1..], v);
      assert (items + [v])[1..] == items[1..] + [v];
    }
  }

  /** A list of trees grows by a tree of newer cells. */
  lemma ListGrows(h: Cells, h': Cells, items: seq<Value>, js: seq<Json>, v: Value, lo: nat, mid: nat, hi: nat)
    requires |items| < |js| && Extends(h, h') && lo <= mid <= hi && RankAll(items) <= hi && Rank(v) <= hi
    requires Stores(h, Indexed(items), Indexed(js[..|items|])) && Ranged(h, Indexed(items), lo, mid)
    requires Good(h', v) && ToJson(h', v) == js[|items|] && forall c :: c in Foot(h', v) ==> mid <= c < hi
    ensures Stores(h', Indexed(items + [v]), Indexed(js[..|items| + 1]))
    ensures Ranged(h', Indexed(items + [v]), lo, hi) && RankAll(items + [v]) <= hi
  {
    ForestGrows(h, h', Indexed(items), Indexed(js[..|items|]), |items|, v, lo, mid, hi);
    ItemAdded(items, v, js, |items|);
  }

  lemma ListMade(h: Cells, items: seq<Value>, js: seq<Json>, lo: nat, hi: nat)
    requires Stores(h, Indexed(items), Indexed(js)) && Ranged(h, Indexed(items), lo, hi) && |items| == |js|
    ensures Good(h, List(items)) && forall c :: c in Foot(h, List(items)) ==> lo <= c < hi
    ensures ToJson(h, List(items)) == Arr(js)
  {
    var fs, m := Indexed(items), Indexed(js);
    assert forall i: nat :: i < |items| ==> i in fs && fs[i] == items[i] && m[i] == js[i];
    assert forall i :: 0 <= i < |items| ==> Known(h, items[i]) && Tree(h, items[i]) && ToJson(h, items[i]) == js[i];
  }

  class Document {
    var cells: Cells
    var next: nat

    constructor ()
      ensures cells == map[] && Valid()
    {
      cells, next := map[], 0;
    }

    /** Cells are numbered in the order in which they are made. */
    ghost predicate Valid()
      reads this
    {
      Ordered(cells) && forall id :: id in cells ==> id < next
    }

    /** shortenSchema(value, limit) */
    method ShortenSchema(value: Value, limit: nat)
      requires limit >= |SUFFIX| && Good(cells, value)
      modifies this`cells
      ensures Rewrites(old(cells), cells, Foot(old(cells), value)) && Good(cells, value)
      ensures ToJson(cells, value) == Compact(ToJson(old(cells), value), limit)
      decreases Rank(value), 3
    {
      if !value.Ref? {
        return;
      }
      ghost var start, m := cells, ToJson(cells, value).fields;
      ShortenDescription(value.id, limit, m);
      ghost var mid := cells;
      var fields := cells[value.id];
      NamedKeywords();
      SchemaKeywords();
      ShortenKeywords(fields, NAMED, limit, m, {DESCRIPTION}, mid, value.id);
      ShortenKeywords(fields, SCHEMAS, limit, m, {DESCRIPTION} + MAP_KEYWORDS, mid, value.id);
      SchemaDone(start, mid, cells, value.id, fields, m, limit);
    }

    /** `object["description"] = shorten(description, limit)`, if it is a string. */
    method ShortenDescription(id: nat, limit: nat, ghost m: map<string, Json>)
      requires limit >= |SUFFIX| && Good(cells, Ref(id)) && ToJson(cells, Ref(id)).fields == m
      modifies this`cells
      ensures Rewrites(old(cells), cells, {id}) && Good(cells, Ref(id))
      ensures Foot(cells, Ref(id)) == Foot(old(cells), Ref(id))
      ensures Stores(cells, cells[id], Staged(m, {DESCRIPTION}, limit))
    {
      var cell := cells[id];
      if DESCRIPTION in cell && cell[DESCRIPTION].Leaf? && cell[DESCRIPTION].json.Str? {
        cells := cells[id := cell[DESCRIPTION := Leaf(Str(Shorten(cell[DESCRIPTION].json.s, limit)))]];
      }
      assert cells == old(cells)[id := Described(cell, limit)];
      DescriptionDone(old(cells), cells, id, m, limit);
    }

    /** One of the two loops over keywords. */
    method ShortenKeywords(fields: map<string, Value>, keys: seq<string>, limit: nat, ghost m: map<string, Json>,
                           ghost done: set<string>, ghost start: Cells, ghost rank: nat)
      requires limit >= |SUFFIX| && Within(start, cells, fields) && Stores(cells, fields, Staged(m, done, limit))
      requires forall k :: k in fields ==> Rank(fields[k]) <= rank
      requires Keys(keys) <= MAP_KEYWORDS + SCHEMA_KEYWORDS
      modifies this`cells
      ensures Within(start, cells, fields) && Stores(cells, fields, Staged(m, done + Keys(keys), limit))
      decreases rank, 8
    {
      var i := 0;
      while i < |keys|
        invariant i <= |keys| && Within(start, cells, fields)
        invariant Stores(cells, fields, Staged(m, done + Keys(keys[..i]), limit))
      {
        var key := keys[i];
        KeysMore(keys, i);
        if key in fields {
          ghost var before := cells;
          ShortenKeyword(key, fields[key], limit);
          StageMore(start, before, cells, fields, key, m, done + Keys(keys[..i]), limit);
        } else {
          StageSkips(m, done + Keys(keys[..i]), key, limit);
        }
        i := i + 1;
        assert done + Keys(keys[..i - 1]) + {key} == done + Keys(keys[..i]);
      }
      assert keys[..i] == keys;
    }

    /** The value of one keyword: named schemas, a slice of schemas, or a schema. */
    method ShortenKeyword(key: string, value: Value, limit: nat)
      requires limit >= |SUFFIX| && Good(cells, value) && key in MAP_KEYWORDS + SCHEMA_KEYWORDS
      modifies this`cells
      ensures Rewrites(old(cells), cells, Foot(old(cells), value)) && Good(cells, value)
      ensures ToJson(cells, value) == CompactField(key, ToJson(old(cells), value), limit)
      decreases Rank(value), 7
    {
      KeywordsApart();
      if key in NamedSet() {
        if value.Ref? {
          ShortenNamedAt(key, value, limit);
        }
      } else if value.List? {
        ShortenListAt(key, value, limit);
      } else {
        ShortenSchema(value, limit);
      }
    }

    /** The children of a keyword such as `properties`. */
    method ShortenNamedAt(key: string, value: Value, limit: nat)
      requires limit >= |SUFFIX| && Good(cells, value) && value.Ref? && key in MAP_KEYWORDS
      modifies this`cells
      ensures Rewrites(old(cells), cells, Foot(old(cells), value)) && Good(cells, value)
      ensures ToJson(cells, value) == CompactField(key, ToJson(old(cells), value), limit)
      decreases Rank(value), 6
    {
      ghost var start, children, m := cells, cells[value.id], ToJson(cells, value).fields;
      CellStores(start, value.id);
      ShortenNamed(cells[value.id], limit, m, value.id);
      CellRewritten(start, cells, value.id, children);
      CellIs(cells, value.id, Partly(m, m.Keys, limit));
      NamedField(key, m, limit);
    }

    /** The schemas of a keyword such as `allOf`, in a slice. */
    method ShortenListAt(key: string, value: Value, limit: nat)
      requires limit >= |SUFFIX| && Good(cells, value) && value.List? && key in SCHEMA_KEYWORDS
      modifies this`cells
      ensures Rewrites(old(cells), cells, Foot(old(cells), value)) && Good(cells, value)
      ensures ToJson(cells, value) == CompactField(key, ToJson(old(cells), value), limit)
      decreases Rank(value), 6
    {
      ghost var start, js := cells, ToJson(cells, value).items;
      ListStores(start, value);
      ShortenListed(value.items, limit, js, Rank(value));
      ListRewritten(start, cells, value);
      ListIs(cells, value, FirstCompact(js, |js|, limit));
      ListField(key, js, limit);
    }

    /** One child of several. */
    method ShortenChild<K(!new)>(child: Value, limit: nat, ghost fs: map<K, Value>, ghost k: K, ghost m: map<K, Json>,
                                 ghost start: Cells)
      requires limit >= |SUFFIX| && k in fs && fs[k] == child
      requires Within(start, cells, fs) && Stores(cells, fs, m)
      modifies this`cells
      ensures Within(start, cells, fs) && Stores(cells, fs, m[k := Compact(m[k], limit)])
      decreases Rank(child), 4
    {
      ShortenSchema(child, limit);
      WithinMore(start, old(cells), cells, fs, k, m);
    }

    /** `for _, child := range children`, over a map: any order. */
    method ShortenNamed(children: map<string, Value>, limit: nat, ghost m: map<string, Json>, ghost rank: nat)
      requires limit >= |SUFFIX| && Stores(cells, children, m)
      requires forall k :: k in children ==> Rank(children[k]) <= rank
      modifies this`cells
      ensures Within(old(cells), cells, children) && Stores(cells, children, Partly(m, m.Keys, limit))
      decreases rank, 5
    {
      ghost var done := {};
      var rest := children.Keys;
      assert Partly(m, done, limit) == m;
      while rest != {}
        invariant rest + done == children.Keys && rest !! done
        invariant Within(old(cells), cells, children) && Stores(cells, children, Partly(m, done, limit))
        decreases rest
      {
        var k :| k in rest;
        ShortenChild(children[k], limit, children, k, Partly(m, done, limit), old(cells));
        PartlyMore(m, done, k, limit);
        rest, done := rest - {k}, done + {k};
      }
    }

    /** `for _, child := range children`, over a slice. */
    method ShortenListed(children: seq<Value>, limit: nat, ghost js: seq<Json>, ghost rank: nat)
      requires limit >= |SUFFIX| && |js| == |children| && RankAll(children) <= rank
      requires Stores(cells, Indexed(children), Indexed(js))
      modifies this`cells
      ensures Within(old(cells), cells, Indexed(children))
      ensures Stores(cells, Indexed(children), Indexed(FirstCompact(js, |js|, limit)))
      decreases rank, 5
    {
      var i: nat := 0;
      assert FirstCompact(js, 0, limit) == js;
      while i < |children|
        invariant i <= |children| && Within(old(cells), cells, Indexed(children))
        invariant Stores(cells, Indexed(children), Indexed(FirstCompact(js, i, limit)))
      {
        ShortenChild(children[i], limit, Indexed(children), i, Indexed(FirstCompact(js, i, limit)), old(cells));
        FirstMore(js, i, limit);
        i := i + 1;
      }
    }

    /** Decode: the value of a JSON text, in maps nobody else refers to. */
    method Decode(j: Json) returns (v: Value)
      requires Valid()
      modifies this
      ensures Valid() && Extends(old(cells), cells) && old(next) <= next
      ensures Good(cells, v) && ToJson(cells, v) == j && Rank(v) <= next
      ensures forall c :: c in Foot(cells, v) ==> old(next) <= c < next
      decreases j, 2
    {
      match j
      case Arr(_) => v := DecodeItems(j);
      case Obj(_) => v := DecodeFields(j);
      case _ => v := Leaf(j);
    }

    method DecodeFields(j: Json) returns (v: Value)
      requires Valid() && j.Obj?
      modifies this
      ensures Valid() && Extends(old(cells), cells) && old(next) <= next
      ensures Good(cells, v) && ToJson(cells, v) == j && Rank(v) <= next
      ensures forall c :: c in Foot(cells, v) ==> old(next) <= c < next
      decreases j, 1
    {
      var fields := j.fields;
      var cell: map<string, Value> := map[];
      ghost var m: map<string, Json> := map[];
      var rest := fields.Keys;
      while rest != {}
        invariant Valid() && Extends(old(cells), cells) && old(next) <= next
        invariant rest <= fields.Keys && m == map k | k in fields && k !in rest :: fields[k]
        invariant Stores(cells, cell, m) && Ranged(cells, cell, old(next), next)
        invariant forall k :: k in cell ==> Rank(cell[k]) <= next
        decreases rest
      {
        var k :| k in rest;
        cell := DecodeField(cell, j, k, m, old(next));
        m, rest := m[k := fields[k]], rest - {k};
      }
      assert m == fields;
      ghost var before := cells;
      v := Ref(next);
      cells, next := cells[next := cell], next + 1;
      CellMade(before, cells, v.id, cell, m, old(next));
    }

    /** One more field of an object of which `m` has been decoded, in cells from `lo` on. */
    method DecodeField(cell: map<string, Value>, j: Json, k: string, ghost m: map<string, Json>, ghost lo: nat)
      returns (more: map<string, Value>)
      requires Valid() && j.Obj? && k in j.fields && k !in cell && lo <= next
      requires Stores(cells, cell, m) && Ranged(cells, cell, lo, next)
      requires forall l :: l in cell ==> Rank(cell[l]) <= next
      modifies this
      ensures Valid() && Extends(old(cells), cells) && old(next) <= next
      ensures Stores(cells, more, m[k := j.fields[k]]) && Ranged(cells, more, lo, next)
      ensures forall l :: l in more ==> Rank(more[l]) <= next
      decreases j, 0
    {
      ghost var before, mid := cells, next;
      var child := Decode(j.fields[k]);
      ForestGrows(before, cells, cell, m, k, child, lo, mid, next);
      more := cell[k := child];
    }

    method DecodeItems(j: Json) returns (v: Value)
      requires Valid() && j.Arr?
      modifies this
      ensures Valid() && Extends(old(cells), cells) && old(next) <= next
      ensures Good(cells, v) && ToJson(cells, v) == j && Rank(v) <= next
      ensures forall c :: c in Foot(cells, v) ==> old(next) <= c < next
      decreases j, 1
    {
      var items: seq<Value> := [];
      while |items| < |j.items|
        invariant Valid() && Extends(old(cells), cells) && old(next) <= next && |items| <= |j.items|
        invariant Stores(cells, Indexed(items), Indexed(j.items[..|items|]))
        invariant Ranged(cells, Indexed(items), old(next), next) && RankAll(items) <= next
      {
        items := DecodeItem(items, j, old(next));
      }
      assert j.items[..|items|] == j.items;
      v := List(items);
      ListMade(cells, items, j.items, old(next), next);
    }

    /** The next item of a list of which `items` have been decoded in cells from `lo` on. */
    method DecodeItem(items: seq<Value>, j: Json, ghost lo: nat) returns (more: seq<Value>)
      requires Valid() && j.Arr? && |items| < |j.items| && lo <= next && RankAll(items) <= next
      requires Stores(cells, Indexed(items), Indexed(j.items[..|items|])) && Ranged(cells, Indexed(items), lo, next)
      modifies this
      ensures Valid() && Extends(old(cells), cells) && old(next) <= next && RankAll(more) <= next
      ensures |more| == |items| + 1
      ensures Stores(cells, Indexed(more), Indexed(j.items[..|more|])) && Ranged(cells, Indexed(more), lo, next)
      decreases j, 0
    {
      ghost var before, mid := cells, next;
      var child := Decode(j.items[|items|]);
      ListGrows(before, cells, items, j.items, child, lo, mid, next);
      more := items + [child];
    }

    /** compactSchema: a compacted copy; what was there before is not touched, and may share maps
        within itself, since encoding writes out a map wherever it is met.  Encoding and
        decoding is taken as copying, so the error results of the two do not occur. */
    method CompactSchema(schema: Option<Value>, limit: nat) returns (copy: Option<Value>)
      requires limit >= |SUFFIX| && Valid() && (schema.Some? ==> Known(cells, schema.value))
      modifies this
      ensures Valid() && (forall id :: id in old(cells) ==> id in cells && cells[id] == old(cells)[id])
      ensures schema.None? <==> copy.None?
      ensures schema.Some? ==>
                && Good(cells, copy.value)
                && ToJson(cells, copy.value) == Compact(ToJson(old(cells), schema.value), limit)
                && Foot(cells, copy.value) !! old(cells).Keys
    {
      if schema.None? {
        return None;
      }
      var decoded := Decode(ToJson(cells, schema.value));
      ghost var before := cells;
      ShortenSchema(decoded, limit);
      ShapeKept(before, cells, Foot(before, decoded), decoded);
      return Some(decoded);
    }
  }
}
