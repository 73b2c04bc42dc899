/** What a client of one endpoint sees and may call: the list filters of `forward`
    (internal/bridge/bridge.go:242-307) over whole paginations, and the gates in front of it
    (bridge.go:166-197). */
module Listing {
  import opened Wrappers
  import opened Json
  import opened Schema
  import opened Config

  /** `rest` stands for the fields that the bridge passes on unread. */
  datatype Tool = Tool(
    name: string, description: string, inputSchema: Option<Json>, outputSchema: Option<Json>, rest: int)

  datatype Page<T> = Page(items: seq<T>, next: string)

  /** `allowed(list, name)` */
  method Allowed(list: seq<string>, name: string) returns (ok: bool)
    ensures ok <==> name in list
  {
    for i := 0 to |list|
      invariant name !in list[..i]
    {
      if list[i] == name {
        return true;
      }
    }
    assert list[..|list|] == list;
    return false;
  }

  // --- the allowlist filter -----------------------------------------------------------------

  /** The entries whose name or URI is on the allowlist. */
  function Kept<T>(items: seq<T>, list: seq<string>, name: T -> string): seq<T> {
    if items == [] then [] else (if name(items[0]) in list then [items[0]] else []) + Kept(items[1..], list, name)
  }

  lemma {:induction false} KeptAppends<T>(a: seq<T>, b: seq<T>, list: seq<string>, name: T -> string)
    ensures Kept(a + b, list, name) == Kept(a, list, name) + Kept(b, list, name)
  {
    if a == [] {
      assert a + b == b;
    } else {
      KeptAppends(a[1..], b, list, name);
      assert (a + b)[1..] == a[1..] + b && (a + b)[0] == a[0];
      assert Kept(a + b, list, name) == (if name(a[0]) in list then [a[0]] else []) + Kept(a[1..] + b, list, name);
    }
  }

  /** The positions from `i` on whose entry has a name on the list, in order. */
  function AllowedAt<T>(items: seq<T>, list: seq<string>, name: T -> string, i: nat): (at: seq<nat>)
    requires i <= |items|
    ensures forall a :: 0 <= a < |at| ==> i <= at[a] < |items| && name(items[at[a]]) in list
    ensures forall a, b :: 0 <= a < b < |at| ==> at[a] < at[b]
    decreases |items| - i
  {
    if i == |items| then []
    else if name(items[i]) in list then [i] + AllowedAt(items, list, name, i + 1)
    else AllowedAt(items, list, name, i + 1)
  }

  lemma {:induction false} AllowedFound<T>(items: seq<T>, list: seq<string>, name: T -> string, i: nat, k: nat)
    requires i <= k < |items| && name(items[k]) in list
    ensures k in AllowedAt(items, list, name, i)
    decreases |items| - i
  {
    if i < k {
      AllowedFound(items, list, name, i + 1, k);
    }
  }

  lemma {:induction false} KeptFrom<T>(items: seq<T>, list: seq<string>, name: T -> string, i: nat)
    requires i <= |items|
    ensures var at, r := AllowedAt(items, list, name, i), Kept(items[i..], list, name);
            |r| == |at| && forall a :: 0 <= a < |at| ==> r[a] == items[at[a]]
    decreases |items| - i
  {
    if i < |items| {
      KeptFrom(items, list, name, i + 1);
      assert items[i..][1..] == items[i + 1..];
      var at, r := AllowedAt(items, list, name, i), Kept(items[i..], list, name);
      if name(items[i]) in list {
        assert at[1..] == AllowedAt(items, list, name, i + 1) && r[1..] == Kept(items[i + 1..], list, name);
        assert forall a :: 0 < a < |at| ==> at[a] == at[1..][a - 1] && r[a] == r[1..][a - 1];
      }
    }
  }

  /** What the filter does, by position: the kept entries are exactly those whose name is on the
      list, each once, unchanged and in order. */
  lemma KeptInOrder<T>(items: seq<T>, list: seq<string>, name: T -> string) returns (at: seq<nat>)
    ensures |Kept(items, list, name)| == |at|
    ensures forall a :: 0 <= a < |at| ==>
              at[a] < |items| && name(items[at[a]]) in list && Kept(items, list, name)[a] == items[at[a]]
    ensures forall k: nat :: k < |items| && name(items[k]) in list ==> k in at
    ensures forall a, b :: 0 <= a < b < |at| ==> at[a] < at[b]
  {
    at := AllowedAt(items, list, name, 0);
    KeptFrom(items, list, name, 0);
    assert items[0..] == items;
    forall k: nat | k < |items| && name(items[k]) in list
      ensures k in at
    {
      AllowedFound(items, list, name, 0, k);
    }
  }

  // --- one page -------------------------------------------------------------------------------

  function CompactOptional(s: Option<Json>, limit: nat): Option<Json>
    requires limit >= |SUFFIX|
  {
    if s.None? then None else Some(Compact(s.value, limit))
  }

  /** compactTool: a copy with shorter guidance. */
  function CompactTool(t: Tool, limit: nat): Tool
    requires limit >= |SUFFIX|
  {
    t.(description := Shorten(t.description, limit), inputSchema := CompactOptional(t.inputSchema, limit),
       outputSchema := CompactOptional(t.outputSchema, limit))
  }

  /** The only fact about a policy that the filter needs; Validate establishes it. */
  predicate Usable(p: Server) {
    p.descriptionLimit == 0 || p.descriptionLimit >= |SUFFIX|
  }

  function Presented(p: Server, t: Tool): Tool
    requires Usable(p)
  {
    if p.descriptionLimit > 0 then CompactTool(t, p.descriptionLimit) else t
  }

  /** Field by field: the name and what is passed on unread stay, the guidance is cut and each
      schema that is there is compacted; without a limit nothing changes. */
  lemma PresentedFields(p: Server, t: Tool)
    requires Usable(p)
    ensures Presented(p, t).name == t.name && Presented(p, t).rest == t.rest
    ensures p.descriptionLimit == 0 ==> Presented(p, t) == t
    ensures p.descriptionLimit > 0 ==>
              var u, limit := Presented(p, t), p.descriptionLimit;
              && limit >= 39 && CutTo(t.description, u.description, limit)
              && u.inputSchema.Some? == t.inputSchema.Some? && u.outputSchema.Some? == t.outputSchema.Some?
              && (t.inputSchema.Some? ==> u.inputSchema.value == Compact(t.inputSchema.value, limit))
              && (t.outputSchema.Some? ==> u.outputSchema.value == Compact(t.outputSchema.value, limit))
  {
  }

  /** The tools of the allowlist, as presented, in the order given. */
  function Exposed(p: Server, tools: seq<Tool>): seq<Tool>
    requires Usable(p)
  {
    if tools == [] then []
    else (if tools[0].name in p.tools then [Presented(p, tools[0])] else []) + Exposed(p, tools[1..])
  }

  /** bridge_describe_tool itself; its fixed schema is part of `rest`. */
  const DESCRIPTOR: Tool := Tool(
    DESCRIBE_TOOL,
    "Read the complete original guidance and schema for one allowed tool. "
    + "This only reads metadata; it never executes that tool.",
    None, None, 0)

  function Helper(p: Server): seq<Tool> {
    if p.descriptionLimit > 0 then [DESCRIPTOR] else []
  }

  /** A first request has no cursor, or an empty one. */
  predicate First(cursor: Option<string>) {
    cursor.None? || cursor.value == ""
  }

  function Forwarded(p: Server, cursor: Option<string>, page: Page<Tool>): Page<Tool>
    requires Usable(p)
  {
    page.(items := Exposed(p, page.items) + if First(cursor) then Helper(p) else [])
  }

  lemma {:induction false} ExposedAppends(p: Server, a: seq<Tool>, b: seq<Tool>)
    requires Usable(p)
    ensures Exposed(p, a + b) == Exposed(p, a) + Exposed(p, b)
  {
    if a == [] {
      assert a + b == b;
    } else {
      ExposedAppends(p, a[1..], b);
      assert (a + b)[1..] == a[1..] + b;
    }
  }

  /** forward, for tools/list: the append loop over the upstream page. */
  method ForwardTools(p: Server, cursor: Option<string>, page: Page<Tool>) returns (r: Page<Tool>)
    requires Usable(p)
    ensures r == Forwarded(p, cursor, page)
    ensures r.next == page.next
    ensures r.items == Exposed(p, page.items)
                       + if p.descriptionLimit > 0 && (cursor.None? || cursor.value == "") then [DESCRIPTOR] else []
  {
    var items: seq<Tool> := [];
    for i := 0 to |page.items|
      invariant items == Exposed(p, page.items[..i])
    {
      var t := page.items[i];
      assert page.items[..i + 1] == page.items[..i] + [t];
      ExposedAppends(p, page.items[..i], [t]);
      var ok := Allowed(p.tools, t.name);
      if ok {
        if p.descriptionLimit > 0 {
          items := items + [CompactTool(t, p.descriptionLimit)];
        } else {
          items := items + [t];
        }
      }
    }
    assert page.items[..|page.items|] == page.items;
    if p.descriptionLimit > 0 && (cursor.None? || cursor.value == "") {
      items := items + [DESCRIPTOR];
    }
    return page.(items := items);
  }

  function ToolName(t: Tool): string {
    t.name
  }

  /** Filtered first, presented one by one. */
  lemma {:induction false} ExposedIsKept(p: Server, tools: seq<Tool>)
    requires Usable(p)
    ensures var kept := Kept(tools, p.tools, ToolName);
            && |Exposed(p, tools)| == |kept|
            && forall a :: 0 <= a < |kept| ==> Exposed(p, tools)[a] == Presented(p, kept[a])
  {
    if tools != [] {
      ExposedIsKept(p, tools[1..]);
    }
  }

  /** For tools: the presented ones are exactly the allowed ones,
      each once and in order. */
  lemma ExposedInOrder(p: Server, tools: seq<Tool>) returns (at: seq<nat>)
    requires Usable(p)
    ensures |Exposed(p, tools)| == |at|
    ensures forall a :: 0 <= a < |at| ==>
              at[a] < |tools| && tools[at[a]].name in p.tools && Exposed(p, tools)[a] == Presented(p, tools[at[a]])
    ensures forall k: nat :: k < |tools| && tools[k].name in p.tools ==> k in at
    ensures forall a, b :: 0 <= a < b < |at| ==> at[a] < at[b]
  {
    ExposedIsKept(p, tools);
    at := KeptInOrder(tools, p.tools, ToolName);
    assert forall k: nat :: k < |tools| ==> ToolName(tools[k]) == tools[k].name;
  }

  // --- a whole pagination -----------------------------------------------------------------------

  /** The pages of one pagination: each but the last names the next cursor. */
  predicate Pagination<T>(pages: seq<Page<T>>) {
    pages != [] && forall i :: 0 <= i < |pages| - 1 ==> pages[i].next != ""
  }

  /** The cursor of the request that was answered with page `i`. */
  function CursorOf<T>(start: Option<string>, pages: seq<Page<T>>, i: nat): Option<string>
    requires i < |pages|
  {
    if i == 0 then start else Some(pages[i - 1].next)
  }

  function AllItems<T>(pages: seq<Page<T>>): seq<T> {
    if pages == [] then [] else pages[0].items + AllItems(pages[1..])
  }

  function ForwardedPages(p: Server, start: Option<string>, pages: seq<Page<Tool>>): seq<Page<Tool>>
    requires Usable(p)
  {
    seq(|pages|, i requires 0 <= i < |pages| => Forwarded(p, CursorOf(start, pages, i), pages[i]))
  }

  lemma {:induction false} LaterPages(p: Server, pages: seq<Page<Tool>>, seen: seq<Page<Tool>>)
    requires Usable(p) && |seen| == |pages|
    requires forall i :: 0 <= i < |pages| ==> seen[i].items == Exposed(p, pages[i].items)
    ensures AllItems(seen) == Exposed(p, AllItems(pages))
  {
    if pages != [] {
      LaterPages(p, pages[1..], seen[1..]);
      ExposedAppends(p, pages[0].items, AllItems(pages[1..]));
    }
  }

  /** MAIN: a client that pages through the bridge sees the allowed tools of all upstream
      pages, in upstream order and as presented, with the metadata helper once, at the end of
      the first page. */
  lemma {:induction false} PaginationAgrees(p: Server, start: Option<string>, pages: seq<Page<Tool>>)
    requires Usable(p) && First(start) && Pagination(pages)
    ensures AllItems(ForwardedPages(p, start, pages))
         == Exposed(p, pages[0].items) + Helper(p) + Exposed(p, AllItems(pages[1..]))
    ensures Exposed(p, AllItems(pages)) == Exposed(p, pages[0].items) + Exposed(p, AllItems(pages[1..]))
  {
    var seen := ForwardedPages(p, start, pages);
    forall i | 0 < i < |pages|
      ensures seen[i].items == Exposed(p, pages[i].items)
    {
      assert !First(CursorOf(start, pages, i));
    }
    LaterPages(p, pages[1..], seen[1..]);
    ExposedAppends(p, pages[0].items, AllItems(pages[1..]));
  }

  /** And it is led through the same cursors: its requests are those the upstream's own pages
      would lead to, and it ends when they end. */
  lemma SameCursors(p: Server, start: Option<string>, pages: seq<Page<Tool>>, i: nat)
    requires Usable(p) && Pagination(pages) && i < |pages|
    ensures var seen := ForwardedPages(p, start, pages);
            && Pagination(seen) && |seen| == |pages|
            && CursorOf(start, seen, i) == CursorOf(start, pages, i) && seen[i].next == pages[i].next
  {
    var seen := ForwardedPages(p, start, pages);
    assert forall j: nat :: j < |pages| ==> seen[j].next == pages[j].next;
  }

  // --- the gates --------------------------------------------------------------------------------

  /** descriptionTarget: `target` is the tool_name of strictly decoded arguments, None when
      decoding fails or something trails. */
  function DescriptionTarget(p: Server, target: Option<string>): Option<string> {
    if target.Some? && target.value in p.tools then target else None
  }

  /** The gate for tools/call. */
  method CallGate(p: Server, name: string, target: Option<string>) returns (admitted: bool)
    ensures admitted <==> MayCall(p, name, target)
    ensures p.descriptionLimit > 0 && name == "bridge_describe_tool" ==>
              (admitted <==> target.Some? && target.value in p.tools)
    ensures !(p.descriptionLimit > 0 && name == "bridge_describe_tool") ==> (admitted <==> name in p.tools)
  {
    if p.descriptionLimit > 0 && name == DESCRIBE_TOOL {
      if target.None? {
        return false;
      }
      admitted := Allowed(p.tools, target.value);
    } else {
      admitted := Allowed(p.tools, name);
    }
  }

  predicate MayCall(p: Server, name: string, target: Option<string>) {
    if p.descriptionLimit > 0 && name == DESCRIBE_TOOL then DescriptionTarget(p, target).Some? else name in p.tools
  }

  function Named(tools: seq<Tool>, name: string): seq<Tool> {
    if tools == [] then [] else (if tools[0].name == name then [tools[0]] else []) + Named(tools[1..], name)
  }

  lemma {:induction false} NamedAppends(a: seq<Tool>, b: seq<Tool>, name: string)
    ensures Named(a + b, name) == Named(a, name) + Named(b, name)
  {
    if a == [] {
      assert a + b == b;
    } else {
      NamedAppends(a[1..], b, name);
      assert (a + b)[1..] == a[1..] + b && (a + b)[0] == a[0];
      assert Named(a + b, name) == (if a[0].name == name then [a[0]] else []) + Named(a[1..] + b, name);
    }
  }

  lemma {:induction false} NothingNamed(p: Server, tools: seq<Tool>, name: string)
    requires Usable(p) && name !in p.tools
    ensures Named(Exposed(p, tools), name) == []
  {
    if tools != [] {
      NothingNamed(p, tools[1..], name);
      NamedAppends(if tools[0].name in p.tools then [Presented(p, tools[0])] else [], Exposed(p, tools[1..]), name);
    }
  }

  /** The helper is listed exactly once, although an upstream may have a tool of that name:
      Validate keeps the reserved name off the allowlist. */
  lemma HelperOnce(parsers: Parsers, name: string, p: Server, start: Option<string>, pages: seq<Page<Tool>>)
    requires ServerOk(parsers, name, p) && p.descriptionLimit > 0
    requires First(start) && Pagination(pages)
    ensures Named(AllItems(ForwardedPages(p, start, pages)), DESCRIBE_TOOL) == [DESCRIPTOR]
  {
    PaginationAgrees(p, start, pages);
    var first, later := Exposed(p, pages[0].items), Exposed(p, AllItems(pages[1..]));
    NothingNamed(p, pages[0].items, DESCRIBE_TOOL);
    NothingNamed(p, AllItems(pages[1..]), DESCRIBE_TOOL);
    NamedAppends(first + Helper(p), later, DESCRIBE_TOOL);
    NamedAppends(first, Helper(p), DESCRIBE_TOOL);
    assert Helper(p)[1..] == [];
  }

  lemma {:induction false} ExposedNames(p: Server, tools: seq<Tool>, t: Tool)
    requires Usable(p) && t in Exposed(p, tools)
    ensures t.name in p.tools
  {
    if t in Exposed(p, tools[1..]) {
      ExposedNames(p, tools[1..], t);
    }
  }

  lemma {:induction false} ExposedHas(p: Server, tools: seq<Tool>, u: Tool)
    requires Usable(p) && u in tools && u.name in p.tools
    ensures Presented(p, u) in Exposed(p, tools)
  {
    if u != tools[0] {
      ExposedHas(p, tools[1..], u);
    }
  }

  /** MAIN: discovery and invocation agree.  Everything a pagination lists may be called (the
      helper about any allowed tool), and an upstream tool other than one hidden behind the
      helper's name is listed exactly when it may be called. */
  lemma ListedIffCallable(parsers: Parsers, name: string, p: Server, start: Option<string>, pages: seq<Page<Tool>>)
    requires ServerOk(parsers, name, p) && First(start) && Pagination(pages)
    ensures var seen := AllItems(ForwardedPages(p, start, pages));
            && (forall t, about :: t in seen && about in p.tools ==> MayCall(p, t.name, Some(about)))
            && (forall u, target :: u in AllItems(pages) && !(p.descriptionLimit > 0 && u.name == DESCRIBE_TOOL)
                  ==> (Presented(p, u) in seen <==> MayCall(p, u.name, target)))
  {
    PaginationAgrees(p, start, pages);
    var seen, all := AllItems(ForwardedPages(p, start, pages)), AllItems(pages);
    forall t | t in seen
      ensures t in Exposed(p, all) || t in Helper(p)
    {
    }
    forall t | t in seen
      ensures t.name in p.tools || (p.descriptionLimit > 0 && t.name == DESCRIBE_TOOL)
    {
      if t in Exposed(p, all) {
        ExposedNames(p, all, t);
      }
    }
    forall u | u in all && u.name in p.tools
      ensures Presented(p, u) in seen
    {
      ExposedHas(p, all, u);
    }
  }

  // --- prompts and resources ----------------------------------------------------------------------

  /** forward, for prompts/list and resources/list. */
  method ForwardNamed<T>(page: Page<T>, list: seq<string>, name: T -> string) returns (r: Page<T>)
    ensures r == page.(items := Kept(page.items, list, name))
    ensures r.next == page.next
    ensures forall x :: x in r.items ==> x in page.items && name(x) in list
    ensures forall x :: x in page.items && name(x) in list ==> x in r.items
  {
    var items: seq<T> := [];
    for i := 0 to |page.items|
      invariant items == Kept(page.items[..i], list, name)
      invariant forall x :: x in items ==> x in page.items[..i] && name(x) in list
      invariant forall x :: x in page.items[..i] && name(x) in list ==> x in items
    {
      assert page.items[..i + 1] == page.items[..i] + [page.items[i]];
      KeptAppends(page.items[..i], [page.items[i]], list, name);
      var ok := Allowed(list, name(page.items[i]));
      if ok {
        items := items + [page.items[i]];
      }
    }
    assert page.items[..|page.items|] == page.items;
    return page.(items := items);
  }

  function KeptOf<T>(pages: seq<Page<T>>, list: seq<string>, name: T -> string): seq<Page<T>> {
    seq(|pages|, i requires 0 <= i < |pages| => pages[i].(items := Kept(pages[i].items, list, name)))
  }

  /** Over a whole pagination, too, the filter is the filter of everything. */
  lemma {:induction false} KeptPages<T>(pages: seq<Page<T>>, list: seq<string>, name: T -> string)
    ensures AllItems(KeptOf(pages, list, name)) == Kept(AllItems(pages), list, name)
  {
    if pages != [] {
      KeptPages(pages[1..], list, name);
      KeptAppends(pages[0].items, AllItems(pages[1..]), list, name);
      assert KeptOf(pages, list, name)[1..] == KeptOf(pages[1..], list, name);
    }
  }

  /** MAIN: a client that pages through prompts or resources is led through the upstream's cursors
      and sees exactly the entries on the list, each once, unchanged and in upstream order. */
  lemma KeptPagination<T>(pages: seq<Page<T>>, list: seq<string>, name: T -> string) returns (at: seq<nat>)
    requires Pagination(pages)
    ensures var seen, all := KeptOf(pages, list, name), AllItems(pages);
            && Pagination(seen) && |seen| == |pages|
            && (forall i :: 0 <= i < |pages| ==> seen[i].next == pages[i].next)
            && |AllItems(seen)| == |at|
            && (forall a :: 0 <= a < |at| ==>
                  at[a] < |all| && name(all[at[a]]) in list && AllItems(seen)[a] == all[at[a]])
            && (forall k: nat :: k < |all| && name(all[k]) in list ==> k in at)
            && (forall a, b :: 0 <= a < b < |at| ==> at[a] < at[b])
  {
    KeptPages(pages, list, name);
    at := KeptInOrder(AllItems(pages), list, name);
  }
}
