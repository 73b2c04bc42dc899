/** describeTool (internal/bridge/metadata.go:109-141): a bounded walk through the pages of a
    backend's tool list, with detection of repeated cursors. */
module Describe {
  import opened Wrappers
  import opened Config
  import opened Listing

  const MAX_PAGES: nat := 64

  /** What a backend replies to its k-th list request for a cursor; None is an error. */
  type Replies = (nat, string) -> Option<Page<Tool>>

  /** A backend session, with the cursors it has been asked for. */
  class Backend {
    const replies: Replies
    var log: seq<string>

    constructor (replies: Replies)
      ensures this.replies == replies && log == []
    {
      this.replies, log := replies, [];
    }

    method ListTools(cursor: string) returns (page: Option<Page<Tool>>)
      modifies this`log
      ensures log == old(log) + [cursor] && page == replies(|old(log)|, cursor)
    {
      log := log + [cursor];
      page := replies(|log| - 1, cursor);
    }
  }

  datatype Answer = Found(tool: Tool) | NotAllowed | RepeatedCursor | ListFailed | Unavailable

  /** The first tool of that name. */
  function Lookup(tools: seq<Tool>, name: string): (t: Option<Tool>)
    ensures t.Some? ==> t.value in tools && t.value.name == name
    ensures t.None? ==> forall u :: u in tools ==> u.name != name
  {
    if tools == [] then None else if tools[0].name == name then Some(tools[0]) else Lookup(tools[1..], name)
  }

  method Search(tools: seq<Tool>, name: string) returns (t: Option<Tool>)
    ensures t == Lookup(tools, name)
    ensures t.None? <==> forall u :: u in tools ==> u.name != name
    ensures t.Some? ==> exists i :: 0 <= i < |tools| && tools[i] == t.value && t.value.name == name
                                    && forall j :: 0 <= j < i ==> tools[j].name != name
  {
    for i := 0 to |tools|
      invariant Lookup(tools, name) == Lookup(tools[i..], name)
      invariant forall j :: 0 <= j < i ==> tools[j].name != name
    {
      if tools[i].name == name {
        return Some(tools[i]);
      }
    }
    return None;
  }

  /** The rest of the walk: `asked` are the cursors requested so far. */
  function Walk(replies: Replies, hash: string -> int, name: string, base: nat, asked: seq<string>, cursor: string)
      : (r: (Answer, seq<string>))
    requires |asked| <= MAX_PAGES
    ensures asked <= r.1 && !r.0.NotAllowed?
    ensures r.0.Found? ==> r.0.tool.name == name
    ensures asked == [] ==> r.1 != [] && r.1[0] == cursor
    decreases MAX_PAGES - |asked|
  {
    if |asked| == MAX_PAGES then (Unavailable, asked)
    else if hash(cursor) in Hashes(hash, asked) then (RepeatedCursor, asked)
    else
      var log := asked + [cursor];
      match replies(base + |asked|, cursor)
      case None => (ListFailed, log)
      case Some(page) =>
        match Lookup(page.items, name)
        case Some(tool) => (Found(tool), log)
        case None => if page.next == "" then (Unavailable, log) else Walk(replies, hash, name, base, log, page.next)
  }

  function Hashes(hash: string -> int, cursors: seq<string>): set<int> {
    set i | 0 <= i < |cursors| :: hash(cursors[i])
  }

  lemma HashesMore(hash: string -> int, cursors: seq<string>, c: string)
    ensures Hashes(hash, cursors + [c]) == Hashes(hash, cursors) + {hash(c)}
  {
    var more := cursors + [c];
    assert forall i :: 0 <= i < |cursors| ==> more[i] == cursors[i];
    assert more[|cursors|] == c;
  }

  /** describeTool.  `target` is the strictly decoded tool_name, None if decoding failed. */
  method DescribeTool(backend: Backend, p: Server, target: Option<string>, hash: string -> int) returns (answer: Answer)
    modifies backend`log
    ensures var name := DescriptionTarget(p, target);
            if name.None? then answer == NotAllowed && backend.log == old(backend.log)
            else
              var walk := Walk(backend.replies, hash, name.value, |old(backend.log)|, [], "");
              answer == walk.0 && backend.log == old(backend.log) + walk.1
    ensures answer.NotAllowed? <==> target.None? || target.value !in p.tools
    ensures answer.NotAllowed? ==> backend.log == old(backend.log)
    ensures !answer.NotAllowed? ==>
              |backend.log| > |old(backend.log)| && old(backend.log) + [""] <= backend.log
              && |backend.log| <= |old(backend.log)| + 64
    ensures answer.Found? ==> answer.tool.name == target.value && answer.tool.name in p.tools
  {
    if target.None? {
      return NotAllowed;
    }
    var ok := Allowed(p.tools, target.value);
    if !ok {
      return NotAllowed;
    }
    WalkBounded(backend.replies, hash, target.value, |backend.log|, [], "");
    answer := WalkPages(backend, target.value, hash);
  }

  /** `for range 64` */
  method WalkPages(backend: Backend, name: string, hash: string -> int) returns (answer: Answer)
    modifies backend`log
    ensures var walk := Walk(backend.replies, hash, name, |old(backend.log)|, [], "");
            answer == walk.0 && backend.log == old(backend.log) + walk.1
  {
    var cursor := "";
    var seen: set<int> := {};
    ghost var asked: seq<string> := [];
    ghost var base := |backend.log|;
    for i := 0 to MAX_PAGES
      invariant |asked| == i && seen == Hashes(hash, asked) && backend.log == old(backend.log) + asked
      invariant Walk(backend.replies, hash, name, base, [], "")
             == Walk(backend.replies, hash, name, base, asked, cursor)
    {
      var key := hash(cursor);
      if key in seen {
        return RepeatedCursor;
      }
      seen := seen + {key};
      HashesMore(hash, asked, cursor);
      var page := backend.ListTools(cursor);
      assert backend.log == old(backend.log) + (asked + [cursor]);
      if page.None? {
        return ListFailed;
      }
      var found := Search(page.value.items, name);
      if found.Some? {
        return Found(found.value);
      }
      asked := asked + [cursor];
      cursor := page.value.next;
      if cursor == "" {
        return Unavailable;
      }
    }
    return Unavailable;
  }

  // --- what the walk guarantees -----------------------------------------------------------------

  predicate AllDistinct<T(==)>(s: seq<T>) {
    forall i, j :: 0 <= i < j < |s| ==> s[i] != s[j]
  }

  /** For any backend, deterministic or not: at most 64 requests, and no cursor twice. */
  lemma {:induction false} WalkBounded(replies: Replies, hash: string -> int, name: string, base: nat,
                                       asked: seq<string>, cursor: string)
    requires |asked| <= MAX_PAGES && AllDistinct(asked)
    ensures var log := Walk(replies, hash, name, base, asked, cursor).1;
            |log| <= 64 && forall i, j :: 0 <= i < j < |log| ==> log[i] != log[j]
    decreases MAX_PAGES - |asked|
  {
    if |asked| < MAX_PAGES && hash(cursor) !in Hashes(hash, asked) {
      HashesMore(hash, asked, cursor);
      assert forall i :: 0 <= i < |asked| ==> hash(asked[i]) in Hashes(hash, asked);
      var page := replies(base + |asked|, cursor);
      if page.Some? && Lookup(page.value.items, name).None? && page.value.next != "" {
        WalkBounded(replies, hash, name, base, asked + [cursor], page.value.next);
      }
    }
  }

  /** How a walk ends is told by the last page it asked for: found on it, a failure, the end of
      the list or the 64th page, or a next cursor whose hash has been seen. */
  lemma {:induction false} LastPageDecides(replies: Replies, hash: string -> int, name: string, base: nat,
                                           asked: seq<string>, cursor: string)
    requires |asked| < 64 && hash(cursor) !in Hashes(hash, asked)
    ensures var (answer, log) := Walk(replies, hash, name, base, asked, cursor);
            && log != []
            && var last := replies(base + |log| - 1, log[|log| - 1]);
            && (answer.ListFailed? <==> last.None?)
            && (answer.Found? <==> last.Some? && exists t :: t in last.value.items && t.name == name)
            && (answer.Unavailable? ==> last.value.next == "" || |log| == 64)
            && (answer.RepeatedCursor? ==>
                  last.value.next != "" && |log| < 64
                  && exists c :: c in log && hash(c) == hash(last.value.next))
    decreases 64 - |asked|
  {
    var log := asked + [cursor];
    var page := replies(base + |asked|, cursor);
    if page.Some? && Lookup(page.value.items, name).None? && page.value.next != "" && |log| < 64 {
      if hash(page.value.next) in Hashes(hash, log) {
        var i :| 0 <= i < |log| && hash(log[i]) == hash(page.value.next);
        assert log[i] in log;
      } else {
        LastPageDecides(replies, hash, name, base, log, page.value.next);
      }
    }
  }

  /** The cursor after `k` steps along the pages that a walk starting at request `base` is
      given, if there is one. */
  function CursorAt(replies: Replies, base: nat, k: nat): Option<string> {
    if k == 0 then Some("")
    else match CursorAt(replies, base, k - 1)
      case None => None
      case Some(c) =>
        match replies(base + k - 1, c)
        case None => None
        case Some(page) => if page.next == "" then None else Some(page.next)
  }

  /** The tool that the `k`-th of these pages holds under that name, if there is such a page. */
  function ToolAt(replies: Replies, base: nat, name: string, k: nat): Option<Tool> {
    match CursorAt(replies, base, k)
    case None => None
    case Some(c) => match replies(base + k, c) case None => None case Some(page) => Lookup(page.items, name)
  }

  /** Page `k` is the first that has the tool. */
  ghost predicate FirstHit(replies: Replies, base: nat, name: string, k: nat) {
    ToolAt(replies, base, name, k).Some? && forall j: nat :: j < k ==> ToolAt(replies, base, name, j).None?
  }

  predicate SameHash(hash: string -> int, a: Option<string>, b: Option<string>) {
    a.Some? && b.Some? && hash(a.value) == hash(b.value)
  }

  /** The cursors of the first `n` pages all have different hashes. */
  ghost predicate HashesDiffer(replies: Replies, base: nat, hash: string -> int, n: nat) {
    forall i: nat, j: nat :: i < j < n ==> !SameHash(hash, CursorAt(replies, base, i), CursorAt(replies, base, j))
  }

  /** The walk has gone along the pages, over different hashes, and found nothing so far. */
  ghost predicate Along(replies: Replies, base: nat, hash: string -> int, name: string, asked: seq<string>) {
    && (forall i: nat :: i < |asked| ==>
          CursorAt(replies, base, i) == Some(asked[i]) && ToolAt(replies, base, name, i).None?)
    && HashesDiffer(replies, base, hash, |asked|)
  }

  /** How the walk can end after looking at the pages of `log`. */
  ghost predicate Ends(replies: Replies, base: nat, hash: string -> int, name: string, answer: Answer,
                       log: seq<string>) {
    var n := |log|;
    match answer
    case Found(t) =>
      && 0 < n <= MAX_PAGES && FirstHit(replies, base, name, n - 1) && ToolAt(replies, base, name, n - 1) == Some(t)
      && HashesDiffer(replies, base, hash, n)
    case RepeatedCursor =>
      && n < MAX_PAGES && Along(replies, base, hash, name, log)
      && exists i: nat :: i < n && SameHash(hash, CursorAt(replies, base, i), CursorAt(replies, base, n))
    case ListFailed => Along(replies, base, hash, name, log) && CursorAt(replies, base, n).None?
    case Unavailable =>
      Along(replies, base, hash, name, log) && (n == MAX_PAGES || CursorAt(replies, base, n).None?)
    case NotAllowed => false
  }

  lemma OneMoreHash(replies: Replies, base: nat, hash: string -> int, asked: seq<string>, cursor: string)
    requires forall i: nat :: i < |asked| ==> CursorAt(replies, base, i) == Some(asked[i])
    requires HashesDiffer(replies, base, hash, |asked|) && CursorAt(replies, base, |asked|) == Some(cursor)
    requires hash(cursor) !in Hashes(hash, asked)
    ensures HashesDiffer(replies, base, hash, |asked| + 1)
  {
    assert forall i: nat :: i < |asked| ==> hash(asked[i]) in Hashes(hash, asked);
  }

  /** One more page, under a hash not seen before. */
  lemma NextPage(replies: Replies, base: nat, hash: string -> int, name: string, asked: seq<string>, cursor: string)
    requires Along(replies, base, hash, name, asked) && CursorAt(replies, base, |asked|) == Some(cursor)
    requires HashesDiffer(replies, base, hash, |asked| + 1)
    ensures var page := replies(base + |asked|, cursor);
            && ToolAt(replies, base, name, |asked|) == (if page.Some? then Lookup(page.value.items, name) else None)
            && CursorAt(replies, base, |asked| + 1)
               == (if page.Some? && page.value.next != "" then Some(page.value.next) else None)
    ensures ToolAt(replies, base, name, |asked|).None? ==> Along(replies, base, hash, name, asked + [cursor])
  {
    var log := asked + [cursor];
    assert forall i: nat :: i < |asked| ==> log[i] == asked[i];
  }

  lemma RepeatEnds(replies: Replies, base: nat, hash: string -> int, name: string, asked: seq<string>, cursor: string)
    requires |asked| < MAX_PAGES && Along(replies, base, hash, name, asked)
    requires CursorAt(replies, base, |asked|) == Some(cursor) && hash(cursor) in Hashes(hash, asked)
    ensures Ends(replies, base, hash, name, RepeatedCursor, asked)
  {
    var i: nat :| i < |asked| && hash(asked[i]) == hash(cursor);
    assert SameHash(hash, CursorAt(replies, base, i), CursorAt(replies, base, |asked|));
  }

  lemma PageEnds(replies: Replies, base: nat, hash: string -> int, name: string, asked: seq<string>, cursor: string)
    requires |asked| < MAX_PAGES && Along(replies, base, hash, name, asked)
    requires CursorAt(replies, base, |asked|) == Some(cursor) && hash(cursor) !in Hashes(hash, asked)
    ensures var page := replies(base + |asked|, cursor);
            match page
            case None => Ends(replies, base, hash, name, ListFailed, asked + [cursor])
            case Some(p) =>
              match Lookup(p.items, name)
              case Some(t) => Ends(replies, base, hash, name, Found(t), asked + [cursor])
              case None =>
                && Along(replies, base, hash, name, asked + [cursor])
                && if p.next == "" then Ends(replies, base, hash, name, Unavailable, asked + [cursor])
                   else CursorAt(replies, base, |asked| + 1) == Some(p.next)
  {
    OneMoreHash(replies, base, hash, asked, cursor);
    NextPage(replies, base, hash, name, asked, cursor);
  }

  lemma {:induction false} WalkAlong(replies: Replies, hash: string -> int, name: string, base: nat,
                                     asked: seq<string>, cursor: string)
    requires |asked| <= MAX_PAGES && Along(replies, base, hash, name, asked)
    requires CursorAt(replies, base, |asked|) == Some(cursor)
    ensures var r := Walk(replies, hash, name, base, asked, cursor); Ends(replies, base, hash, name, r.0, r.1)
    decreases MAX_PAGES - |asked|
  {
    if |asked| < MAX_PAGES {
      if hash(cursor) in Hashes(hash, asked) {
        RepeatEnds(replies, base, hash, name, asked, cursor);
      } else {
        PageEnds(replies, base, hash, name, asked, cursor);
        var page := replies(base + |asked|, cursor);
        if page.Some? && Lookup(page.value.items, name).None? && page.value.next != "" {
          WalkAlong(replies, hash, name, base, asked + [cursor], page.value.next);
        }
      }
    }
  }

  lemma WalkEnds(replies: Replies, hash: string -> int, name: string, base: nat)
    ensures var r := Walk(replies, hash, name, base, [], ""); Ends(replies, base, hash, name, r.0, r.1)
  {
    WalkAlong(replies, hash, name, base, [], "");
  }

  lemma {:induction false} EndStays(replies: Replies, base: nat, n: nat, k: nat)
    requires n <= k && CursorAt(replies, base, n).None?
    ensures CursorAt(replies, base, k).None?
    decreases k - n
  {
    if n < k {
      EndStays(replies, base, n, k - 1);
    }
  }

  /** A walk that meets page `k` before its limit and under a new hash finds what is on it. */
  lemma HitFound(replies: Replies, hash: string -> int, name: string, base: nat, k: nat, answer: Answer,
                 log: seq<string>)
    requires Ends(replies, base, hash, name, answer, log)
    requires FirstHit(replies, base, name, k) && k < MAX_PAGES && HashesDiffer(replies, base, hash, k + 1)
    ensures answer.Found?
  {
    if !answer.Found? {
      assert |log| <= k;
      if CursorAt(replies, base, |log|).None? {
        EndStays(replies, base, |log|, k);
      }
    }
  }

  /** MAIN: if the pages that the walk is given have the tool at all, the answer is the tool on
      the first of them that has it, after exactly the requests up to that page, if and only if
      it is one of the first 64 pages and no two cursors up to it have the same hash.  Nothing
      is asked of the backend: its list may change between requests. */
  lemma FindsFirst(replies: Replies, hash: string -> int, name: string, base: nat, k: nat)
    requires FirstHit(replies, base, name, k)
    ensures var r := Walk(replies, hash, name, base, [], "");
            && (r.0.Found? <==> k < 64 && HashesDiffer(replies, base, hash, k + 1))
            && (r.0.Found? ==> r.0 == Found(ToolAt(replies, base, name, k).value) && |r.1| == k + 1)
  {
    WalkEnds(replies, hash, name, base);
    var r := Walk(replies, hash, name, base, [], "");
    if k < MAX_PAGES && HashesDiffer(replies, base, hash, k + 1) {
      HitFound(replies, hash, name, base, k, r.0, r.1);
    }
    if r.0.Found? {
      assert ToolAt(replies, base, name, |r.1| - 1).Some?;
      assert |r.1| - 1 == k;
    }
  }

  /** And whatever is found is the first hit: no page before it has the tool. */
  lemma FoundIsFirst(replies: Replies, hash: string -> int, name: string, base: nat)
    requires Walk(replies, hash, name, base, [], "").0.Found?
    ensures var r := Walk(replies, hash, name, base, [], "");
            |r.1| > 0 && FirstHit(replies, base, name, |r.1| - 1)
            && r.0 == Found(ToolAt(replies, base, name, |r.1| - 1).value)
  {
    WalkEnds(replies, hash, name, base);
  }

  // --- a backend that does not change -------------------------------------------------------------

  /** From request `base` on the backend's reply depends on the cursor only. */
  ghost predicate Deterministic(replies: Replies, base: nat) {
    forall j: nat, k: nat, c :: base <= j && base <= k ==> replies(j, c) == replies(k, c)
  }

  /** No two different cursors among the first 64 have the same hash. */
  ghost predicate CollisionFree(replies: Replies, base: nat, hash: string -> int) {
    forall i: nat, j: nat :: i < j < MAX_PAGES && SameHash(hash, CursorAt(replies, base, i), CursorAt(replies, base, j))
      ==> CursorAt(replies, base, i) == CursorAt(replies, base, j)
  }

  lemma {:induction false} Shift(replies: Replies, base: nat, i: nat, n: nat, m: nat)
    requires Deterministic(replies, base) && CursorAt(replies, base, i) == CursorAt(replies, base, n)
    ensures CursorAt(replies, base, i + m) == CursorAt(replies, base, n + m)
  {
    if m > 0 {
      Shift(replies, base, i, n, m - 1);
      var before := CursorAt(replies, base, i + m - 1);
      assert before.Some? ==> replies(base + i + m - 1, before.value) == replies(base + n + m - 1, before.value);
    }
  }

  /** Once a cursor has come back, later pages are pages already seen. */
  lemma {:induction false} Cycle(replies: Replies, base: nat, i: nat, n: nat, k: nat) returns (seen: nat)
    requires Deterministic(replies, base) && i < n <= k && CursorAt(replies, base, i) == CursorAt(replies, base, n)
    ensures seen < n && CursorAt(replies, base, seen) == CursorAt(replies, base, k)
    decreases k
  {
    Shift(replies, base, i, n, k - n);
    seen := i + (k - n);
    if seen >= n {
      seen := Cycle(replies, base, i, n, seen);
    }
  }

  lemma SamePage(replies: Replies, base: nat, name: string, i: nat, k: nat)
    requires Deterministic(replies, base) && CursorAt(replies, base, i) == CursorAt(replies, base, k)
    ensures ToolAt(replies, base, name, i) == ToolAt(replies, base, name, k)
  {
    var c := CursorAt(replies, base, i);
    assert c.Some? ==> replies(base + i, c.value) == replies(base + k, c.value);
  }

  /** Up to the first hit no cursor repeats, so only a collision of hashes can hide it. */
  lemma HitBeforeCycle(replies: Replies, base: nat, hash: string -> int, name: string, k: nat)
    requires Deterministic(replies, base) && CollisionFree(replies, base, hash)
    requires FirstHit(replies, base, name, k) && k < MAX_PAGES
    ensures HashesDiffer(replies, base, hash, k + 1)
  {
    forall i: nat, j: nat | i < j < k + 1
      ensures !SameHash(hash, CursorAt(replies, base, i), CursorAt(replies, base, j))
    {
      if SameHash(hash, CursorAt(replies, base, i), CursorAt(replies, base, j)) {
        var seen := Cycle(replies, base, i, j, k);
        SamePage(replies, base, name, seen, k);
      }
    }
  }

  /** For a backend that does not change during the walk and a hash that does not confuse its
      first 64 cursors, the tool is found whenever one of the first 64 pages has it. */
  lemma DeterministicFinds(replies: Replies, hash: string -> int, name: string, base: nat, k: nat)
    requires Deterministic(replies, base) && CollisionFree(replies, base, hash)
    requires FirstHit(replies, base, name, k) && k < 64
    ensures var r := Walk(replies, hash, name, base, [], "");
            r.0 == Found(ToolAt(replies, base, name, k).value) && |r.1| == k + 1
  {
    HitBeforeCycle(replies, base, hash, name, k);
    FindsFirst(replies, hash, name, base, k);
  }

  /** A walk that ended without the tool, other than at the page limit, has missed nothing. */
  lemma NothingBeyond(replies: Replies, base: nat, hash: string -> int, name: string, answer: Answer,
                      log: seq<string>, k: nat)
    requires Deterministic(replies, base) && CollisionFree(replies, base, hash)
    requires Ends(replies, base, hash, name, answer, log) && !answer.Found?
    requires answer.Unavailable? ==> |log| < MAX_PAGES
    ensures ToolAt(replies, base, name, k).None?
  {
    if k >= |log| {
      if answer.RepeatedCursor? {
        var i: nat :| i < |log| && SameHash(hash, CursorAt(replies, base, i), CursorAt(replies, base, |log|));
        var seen := Cycle(replies, base, i, |log|, k);
        SamePage(replies, base, name, seen, k);
      } else {
        EndStays(replies, base, |log|, k);
      }
    }
  }

  /** MAIN: a rejection for a repeated cursor, a failed page or an ended list means that no
      page reachable by following cursors holds the tool, however far one follows. */
  lemma RejectionIsFinal(replies: Replies, hash: string -> int, name: string, base: nat, k: nat)
    requires Deterministic(replies, base) && CollisionFree(replies, base, hash)
    requires var r := Walk(replies, hash, name, base, [], "");
             r.0.RepeatedCursor? || r.0.ListFailed? || (r.0.Unavailable? && |r.1| < 64)
    ensures ToolAt(replies, base, name, k).None?
  {
    WalkEnds(replies, hash, name, base);
    var r := Walk(replies, hash, name, base, [], "");
    NothingBeyond(replies, base, hash, name, r.0, r.1, k);
  }
}
