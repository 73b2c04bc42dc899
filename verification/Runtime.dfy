/** The objects of internal/bridge/shared.go and internal/bridge/bridge.go, with the fields
    and methods of the Go structs.  An object models the part of a protocol state that its
    identifier names, and each method is proved to turn objects that model a state into
    objects that model the effect defined in `Solo` or `SoloCleanup`, which steps of the
    protocol reach.  What a method may touch besides is in its `modifies` clause. */
module Runtime {
  import opened Wrappers
  import opened Protocol
  import Solo
  import SoloCleanup

  class Context {
    const parent: Context?
    ghost const id: int  // of the session it belongs to
    var cancelled: bool

    constructor (parent: Context?, ghost id: int)
      ensures this.parent == parent && this.id == id && !cancelled
    {
      this.parent, this.id, cancelled := parent, id, false;
    }

    predicate Err()
      reads this, parent
    {
      cancelled || (parent != null && parent.cancelled)
    }
  }

  class Backend {
    ghost const id: Bid
    var closed: bool

    constructor (ghost id: Bid)
      ensures this.id == id && !closed
    {
      this.id, closed := id, false;
    }
  }

  /** The closure `func() { p.release(principal, entry) }`. */
  datatype Closure = Closure(pool: BackendPool, principal: string, entry: PooledBackend)

  ghost function ReleaseOf(c: Option<Closure>): Option<Release> {
    match c
    case None => None
    case Some(Closure(pool, principal, entry)) => Some(Release(Key(pool.endpoint, principal), entry.state.id))
  }

  /** The Go type `session`: the state of a frontend, or of a pooled backend. */
  class SessionState {
    ghost const id: Sid
    const ctx: Context
    var owner: SessionState?
    var release: Option<Closure>
    var backend: Backend?
    var failed: bool
    var calls: int  // len(calls)

    constructor (ctx: Context, ghost id: Sid)
      ensures this.ctx == ctx && this.id == id && owner == null && release == None
      ensures backend == null && !failed && calls == 0
    {
      this.ctx, this.id, owner, release, backend, failed, calls := ctx, id, null, None, null, false, 0;
    }

    ghost function Reads(): set<object?>
      reads this
    {
      {this, ctx, ctx.parent, backend}
    }

    ghost predicate Models(st: State)
      reads Reads()
    {
      && id in st.sessions && id in st.tokens
      && var rec := st.sessions[id];
      && ctx.id == id && (ctx.cancelled <==> id in st.cancelled)
      && ctx.parent != null && ctx.parent.parent == null && (ctx.parent.cancelled <==> st.gctx)
      && calls == st.tokens[id] && failed == rec.failed
      && rec.owner == (if owner == null then None else Some(owner.id))
      && rec.release == ReleaseOf(release)
      && if backend == null then rec.backend.None?
         else && rec.backend == Some(backend.id) && backend.id in st.dialled && st.dialled[backend.id] == id
              && (backend.closed <==> backend.id in st.ended)
    }

    /** attach; a null result is the error "frontend closed".  `n` names a new owner. */
    method Attach(p: BackendPool, principal: string, ghost st: State, ghost n: Sid) returns (o: SessionState?)
      requires Models(st) && p.Models(st) && p.ctx == ctx.parent
      requires n !in st.sessions && n !in st.cancelled
      modifies this`owner, this`release, p, p.entries.Values
      ensures Models(Solo.Attached(st, id, Key(p.endpoint, principal), n))
      ensures p.Models(Solo.Attached(st, id, Key(p.endpoint, principal), n))
      ensures Solo.AttachOutcome(st, id, Key(p.endpoint, principal), n) == if o == null then None else Some(o.id)
      ensures o == null <==> old(ctx.cancelled || ctx.parent.cancelled)
      ensures o != null ==> o == owner
      ensures old(ctx.cancelled || ctx.parent.cancelled || owner != null) ==>
                unchanged(this) && unchanged(p) && unchanged(old(p.entries.Values))
      ensures !old(ctx.cancelled || ctx.parent.cancelled || owner != null) ==>
                && principal in p.entries && o == p.entries[principal].state
                && release == Some(Closure(p, principal, p.entries[principal]))
                && p.entries == old(p.entries)[principal := p.entries[principal]]
                && (principal in old(p.entries) ==> p.entries[principal] == old(p.entries[principal]))
                && p.entries[principal].refs
                   == 1 + if principal in old(p.entries) then old(p.entries[principal].refs) else 0
    {
      if ctx.Err() {
        return null;
      }
      if owner != null {
        return owner;
      }
      var _ := AttachFirst(p, principal, st, n);
      return owner;
    }

    /** The first attachment of a live frontend, under both locks. */
    method AttachFirst(p: BackendPool, principal: string, ghost st: State, ghost n: Sid)
        returns (entry: PooledBackend)
      requires Models(st) && p.Models(st) && p.ctx == ctx.parent && n !in st.sessions && n !in st.cancelled
      modifies this`owner, this`release, p, p.entries.Values
      ensures var key := Key(p.endpoint, principal);
              var after := Solo.Retained(Solo.Ensured(st, key, n), id, key, Solo.EntryOf(st, key, n));
              Models(after) && p.Models(after)
      ensures entry.state.id == Solo.EntryOf(st, Key(p.endpoint, principal), n)
      ensures p.entries == old(p.entries)[principal := entry]
      ensures owner == entry.state && release == Some(Closure(p, principal, entry))
      ensures entry.refs == 1 + if principal in old(p.entries) then old(p.entries[principal].refs) else 0
      ensures principal in old(p.entries) ==> entry == old(p.entries[principal])
    {
      entry := p.Ensure(principal, st, n);
      EnsuredElsewhere(st, Key(p.endpoint, principal), n);
      Retain(p, principal, entry, Solo.Ensured(st, Key(p.endpoint, principal), n));
    }

    /** One reference per frontend. */
    method Retain(p: BackendPool, principal: string, entry: PooledBackend, ghost st: State)
      requires Models(st) && p.Models(st) && principal in p.entries && p.entries[principal] == entry
      modifies this`owner, this`release, entry
      ensures Models(Solo.Retained(st, id, Key(p.endpoint, principal), entry.state.id))
      ensures p.Models(Solo.Retained(st, id, Key(p.endpoint, principal), entry.state.id))
      ensures entry.refs == old(entry.refs) + 1
      ensures owner == entry.state && release == Some(Closure(p, principal, entry))
    {
      p.EntryCounted(st, principal);
      ghost var after := Solo.Retained(st, id, Key(p.endpoint, principal), entry.state.id);
      RetainedRoles(st, id, Key(p.endpoint, principal), entry.state.id);
      p.Count(principal, entry, 1, st, after, this, st);
      Own(p, principal, entry, st, after);
    }

    /** `s.owner = entry.state; s.release = func() { p.release(principal, entry) }` */
    method Own(p: BackendPool, principal: string, entry: PooledBackend, ghost st: State, ghost after: State)
      requires Models(st) && entry.state.id in st.refs
      requires p.Models(after) && after == Solo.Retained(st, id, Key(p.endpoint, principal), entry.state.id)
      modifies this`owner, this`release
      ensures Models(after) && p.Models(after)
      ensures owner == entry.state && release == Some(Closure(p, principal, entry))
    {
      owner := entry.state;
      release := Some(Closure(p, principal, entry));
    }

    lemma EnsuredElsewhere(st: State, key: Key, n: Sid)
      requires Models(st) && n !in st.sessions
      ensures Models(Solo.Ensured(st, key, n))
    {
    }

    /** connect.  `dialled` is what a dial returns if one is made, null for an error; a null
        result is the error "backend unavailable; reconnect required". */
    method Connect(dialled: Backend?, ghost st: State) returns (b: Backend?)
      requires Models(st)
      requires dialled != null ==> dialled.id !in st.dialled && dialled.id !in st.ended && !dialled.closed
      modifies this`backend, this`failed
      ensures Models(Solo.Connected(st, id, if dialled == null then None else Some(dialled.id)))
      ensures Solo.ConnectOutcome(st, id, if dialled == null then None else Some(dialled.id))
           == if b == null then None else Some(b.id)
      ensures b != null ==> b == backend
      ensures old(failed) ==> b == null
      ensures !old(failed) && old(backend) != null ==> b == old(backend)
      ensures old(failed || backend != null) ==> unchanged(this)
      ensures !old(failed || backend != null) ==> b == dialled && backend == dialled && (failed <==> dialled == null)
    {
      if failed {
        return null;
      }
      if backend != null {
        return backend;
      }
      if dialled == null {
        failed := true;
        return null;
      }
      backend := dialled;
      return dialled;
    }

    /** s.cancel() */
    method Cancel(ghost st: State)
      requires Models(st)
      modifies ctx
      ensures Models(SoloCleanup.CancelledOne(st, id)) && ctx.cancelled
    {
      ctx.cancelled := true;
    }

    /** `if s.backend != nil { _ = s.backend.Close() }` */
    method CloseBackend(ghost st: State)
      requires Models(st)
      modifies backend
      ensures Models(EndBackend(st, st.sessions[id].backend)) && (backend != null ==> backend.closed)
    {
      if backend != null {
        backend.closed := true;
      }
    }

    /** `if s.release != nil { s.release() } else if s.backend != nil { ... }` */
    method LetGo(ghost st: State)
      requires Models(st) && st.sessions[id].role.Frontend? && ReleaseReady(release, st)
      modifies backend, Footprint(release)
      ensures Models(SoloCleanup.LetGo(st, id)) && ReleaseDone(release, SoloCleanup.LetGo(st, id))
      ensures release == None && backend != null ==> backend.closed
    {
      if release.Some? {
        var c := release.value;
        SoloCleanup.LetGoReleases(st, id, Key(c.pool.endpoint, c.principal), c.entry.state.id);
        CallRelease(c, st);
        assert release == Some(c) && ReleaseDone(release, SoloCleanup.LetGo(st, id));
      } else {
        SoloCleanup.LetGoCloses(st, id);
        CloseBackend(st);
      }
    }

    method CallRelease(c: Closure, ghost st: State)
      requires Models(st) && st.sessions[id].role.Frontend? && ReleaseReady(Some(c), st)
      modifies Footprint(Some(c))
      ensures var after := SoloCleanup.Released(st, Key(c.pool.endpoint, c.principal), c.entry.state.id);
              Models(after) && ReleaseDone(Some(c), after)
    {
      OwnerApart(c, st);
      ReleasedElsewhere(st, Key(c.pool.endpoint, c.principal), c.entry.state.id);
      c.pool.Release(c.principal, c.entry, st);
    }

    /** A frontend's session and the owner it is attached to share no object that changes. */
    lemma OwnerApart(c: Closure, st: State)
      requires Models(st) && st.sessions[id].role.Frontend? && ReleaseReady(Some(c), st)
      ensures var o := c.entry.state;
              && o.id != id && o.ctx != ctx && o.ctx != ctx.parent && ctx != o.ctx.parent
              && (backend != null ==> o.backend != backend)
      ensures c.entry.state.id in st.sessions
      ensures var b := st.sessions[c.entry.state.id].backend;
              b.Some? ==> b.value in st.dialled && st.dialled[b.value] == c.entry.state.id
    {
    }

    lemma ReleasedElsewhere(st: State, key: Key, o: Sid)
      requires Models(st) && o != id && o in st.sessions
      requires var b := st.sessions[o].backend;
               b.Some? ==> b.value in st.dialled && st.dialled[b.value] == o
      ensures Models(SoloCleanup.Released(st, key, o))
    {
      SoloCleanup.ReleasedUntouched(st, key, o, id);
      StillModels(st, SoloCleanup.Released(st, key, o));
    }

    lemma OtherCount(st: State, st': State)
      requires Models(st) && st' == st.(refs := st'.refs)
      ensures Models(st')
    {
    }

    lemma StillModels(st: State, st': State)
      requires Models(st) && SoloCleanup.Untouched(st, st', id)
      ensures Models(st')
    {
    }

    /** The first half of the cleanup goroutine: s.cancel, then release or close. */
    method Finish(ghost st: State) returns (ghost after: State)
      requires Models(st) && st.sessions[id].role.Frontend? && ReleaseReady(release, st)
      modifies ctx, backend, Footprint(release)
      ensures Models(after) && ReleaseDone(release, after)
      ensures after == SoloCleanup.LetGo(SoloCleanup.CancelledOne(st, id), id)
      ensures release == None && backend != null ==> backend.closed
      ensures SoloCleanup.SameGateway(st, after) && after.sessions == st.sessions
    {
      ContextKept(st);
      CancelOwn(st);
      after := SoloCleanup.LetGo(SoloCleanup.CancelledOne(st, id), id);
      LetGo(SoloCleanup.CancelledOne(st, id));
    }

    /** The release never reaches the session's own context. */
    lemma ContextKept(st: State)
      requires Models(st) && st.sessions[id].role.Frontend? && ReleaseReady(release, st)
      ensures ctx !in Footprint(release)
    {
      if release.Some? {
        OwnerApart(release.value, st);
      }
    }

    /** s.cancel() leaves the owner it is attached to as it was. */
    method CancelOwn(ghost st: State)
      requires Models(st) && st.sessions[id].role.Frontend? && ReleaseReady(release, st)
      modifies ctx
      ensures Models(SoloCleanup.CancelledOne(st, id)) && ReleaseReady(release, SoloCleanup.CancelledOne(st, id))
      ensures ctx.cancelled
    {
      if release.Some? {
        OwnerApart(release.value, st);
      }
      CancelledElsewhere(release, st, id);
      Cancel(st);
    }

    lemma Elsewhere(st: State, st': State)
      requires Models(st) && SameObjects(st, st')
      ensures Models(st')
    {
    }
  }

  /** A session nobody has used yet, under the context `parent`. */
  ghost predicate Blank(s: SessionState, parent: Context)
    reads s, s.ctx
  {
    && s.owner == null && s.release == None && s.backend == null && !s.failed && s.calls == 0
    && !s.ctx.cancelled && s.ctx.parent == parent
  }

  class PooledBackend {
    const state: SessionState
    var refs: int

    constructor (state: SessionState)
      ensures this.state == state && refs == 0
    {
      this.state, refs := state, 0;
    }
  }

  class BackendPool {
    const endpoint: Endpoint
    const ctx: Context
    const limit: nat
    var entries: map<string, PooledBackend>

    constructor (endpoint: Endpoint, ctx: Context, limit: nat)
      ensures this.endpoint == endpoint && this.ctx == ctx && this.limit == limit && entries == map[]
    {
      this.endpoint, this.ctx, this.limit, entries := endpoint, ctx, limit, map[];
    }

    ghost predicate Models(st: State)
      reads this, entries.Values
    {
      && (forall p :: p in entries <==> Key(endpoint, p) in st.entries)
      && forall p :: p in entries ==>
           var o := entries[p].state.id;
           && st.entries[Key(endpoint, p)] == o
           && o in st.refs && entries[p].refs == st.refs[o]
           && o in st.sessions && st.sessions[o].role == PoolOwner(Key(endpoint, p))
    }

    lemma Elsewhere(st: State, st': State)
      requires Models(st) && SameObjects(st, st')
      ensures Models(st')
    {
    }

    /** A pool models no more of a state than its entries, its counts and who its owners are. */
    lemma SamePool(st: State, st': State)
      requires Models(st) && st'.entries == st.entries && st'.refs == st.refs && SameRoles(st, st')
      ensures Models(st')
    {
    }

    lemma EntryCounted(st: State, principal: string)
      requires Models(st) && principal in entries
      ensures entries[principal].state.id in st.refs
    {
    }

    lemma EntriesApart(st: State, principal: string)
      requires Models(st) && principal in entries
      ensures forall p :: p in entries && p != principal
                ==> entries[p].state.id != entries[principal].state.id && entries[p] != entries[principal]
    {
    }

    /** `entry.refs++` and `entry.refs--`.  The count is no part of a session: `s` stays as it is. */
    method Count(principal: string, entry: PooledBackend, delta: int, ghost st: State, ghost after: State,
                 ghost s: SessionState, ghost seen: State)
      requires Models(st) && principal in entries && entries[principal] == entry && s.Models(seen)
      requires SameRoles(st, after) && after.entries == st.entries
      requires after.refs == st.refs[entry.state.id := st.refs[entry.state.id] + delta]
      modifies entry
      ensures entry.refs == old(entry.refs) + delta && Models(after) && s.Models(seen)
    {
      EntriesApart(st, principal);
      entry.refs := entry.refs + delta;
    }

    /** `delete(p.entries, principal)` */
    method Delete(principal: string, ghost st: State)
      requires Models(st)
      modifies this
      ensures Models(st.(entries := st.entries - {Key(endpoint, principal)}))
      ensures entries == old(entries) - {principal}
    {
      entries := entries - {principal};
    }

    /** The entry for a principal, made if there is none. */
    method Ensure(principal: string, ghost st: State, ghost n: Sid) returns (entry: PooledBackend)
      requires Models(st) && n !in st.sessions && n !in st.cancelled
      requires ctx.parent == null && (ctx.cancelled <==> st.gctx)
      modifies this
      ensures Models(Solo.Ensured(st, Key(endpoint, principal), n))
      ensures entries == old(entries)[principal := entry]
      ensures principal !in old(entries) ==>
                && fresh(entry) && fresh(entry.state) && Blank(entry.state, ctx)
                && entry.state.Models(Solo.Ensured(st, Key(endpoint, principal), n))
      ensures entry.refs == if principal in old(entries) then old(entries[principal].refs) else 0
      ensures principal in old(entries) ==> entry == old(entries[principal])
      ensures entry.state.id == Solo.EntryOf(st, Key(endpoint, principal), n)
    {
      if principal in entries {
        entry := entries[principal];
      } else {
        var child := new Context(ctx, n);
        var state := new SessionState(child, n);
        entry := new PooledBackend(state);
        entries := entries[principal := entry];
      }
    }

    /** release, as captured by session.release when `principal` was attached. */
    method Release(principal: string, entry: PooledBackend, ghost st: State)
      requires Models(st) && principal in entries && entries[principal] == entry
      requires entry.state.Models(st) && entry.state.ctx != ctx
      modifies this, entry, entry.state.ctx, entry.state.backend
      ensures Models(SoloCleanup.Released(st, Key(endpoint, principal), entry.state.id))
      ensures entry.state.Models(SoloCleanup.Released(st, Key(endpoint, principal), entry.state.id))
      ensures entries == if old(entry.refs) == 1 then old(entries) - {principal} else old(entries)
      ensures entry.refs == old(entry.refs) - 1
      ensures if old(entry.refs) == 1
              then entry.state.ctx.cancelled && (entry.state.backend != null ==> entry.state.backend.closed)
              else unchanged(entry.state.ctx) && (entry.state.backend != null ==> unchanged(entry.state.backend))
    {
      ghost var o := entry.state.id;
      ghost var st' := st.(refs := st.refs[o := st.refs[o] - 1]);
      SoloCleanup.ReleasedIs(st, Key(endpoint, principal), o, st');
      entry.state.OtherCount(st, st');
      Count(principal, entry, -1, st, st', entry.state, st');
      if entry.refs != 0 {
        return;
      }
      Reap(principal, entry, st');
    }

    /** The last reference is gone. */
    method Reap(principal: string, entry: PooledBackend, ghost st: State)
      requires Models(st) && principal in entries && entries[principal] == entry
      requires entry.state.Models(st) && entry.state.ctx != ctx
      modifies this, entry.state.ctx, entry.state.backend
      ensures Models(SoloCleanup.Reaped(st, Key(endpoint, principal), entry.state.id))
      ensures entry.state.Models(SoloCleanup.Reaped(st, Key(endpoint, principal), entry.state.id))
      ensures entries == old(entries) - {principal}
      ensures entry.state.ctx.cancelled && (entry.state.backend != null ==> entry.state.backend.closed)
    {
      ghost var st1 := SoloCleanup.CancelledOne(st, entry.state.id);
      ghost var st2 := EndBackend(st1, st.sessions[entry.state.id].backend);
      SamePool(st, st2);
      CloseEntry(entry.state, st, st2);
      Delete(principal, st2);
    }

    /** `entry.state.cancel(); entry.state.backend.Close()` */
    method CloseEntry(state: SessionState, ghost st: State, ghost after: State)
      requires state.Models(st) && state.ctx != ctx && Models(after)
      requires after == EndBackend(SoloCleanup.CancelledOne(st, state.id), st.sessions[state.id].backend)
      modifies state.ctx, state.backend
      ensures state.Models(after) && Models(after)
      ensures state.ctx.cancelled && (state.backend != null ==> state.backend.closed)
    {
      state.Cancel(st);
      state.CloseBackend(SoloCleanup.CancelledOne(st, state.id));
    }
  }

  ghost predicate SameRoles(st: State, st': State) {
    forall i :: i in st.sessions ==> i in st'.sessions && st'.sessions[i].role == st.sessions[i].role
  }

  lemma RetainedRoles(st: State, f: Sid, key: Key, o: Sid)
    requires f in st.sessions && o in st.refs
    ensures var after := Solo.Retained(st, f, key, o);
            SameRoles(st, after) && after.entries == st.entries && after.refs == st.refs[o := st.refs[o] + 1]
  {
  }

  /** What p.release may touch when it is called through a session's closure. */
  ghost function Footprint(c: Option<Closure>): set<object?>
    reads if c.Some? then {c.value.entry.state} else {}
  {
    match c
    case None => {}
    case Some(Closure(pool, _, entry)) => {pool, entry, entry.state.ctx, entry.state.backend}
  }

  /** The closure of an attached session: its entry is the pool's entry for the principal. */
  ghost predicate ReleaseReady(c: Option<Closure>, st: State)
    reads if c.Some? then {c.value.pool} + c.value.pool.entries.Values + c.value.entry.state.Reads() else {}
  {
    c.Some? ==>
      var Closure(pool, principal, entry) := c.value;
      && pool.Models(st) && principal in pool.entries && pool.entries[principal] == entry
      && entry.state.Models(st) && entry.state.ctx != pool.ctx
  }

  ghost predicate ReleaseDone(c: Option<Closure>, st: State)
    reads if c.Some? then {c.value.pool} + c.value.pool.entries.Values + c.value.entry.state.Reads() else {}
  {
    c.Some? ==> c.value.pool.Models(st) && c.value.entry.state.Models(st)
  }

  lemma CancelledElsewhere(c: Option<Closure>, st: State, f: Sid)
    requires ReleaseReady(c, st) && (c.Some? ==> c.value.entry.state.id != f)
    ensures ReleaseReady(c, SoloCleanup.CancelledOne(st, f))
  {
  }

  /** The states agree on everything that sessions and pools model. */
  ghost predicate SameObjects(st: State, st': State) {
    && st'.sessions == st.sessions && st'.tokens == st.tokens && st'.cancelled == st.cancelled
    && st'.gctx == st.gctx && st'.dialled == st.dialled && st'.ended == st.ended
    && st'.refs == st.refs && st'.entries == st.entries
  }

  lemma DepartedSame(st: State, f: Sid)
    ensures SameObjects(st, SoloCleanup.Departed(st, f))
  {
    var after := SoloCleanup.Departed(st, f);
    if f !in st.sessions || !st.sessions[f].role.Frontend? {
      assert after == st;
    } else {
      var front := st.sessions[f].role.front;
      assert after == st.(roster := st.roster - {front}, slots := st.slots - 1, wg := st.wg - 1);
    }
  }

  lemma DepartedGateway(st: State, f: Sid, front: Front)
    requires f in st.sessions && st.sessions[f].role == Frontend(front)
    ensures var after := SoloCleanup.Departed(st, f);
            && after.roster == st.roster - {front} && after.slots == st.slots - 1 && after.wg == st.wg - 1
            && after.closed == st.closed && after.gctx == st.gctx
  {
  }

  lemma DepartedElsewhere(s: SessionState, st: State, st': State)
    requires s.Models(st) && ReleaseDone(s.release, st) && SameObjects(st, st')
    ensures s.Models(st') && ReleaseDone(s.release, st')
  {
    s.Elsewhere(st, st');
    if s.release.Some? {
      s.release.value.entry.state.Elsewhere(st, st');
      s.release.value.pool.Elsewhere(st, st');
    }
  }

  class Gateway {
    const ctx: Context
    const limits: Limits
    var slots: int  // len(slots)
    var sessions: map<Front, SessionState>
    var closed: bool
    var wg: int

    constructor (limits: Limits)
      ensures this.limits == limits && Models(Init()) && fresh(ctx)
    {
      this.limits, slots, sessions, closed, wg := limits, 0, map[], false, 0;
      ctx := new Context(null, -1);
    }

    ghost predicate Models(st: State)
      reads this, ctx
    {
      && ctx.parent == null && (ctx.cancelled <==> st.gctx)
      && slots == st.slots && closed == st.closed && wg == st.wg
      && sessions.Keys == st.roster.Keys
      && forall f :: f in sessions ==> sessions[f].id == st.roster[f]
    }

    /** get; a null result is a refusal.  `n` names a new session. */
    method Get(front: Front, ghost st: State, ghost n: Sid) returns (s: SessionState?)
      requires Models(st) && n !in st.sessions && n !in st.cancelled
      modifies this
      ensures Models(Solo.Got(limits, st, front, n))
      ensures Solo.GetOutcome(limits, st, front, n) == if s == null then None else Some(s.id)
      ensures s != null ==> front in sessions && sessions[front] == s
      ensures s != null && front !in old(sessions) ==> fresh(s) && s.Models(Solo.Got(limits, st, front, n))
      ensures s == null <==> old(closed || (front !in sessions && slots >= limits.sessions))
      ensures s == null || front in old(sessions) ==> unchanged(this)
      ensures s != null && front !in old(sessions) ==>
                && Blank(s, ctx) && sessions == old(sessions)[front := s]
                && slots == old(slots) + 1 && wg == old(wg) + 1 && closed == old(closed)
    {
      if closed {
        return null;
      }
      if front in sessions {
        return sessions[front];
      }
      if slots >= limits.sessions {
        return null;
      }
      slots := slots + 1;
      var child := new Context(ctx, n);
      s := new SessionState(child, n);
      sessions := sessions[front := s];
      wg := wg + 1;
    }

    /** The cleanup goroutine, once front.Wait has returned. */
    method CleanUp(front: Front, s: SessionState, ghost st: State) returns (ghost after: State)
      requires Models(st) && s.Models(st) && s.ctx != ctx
      requires front in sessions && sessions[front] == s && st.sessions[s.id].role == Frontend(front)
      requires ReleaseReady(s.release, st)
      modifies this, s.ctx, s.backend, Footprint(s.release)
      ensures after == SoloCleanup.CleanedUp(st, s.id)
      ensures Models(after) && s.Models(after) && ReleaseDone(s.release, after)
      ensures s.release == None && s.backend != null ==> s.backend.closed
      ensures sessions == old(sessions) - {front} && slots == old(slots) - 1 && wg == old(wg) - 1
      ensures closed == old(closed)
    {
      ContextApart(s, st);
      ghost var st2 := s.Finish(st);
      Elsewhere(st, st2);
      after := Leave(front, s, st2);
    }

    /** The gateway's context is not among those that a cleanup cancels. */
    lemma ContextApart(s: SessionState, st: State)
      requires Models(st) && s.Models(st) && ReleaseReady(s.release, st)
      ensures ctx !in Footprint(s.release) && this !in Footprint(s.release)
    {
    }

    lemma Elsewhere(st: State, st': State)
      requires Models(st) && SoloCleanup.SameGateway(st, st')
      ensures Models(st')
    {
    }

    method Leave(front: Front, s: SessionState, ghost st: State) returns (ghost after: State)
      requires Models(st) && s.Models(st) && ReleaseDone(s.release, st)
      requires st.sessions[s.id].role == Frontend(front)
      modifies this
      ensures after == SoloCleanup.Departed(st, s.id)
      ensures Models(after) && s.Models(after) && ReleaseDone(s.release, after)
      ensures sessions == old(sessions) - {front} && slots == old(slots) - 1 && wg == old(wg) - 1
      ensures closed == old(closed)
    {
      after := SoloCleanup.Departed(st, s.id);
      DepartedGateway(st, s.id, front);
      DepartedSame(st, s.id);
      DepartedElsewhere(s, st, after);
      Unregister(front, s, st, after);
    }

    /** `delete(g.sessions, front); <-g.slots; g.wg.Done()` */
    method Unregister(front: Front, s: SessionState, ghost st: State, ghost after: State)
      requires Models(st) && s.Models(after)
      requires after.roster == st.roster - {front} && after.slots == st.slots - 1 && after.wg == st.wg - 1
      requires after.closed == st.closed && after.gctx == st.gctx
      modifies this
      ensures Models(after) && s.Models(after)
      ensures sessions == old(sessions) - {front} && slots == old(slots) - 1 && wg == old(wg) - 1
      ensures closed == old(closed)
    {
      sessions := sessions - {front};
      slots := slots - 1;
      wg := wg - 1;
    }

    /** Close up to the unlock: no session is admitted afterwards, every context of the gateway
        is cancelled, and the frontends to close are those registered at this moment. */
    method Close(ghost st: State) returns (fronts: seq<Front>)
      requires Models(st)
      modifies this, ctx
      ensures Models(Solo.Closed(st))
      ensures (forall f :: f in fronts <==> f in sessions) && |fronts| == |sessions|
      ensures closed && ctx.cancelled
      ensures sessions == old(sessions) && slots == old(slots) && wg == old(wg)
    {
      closed := true;
      ctx.cancelled := true;
      fronts := [];
      var rest := sessions.Keys;
      while rest != {}
        invariant rest <= sessions.Keys && |fronts| == |sessions| - |rest|
        invariant forall f :: f in fronts <==> f in sessions && f !in rest
        decreases rest
      {
        var f :| f in rest;
        fronts := fronts + [f];
        rest := rest - {f};
      }
    }
  }
}
