/** The shared-backend ownership protocol as a labelled step system.

    A state holds every lock, every field that internal/bridge/shared.go and
    internal/bridge/bridge.go protect with those locks, and a program counter for each
    thread.  Three kinds of thread run: one request per middleware call, one cleanup
    goroutine per frontend session, and any number of callers of `Close`.  Taking a
    lock, releasing it and each access made while holding it are separate steps, so
    every interleaving of the Go code at lock granularity is a run of this system.
    There is no bound on endpoints, principals, frontends, sessions or requests. */
module Protocol {
  import opened Wrappers

  type Sid = nat  // an incarnation of a session, never reused
  type Rid = nat  // one middleware invocation
  type Bid = nat  // one successfully dialled backend
  type Cid = nat  // one caller of Gateway.Close

  /** `shared` is policy.BackendScope == "shared"; `stateless` is policy.Stateless. */
  datatype Endpoint = Endpoint(name: string, shared: bool, stateless: bool)

  /** A frontend connection (`*mcp.ServerSession`).  It belongs to one endpoint and was
      opened by one principal; "" stands for an unauthenticated frontend. */
  datatype Front = Front(id: nat, endpoint: Endpoint, principal: string)

  /** What identifies an entry of a pool: the endpoint that owns the pool, and the map key. */
  datatype Key = Key(endpoint: Endpoint, principal: string)

  function KeyOf(front: Front): Key {
    Key(front.endpoint, front.principal)
  }

  /** config.Limits, as far as the protocol reads it. */
  datatype Limits = Limits(sessions: nat, calls: nat)

  datatype Thread = Req(r: Rid) | Cleaner(f: Sid) | Closer(c: Cid)

  datatype Lock = GMu | SMu(s: Sid) | PMu(endpoint: Endpoint)

  /** One Go `session` struct plays two roles: it is the state of a frontend, or the
      `state` of a pooled backend. */
  datatype Role = Frontend(front: Front) | PoolOwner(key: Key)

  /** The closure stored in session.release: p.release(principal, entry). */
  datatype Release = Release(key: Key, entry: Sid)

  datatype Session = Session(
    role: Role,
    backend: Option<Bid>,
    failed: bool,
    owner: Option<Sid>,
    release: Option<Release>)

  datatype ReqPc =
    | QGetLock | QGet | QGetOk | QGetRefused
    | QGate | QToken | QScope
    | QAttachLock | QAttachCheck | QPoolLock | QEnsure | QRetain | QPoolUnlock
    | QAttachUnlock | QAttachFail
    | QOwnerToken
    | QConnLock | QConnCheck | QDial | QStore | QDialFailed | QConnOk | QConnFail
    | QForward
    | QExitOwner | QExit | QDone

  /** The local variables of one middleware call: `state`, `owner` (here `target`), `b`
      (here `backend`), and whether its call context has been cancelled. */
  datatype Request = Request(
    front: Front, principal: string, pc: ReqPc, state: Sid, target: Sid, backend: Bid, expired: bool)

  datatype CleanPc =
    | CWait | CCancel | CLockS | CInspect | CClosePrivate
    | CLockP | CDecr | CCancelOwner | CLockO | CCloseOwner | CUnlockO | CDelete | CUnlockP
    | CUnlockS
    | CLockG | CDrop | CReturnSlot | CUnlockG | CWgDone | CEnd

  /** A cleanup goroutine; `key` and `entry` are the arguments captured by session.release. */
  datatype Clean = Clean(pc: CleanPc, key: Key, entry: Sid)

  datatype ClosePc = KLockG | KClosed | KCancel | KSnapshot | KFronts | KWait | KReturned

  /** The mutexes of all objects are one map, as are the channels `calls` and the counts
      `refs`; an absent lock is free. */
  datatype State = State(
    locks: map<Lock, Thread>,
    closed: bool,
    gctx: bool,                    // Gateway.ctx has been cancelled
    roster: map<Front, Sid>,       // Gateway.sessions
    slots: int,                    // len(Gateway.slots)
    wg: int,
    sessions: map<Sid, Session>,
    cancelled: set<Sid>,           // sessions whose own cancel function has been called
    tokens: map<Sid, int>,         // len(session.calls)
    refs: map<Sid, int>,           // pooledBackend.refs, by the session it holds
    cleaners: map<Sid, Clean>,
    requests: map<Rid, Request>,
    closers: map<Cid, ClosePc>,
    entries: map<Key, Sid>,        // every pool's entries
    dialled: map<Bid, Sid>,        // every backend a dial ever returned, and for which session
    ended: set<Bid>)               // backends on which the bridge called Close

  /** Context errors as the code reads them: a session context is a child of the gateway's. */
  predicate Cancelled(st: State, s: Sid) {
    s in st.cancelled || st.gctx
  }

  predicate Live(st: State, b: Bid) {
    b in st.dialled && b !in st.ended
  }

  /** NAMED ASSUMPTION (SECURITY.md, session binding): requests of one frontend always
      carry the principal that opened it. */
  predicate FixedPrincipal(front: Front, principal: string) {
    principal == front.principal
  }

  // --- state updates shared by the steps --------------------------------------------

  function SetReq(st: State, r: Rid, q: Request): State {
    st.(requests := st.requests[r := q])
  }

  function Acquire(st: State, l: Lock, t: Thread): State {
    st.(locks := st.locks[l := t])
  }

  function Unlock(st: State, l: Lock): State {
    st.(locks := st.locks - {l})
  }

  function SetSession(st: State, s: Sid, rec: Session): State {
    st.(sessions := st.sessions[s := rec])
  }

  function SetTokens(st: State, s: Sid, n: int): State {
    st.(tokens := st.tokens[s := n])
  }

  function SetClean(st: State, f: Sid, c: Clean): State {
    st.(cleaners := st.cleaners[f := c])
  }

  function EndBackend(st: State, backend: Option<Bid>): State {
    st.(ended := st.ended + if backend.Some? then {backend.value} else {})
  }

  function NewFrontend(front: Front): Session {
    Session(Frontend(front), None, false, None, None)
  }

  function NewOwner(key: Key): Session {
    Session(PoolOwner(key), None, false, None, None)
  }

  // --- requests: Gateway.get (bridge.go:55-90) --------------------------------------

  /** The middleware is entered for `front`. */
  ghost predicate Arrive(st: State, r: Rid, front: Front, principal: string, st': State) {
    && r !in st.requests
    && FixedPrincipal(front, principal)
    && st' == SetReq(st, r, Request(front, principal, QGetLock, 0, 0, 0, false))
  }

  ghost predicate GetLock(st: State, r: Rid, st': State) {
    && r in st.requests && st.requests[r].pc == QGetLock
    && GMu !in st.locks
    && st' == Acquire(SetReq(st, r, st.requests[r].(pc := QGet)), GMu, Req(r))
  }

  /** `closed`, or no free slot: nothing but the program counter changes. */
  ghost predicate GetRefuse(lim: Limits, st: State, r: Rid, st': State) {
    && r in st.requests && st.requests[r].pc == QGet
    && (st.closed || (st.requests[r].front !in st.roster && st.slots >= lim.sessions))
    && st' == SetReq(st, r, st.requests[r].(pc := QGetRefused))
  }

  ghost predicate GetExisting(st: State, r: Rid, st': State) {
    && r in st.requests && st.requests[r].pc == QGet
    && !st.closed && st.requests[r].front in st.roster
    && st' == SetReq(st, r, st.requests[r].(pc := QGetOk, state := st.roster[st.requests[r].front]))
  }

  /** A slot is taken, a new incarnation is registered and its cleanup goroutine starts. */
  ghost predicate GetNew(lim: Limits, st: State, r: Rid, f: Sid, st': State) {
    && r in st.requests && st.requests[r].pc == QGet
    && !st.closed && st.requests[r].front !in st.roster && st.slots < lim.sessions
    && f !in st.sessions && f !in st.cleaners
    && var q := st.requests[r];
    && st' == st.(
                requests := st.requests[r := q.(pc := QGetOk, state := f)],
                sessions := st.sessions[f := NewFrontend(q.front)],
                tokens := st.tokens[f := 0],
                cleaners := st.cleaners[f := Clean(CWait, KeyOf(q.front), f)],
                roster := st.roster[q.front := f],
                slots := st.slots + 1,
                wg := st.wg + 1)
  }

  ghost predicate GetUnlock(st: State, r: Rid, st': State) {
    && r in st.requests && (st.requests[r].pc == QGetOk || st.requests[r].pc == QGetRefused)
    && var q := st.requests[r];
    && st' == Unlock(SetReq(st, r, q.(pc := if q.pc == QGetOk then QGate else QDone)), GMu)
  }

  // --- requests: gates and tokens (bridge.go:156-227) -------------------------------

  /** `admit` false covers a refusal by policy and the methods answered without a backend. */
  ghost predicate Gate(st: State, r: Rid, admit: bool, st': State) {
    && r in st.requests && st.requests[r].pc == QGate
    && st' == SetReq(st, r, st.requests[r].(pc := if admit then QToken else QDone))
  }

  ghost predicate TakeToken(lim: Limits, st: State, r: Rid, st': State) {
    && r in st.requests && st.requests[r].pc == QToken
    && var q := st.requests[r];
    && q.state in st.tokens
    && var free := st.tokens[q.state] < lim.calls;
    && st' == SetReq(SetTokens(st, q.state, st.tokens[q.state] + if free then 1 else 0), r,
                     q.(pc := if free then QScope else QDone))
  }

  function Scoped(q: Request): Request {
    if !q.front.endpoint.shared then q.(pc := QConnLock, target := q.state)
    else if !q.front.endpoint.stateless || q.principal == "" then q.(pc := QExit)
    else q.(pc := QAttachLock)
  }

  ghost predicate ChooseScope(st: State, r: Rid, st': State) {
    && r in st.requests && st.requests[r].pc == QScope
    && st' == SetReq(st, r, Scoped(st.requests[r]))
  }

  ghost predicate TakeOwnerToken(lim: Limits, st: State, r: Rid, st': State) {
    && r in st.requests && st.requests[r].pc == QOwnerToken
    && var q := st.requests[r];
    && q.target in st.tokens
    && var free := st.tokens[q.target] < lim.calls;
    && st' == SetReq(SetTokens(st, q.target, st.tokens[q.target] + if free then 1 else 0), r,
                     q.(pc := if free then QConnLock else QExit))
  }

  // --- requests: session.attach (shared.go:26-47) -----------------------------------

  ghost predicate AttachLock(st: State, r: Rid, st': State) {
    && r in st.requests && st.requests[r].pc == QAttachLock
    && var q := st.requests[r];
    && SMu(q.state) !in st.locks
    && st' == Acquire(SetReq(st, r, q.(pc := QAttachCheck)), SMu(q.state), Req(r))
  }

  function Checked(q: Request, cancelled: bool, owner: Option<Sid>): Request {
    if cancelled then q.(pc := QAttachFail)
    else if owner.Some? then q.(pc := QAttachUnlock, target := owner.value)
    else q.(pc := QPoolLock)
  }

  ghost predicate AttachCheck(st: State, r: Rid, st': State) {
    && r in st.requests && st.requests[r].pc == QAttachCheck
    && var q := st.requests[r];
    && q.state in st.sessions
    && st' == SetReq(st, r, Checked(q, Cancelled(st, q.state), st.sessions[q.state].owner))
  }

  ghost predicate PoolLock(st: State, r: Rid, st': State) {
    && r in st.requests && st.requests[r].pc == QPoolLock
    && var q := st.requests[r];
    && PMu(q.front.endpoint) !in st.locks
    && st' == Acquire(SetReq(st, r, q.(pc := QEnsure)), PMu(q.front.endpoint), Req(r))
  }

  function PoolKey(q: Request): Key {
    Key(q.front.endpoint, q.principal)
  }

  ghost predicate EnsureFound(st: State, r: Rid, st': State) {
    && r in st.requests && st.requests[r].pc == QEnsure
    && var q := st.requests[r];
    && PoolKey(q) in st.entries
    && st' == SetReq(st, r, q.(pc := QRetain, target := st.entries[PoolKey(q)]))
  }

  ghost predicate EnsureNew(st: State, r: Rid, o: Sid, st': State) {
    && r in st.requests && st.requests[r].pc == QEnsure
    && var q := st.requests[r];
    && PoolKey(q) !in st.entries && o !in st.sessions && o !in st.cleaners
    && st' == st.(
                requests := st.requests[r := q.(pc := QRetain, target := o)],
                sessions := st.sessions[o := NewOwner(PoolKey(q))],
                tokens := st.tokens[o := 0],
                refs := st.refs[o := 0],
                entries := st.entries[PoolKey(q) := o])
  }

  /** entry.refs++, s.owner = entry.state and s.release = ... under both locks. */
  ghost predicate Retain(st: State, r: Rid, st': State) {
    && r in st.requests && st.requests[r].pc == QRetain
    && var q := st.requests[r];
    && q.state in st.sessions && q.target in st.refs
    && var s := st.sessions[q.state];
    && st' == st.(
                requests := st.requests[r := q.(pc := QPoolUnlock)],
                refs := st.refs[q.target := st.refs[q.target] + 1],
                sessions := st.sessions
                  [q.state := s.(owner := Some(q.target), release := Some(Release(PoolKey(q), q.target)))])
  }

  ghost predicate PoolUnlock(st: State, r: Rid, st': State) {
    && r in st.requests && st.requests[r].pc == QPoolUnlock
    && var q := st.requests[r];
    && st' == Unlock(SetReq(st, r, q.(pc := QAttachUnlock)), PMu(q.front.endpoint))
  }

  ghost predicate AttachUnlock(st: State, r: Rid, st': State) {
    && r in st.requests && (st.requests[r].pc == QAttachUnlock || st.requests[r].pc == QAttachFail)
    && var q := st.requests[r];
    && st' == Unlock(SetReq(st, r, q.(pc := if q.pc == QAttachUnlock then QOwnerToken else QExit)), SMu(q.state))
  }

  // --- requests: session.connect and forward (bridge.go:91-107, 228-236) -------------

  ghost predicate ConnLock(st: State, r: Rid, st': State) {
    && r in st.requests && st.requests[r].pc == QConnLock
    && var q := st.requests[r];
    && SMu(q.target) !in st.locks
    && st' == Acquire(SetReq(st, r, q.(pc := QConnCheck)), SMu(q.target), Req(r))
  }

  ghost predicate ConnCheck(st: State, r: Rid, st': State) {
    && r in st.requests && st.requests[r].pc == QConnCheck
    && var q := st.requests[r];
    && q.target in st.sessions
    && var s := st.sessions[q.target];
    && st' == SetReq(st, r,
                if s.failed then q.(pc := QConnFail)
                else if s.backend.Some? then q.(pc := QConnOk, backend := s.backend.value)
                else q.(pc := QDial))
  }

  /** The dial may run for any time under the session lock; here it returns a backend.  The
      code does not look at the session's own context again, so nothing more is asked. */
  ghost predicate DialSucceeds(st: State, r: Rid, b: Bid, st': State) {
    && r in st.requests && st.requests[r].pc == QDial
    && var q := st.requests[r];
    && b !in st.dialled
    && st' == SetReq(st, r, q.(pc := QStore, backend := b)).(dialled := st.dialled[b := q.target])
  }

  ghost predicate DialFails(st: State, r: Rid, st': State) {
    && r in st.requests && st.requests[r].pc == QDial
    && st' == SetReq(st, r, st.requests[r].(pc := QDialFailed))
  }

  /** s.backend = b, or s.failed = true. */
  function Stored(q: Request, s: Session): Session {
    if q.pc == QStore then s.(backend := Some(q.backend)) else s.(failed := true)
  }

  ghost predicate StoreResult(st: State, r: Rid, st': State) {
    && r in st.requests
    && var q := st.requests[r];
    && (q.pc == QStore || q.pc == QDialFailed)
    && q.target in st.sessions
    && st' == SetReq(SetSession(st, q.target, Stored(q, st.sessions[q.target])), r,
                     q.(pc := if q.pc == QStore then QConnOk else QConnFail))
  }

  /** Where the deferred receives start: an owner token was taken only on a shared endpoint. */
  function ExitPc(q: Request): ReqPc {
    if q.front.endpoint.shared then QExitOwner else QExit
  }

  ghost predicate ConnUnlock(st: State, r: Rid, st': State) {
    && r in st.requests && (st.requests[r].pc == QConnOk || st.requests[r].pc == QConnFail)
    && var q := st.requests[r];
    && st' == Unlock(SetReq(st, r, q.(pc := if q.pc == QConnOk then QForward else ExitPc(q))), SMu(q.target))
  }

  /** forward returns, with a result or an error. */
  ghost predicate ForwardReturns(st: State, r: Rid, st': State) {
    && r in st.requests && st.requests[r].pc == QForward
    && st' == SetReq(st, r, st.requests[r].(pc := ExitPc(st.requests[r])))
  }

  /** `<-owner.calls` and `<-state.calls` block on an empty channel: tokens must be positive. */
  ghost predicate ReturnOwnerToken(st: State, r: Rid, st': State) {
    && r in st.requests && st.requests[r].pc == QExitOwner
    && var q := st.requests[r];
    && q.target in st.tokens && st.tokens[q.target] > 0
    && st' == SetReq(SetTokens(st, q.target, st.tokens[q.target] - 1), r, q.(pc := QExit))
  }

  ghost predicate ReturnToken(st: State, r: Rid, st': State) {
    && r in st.requests && st.requests[r].pc == QExit
    && var q := st.requests[r];
    && q.state in st.tokens && st.tokens[q.state] > 0
    && st' == SetReq(SetTokens(st, q.state, st.tokens[q.state] - 1), r, q.(pc := QDone))
  }

  /** The call times out, its client cancels it, or AfterFunc propagates a cancellation. */
  ghost predicate Expire(st: State, r: Rid, st': State) {
    && r in st.requests
    && st' == SetReq(st, r, st.requests[r].(expired := true))
  }

  // --- cleanup goroutine (bridge.go:73-88) and pool release (shared.go:49-65) -------

  ghost predicate FrontEnds(st: State, f: Sid, st': State) {
    && f in st.cleaners && st.cleaners[f].pc == CWait
    && st' == SetClean(st, f, st.cleaners[f].(pc := CCancel))
  }

  ghost predicate CleanCancel(st: State, f: Sid, st': State) {
    && f in st.cleaners && st.cleaners[f].pc == CCancel
    && st' == SetClean(st, f, st.cleaners[f].(pc := CLockS)).(cancelled := st.cancelled + {f})
  }

  ghost predicate CleanLockS(st: State, f: Sid, st': State) {
    && f in st.cleaners && st.cleaners[f].pc == CLockS
    && SMu(f) !in st.locks
    && st' == Acquire(SetClean(st, f, st.cleaners[f].(pc := CInspect)), SMu(f), Cleaner(f))
  }

  ghost predicate CleanInspect(st: State, f: Sid, st': State) {
    && f in st.cleaners && st.cleaners[f].pc == CInspect && f in st.sessions
    && st' == SetClean(st, f,
                match st.sessions[f].release
                case Some(rel) => Clean(CLockP, rel.key, rel.entry)
                case None => st.cleaners[f].(pc := CClosePrivate))
  }

  ghost predicate CleanClosePrivate(st: State, f: Sid, st': State) {
    && f in st.cleaners && st.cleaners[f].pc == CClosePrivate && f in st.sessions
    && st' == SetClean(EndBackend(st, st.sessions[f].backend), f, st.cleaners[f].(pc := CUnlockS))
  }

  ghost predicate CleanLockP(st: State, f: Sid, st': State) {
    && f in st.cleaners && st.cleaners[f].pc == CLockP
    && var c := st.cleaners[f];
    && PMu(c.key.endpoint) !in st.locks
    && st' == Acquire(SetClean(st, f, c.(pc := CDecr)), PMu(c.key.endpoint), Cleaner(f))
  }

  ghost predicate CleanDecr(st: State, f: Sid, st': State) {
    && f in st.cleaners && st.cleaners[f].pc == CDecr
    && var c := st.cleaners[f];
    && c.entry in st.refs
    && var n := st.refs[c.entry] - 1;
    && st' == SetClean(st, f, c.(pc := if n != 0 then CUnlockP else CCancelOwner)).(refs := st.refs[c.entry := n])
  }

  ghost predicate CleanCancelOwner(st: State, f: Sid, st': State) {
    && f in st.cleaners && st.cleaners[f].pc == CCancelOwner
    && var c := st.cleaners[f];
    && st' == SetClean(st, f, c.(pc := CLockO)).(cancelled := st.cancelled + {c.entry})
  }

  ghost predicate CleanLockO(st: State, f: Sid, st': State) {
    && f in st.cleaners && st.cleaners[f].pc == CLockO
    && var c := st.cleaners[f];
    && SMu(c.entry) !in st.locks
    && st' == Acquire(SetClean(st, f, c.(pc := CCloseOwner)), SMu(c.entry), Cleaner(f))
  }

  ghost predicate CleanCloseOwner(st: State, f: Sid, st': State) {
    && f in st.cleaners && st.cleaners[f].pc == CCloseOwner
    && var c := st.cleaners[f];
    && c.entry in st.sessions
    && st' == SetClean(EndBackend(st, st.sessions[c.entry].backend), f, c.(pc := CUnlockO))
  }

  ghost predicate CleanUnlockO(st: State, f: Sid, st': State) {
    && f in st.cleaners && st.cleaners[f].pc == CUnlockO
    && var c := st.cleaners[f];
    && st' == Unlock(SetClean(st, f, c.(pc := CDelete)), SMu(c.entry))
  }

  ghost predicate CleanDelete(st: State, f: Sid, st': State) {
    && f in st.cleaners && st.cleaners[f].pc == CDelete
    && var c := st.cleaners[f];
    && st' == SetClean(st, f, c.(pc := CUnlockP)).(entries := st.entries - {c.key})
  }

  ghost predicate CleanUnlockP(st: State, f: Sid, st': State) {
    && f in st.cleaners && st.cleaners[f].pc == CUnlockP
    && var c := st.cleaners[f];
    && st' == Unlock(SetClean(st, f, c.(pc := CUnlockS)), PMu(c.key.endpoint))
  }

  ghost predicate CleanUnlockS(st: State, f: Sid, st': State) {
    && f in st.cleaners && st.cleaners[f].pc == CUnlockS
    && st' == Unlock(SetClean(st, f, st.cleaners[f].(pc := CLockG)), SMu(f))
  }

  ghost predicate CleanLockG(st: State, f: Sid, st': State) {
    && f in st.cleaners && st.cleaners[f].pc == CLockG && GMu !in st.locks
    && st' == Acquire(SetClean(st, f, st.cleaners[f].(pc := CDrop)), GMu, Cleaner(f))
  }

  ghost predicate CleanDrop(st: State, f: Sid, st': State) {
    && f in st.cleaners && st.cleaners[f].pc == CDrop
    && f in st.sessions && st.sessions[f].role.Frontend?
    && st' == SetClean(st, f, st.cleaners[f].(pc := CReturnSlot)).(roster := st.roster - {st.sessions[f].role.front})
  }

  /** `<-g.slots` would block on an empty channel. */
  ghost predicate CleanReturnSlot(st: State, f: Sid, st': State) {
    && f in st.cleaners && st.cleaners[f].pc == CReturnSlot && st.slots > 0
    && st' == SetClean(st, f, st.cleaners[f].(pc := CUnlockG)).(slots := st.slots - 1)
  }

  ghost predicate CleanUnlockG(st: State, f: Sid, st': State) {
    && f in st.cleaners && st.cleaners[f].pc == CUnlockG
    && st' == Unlock(SetClean(st, f, st.cleaners[f].(pc := CWgDone)), GMu)
  }

  ghost predicate CleanWgDone(st: State, f: Sid, st': State) {
    && f in st.cleaners && st.cleaners[f].pc == CWgDone
    && st' == SetClean(st, f, st.cleaners[f].(pc := CEnd)).(wg := st.wg - 1)
  }

  // --- Gateway.Close (bridge.go:39-52) ----------------------------------------------

  function SetCloser(st: State, c: Cid, pc: ClosePc): State {
    st.(closers := st.closers[c := pc])
  }

  ghost predicate CloseStart(st: State, c: Cid, st': State) {
    && c !in st.closers && st' == SetCloser(st, c, KLockG)
  }

  ghost predicate CloseLock(st: State, c: Cid, st': State) {
    && c in st.closers && st.closers[c] == KLockG && GMu !in st.locks
    && st' == Acquire(SetCloser(st, c, KClosed), GMu, Closer(c))
  }

  ghost predicate CloseMark(st: State, c: Cid, st': State) {
    && c in st.closers && st.closers[c] == KClosed
    && st' == SetCloser(st, c, KCancel).(closed := true)
  }

  ghost predicate CloseCancel(st: State, c: Cid, st': State) {
    && c in st.closers && st.closers[c] == KCancel
    && st' == SetCloser(st, c, KSnapshot).(gctx := true)
  }

  ghost predicate CloseUnlock(st: State, c: Cid, st': State) {
    && c in st.closers && st.closers[c] == KSnapshot
    && st' == Unlock(SetCloser(st, c, KFronts), GMu)
  }

  /** The calls of Close on the snapshot only make the Wait of each frontend return, which
      FrontEnds already allows at any time. */
  ghost predicate CloseFronts(st: State, c: Cid, st': State) {
    && c in st.closers && st.closers[c] == KFronts
    && st' == SetCloser(st, c, KWait)
  }

  /** wg.Wait returns. */
  ghost predicate CloseReturn(st: State, c: Cid, st': State) {
    && c in st.closers && st.closers[c] == KWait && st.wg == 0
    && st' == SetCloser(st, c, KReturned)
  }

  // --- the whole system -------------------------------------------------------------

  /** Labels.  `n` is the identifier of whatever the step creates. */
  datatype Action =
    | AArrive(r: Rid, front: Front, principal: string)
    | AGetLock(r: Rid) | AGetRefuse(r: Rid) | AGetExisting(r: Rid) | AGetNew(r: Rid, n: Sid) | AGetUnlock(r: Rid)
    | AGate(r: Rid, admit: bool) | ATakeToken(r: Rid) | AChooseScope(r: Rid) | ATakeOwnerToken(r: Rid)
    | AAttachLock(r: Rid) | AAttachCheck(r: Rid) | APoolLock(r: Rid) | AEnsureFound(r: Rid)
    | AEnsureNew(r: Rid, n: Sid) | ARetain(r: Rid) | APoolUnlock(r: Rid) | AAttachUnlock(r: Rid)
    | AConnLock(r: Rid) | AConnCheck(r: Rid) | ADialSucceeds(r: Rid, b: Bid) | ADialFails(r: Rid)
    | AStoreResult(r: Rid) | AConnUnlock(r: Rid) | AForwardReturns(r: Rid)
    | AReturnOwnerToken(r: Rid) | AReturnToken(r: Rid) | AExpire(r: Rid)
    | AFrontEnds(f: Sid) | AClean(f: Sid)
    | ACloseStart(c: Cid) | AClose(c: Cid)

  /** Cancel the session, lock it and look at what it owns. */
  ghost predicate EndingStep(st: State, f: Sid, st': State) {
    || CleanCancel(st, f, st')
    || CleanLockS(st, f, st')
    || CleanInspect(st, f, st')
    || CleanClosePrivate(st, f, st')
  }

  /** Inside p.release. */
  ghost predicate ReleaseStep(st: State, f: Sid, st': State) {
    || CleanLockP(st, f, st')
    || CleanDecr(st, f, st')
    || CleanCancelOwner(st, f, st')
    || CleanLockO(st, f, st')
    || CleanCloseOwner(st, f, st')
    || CleanUnlockO(st, f, st')
    || CleanDelete(st, f, st')
    || CleanUnlockP(st, f, st')
  }

  /** Unlock the session and leave the gateway. */
  ghost predicate LeavingStep(st: State, f: Sid, st': State) {
    || CleanUnlockS(st, f, st')
    || CleanLockG(st, f, st')
    || CleanDrop(st, f, st')
    || CleanReturnSlot(st, f, st')
    || CleanUnlockG(st, f, st')
    || CleanWgDone(st, f, st')
  }

  /** Every step of a cleanup goroutine after its frontend has ended. */
  ghost predicate CleanStep(st: State, f: Sid, st': State) {
    EndingStep(st, f, st') || ReleaseStep(st, f, st') || LeavingStep(st, f, st')
  }

  ghost predicate CloseStep(st: State, c: Cid, st': State) {
    || CloseLock(st, c, st') || CloseMark(st, c, st') || CloseCancel(st, c, st')
    || CloseUnlock(st, c, st') || CloseFronts(st, c, st') || CloseReturn(st, c, st')
  }

  ghost predicate Step(lim: Limits, st: State, a: Action, st': State) {
    match a
    case AArrive(r, front, principal) => Arrive(st, r, front, principal, st')
    case AGetLock(r) => GetLock(st, r, st')
    case AGetRefuse(r) => GetRefuse(lim, st, r, st')
    case AGetExisting(r) => GetExisting(st, r, st')
    case AGetNew(r, n) => GetNew(lim, st, r, n, st')
    case AGetUnlock(r) => GetUnlock(st, r, st')
    case AGate(r, admit) => Gate(st, r, admit, st')
    case ATakeToken(r) => TakeToken(lim, st, r, st')
    case AChooseScope(r) => ChooseScope(st, r, st')
    case ATakeOwnerToken(r) => TakeOwnerToken(lim, st, r, st')
    case AAttachLock(r) => AttachLock(st, r, st')
    case AAttachCheck(r) => AttachCheck(st, r, st')
    case APoolLock(r) => PoolLock(st, r, st')
    case AEnsureFound(r) => EnsureFound(st, r, st')
    case AEnsureNew(r, n) => EnsureNew(st, r, n, st')
    case ARetain(r) => Retain(st, r, st')
    case APoolUnlock(r) => PoolUnlock(st, r, st')
    case AAttachUnlock(r) => AttachUnlock(st, r, st')
    case AConnLock(r) => ConnLock(st, r, st')
    case AConnCheck(r) => ConnCheck(st, r, st')
    case ADialSucceeds(r, b) => DialSucceeds(st, r, b, st')
    case ADialFails(r) => DialFails(st, r, st')
    case AStoreResult(r) => StoreResult(st, r, st')
    case AConnUnlock(r) => ConnUnlock(st, r, st')
    case AForwardReturns(r) => ForwardReturns(st, r, st')
    case AReturnOwnerToken(r) => ReturnOwnerToken(st, r, st')
    case AReturnToken(r) => ReturnToken(st, r, st')
    case AExpire(r) => Expire(st, r, st')
    case AFrontEnds(f) => FrontEnds(st, f, st')
    case AClean(f) => CleanStep(st, f, st')
    case ACloseStart(c) => CloseStart(st, c, st')
    case AClose(c) => CloseStep(st, c, st')
  }

  ghost predicate Next(lim: Limits, st: State, st': State) {
    exists a :: Step(lim, st, a, st')
  }

  /** The state `New` returns: nothing locked, nothing registered. */
  function Init(): State {
    State(map[], false, false, map[], 0, 0, map[], {}, map[], map[], map[], map[], map[], map[], map[], {})
  }

  ghost predicate StepAt(lim: Limits, run: seq<State>, i: nat)
    requires i + 1 < |run|
  {
    Next(lim, run[i], run[i + 1])
  }

  /** A finite run from the initial state. */
  ghost predicate Run(lim: Limits, run: seq<State>) {
    && |run| > 0 && run[0] == Init()
    && forall i: nat :: i + 1 < |run| ==> StepAt(lim, run, i)
  }
}
