/** The inductive invariant of the ownership protocol, as predicates that each look at one
    session, request or cleanup goroutine at a time. */
module Invariant {
  import opened Wrappers
  import opened Protocol

  // --- what a program counter says --------------------------------------------------

  /** Between g.get and the end of the call: `state` is a session of this frontend. */
  predicate HasState(pc: ReqPc) {
    !(pc.QGetLock? || pc.QGet? || pc.QGetRefused? || pc.QDone?)
  }

  /** Holding state.mu inside attach, with owner known to be nil. */
  predicate Attaching(pc: ReqPc) {
    pc.QPoolLock? || pc.QEnsure? || pc.QRetain?
  }

  /** Holding state.mu inside attach. */
  predicate InAttach(pc: ReqPc) {
    pc.QAttachCheck? || Attaching(pc) || pc.QPoolUnlock? || pc.QAttachUnlock? || pc.QAttachFail?
  }

  predicate InPool(pc: ReqPc) {
    pc.QEnsure? || pc.QRetain? || pc.QPoolUnlock?
  }

  /** Holding owner.mu inside connect. */
  predicate InConnect(pc: ReqPc) {
    pc.QConnCheck? || pc.QDial? || pc.QStore? || pc.QDialFailed? || pc.QConnOk? || pc.QConnFail?
  }

  /** From the return of attach (or the choice of the private session) to the last use of it. */
  predicate HasTarget(pc: ReqPc) {
    pc.QPoolUnlock? || pc.QAttachUnlock? || pc.QOwnerToken? || pc.QConnLock? || InConnect(pc) || pc.QForward?
    || pc.QExitOwner?
  }

  predicate HasBackend(pc: ReqPc) {
    pc.QConnOk? || pc.QForward?
  }

  predicate OnlyShared(pc: ReqPc) {
    pc.QAttachLock? || InAttach(pc) || pc.QOwnerToken? || pc.QExitOwner?
  }

  /** Past the choice of the scope, and not on the way out. */
  predicate PastScope(pc: ReqPc) {
    pc.QAttachLock? || InAttach(pc) || HasTarget(pc)
  }

  predicate HasToken(pc: ReqPc) {
    pc.QScope? || pc.QAttachLock? || InAttach(pc) || pc.QOwnerToken? || pc.QConnLock? || InConnect(pc)
    || pc.QForward? || pc.QExitOwner? || pc.QExit?
  }

  predicate HasOwnerToken(q: Request) {
    q.front.endpoint.shared
    && (q.pc.QConnLock? || InConnect(q.pc) || q.pc.QForward? || q.pc.QExitOwner?)
  }

  predicate UsesToken(q: Request, s: Sid) {
    (HasToken(q.pc) && q.state == s) || (HasOwnerToken(q) && q.target == s)
  }

  /** The frontend's context is not known to be cancelled yet. */
  predicate BeforeCancel(pc: CleanPc) {
    pc.CWait? || pc.CCancel?
  }

  /** The goroutine has not taken its session's lock yet. */
  predicate BeforeLock(pc: CleanPc) {
    BeforeCancel(pc) || pc.CLockS?
  }

  /** Inside p.release, before and after entry.refs--. */
  predicate BeforeDecr(pc: CleanPc) {
    pc.CLockP? || pc.CDecr?
  }

  /** The last reference is gone and the entry has not been deleted yet. */
  predicate Reaping(pc: CleanPc) {
    pc.CCancelOwner? || pc.CLockO? || pc.CCloseOwner? || pc.CUnlockO? || pc.CDelete?
  }

  predicate InRelease(pc: CleanPc) {
    BeforeDecr(pc) || Reaping(pc) || pc.CUnlockP?
  }

  predicate HoldsPool(pc: CleanPc) {
    pc.CDecr? || Reaping(pc) || pc.CUnlockP?
  }

  /** Session.mu has been released for the last time by the goroutine. */
  predicate AfterUnlock(pc: CleanPc) {
    pc.CLockG? || pc.CDrop? || pc.CReturnSlot? || pc.CUnlockG? || pc.CWgDone? || pc.CEnd?
  }

  /** The private backend, if any, has been closed. */
  predicate PastClose(pc: CleanPc) {
    pc.CUnlockS? || AfterUnlock(pc)
  }

  /** entry.refs-- has been executed, or there was nothing to release. */
  predicate PastDecr(pc: CleanPc) {
    Reaping(pc) || pc.CUnlockP? || pc.CUnlockS? || AfterUnlock(pc)
  }

  predicate BeforeDrop(pc: CleanPc) {
    !(pc.CReturnSlot? || pc.CUnlockG? || pc.CWgDone? || pc.CEnd?)
  }

  // --- locks ------------------------------------------------------------------------

  predicate RequestHolds(q: Request, l: Lock) {
    match l
    case GMu => q.pc.QGet? || q.pc.QGetOk? || q.pc.QGetRefused?
    case SMu(s) => (InAttach(q.pc) && q.state == s) || (InConnect(q.pc) && q.target == s)
    case PMu(e) => InPool(q.pc) && q.front.endpoint == e
  }

  predicate CleanerHolds(f: Sid, c: Clean, l: Lock) {
    match l
    case GMu => c.pc.CDrop? || c.pc.CReturnSlot? || c.pc.CUnlockG?
    case SMu(s) =>
      || (s == f && !BeforeLock(c.pc) && !AfterUnlock(c.pc))
      || (s == c.entry && (c.pc.CCloseOwner? || c.pc.CUnlockO?))
    case PMu(e) => e == c.key.endpoint && HoldsPool(c.pc)
  }

  predicate CloserHolds(pc: ClosePc, l: Lock) {
    l.GMu? && (pc.KClosed? || pc.KCancel? || pc.KSnapshot?)
  }

  /** What the program counters say thread `t` holds. */
  predicate Holds(st: State, t: Thread, l: Lock) {
    match t
    case Req(r) => r in st.requests && RequestHolds(st.requests[r], l)
    case Cleaner(f) => f in st.cleaners && CleanerHolds(f, st.cleaners[f], l)
    case Closer(c) => c in st.closers && CloserHolds(st.closers[c], l)
  }

  ghost predicate LockInv(st: State) {
    && (forall l :: l in st.locks ==> Holds(st, st.locks[l], l))
    && (forall t, l :: Holds(st, t, l) ==> l in st.locks && st.locks[l] == t)
  }

  // --- sessions, requests and cleanup goroutines, one at a time ----------------------

  predicate SessionOk(sessions: map<Sid, Session>, s: Session) {
    && (s.failed ==> s.backend.None?)
    && s.owner.Some? == s.release.Some?
    && match s.role
       case PoolOwner(key) =>
         s.owner.None? && key.endpoint.shared && key.endpoint.stateless && key.principal != ""
       case Frontend(front) =>
         && (front.endpoint.shared ==> s.backend.None? && !s.failed)
         && (s.owner.Some? ==>
               && front.endpoint.shared
               && s.owner.value in sessions
               && sessions[s.owner.value].role == PoolOwner(KeyOf(front))
               && s.release == Some(Release(KeyOf(front), s.owner.value)))
  }

  ghost predicate SessionsOk(sessions: map<Sid, Session>) {
    forall i :: i in sessions ==> SessionOk(sessions, sessions[i])
  }

  predicate RequestOk(sessions: map<Sid, Session>, cleaners: map<Sid, Clean>, q: Request) {
    && q.principal == q.front.principal
    && (OnlyShared(q.pc) ==> q.front.endpoint.shared)
    && (PastScope(q.pc) && q.front.endpoint.shared ==> q.front.endpoint.stateless && q.principal != "")
    && (HasState(q.pc) ==>
          && q.state in sessions && q.state in cleaners
          && sessions[q.state].role == Frontend(q.front))
    && (Attaching(q.pc) ==>
          sessions[q.state].owner.None? && BeforeLock(cleaners[q.state].pc))
    && (q.pc.QRetain? ==> q.target in sessions && sessions[q.target].role == PoolOwner(KeyOf(q.front)))
    && (HasTarget(q.pc) ==>
          && q.target in sessions
          && if q.front.endpoint.shared then sessions[q.state].owner == Some(q.target) else q.target == q.state)
    && (q.pc.QDial? || q.pc.QStore? || q.pc.QDialFailed? ==>
          sessions[q.target].backend.None? && !sessions[q.target].failed)
    && (HasBackend(q.pc) ==> sessions[q.target].backend == Some(q.backend))
  }

  ghost predicate RequestsOk(sessions: map<Sid, Session>, cleaners: map<Sid, Clean>, requests: map<Rid, Request>) {
    forall r :: r in requests ==> RequestOk(sessions, cleaners, requests[r])
  }

  predicate CleanerOk(sessions: map<Sid, Session>, cancelled: set<Sid>, f: Sid, c: Clean) {
    && f in sessions && sessions[f].role.Frontend?
    && (!BeforeCancel(c.pc) ==> f in cancelled)
    && (InRelease(c.pc) ==> sessions[f].release == Some(Release(c.key, c.entry)))
    && (c.pc.CClosePrivate? ==> sessions[f].release.None?)
  }

  ghost predicate CleanersOk(sessions: map<Sid, Session>, cancelled: set<Sid>, cleaners: map<Sid, Clean>) {
    && (forall f :: f in cleaners ==> CleanerOk(sessions, cancelled, f, cleaners[f]))
    && (forall f :: f in sessions && sessions[f].role.Frontend? ==> f in cleaners)
  }

  // --- reference counts and pool entries --------------------------------------------

  predicate IsOwner(sessions: map<Sid, Session>, o: Sid) {
    o in sessions && sessions[o].role.PoolOwner?
  }

  predicate InPoolMap(entries: map<Key, Sid>, key: Key, o: Sid) {
    key in entries && entries[key] == o
  }

  /** Frontend `f` holds a reference to owner `o`: attached and not yet released. */
  predicate Refers(sessions: map<Sid, Session>, cleaners: map<Sid, Clean>, f: Sid, o: Sid) {
    && f in sessions && f in cleaners
    && sessions[f].owner == Some(o) && !PastDecr(cleaners[f].pc)
  }

  function Referrers(sessions: map<Sid, Session>, cleaners: map<Sid, Clean>, o: Sid): set<Sid> {
    set f | f in sessions && Refers(sessions, cleaners, f, o)
  }

  ghost predicate RefsExact(sessions: map<Sid, Session>, cleaners: map<Sid, Clean>, refs: map<Sid, int>) {
    && (forall o :: IsOwner(sessions, o) ==> o in refs)
    && (forall o :: o in refs ==> IsOwner(sessions, o) && refs[o] == |Referrers(sessions, cleaners, o)|)
  }

  /** The thread holding the pool lock is about to retain, or is reaping, entry `o`. */
  predicate EntryInFlux(
    locks: map<Lock, Thread>, requests: map<Rid, Request>, cleaners: map<Sid, Clean>, e: Endpoint, o: Sid)
  {
    && PMu(e) in locks
    && match locks[PMu(e)]
       case Req(r) => r in requests && requests[r].pc.QRetain? && requests[r].target == o
       case Cleaner(f) => f in cleaners && Reaping(cleaners[f].pc) && cleaners[f].entry == o
       case Closer(_) => false
  }

  /** Every entry is an owner made for its key, and every owner with references is an entry. */
  ghost predicate EntriesTyped(sessions: map<Sid, Session>, refs: map<Sid, int>, entries: map<Key, Sid>) {
    && (forall k :: k in entries ==>
          entries[k] in refs && IsOwner(sessions, entries[k]) && sessions[entries[k]].role.key == k)
    && (forall o :: o in refs && IsOwner(sessions, o) && refs[o] != 0
          ==> InPoolMap(entries, sessions[o].role.key, o))
  }

  /** An entry without references exists only while the thread holding its pool lock is at work on it. */
  ghost predicate EntriesCounted(st: State) {
    forall k :: k in st.entries && st.entries[k] in st.refs && st.refs[st.entries[k]] == 0
      ==> EntryInFlux(st.locks, st.requests, st.cleaners, k.endpoint, st.entries[k])
  }

  ghost predicate RetainsOk(requests: map<Rid, Request>, entries: map<Key, Sid>) {
    forall r :: r in requests && requests[r].pc.QRetain?
      ==> InPoolMap(entries, KeyOf(requests[r].front), requests[r].target)
  }

  ghost predicate ReapsOk(cleaners: map<Sid, Clean>, entries: map<Key, Sid>, refs: map<Sid, int>) {
    forall f :: f in cleaners && Reaping(cleaners[f].pc)
      ==> && InPoolMap(entries, cleaners[f].key, cleaners[f].entry)
          && cleaners[f].entry in refs && refs[cleaners[f].entry] == 0
  }

  // --- backends ---------------------------------------------------------------------

  /** Backend `b` has been returned by the dial but not yet stored in its session. */
  predicate Unstored(locks: map<Lock, Thread>, requests: map<Rid, Request>, b: Bid, s: Sid) {
    && SMu(s) in locks && locks[SMu(s)].Req?
    && locks[SMu(s)].r in requests
    && var q := requests[locks[SMu(s)].r];
    && q.pc.QStore? && q.backend == b && q.target == s
  }

  /** Sessions and dialled backends name each other. */
  ghost predicate DialledOk(st: State) {
    && (forall s :: s in st.sessions && st.sessions[s].backend.Some?
          ==> st.sessions[s].backend.value in st.dialled && st.dialled[st.sessions[s].backend.value] == s)
    && (forall b :: b in st.dialled ==>
          && st.dialled[b] in st.sessions
          && (st.sessions[st.dialled[b]].backend == Some(b)
              || Unstored(st.locks, st.requests, b, st.dialled[b])))
    && (forall r :: r in st.requests && st.requests[r].pc.QStore?
          ==> st.requests[r].backend in st.dialled
              && st.dialled[st.requests[r].backend] == st.requests[r].target)
  }

  /** Why the bridge may have closed a backend of session `s`. */
  predicate Doomed(sessions: map<Sid, Session>, refs: map<Sid, int>, cancelled: set<Sid>, s: Sid) {
    && s in sessions
    && match sessions[s].role
       case Frontend(_) => s in cancelled
       case PoolOwner(_) => s in refs && refs[s] == 0
  }

  ghost predicate EndedOk(st: State) {
    && (forall b :: b in st.ended ==>
          b in st.dialled && Doomed(st.sessions, st.refs, st.cancelled, st.dialled[b]))
    && (forall r, b :: r in st.requests && st.requests[r].pc.QRetain? && b in st.ended && b in st.dialled
          ==> st.dialled[b] != st.requests[r].target)
  }

  // --- tokens, slots, wait group ----------------------------------------------------

  function TokenUsers(requests: map<Rid, Request>, s: Sid): set<Rid> {
    set r | r in requests && UsesToken(requests[r], s)
  }

  ghost predicate TokenInv(
    lim: Limits, sessions: map<Sid, Session>, tokens: map<Sid, int>, requests: map<Rid, Request>)
  {
    && tokens.Keys == sessions.Keys
    && forall s :: s in tokens ==> tokens[s] == |TokenUsers(requests, s)| && tokens[s] <= lim.calls
  }

  predicate HoldsSlot(pc: CleanPc) {
    BeforeDrop(pc) || pc.CReturnSlot?
  }

  function SlotHolders(cleaners: map<Sid, Clean>): set<Sid> {
    set f | f in cleaners && HoldsSlot(cleaners[f].pc)
  }

  ghost predicate SlotInv(lim: Limits, slots: int, cleaners: map<Sid, Clean>) {
    slots == |SlotHolders(cleaners)| && slots <= lim.sessions
  }

  lemma SlotHeld(lim: Limits, st: State, f: Sid)
    requires SlotInv(lim, st.slots, st.cleaners) && f in st.cleaners
    ensures HoldsSlot(st.cleaners[f].pc) ==> st.slots > 0
  {
    if HoldsSlot(st.cleaners[f].pc) {
      assert f in SlotHolders(st.cleaners);
    }
  }

  /** The registrations are exactly the incarnations whose cleanup has not deleted them. */
  ghost predicate RosterInv(sessions: map<Sid, Session>, cleaners: map<Sid, Clean>, roster: map<Front, Sid>) {
    && (forall front :: front in roster ==>
          && roster[front] in cleaners && roster[front] in sessions
          && sessions[roster[front]].role == Frontend(front)
          && BeforeDrop(cleaners[roster[front]].pc))
    && (forall f :: f in cleaners && f in sessions && sessions[f].role.Frontend? && BeforeDrop(cleaners[f].pc)
          ==> sessions[f].role.front in roster && roster[sessions[f].role.front] == f)
  }

  function Running(cleaners: map<Sid, Clean>): set<Sid> {
    set f | f in cleaners && !cleaners[f].pc.CEnd?
  }

  predicate PastClosed(pc: ClosePc) {
    !(pc.KLockG? || pc.KClosed?)
  }

  predicate PastGctx(pc: ClosePc) {
    PastClosed(pc) && !pc.KCancel?
  }

  ghost predicate ShutdownInv(st: State) {
    && st.wg == |Running(st.cleaners)|
    && (st.gctx ==> st.closed)
    && (forall c :: c in st.closers ==>
          && (PastClosed(st.closers[c]) ==> st.closed)
          && (PastGctx(st.closers[c]) ==> st.gctx)
          && (st.closers[c].KReturned? ==> Running(st.cleaners) == {}))
  }

  /** Everything about the pool and its backends. */
  ghost predicate PoolInv(st: State) {
    && RefsExact(st.sessions, st.cleaners, st.refs)
    && EntriesTyped(st.sessions, st.refs, st.entries)
    && EntriesCounted(st)
    && RetainsOk(st.requests, st.entries)
    && ReapsOk(st.cleaners, st.entries, st.refs)
    && DialledOk(st)
    && EndedOk(st)
  }

  /** Everything about single threads and single sessions. */
  ghost predicate LocalInv(st: State) {
    && LockInv(st)
    && SessionsOk(st.sessions)
    && RequestsOk(st.sessions, st.cleaners, st.requests)
    && CleanersOk(st.sessions, st.cancelled, st.cleaners)
  }

  ghost predicate CountInv(lim: Limits, st: State) {
    && TokenInv(lim, st.sessions, st.tokens, st.requests)
    && SlotInv(lim, st.slots, st.cleaners)
    && RosterInv(st.sessions, st.cleaners, st.roster)
    && ShutdownInv(st)
  }

  /** The three parts of the invariant. */
  datatype Aspect = Local | Pool | Count

  ghost predicate AspectHolds(lim: Limits, st: State, aspect: Aspect) {
    match aspect
    case Local => LocalInv(st)
    case Pool => PoolInv(st)
    case Count => CountInv(lim, st)
  }

  ghost predicate Inv(lim: Limits, st: State) {
    forall aspect :: AspectHolds(lim, st, aspect)
  }

  lemma Unfold(lim: Limits, st: State)
    requires Inv(lim, st)
    ensures LocalInv(st) && PoolInv(st) && CountInv(lim, st)
  {
    assert AspectHolds(lim, st, Local) && AspectHolds(lim, st, Pool) && AspectHolds(lim, st, Count);
  }

  lemma Fold(lim: Limits, st: State)
    requires LocalInv(st) && PoolInv(st) && CountInv(lim, st)
    ensures Inv(lim, st)
  {
  }

  lemma InitInv(lim: Limits)
    ensures Inv(lim, Init())
  {
  }
}
