/** When exactly a session comes back after its close.  The code does not ask at a dial whether
    the session's close is still to come; here that question gets a name, `Open`, and it turns
    out to decide everything: one dial at a time, and over whole runs, where it is settled when
    the call takes the session's lock. */
module Burial {
  import opened Wrappers
  import opened Protocol
  import opened Invariant
  import opened PoolSteps
  import opened Preservation
  import opened History

  ghost predicate AllEnded(dialled: map<Bid, Sid>, ended: set<Bid>, s: Sid) {
    forall b :: b in dialled && dialled[b] == s ==> b in ended
  }

  /** The close that a cleanup or a release owes session `t` is still to come: its own cleanup
      has not passed the close, no reaping has closed it already, and a pool owner is in its
      pool. */
  ghost predicate Open(st: State, t: Sid) {
    && (t in st.cleaners ==> !PastClose(st.cleaners[t].pc))
    && (forall f :: f in st.cleaners && (st.cleaners[f].pc.CUnlockO? || st.cleaners[f].pc.CDelete?)
          ==> st.cleaners[f].entry != t)
    && (IsOwner(st.sessions, t) ==> InPoolMap(st.entries, st.sessions[t].role.key, t))
  }

  /** Session `t` has a live backend although its close has passed. */
  ghost predicate Back(st: State, t: Sid) {
    !Open(st, t) && !AllEnded(st.dialled, st.ended, t)
  }

  // --- one dial -------------------------------------------------------------------------------

  /** MAIN: a dial that succeeds brings its session back exactly when the session is not open,
      and nobody else. */
  lemma DialIsSafeIffOpen(lim: Limits, st: State, r: Rid, b: Bid, st': State, t: Sid)
    requires DialSucceeds(st, r, b, st') && Inv(lim, st)
    ensures Back(st', t) <==> if t == st.requests[r].target then !Open(st, t) else Back(st, t)
  {
    Unfold(lim, st);
    DialBrings(st, r, b, st', t);
  }

  lemma DialBrings(st: State, r: Rid, b: Bid, st': State, t: Sid)
    requires DialSucceeds(st, r, b, st') && EndedOk(st)
    ensures Open(st', t) <==> Open(st, t)
    ensures AllEnded(st'.dialled, st'.ended, t)
       <==> t != st.requests[r].target && AllEnded(st.dialled, st.ended, t)
  {
    assert b in st'.dialled && st'.dialled[b] == st.requests[r].target && b !in st'.ended;
    forall c | c in st.dialled
      ensures c in st'.dialled && st'.dialled[c] == st.dialled[c]
    {
    }
  }

  /** Sufficient for Open at any point of a call: the caller's frontend is not cancelled.  The
      code cancels the call context from context.AfterFunc and a dial that starts under a
      cancelled context fails, but AfterFunc runs asynchronously, so the code alone leaves a
      window. */
  predicate DialAssumption(st: State, q: Request) {
    !Cancelled(st, q.state)
  }

  lemma UncancelledOwner(st: State, q: Request)
    requires SessionsOk(st.sessions) && CleanersOk(st.sessions, st.cancelled, st.cleaners)
    requires RefsExact(st.sessions, st.cleaners, st.refs) && EntriesTyped(st.sessions, st.refs, st.entries)
    requires ReapsOk(st.cleaners, st.entries, st.refs)
    requires RequestOk(st.sessions, st.cleaners, q) && HasTarget(q.pc) && DialAssumption(st, q)
    requires q.front.endpoint.shared
    ensures Open(st, q.target)
  {
    assert CleanerOk(st.sessions, st.cancelled, q.state, st.cleaners[q.state]);
    assert SessionOk(st.sessions, st.sessions[q.state]);
    AttachedCounts(st.sessions, st.cleaners, st.refs, q.state, q.target);
    assert q.target in st.cleaners ==> CleanerOk(st.sessions, st.cancelled, q.target, st.cleaners[q.target]);
  }

  lemma UncancelledTarget(st: State, q: Request)
    requires SessionsOk(st.sessions) && CleanersOk(st.sessions, st.cancelled, st.cleaners)
    requires RefsExact(st.sessions, st.cleaners, st.refs) && EntriesTyped(st.sessions, st.refs, st.entries)
    requires ReapsOk(st.cleaners, st.entries, st.refs)
    requires RequestOk(st.sessions, st.cleaners, q) && HasTarget(q.pc) && DialAssumption(st, q)
    ensures Open(st, q.target)
  {
    if q.front.endpoint.shared {
      UncancelledOwner(st, q);
    } else {
      assert CleanerOk(st.sessions, st.cancelled, q.state, st.cleaners[q.state]);
      assert forall f :: f in st.cleaners && Reaping(st.cleaners[f].pc) ==> IsOwner(st.sessions, st.cleaners[f].entry);
    }
  }

  /** What the code aims for is enough: the target of a call whose frontend is not cancelled is
      open.  For private scope it is that frontend's session, for shared scope the owner that
      the frontend holds a reference to. */
  lemma UncancelledIsOpen(lim: Limits, st: State, r: Rid)
    requires Inv(lim, st) && r in st.requests && HasTarget(st.requests[r].pc)
    requires DialAssumption(st, st.requests[r])
    ensures Open(st, st.requests[r].target)
  {
    Unfold(lim, st);
    UncancelledTarget(st, st.requests[r]);
  }

  // --- the session's lock settles it --------------------------------------------------------------

  /** Request `r` is inside connect on session `t`, and so holds its lock. */
  predicate Connecting(st: State, r: Rid, t: Sid) {
    r in st.requests && InConnect(st.requests[r].pc) && st.requests[r].target == t
  }

  lemma LockHeld(st: State, r: Rid, t: Sid)
    requires LockInv(st) && Connecting(st, r, t)
    ensures SMu(t) in st.locks && st.locks[SMu(t)] == Req(r)
    ensures forall f :: f in st.cleaners ==> !CleanerHolds(f, st.cleaners[f], SMu(t))
  {
    assert Holds(st, Req(r), SMu(t));
    forall f | f in st.cleaners
      ensures !CleanerHolds(f, st.cleaners[f], SMu(t))
    {
      assert Holds(st, Cleaner(f), SMu(t)) <==> CleanerHolds(f, st.cleaners[f], SMu(t));
    }
  }

  /** The cleanup goroutine of `f` moves on without touching what Open says of `t`. */
  ghost predicate Aside(st: State, f: Sid, st': State, t: Sid) {
    && f in st.cleaners && f in st'.cleaners && st'.cleaners == st.cleaners[f := st'.cleaners[f]]
    && st'.sessions == st.sessions && st'.entries == st.entries
    && var c, c' := st.cleaners[f], st'.cleaners[f];
    && (f == t ==> PastClose(c'.pc) == PastClose(c.pc))
    && ((c.entry == t && (c.pc.CUnlockO? || c.pc.CDelete?)) <==> (c'.entry == t && (c'.pc.CUnlockO? || c'.pc.CDelete?)))
  }

  lemma AsideStays(st: State, f: Sid, st': State, t: Sid)
    requires Aside(st, f, st', t)
    ensures Open(st', t) <==> Open(st, t)
  {
    if Open(st', t) {
      forall g | g in st.cleaners && (st.cleaners[g].pc.CUnlockO? || st.cleaners[g].pc.CDelete?)
        ensures st.cleaners[g].entry != t
      {
        assert g in st'.cleaners;
      }
    }
  }

  lemma FrontEndsAside(st: State, f: Sid, st': State, t: Sid)
    requires FrontEnds(st, f, st')
    ensures Aside(st, f, st', t)
  {
  }

  lemma CancelAside(st: State, f: Sid, st': State, t: Sid)
    requires CleanCancel(st, f, st') || CleanLockS(st, f, st')
    ensures Aside(st, f, st', t)
  {
  }

  /** The step is the close of session `t`. */
  ghost predicate ClosesSession(st: State, f: Sid, st': State, t: Sid) {
    (CleanClosePrivate(st, f, st') && t == f) || (CleanCloseOwner(st, f, st') && t == st.cleaners[f].entry)
  }

  /** The step takes session `t` past its close: the close itself, or for a frontend that had
      nothing to close, the end of p.release. */
  ghost predicate Passes(st: State, f: Sid, st': State, t: Sid) {
    ClosesSession(st, f, st', t) || (CleanUnlockP(st, f, st') && t == f)
  }

  lemma InspectAside(st: State, f: Sid, st': State, t: Sid)
    requires CleanInspect(st, f, st') || (CleanClosePrivate(st, f, st') && t != f)
    ensures Aside(st, f, st', t)
  {
  }

  lemma DecrAside(st: State, f: Sid, st': State, t: Sid)
    requires CleanLockP(st, f, st') || CleanDecr(st, f, st')
    ensures Aside(st, f, st', t)
  {
  }

  lemma ReapAside(st: State, f: Sid, st': State, t: Sid)
    requires CleanCancelOwner(st, f, st') || CleanLockO(st, f, st')
    ensures Aside(st, f, st', t)
  {
  }

  lemma CloseOwnerAside(st: State, f: Sid, st': State, t: Sid)
    requires CleanCloseOwner(st, f, st') && t != st.cleaners[f].entry
    ensures Aside(st, f, st', t)
  {
  }

  lemma UnlockOwnerAside(st: State, f: Sid, st': State, t: Sid)
    requires CleanUnlockO(st, f, st') || (CleanUnlockP(st, f, st') && t != f)
    ensures Aside(st, f, st', t)
  {
  }

  lemma LeavingAside(st: State, f: Sid, st': State, t: Sid)
    requires CleanUnlockS(st, f, st') || CleanLockG(st, f, st')
    ensures Aside(st, f, st', t)
  {
  }

  lemma DropAside(st: State, f: Sid, st': State, t: Sid)
    requires CleanDrop(st, f, st') || CleanReturnSlot(st, f, st')
    ensures Aside(st, f, st', t)
  {
  }

  lemma GoneAside(st: State, f: Sid, st': State, t: Sid)
    requires CleanUnlockG(st, f, st') || CleanWgDone(st, f, st')
    ensures Aside(st, f, st', t)
  {
  }

  /** Deleting the entry of a reaped owner: it was closed before and is detached afterwards. */
  lemma DeleteStays(st: State, f: Sid, st': State, t: Sid)
    requires CleanDelete(st, f, st')
    requires ReapsOk(st.cleaners, st.entries, st.refs) && EntriesTyped(st.sessions, st.refs, st.entries)
    ensures Open(st', t) <==> Open(st, t)
  {
    var c := st.cleaners[f];
    assert InPoolMap(st.entries, c.key, c.entry) && IsOwner(st.sessions, c.entry);
    if c.entry != t {
      DeleteOther(st, f, st', t);
    }
  }

  lemma DeleteOther(st: State, f: Sid, st': State, t: Sid)
    requires CleanDelete(st, f, st') && st.cleaners[f].entry != t
    requires InPoolMap(st.entries, st.cleaners[f].key, st.cleaners[f].entry)
    ensures Open(st', t) <==> Open(st, t)
  {
    if Open(st', t) {
      forall g | g in st.cleaners && (st.cleaners[g].pc.CUnlockO? || st.cleaners[g].pc.CDelete?)
        ensures st.cleaners[g].entry != t
      {
        assert g in st'.cleaners;
      }
    }
  }

  lemma CleanStays(st: State, f: Sid, st': State, t: Sid)
    requires CleanStep(st, f, st') && !Passes(st, f, st', t)
    requires ReapsOk(st.cleaners, st.entries, st.refs) && EntriesTyped(st.sessions, st.refs, st.entries)
    ensures Open(st', t) <==> Open(st, t)
  {
    if CleanDelete(st, f, st') {
      DeleteStays(st, f, st', t);
    } else {
      CleanAside(st, f, st', t);
      AsideStays(st, f, st', t);
    }
  }

  lemma CleanAside(st: State, f: Sid, st': State, t: Sid)
    requires CleanStep(st, f, st') && !CleanDelete(st, f, st') && !Passes(st, f, st', t)
    ensures Aside(st, f, st', t)
  {
    if CleanCancel(st, f, st') || CleanLockS(st, f, st') {
      CancelAside(st, f, st', t);
    } else if CleanInspect(st, f, st') || CleanClosePrivate(st, f, st') {
      InspectAside(st, f, st', t);
    } else if ReleaseStep(st, f, st') {
      ReleaseAside(st, f, st', t);
    } else if CleanUnlockS(st, f, st') || CleanLockG(st, f, st') {
      LeavingAside(st, f, st', t);
    } else if CleanDrop(st, f, st') || CleanReturnSlot(st, f, st') {
      DropAside(st, f, st', t);
    } else {
      GoneAside(st, f, st', t);
    }
  }

  lemma ReleaseAside(st: State, f: Sid, st': State, t: Sid)
    requires ReleaseStep(st, f, st') && !CleanDelete(st, f, st') && !Passes(st, f, st', t)
    ensures Aside(st, f, st', t)
  {
    if CleanLockP(st, f, st') || CleanDecr(st, f, st') {
      DecrAside(st, f, st', t);
    } else if CleanCancelOwner(st, f, st') || CleanLockO(st, f, st') {
      ReapAside(st, f, st', t);
    } else if CleanCloseOwner(st, f, st') {
      CloseOwnerAside(st, f, st', t);
    } else {
      UnlockOwnerAside(st, f, st', t);
    }
  }

  // --- the steps of requests and closers --------------------------------------------------------

  /** Sessions may change, but not their roles; new sessions and their goroutines may appear,
      and a new owner may take a free place in a pool. */
  ghost predicate Grown(st: State, st': State) {
    && (forall i :: i in st.sessions ==> i in st'.sessions && st'.sessions[i].role == st.sessions[i].role)
    && (forall f :: f in st.cleaners ==> f in st'.cleaners && st'.cleaners[f] == st.cleaners[f])
    && (forall f :: f in st'.cleaners && f !in st.cleaners ==> f !in st.sessions && st'.cleaners[f].pc.CWait?)
    && (forall k :: k in st.entries ==> k in st'.entries && st'.entries[k] == st.entries[k])
    && (forall k :: k in st'.entries && k !in st.entries ==> st'.entries[k] !in st.sessions)
  }

  lemma GrownStays(st: State, st': State, t: Sid)
    requires Grown(st, st') && t in st.sessions
    ensures Open(st', t) <==> Open(st, t)
  {
    if Open(st', t) {
      forall g | g in st.cleaners && (st.cleaners[g].pc.CUnlockO? || st.cleaners[g].pc.CDelete?)
        ensures st.cleaners[g].entry != t
      {
        assert g in st'.cleaners;
      }
    }
  }

  lemma GetNewGrows(lim: Limits, st: State, r: Rid, n: Sid, st': State)
    requires GetNew(lim, st, r, n, st')
    ensures Grown(st, st')
  {
  }

  lemma EnsureGrows(st: State, a: Action, st': State)
    requires (a.AEnsureFound? && EnsureFound(st, a.r, st')) || (a.AEnsureNew? && EnsureNew(st, a.r, a.n, st'))
    ensures Grown(st, st')
  {
  }

  lemma RetainGrows(st: State, r: Rid, st': State)
    requires Retain(st, r, st')
    ensures Grown(st, st')
  {
  }

  lemma DialGrows(st: State, r: Rid, b: Bid, st': State)
    requires DialSucceeds(st, r, b, st')
    ensures Grown(st, st')
  {
  }

  lemma StoreGrows(st: State, r: Rid, st': State)
    requires StoreResult(st, r, st')
    ensures Grown(st, st')
  {
  }

  lemma SessionGrows(lim: Limits, st: State, a: Action, st': State)
    requires Step(lim, st, a, st') && SessionAction(a)
    ensures Grown(st, st')
  {
    if a.AGetNew? {
      GetNewGrows(lim, st, a.r, a.n, st');
    } else if a.ARetain? {
      RetainGrows(st, a.r, st');
    } else if a.ADialSucceeds? {
      DialGrows(st, a.r, a.b, st');
    } else if a.AStoreResult? {
      StoreGrows(st, a.r, st');
    } else {
      EnsureGrows(st, a, st');
    }
  }

  lemma SameGrows(st: State, st': State)
    requires st'.sessions == st.sessions && st'.cleaners == st.cleaners && st'.entries == st.entries
    ensures Grown(st, st')
  {
  }

  /** What a caller of Close leaves alone. */
  predicate CloseSame(st: State, st': State) {
    && st'.sessions == st.sessions && st'.cleaners == st.cleaners && st'.entries == st.entries
    && st'.requests == st.requests && st'.dialled == st.dialled && st'.ended == st.ended && st'.refs == st.refs
  }

  lemma CloseMarkSame(st: State, c: Cid, st': State)
    requires CloseLock(st, c, st') || CloseMark(st, c, st')
    ensures CloseSame(st, st')
  {
  }

  lemma CloseUnlockSame(st: State, c: Cid, st': State)
    requires CloseCancel(st, c, st') || CloseUnlock(st, c, st')
    ensures CloseSame(st, st')
  {
  }

  lemma CloseReturnSame(st: State, c: Cid, st': State)
    requires CloseFronts(st, c, st') || CloseReturn(st, c, st')
    ensures CloseSame(st, st')
  {
  }

  lemma CloseTouches(st: State, c: Cid, st': State)
    requires CloseStart(st, c, st') || CloseStep(st, c, st')
    ensures CloseSame(st, st')
  {
    if CloseLock(st, c, st') || CloseMark(st, c, st') {
      CloseMarkSame(st, c, st');
    } else if CloseCancel(st, c, st') || CloseUnlock(st, c, st') {
      CloseUnlockSame(st, c, st');
    } else if CloseFronts(st, c, st') || CloseReturn(st, c, st') {
      CloseReturnSame(st, c, st');
    }
  }

  lemma CloseGrows(st: State, c: Cid, st': State)
    requires CloseStart(st, c, st') || CloseStep(st, c, st')
    ensures Grown(st, st')
  {
    CloseTouches(st, c, st');
    SameGrows(st, st');
  }

  lemma QuietGrows(lim: Limits, st: State, a: Action, st': State)
    requires Step(lim, st, a, st') && !SessionAction(a) && !BackgroundAction(a)
    ensures Grown(st, st')
  {
    if CountingAction(a) {
      CountingSame(lim, st, a, st');
    } else {
      QuietRequestKnown(lim, st, a, st');
      if QuietAttaching(a).Some? {
        AttachingSame(lim, st, a, st');
      } else {
        CallingSame(lim, st, a, st');
      }
    }
  }

  lemma ForegroundGrows(lim: Limits, st: State, a: Action, st': State)
    requires Step(lim, st, a, st') && !a.AClean? && !a.AFrontEnds?
    ensures Grown(st, st')
  {
    if BackgroundAction(a) {
      CloseGrows(st, a.c, st');
    } else if SessionAction(a) {
      SessionGrows(lim, st, a, st');
    } else {
      QuietGrows(lim, st, a, st');
    }
  }

  /** Only a dial adds a backend and only a cleanup closes one. */
  lemma ForegroundDials(lim: Limits, st: State, a: Action, st': State)
    requires Step(lim, st, a, st') && !a.AClean? && !a.AFrontEnds? && !a.ADialSucceeds?
    ensures st'.dialled == st.dialled && st'.ended == st.ended
  {
    if BackgroundAction(a) {
      CloseTouches(st, a.c, st');
    } else if CountingAction(a) {
      CountingSame(lim, st, a, st');
    } else if !SessionAction(a) {
      QuietRequestKnown(lim, st, a, st');
      if QuietAttaching(a).Some? {
        AttachingSame(lim, st, a, st');
      } else {
        CallingSame(lim, st, a, st');
      }
    }
  }

  lemma ForegroundSettles(lim: Limits, st: State, a: Action, st': State, r: Rid, t: Sid)
    requires Step(lim, st, a, st') && !a.AClean? && !a.AFrontEnds?
    requires Inv(lim, st) && Connecting(st, r, t)
    ensures Open(st', t) <==> Open(st, t)
  {
    ForegroundGrows(lim, st, a, st');
    TargetKnown(lim, st, r, t);
    GrownStays(st, st', t);
  }

  lemma TargetKnown(lim: Limits, st: State, r: Rid, t: Sid)
    requires Inv(lim, st) && Connecting(st, r, t)
    ensures t in st.sessions
  {
    Unfold(lim, st);
    assert RequestOk(st.sessions, st.cleaners, st.requests[r]);
  }

  lemma CleanSettles(lim: Limits, st: State, f: Sid, st': State, r: Rid, t: Sid)
    requires CleanStep(st, f, st') && Inv(lim, st) && Connecting(st, r, t)
    ensures Open(st', t) <==> Open(st, t)
  {
    Unfold(lim, st);
    LockedNotPassed(st, f, st', r, t);
    CleanStays(st, f, st', t);
  }

  /** The close of a session is made under its lock. */
  lemma LockedNotPassed(st: State, f: Sid, st': State, r: Rid, t: Sid)
    requires LockInv(st) && Connecting(st, r, t)
    ensures !Passes(st, f, st', t)
  {
    LockHeld(st, r, t);
    if Passes(st, f, st', t) {
      PassesLocked(st, f, st', t);
    }
  }

  lemma PassesLocked(st: State, f: Sid, st': State, t: Sid)
    requires Passes(st, f, st', t)
    ensures f in st.cleaners && CleanerHolds(f, st.cleaners[f], SMu(t))
  {
  }

  /** MAIN: while a call is inside connect on a session, no step of anybody changes whether that
      session is open; so whether a dial may succeed is settled when the call takes the lock. */
  lemma LockSettles(lim: Limits, st: State, a: Action, st': State, r: Rid, t: Sid)
    requires Step(lim, st, a, st') && Inv(lim, st) && Connecting(st, r, t)
    ensures Open(st', t) <==> Open(st, t)
  {
    if a.AFrontEnds? {
      FrontEndsAside(st, a.f, st', t);
      AsideStays(st, a.f, st', t);
    } else if a.AClean? {
      CleanSettles(lim, st, a.f, st', r, t);
    } else {
      ForegroundSettles(lim, st, a, st', r, t);
    }
  }

  // --- no other step brings a session back -----------------------------------------------------

  /** A frontend that was attached to a pool owner never had a backend of its own. */
  lemma SharedHasNoBackend(st: State, f: Sid)
    requires SessionsOk(st.sessions) && RequestsOk(st.sessions, st.cleaners, st.requests) && DialledOk(st)
    requires f in st.sessions && st.sessions[f].role.Frontend? && st.sessions[f].release.Some?
    ensures AllEnded(st.dialled, st.ended, f)
  {
    assert SessionOk(st.sessions, st.sessions[f]);
    forall r | r in st.requests && st.requests[r].pc.QStore?
      ensures st.requests[r].target != f
    {
      assert RequestOk(st.sessions, st.cleaners, st.requests[r]);
      assert SessionOk(st.sessions, st.sessions[st.requests[r].state]);
    }
  }

  /** Whoever holds the lock of a session closes all it ever dialled by closing its backend. */
  lemma CloseEndsAll(st: State, s: Sid)
    requires DialledOk(st) && s in st.sessions
    requires SMu(s) in st.locks && st.locks[SMu(s)].Cleaner?
    ensures AllEnded(st.dialled, EndBackend(st, st.sessions[s].backend).ended, s)
  {
  }

  /** A session that passes its close has no live backend then. */
  lemma PassesEnded(st: State, f: Sid, st': State, t: Sid)
    requires Passes(st, f, st', t) && LocalInv(st) && DialledOk(st)
    ensures AllEnded(st'.dialled, st'.ended, t)
  {
    if ClosesSession(st, f, st', t) {
      PassesLocked(st, f, st', t);
      HolderLocked(st, f, t);
      ClosesBackend(st, f, st', t);
      CloseEndsAll(st, t);
    } else {
      ReleasedHasNoBackend(st, f);
    }
  }

  lemma ClosesBackend(st: State, f: Sid, st': State, t: Sid)
    requires ClosesSession(st, f, st', t)
    ensures t in st.sessions && st'.dialled == st.dialled
    ensures st'.ended == EndBackend(st, st.sessions[t].backend).ended
  {
    if CleanClosePrivate(st, f, st') {
      PrivateBackendEnds(st, f, st');
    }
  }

  lemma PrivateBackendEnds(st: State, f: Sid, st': State)
    requires CleanClosePrivate(st, f, st')
    ensures f in st.sessions && st'.dialled == st.dialled
    ensures st'.ended == EndBackend(st, st.sessions[f].backend).ended
  {
  }

  lemma HolderLocked(st: State, f: Sid, t: Sid)
    requires LockInv(st) && f in st.cleaners && CleanerHolds(f, st.cleaners[f], SMu(t))
    ensures SMu(t) in st.locks && st.locks[SMu(t)] == Cleaner(f)
  {
    assert Holds(st, Cleaner(f), SMu(t));
  }

  lemma ReleasedHasNoBackend(st: State, f: Sid)
    requires LocalInv(st) && DialledOk(st) && f in st.cleaners && InRelease(st.cleaners[f].pc)
    ensures AllEnded(st.dialled, st.ended, f)
  {
    assert CleanerOk(st.sessions, st.cancelled, f, st.cleaners[f]);
    SharedHasNoBackend(st, f);
  }

  lemma EndedGrows(st: State, st': State, t: Sid)
    requires st'.dialled == st.dialled && st.ended <= st'.ended && AllEnded(st.dialled, st.ended, t)
    ensures AllEnded(st'.dialled, st'.ended, t)
  {
  }

  lemma CleanBringsNobody(lim: Limits, st: State, f: Sid, st': State, t: Sid)
    requires CleanStep(st, f, st') && Inv(lim, st) && !Back(st, t)
    ensures !Back(st', t)
  {
    Unfold(lim, st);
    if Passes(st, f, st', t) {
      PassesEnded(st, f, st', t);
    } else {
      CleanStays(st, f, st', t);
      CleanAdvances(st, f, st');
      if AllEnded(st.dialled, st.ended, t) {
        EndedGrows(st, st', t);
      }
    }
  }

  lemma GoroutineBringsNobody(lim: Limits, st: State, a: Action, st': State, t: Sid)
    requires a.AClean? || a.AFrontEnds?
    requires Step(lim, st, a, st') && Inv(lim, st) && !Back(st, t)
    ensures !Back(st', t)
  {
    if a.AClean? {
      CleanBringsNobody(lim, st, a.f, st', t);
    } else {
      FrontEndsAside(st, a.f, st', t);
      AsideStays(st, a.f, st', t);
    }
  }

  /** Nothing was ever dialled for a session that does not exist. */
  lemma UnknownEnded(st: State, t: Sid)
    requires DialledOk(st) && t !in st.sessions
    ensures AllEnded(st.dialled, st.ended, t)
  {
  }

  lemma ForegroundBringsNobody(lim: Limits, st: State, a: Action, st': State, t: Sid)
    requires Step(lim, st, a, st') && !a.AClean? && !a.AFrontEnds? && !a.ADialSucceeds?
    requires Inv(lim, st) && !Back(st, t)
    ensures !Back(st', t)
  {
    ForegroundGrows(lim, st, a, st');
    ForegroundDials(lim, st, a, st');
    if t in st.sessions {
      GrownStays(st, st', t);
    } else {
      Unfold(lim, st);
      UnknownEnded(st, t);
    }
  }

  /** MAIN: only a dial for the session itself, at a time when it is not open, can bring a
      session back. */
  lemma StepBringsNobody(lim: Limits, st: State, a: Action, st': State, t: Sid)
    requires Step(lim, st, a, st') && Inv(lim, st) && !Back(st, t)
    requires a.ADialSucceeds? && st.requests[a.r].target == t ==> Open(st, t)
    ensures !Back(st', t)
  {
    if a.ADialSucceeds? {
      DialIsSafeIffOpen(lim, st, a.r, a.b, st', t);
    } else if a.AClean? || a.AFrontEnds? {
      GoroutineBringsNobody(lim, st, a, st', t);
    } else {
      ForegroundBringsNobody(lim, st, a, st', t);
    }
  }

  // --- who takes the lock ------------------------------------------------------------------------

  /** The step changes no record but that of `r`, and only by ConnLock does it bring `r` into
      connect. */
  ghost predicate Enters(st: State, r: Rid, st': State) {
    && r in st'.requests && st'.requests == st.requests[r := st'.requests[r]]
    && var q' := st'.requests[r];
    InConnect(q'.pc) ==> Connecting(st, r, q'.target) || (ConnLock(st, r, st') && q'.target == st.requests[r].target)
  }

  lemma GettingEnters(lim: Limits, st: State, a: Action, st': State)
    requires GetAction(a) && Step(lim, st, a, st')
    ensures Enters(st, a.r, st')
  {
  }

  lemma CheckEnters(st: State, r: Rid, st': State)
    requires AttachCheck(st, r, st')
    ensures Enters(st, r, st')
  {
  }

  lemma AttachingEnters(lim: Limits, st: State, a: Action, r: Rid, st': State)
    requires Step(lim, st, a, st') && QuietAttaching(a) == Some(r)
    ensures Enters(st, r, st')
  {
    if GetAction(a) {
      GettingEnters(lim, st, a, st');
    } else if a.AAttachCheck? {
      CheckEnters(st, r, st');
    }
  }

  lemma ConnectingEnters(lim: Limits, st: State, a: Action, r: Rid, st': State)
    requires ConnectAction(a) && a.r == r && Step(lim, st, a, st')
    ensures Enters(st, r, st')
  {
  }

  lemma CallingEnters(lim: Limits, st: State, a: Action, r: Rid, st': State)
    requires Step(lim, st, a, st') && QuietCalling(a) == Some(r)
    ensures Enters(st, r, st')
  {
    if ConnectAction(a) {
      ConnectingEnters(lim, st, a, r, st');
    }
  }

  lemma TakeEnters(lim: Limits, st: State, r: Rid, st': State)
    requires TakeToken(lim, st, r, st') || TakeOwnerToken(lim, st, r, st')
    ensures Enters(st, r, st')
  {
  }

  lemma ReturnEnters(st: State, r: Rid, st': State)
    requires ReturnToken(st, r, st') || ReturnOwnerToken(st, r, st')
    ensures Enters(st, r, st')
  {
  }

  lemma CountingEnters(lim: Limits, st: State, a: Action, st': State)
    requires Step(lim, st, a, st') && CountingAction(a)
    ensures Enters(st, a.r, st')
  {
    if a.ATakeToken? || a.ATakeOwnerToken? {
      TakeEnters(lim, st, a.r, st');
    } else if a.AReturnToken? || a.AReturnOwnerToken? {
      ReturnEnters(st, a.r, st');
    }
  }

  lemma DialEnters(st: State, r: Rid, b: Bid, st': State)
    requires DialSucceeds(st, r, b, st')
    ensures Enters(st, r, st')
  {
  }

  lemma PoolEnters(lim: Limits, st: State, a: Action, st': State)
    requires Step(lim, st, a, st') && (a.AEnsureFound? || a.AEnsureNew? || a.ARetain?)
    ensures Enters(st, a.r, st')
  {
  }

  lemma SessionEnters(lim: Limits, st: State, a: Action, st': State)
    requires Step(lim, st, a, st') && SessionAction(a)
    ensures Enters(st, a.r, st')
  {
    if a.ADialSucceeds? {
      DialEnters(st, a.r, a.b, st');
    } else if a.AEnsureFound? || a.AEnsureNew? || a.ARetain? {
      PoolEnters(lim, st, a, st');
    }
  }

  /** One request's record changes at most, and connect is entered by ConnLock. */
  lemma RequestEnters(lim: Limits, st: State, a: Action, st': State)
    requires Step(lim, st, a, st') && !BackgroundAction(a)
    ensures Enters(st, a.r, st')
  {
    if CountingAction(a) {
      CountingEnters(lim, st, a, st');
    } else if SessionAction(a) {
      SessionEnters(lim, st, a, st');
    } else {
      QuietRequestKnown(lim, st, a, st');
      if QuietAttaching(a).Some? {
        AttachingEnters(lim, st, a, QuietAttaching(a).value, st');
      } else {
        CallingEnters(lim, st, a, QuietCalling(a).value, st');
      }
    }
  }

  lemma BackgroundSame(lim: Limits, st: State, a: Action, st': State)
    requires Step(lim, st, a, st') && BackgroundAction(a)
    ensures st'.requests == st.requests
  {
    if a.AFrontEnds? {
      FrontEndsAdvances(st, a.f, st');
    } else if a.AClean? {
      CleanAdvances(st, a.f, st');
    } else {
      CloseTouches(st, a.c, st');
    }
  }

  // --- runs ---------------------------------------------------------------------------------------

  ghost predicate Dials(st: State, r: Rid, st': State) {
    exists b :: DialSucceeds(st, r, b, st')
  }

  /** Step `i` of the run is a successful dial of request `r` for session `t`. */
  ghost predicate DialledAt(run: seq<State>, i: nat, r: Rid, t: Sid) {
    && i + 1 < |run| && r in run[i].requests && run[i].requests[r].target == t
    && Dials(run[i], r, run[i + 1])
  }

  /** Request `r` took the lock of session `t` at step `j` and holds it at point `i`. */
  ghost predicate LockedSince(run: seq<State>, j: nat, i: nat, r: Rid, t: Sid) {
    && j < i < |run| && ConnLock(run[j], r, run[j + 1]) && run[j].requests[r].target == t
    && forall k: nat :: j < k <= i ==> Connecting(run[k], r, t)
  }

  /** Every dial for session `t` that succeeds, succeeds while the session is open. */
  ghost predicate DialsOpen(run: seq<State>, t: Sid) {
    forall i: nat, r :: DialledAt(run, i, r, t) ==> Open(run[i], t)
  }

  /** Every dial for session `t` that succeeds is made by a call that took the session's lock
      while the session was open. */
  ghost predicate LocksOpen(run: seq<State>, t: Sid) {
    forall j: nat, i: nat, r :: LockedSince(run, j, i, r, t) && DialledAt(run, i, r, t) ==> Open(run[j], t)
  }

  lemma ConnectEntered(lim: Limits, st: State, st': State, r: Rid, t: Sid)
    requires Next(lim, st, st') && Connecting(st', r, t)
    ensures Connecting(st, r, t) || (ConnLock(st, r, st') && st.requests[r].target == t)
  {
    var a :| Step(lim, st, a, st');
    if BackgroundAction(a) {
      BackgroundSame(lim, st, a, st');
    } else {
      RequestEnters(lim, st, a, st');
    }
  }

  /** A call inside connect took the lock at some step. */
  lemma {:induction false} LockTaken(lim: Limits, run: seq<State>, i: nat, r: Rid, t: Sid) returns (j: nat)
    requires Run(lim, run) && i < |run| && Connecting(run[i], r, t)
    ensures LockedSince(run, j, i, r, t)
  {
    NobodyFirst(lim, run, i, r, t);
    assert StepAt(lim, run, i - 1);
    ConnectEntered(lim, run[i - 1], run[i], r, t);
    if Connecting(run[i - 1], r, t) {
      j := LockTaken(lim, run, i - 1, r, t);
      LockedOn(run, j, i - 1, r, t);
    } else {
      j := i - 1;
    }
  }

  lemma NobodyFirst(lim: Limits, run: seq<State>, i: nat, r: Rid, t: Sid)
    requires Run(lim, run) && i < |run| && Connecting(run[i], r, t)
    ensures i > 0
  {
  }

  lemma LockedOn(run: seq<State>, j: nat, i: nat, r: Rid, t: Sid)
    requires LockedSince(run, j, i, r, t) && i + 1 < |run| && Connecting(run[i + 1], r, t)
    ensures LockedSince(run, j, i + 1, r, t)
  {
  }

  lemma ConnLockOpen(st: State, r: Rid, st': State, t: Sid)
    requires ConnLock(st, r, st')
    ensures Open(st', t) <==> Open(st, t)
  {
  }

  lemma {:induction false} OpenSince(lim: Limits, run: seq<State>, j: nat, i: nat, r: Rid, t: Sid)
    requires Run(lim, run) && LockedSince(run, j, i, r, t)
    ensures Open(run[i], t) <==> Open(run[j], t)
    decreases i
  {
    if i == j + 1 {
      ConnLockOpen(run[j], r, run[i], t);
    } else {
      LockedBefore(run, j, i, r, t);
      OpenSince(lim, run, j, i - 1, r, t);
      RunSettles(lim, run, i - 1, r, t);
    }
  }

  lemma LockedBefore(run: seq<State>, j: nat, i: nat, r: Rid, t: Sid)
    requires LockedSince(run, j, i, r, t) && j + 1 < i
    ensures LockedSince(run, j, i - 1, r, t) && Connecting(run[i - 1], r, t)
  {
  }

  lemma RunSettles(lim: Limits, run: seq<State>, i: nat, r: Rid, t: Sid)
    requires Run(lim, run) && i + 1 < |run| && Connecting(run[i], r, t)
    ensures Open(run[i + 1], t) <==> Open(run[i], t)
  {
    RunInv(lim, run, i);
    assert StepAt(lim, run, i);
    NextSettles(lim, run[i], run[i + 1], r, t);
  }

  lemma NextSettles(lim: Limits, st: State, st': State, r: Rid, t: Sid)
    requires Next(lim, st, st') && Inv(lim, st) && Connecting(st, r, t)
    ensures Open(st', t) <==> Open(st, t)
  {
    var a :| Step(lim, st, a, st');
    LockSettles(lim, st, a, st', r, t);
  }

  lemma DialConnects(run: seq<State>, i: nat, r: Rid, t: Sid)
    requires DialledAt(run, i, r, t)
    ensures Connecting(run[i], r, t)
  {
  }

  /** Asking at the lock is asking at the dial. */
  lemma LocksOrDials(lim: Limits, run: seq<State>, t: Sid)
    requires Run(lim, run)
    ensures LocksOpen(run, t) <==> DialsOpen(run, t)
  {
    forall i: nat, r | DialledAt(run, i, r, t) && LocksOpen(run, t)
      ensures Open(run[i], t)
    {
      DialConnects(run, i, r, t);
      var j := LockTaken(lim, run, i, r, t);
      OpenSince(lim, run, j, i, r, t);
    }
    forall j: nat, i: nat, r | LockedSince(run, j, i, r, t) && DialledAt(run, i, r, t) && DialsOpen(run, t)
      ensures Open(run[j], t)
    {
      OpenSince(lim, run, j, i, r, t);
    }
  }

  // --- the exact condition --------------------------------------------------------------------------

  lemma NextBringsNobody(lim: Limits, run: seq<State>, i: nat, t: Sid)
    requires Run(lim, run) && DialsOpen(run, t) && i + 1 < |run| && !Back(run[i], t)
    ensures !Back(run[i + 1], t)
  {
    RunInv(lim, run, i);
    assert StepAt(lim, run, i);
    var a :| Step(lim, run[i], a, run[i + 1]);
    if a.ADialSucceeds? && run[i].requests[a.r].target == t {
      assert DialledAt(run, i, a.r, t);
    }
    StepBringsNobody(lim, run[i], a, run[i + 1], t);
  }

  /** If every dial for a session is made while it is open, it never comes back. */
  lemma {:induction false} NeverBack(lim: Limits, run: seq<State>, i: nat, t: Sid)
    requires Run(lim, run) && DialsOpen(run, t) && i < |run|
    ensures !Back(run[i], t)
  {
    if i > 0 {
      NeverBack(lim, run, i - 1, t);
      NextBringsNobody(lim, run, i - 1, t);
    }
  }

  /** A dial for a session that is not open brings it back at once. */
  lemma BackAfter(lim: Limits, run: seq<State>, i: nat, r: Rid, t: Sid)
    requires Run(lim, run) && DialledAt(run, i, r, t) && !Open(run[i], t)
    ensures Back(run[i + 1], t)
  {
    RunInv(lim, run, i);
    var b :| DialSucceeds(run[i], r, b, run[i + 1]);
    DialIsSafeIffOpen(lim, run[i], r, b, run[i + 1], t);
  }

  /** MAIN, the exact condition of "no resurrection", session by session: over a run of the
      code, a session never has a live backend after its close if and only if no dial succeeds
      for a call that took the session's lock after that close. */
  lemma NeverBackIffLocksOpen(lim: Limits, run: seq<State>, t: Sid)
    requires Run(lim, run)
    ensures (forall i: nat :: i < |run| ==> !Back(run[i], t)) <==> LocksOpen(run, t)
  {
    LocksOrDials(lim, run, t);
    if forall i: nat :: i < |run| ==> !Back(run[i], t) {
      forall i: nat, r | DialledAt(run, i, r, t)
        ensures Open(run[i], t)
      {
        if !Open(run[i], t) {
          BackAfter(lim, run, i, r, t);
        }
      }
    }
    if DialsOpen(run, t) {
      forall i: nat | i < |run|
        ensures !Back(run[i], t)
      {
        NeverBack(lim, run, i, t);
      }
    }
  }

  /** Every call that dials for `t` took the lock while its frontend was not cancelled. */
  ghost predicate LocksUncancelled(run: seq<State>, t: Sid) {
    forall j: nat, i: nat, r :: LockedSince(run, j, i, r, t) && DialledAt(run, i, r, t)
      ==> DialAssumption(run[j], run[j].requests[r])
  }

  /** What the code aims for is enough: a session does not come back if no dial for it succeeds
      for a call whose frontend was cancelled before it took the session's lock.  A cancellation
      during the dial does no harm: the cleanup waits for the lock and closes the backend. */
  lemma UncancelledLocksSuffice(lim: Limits, run: seq<State>, t: Sid)
    requires Run(lim, run) && LocksUncancelled(run, t)
    ensures LocksOpen(run, t) && forall i: nat :: i < |run| ==> !Back(run[i], t)
  {
    forall j: nat, i: nat, r | LockedSince(run, j, i, r, t) && DialledAt(run, i, r, t)
      ensures Open(run[j], t)
    {
      RunInv(lim, run, j);
      UncancelledIsOpen(lim, run[j], r);
    }
    NeverBackIffLocksOpen(lim, run, t);
  }
}
