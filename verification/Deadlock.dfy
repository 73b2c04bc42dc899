/** The locks cannot deadlock: every thread waits for a lock of higher rank than those it
    holds, and at the end of every chain of waiting threads there is one that can step. */
module Deadlock {
  import opened Wrappers
  import opened Protocol
  import opened Invariant

  function RequestWaits(q: Request): Option<Lock> {
    match q.pc
    case QGetLock => Some(GMu)
    case QAttachLock => Some(SMu(q.state))
    case QPoolLock => Some(PMu(q.front.endpoint))
    case QConnLock => Some(SMu(q.target))
    case _ => None
  }

  function CleanerWaits(f: Sid, c: Clean): Option<Lock> {
    match c.pc
    case CLockS => Some(SMu(f))
    case CLockP => Some(PMu(c.key.endpoint))
    case CLockO => Some(SMu(c.entry))
    case CLockG => Some(GMu)
    case _ => None
  }

  /** The lock a thread has to take next, if that is its next step. */
  function WaitsFor(st: State, t: Thread): Option<Lock> {
    match t
    case Req(r) => if r in st.requests then RequestWaits(st.requests[r]) else None
    case Cleaner(f) => if f in st.cleaners then CleanerWaits(f, st.cleaners[f]) else None
    case Closer(c) => if c in st.closers && st.closers[c].KLockG? then Some(GMu) else None
  }

  /** Frontend session < pool < owner session; the gateway's lock comes last. */
  function Rank(st: State, l: Lock): nat {
    match l
    case SMu(s) => if s in st.sessions && st.sessions[s].role.PoolOwner? then 3 else 1
    case PMu(_) => 2
    case GMu => 4
  }

  lemma RequestRank(st: State, r: Rid, l: Lock, m: Lock)
    requires LocalInv(st) && r in st.requests
    requires RequestWaits(st.requests[r]) == Some(l) && RequestHolds(st.requests[r], m)
    ensures Rank(st, m) < Rank(st, l)
  {
    assert RequestOk(st.sessions, st.cleaners, st.requests[r]);
  }

  lemma CleanerRank(st: State, f: Sid, l: Lock, m: Lock)
    requires LocalInv(st) && f in st.cleaners
    requires CleanerWaits(f, st.cleaners[f]) == Some(l) && CleanerHolds(f, st.cleaners[f], m)
    ensures Rank(st, m) < Rank(st, l)
  {
    assert CleanerOk(st.sessions, st.cancelled, f, st.cleaners[f]);
    assert SessionOk(st.sessions, st.sessions[f]);
  }

  /** A thread only waits for a lock that ranks above all the locks it holds; in particular
      nobody waits for anything while holding the gateway's lock. */
  lemma WaitingRanks(lim: Limits, st: State, t: Thread, l: Lock, m: Lock)
    requires Inv(lim, st) && WaitsFor(st, t) == Some(l) && Holds(st, t, m)
    ensures Rank(st, m) < Rank(st, l)
  {
    Unfold(lim, st);
    match t
    case Req(r) => RequestRank(st, r, l, m);
    case Cleaner(f) => CleanerRank(st, f, l, m);
    case Closer(_) =>
  }

  /** Thread `t` waits for a lock that thread `u` has. */
  ghost predicate WaitsOn(st: State, t: Thread, u: Thread) {
    && WaitsFor(st, t).Some?
    && WaitsFor(st, t).value in st.locks && st.locks[WaitsFor(st, t).value] == u
  }

  lemma WaitsOnRises(lim: Limits, st: State, t: Thread, u: Thread)
    requires Inv(lim, st) && WaitsOn(st, t, u) && WaitsFor(st, u).Some?
    ensures Rank(st, WaitsFor(st, t).value) < Rank(st, WaitsFor(st, u).value)
  {
    Unfold(lim, st);
    var m := WaitsFor(st, t).value;
    assert Holds(st, st.locks[m], m);
    WaitingRanks(lim, st, u, WaitsFor(st, u).value, m);
  }

  ghost predicate WaitChain(st: State, ts: seq<Thread>) {
    forall i :: 0 < i < |ts| ==> WaitsOn(st, ts[i - 1], ts[i])
  }

  lemma {:induction false} ChainRises(lim: Limits, st: State, ts: seq<Thread>)
    requires Inv(lim, st) && |ts| > 1 && WaitChain(st, ts) && WaitsFor(st, ts[|ts| - 1]).Some?
    ensures WaitsFor(st, ts[0]).Some?
    ensures Rank(st, WaitsFor(st, ts[0]).value) < Rank(st, WaitsFor(st, ts[|ts| - 1]).value)
  {
    var rest := ts[1..];
    assert WaitsOn(st, ts[1 - 1], ts[1]);
    if |ts| > 2 {
      forall i | 0 < i < |rest|
        ensures WaitsOn(st, rest[i - 1], rest[i])
      {
        assert WaitsOn(st, ts[i + 1 - 1], ts[i + 1]);
      }
      ChainRises(lim, st, rest);
    }
    WaitsOnRises(lim, st, ts[0], ts[1]);
  }

  /** MAIN: in no reachable state do threads wait for each other in a circle. */
  lemma NoCircularWait(lim: Limits, st: State, ts: seq<Thread>)
    requires Inv(lim, st) && |ts| > 0 && WaitChain(st, ts)
    ensures !WaitsOn(st, ts[|ts| - 1], ts[0])
  {
    if WaitsOn(st, ts[|ts| - 1], ts[0]) {
      if |ts| > 1 {
        ChainRises(lim, st, ts);
      } else {
        assert WaitsFor(st, ts[0]).Some?;
      }
      WaitsOnRises(lim, st, ts[|ts| - 1], ts[0]);
    }
  }

  // --- progress -------------------------------------------------------------------------

  function Actor(a: Action): Thread {
    match a
    case AFrontEnds(f) => Cleaner(f)
    case AClean(f) => Cleaner(f)
    case ACloseStart(c) => Closer(c)
    case AClose(c) => Closer(c)
    case _ => Req(a.r)
  }

  /** What happens to the bridge, not what it does: a call arrives, expires or is cancelled, a
      frontend ends, Close is called. */
  predicate External(a: Action) {
    a.AArrive? || a.AExpire? || a.AFrontEnds? || a.ACloseStart?
  }

  /** Some step of thread `t`'s own code is enabled. */
  ghost predicate CanStep(lim: Limits, st: State, t: Thread) {
    exists a, st' :: Actor(a) == t && !External(a) && Step(lim, st, a, st')
  }

  /** There is always an identifier left for a new session. */
  lemma {:induction false} Fresh(s: set<nat>) returns (n: nat)
    ensures forall x :: x in s ==> x < n
  {
    if s == {} {
      n := 0;
    } else {
      var x :| x in s;
      var m := Fresh(s - {x});
      n := if x < m then m else x + 1;
      assert forall y :: y in s ==> y == x || y in s - {x};
    }
  }

  lemma Witness(lim: Limits, st: State, a: Action, st': State)
    requires Step(lim, st, a, st') && !External(a)
    ensures CanStep(lim, st, Actor(a))
  {
  }

  /** Inside get: one of refusing, returning the registered session and creating one applies. */
  lemma GetCanStep(lim: Limits, st: State, r: Rid)
    requires r in st.requests && st.requests[r].pc == QGet
    ensures CanStep(lim, st, Req(r))
  {
    var q := st.requests[r];
    if st.closed || (q.front !in st.roster && st.slots >= lim.sessions) {
      Witness(lim, st, AGetRefuse(r), SetReq(st, r, q.(pc := QGetRefused)));
    } else if q.front in st.roster {
      Witness(lim, st, AGetExisting(r), SetReq(st, r, q.(pc := QGetOk, state := st.roster[q.front])));
    } else {
      var n := Fresh(st.sessions.Keys + st.cleaners.Keys);
      Witness(lim, st, AGetNew(r, n), st.(
                requests := st.requests[r := q.(pc := QGetOk, state := n)],
                sessions := st.sessions[n := NewFrontend(q.front)],
                tokens := st.tokens[n := 0],
                cleaners := st.cleaners[n := Clean(CWait, KeyOf(q.front), n)],
                roster := st.roster[q.front := n],
                slots := st.slots + 1,
                wg := st.wg + 1));
    }
  }

  lemma EnsureCanStep(lim: Limits, st: State, r: Rid)
    requires r in st.requests && st.requests[r].pc == QEnsure
    ensures CanStep(lim, st, Req(r))
  {
    var q := st.requests[r];
    if PoolKey(q) in st.entries {
      Witness(lim, st, AEnsureFound(r), SetReq(st, r, q.(pc := QRetain, target := st.entries[PoolKey(q)])));
    } else {
      var n := Fresh(st.sessions.Keys + st.cleaners.Keys);
      Witness(lim, st, AEnsureNew(r, n), st.(
                requests := st.requests[r := q.(pc := QRetain, target := n)],
                sessions := st.sessions[n := NewOwner(PoolKey(q))],
                tokens := st.tokens[n := 0],
                refs := st.refs[n := 0],
                entries := st.entries[PoolKey(q) := n]));
    }
  }

  lemma RetainCanStep(lim: Limits, st: State, r: Rid)
    requires r in st.requests && st.requests[r].pc == QRetain
    requires st.requests[r].state in st.sessions && st.requests[r].target in st.refs
    ensures CanStep(lim, st, Req(r))
  {
    var q := st.requests[r];
    Witness(lim, st, ARetain(r), st.(
              requests := st.requests[r := q.(pc := QPoolUnlock)],
              refs := st.refs[q.target := st.refs[q.target] + 1],
              sessions := st.sessions
                [q.state := st.sessions[q.state].(owner := Some(q.target),
                                                  release := Some(Release(PoolKey(q), q.target)))]));
  }

  lemma CheckCanStep(lim: Limits, st: State, r: Rid)
    requires r in st.requests && st.requests[r].pc == QAttachCheck && st.requests[r].state in st.sessions
    ensures CanStep(lim, st, Req(r))
  {
    var q := st.requests[r];
    Witness(lim, st, AAttachCheck(r),
            SetReq(st, r, Checked(q, Cancelled(st, q.state), st.sessions[q.state].owner)));
  }

  lemma UnlockCanStep(lim: Limits, st: State, r: Rid)
    requires r in st.requests
    requires st.requests[r].pc == QPoolUnlock || st.requests[r].pc == QAttachUnlock || st.requests[r].pc == QAttachFail
    ensures CanStep(lim, st, Req(r))
  {
    var q := st.requests[r];
    if q.pc == QPoolUnlock {
      Witness(lim, st, APoolUnlock(r), Unlock(SetReq(st, r, q.(pc := QAttachUnlock)), PMu(q.front.endpoint)));
    } else {
      Witness(lim, st, AAttachUnlock(r),
              Unlock(SetReq(st, r, q.(pc := if q.pc == QAttachUnlock then QOwnerToken else QExit)), SMu(q.state)));
    }
  }

  /** Steps of attach under its locks. */
  lemma AttachCanStep(lim: Limits, st: State, r: Rid)
    requires r in st.requests && st.requests[r].state in st.sessions
    requires InAttach(st.requests[r].pc) && !st.requests[r].pc.QPoolLock?
    requires st.requests[r].pc.QRetain? ==> st.requests[r].target in st.refs
    ensures CanStep(lim, st, Req(r))
  {
    if st.requests[r].pc == QAttachCheck {
      CheckCanStep(lim, st, r);
    } else if st.requests[r].pc == QEnsure {
      EnsureCanStep(lim, st, r);
    } else if st.requests[r].pc == QRetain {
      RetainCanStep(lim, st, r);
    } else {
      UnlockCanStep(lim, st, r);
    }
  }

  lemma DialCanStep(lim: Limits, st: State, r: Rid)
    requires r in st.requests && st.requests[r].target in st.sessions
    requires st.requests[r].pc == QConnCheck || st.requests[r].pc == QDial
    ensures CanStep(lim, st, Req(r))
  {
    var q := st.requests[r];
    if q.pc == QConnCheck {
      var s := st.sessions[q.target];
      Witness(lim, st, AConnCheck(r),
              SetReq(st, r,
                     if s.failed then q.(pc := QConnFail)
                     else if s.backend.Some? then q.(pc := QConnOk, backend := s.backend.value)
                     else q.(pc := QDial)));
    } else {
      Witness(lim, st, ADialFails(r), SetReq(st, r, q.(pc := QDialFailed)));
    }
  }

  lemma StoreCanStep(lim: Limits, st: State, r: Rid)
    requires r in st.requests && st.requests[r].target in st.sessions
    requires st.requests[r].pc == QStore || st.requests[r].pc == QDialFailed
    ensures CanStep(lim, st, Req(r))
  {
    var q := st.requests[r];
    Witness(lim, st, AStoreResult(r),
            SetReq(SetSession(st, q.target, Stored(q, st.sessions[q.target])), r,
                   q.(pc := if q.pc == QStore then QConnOk else QConnFail)));
  }

  /** Steps of connect under the session's lock; a dial may always fail. */
  lemma ConnectCanStep(lim: Limits, st: State, r: Rid)
    requires r in st.requests && st.requests[r].target in st.sessions && InConnect(st.requests[r].pc)
    ensures CanStep(lim, st, Req(r))
  {
    var q := st.requests[r];
    if q.pc == QConnCheck || q.pc == QDial {
      DialCanStep(lim, st, r);
    } else if q.pc == QStore || q.pc == QDialFailed {
      StoreCanStep(lim, st, r);
    } else {
      Witness(lim, st, AConnUnlock(r),
              Unlock(SetReq(st, r, q.(pc := if q.pc == QConnOk then QForward else ExitPc(q))), SMu(q.target)));
    }
  }

  lemma RequestCanStep(lim: Limits, st: State, r: Rid, l: Lock)
    requires r in st.requests && RequestOk(st.sessions, st.cleaners, st.requests[r])
    requires st.requests[r].pc.QRetain? ==> st.requests[r].target in st.refs
    requires RequestHolds(st.requests[r], l) && RequestWaits(st.requests[r]).None?
    ensures CanStep(lim, st, Req(r))
  {
    var q := st.requests[r];
    if InAttach(q.pc) {
      AttachCanStep(lim, st, r);
    } else if InConnect(q.pc) {
      ConnectCanStep(lim, st, r);
    } else if q.pc.QGet? {
      GetCanStep(lim, st, r);
    } else {
      Witness(lim, st, AGetUnlock(r),
              Unlock(SetReq(st, r, q.(pc := if q.pc == QGetOk then QGate else QDone)), GMu));
    }
  }

  /** Steps of p.release under the pool's lock. */
  lemma ReleaseCanStep(lim: Limits, st: State, f: Sid)
    requires f in st.cleaners && HoldsPool(st.cleaners[f].pc) && !st.cleaners[f].pc.CLockO?
    requires st.cleaners[f].entry in st.refs && st.cleaners[f].entry in st.sessions
    ensures CanStep(lim, st, Cleaner(f))
  {
    var c := st.cleaners[f];
    if c.pc == CDecr {
      var n := st.refs[c.entry] - 1;
      var st' := SetClean(st, f, c.(pc := if n != 0 then CUnlockP else CCancelOwner)).(refs := st.refs[c.entry := n]);
      assert CleanDecr(st, f, st');
      Witness(lim, st, AClean(f), st');
    } else if c.pc == CCancelOwner {
      var st' := SetClean(st, f, c.(pc := CLockO)).(cancelled := st.cancelled + {c.entry});
      assert CleanCancelOwner(st, f, st');
      Witness(lim, st, AClean(f), st');
    } else if c.pc == CCloseOwner {
      var st' := SetClean(EndBackend(st, st.sessions[c.entry].backend), f, c.(pc := CUnlockO));
      assert CleanCloseOwner(st, f, st');
      Witness(lim, st, AClean(f), st');
    } else if c.pc == CUnlockO {
      var st' := Unlock(SetClean(st, f, c.(pc := CDelete)), SMu(c.entry));
      assert CleanUnlockO(st, f, st');
      Witness(lim, st, AClean(f), st');
    } else if c.pc == CDelete {
      var st' := SetClean(st, f, c.(pc := CUnlockP)).(entries := st.entries - {c.key});
      assert CleanDelete(st, f, st');
      Witness(lim, st, AClean(f), st');
    } else {
      var st' := Unlock(SetClean(st, f, c.(pc := CUnlockS)), PMu(c.key.endpoint));
      assert CleanUnlockP(st, f, st');
      Witness(lim, st, AClean(f), st');
    }
  }

  /** Steps under the frontend's lock alone, and under the gateway's. */
  lemma LeaveCanStep(lim: Limits, st: State, f: Sid)
    requires f in st.cleaners && f in st.sessions && st.sessions[f].role.Frontend?
    requires var pc := st.cleaners[f].pc;
             pc.CInspect? || pc.CClosePrivate? || pc.CUnlockS? || pc.CDrop? || pc.CReturnSlot? || pc.CUnlockG?
    requires st.cleaners[f].pc.CReturnSlot? ==> st.slots > 0
    ensures CanStep(lim, st, Cleaner(f))
  {
    var c := st.cleaners[f];
    if c.pc == CInspect {
      var st' := SetClean(st, f, match st.sessions[f].release
                                 case Some(rel) => Clean(CLockP, rel.key, rel.entry)
                                 case None => c.(pc := CClosePrivate));
      assert CleanInspect(st, f, st');
      Witness(lim, st, AClean(f), st');
    } else if c.pc == CClosePrivate {
      var st' := SetClean(EndBackend(st, st.sessions[f].backend), f, c.(pc := CUnlockS));
      assert CleanClosePrivate(st, f, st');
      Witness(lim, st, AClean(f), st');
    } else if c.pc == CUnlockS {
      var st' := Unlock(SetClean(st, f, c.(pc := CLockG)), SMu(f));
      assert CleanUnlockS(st, f, st');
      Witness(lim, st, AClean(f), st');
    } else if c.pc == CDrop {
      var st' := SetClean(st, f, c.(pc := CReturnSlot)).(roster := st.roster - {st.sessions[f].role.front});
      assert CleanDrop(st, f, st');
      Witness(lim, st, AClean(f), st');
    } else if c.pc == CReturnSlot {
      var st' := SetClean(st, f, c.(pc := CUnlockG)).(slots := st.slots - 1);
      assert CleanReturnSlot(st, f, st');
      Witness(lim, st, AClean(f), st');
    } else {
      var st' := Unlock(SetClean(st, f, c.(pc := CWgDone)), GMu);
      assert CleanUnlockG(st, f, st');
      Witness(lim, st, AClean(f), st');
    }
  }

  lemma CloserCanStep(lim: Limits, st: State, c: Cid)
    requires c in st.closers && CloserHolds(st.closers[c], GMu)
    ensures CanStep(lim, st, Closer(c))
  {
    match st.closers[c]
    case KClosed =>
      var st' := SetCloser(st, c, KCancel).(closed := true);
      assert CloseMark(st, c, st');
      Witness(lim, st, AClose(c), st');
    case KCancel =>
      var st' := SetCloser(st, c, KSnapshot).(gctx := true);
      assert CloseCancel(st, c, st');
      Witness(lim, st, AClose(c), st');
    case KSnapshot =>
      var st' := Unlock(SetCloser(st, c, KFronts), GMu);
      assert CloseUnlock(st, c, st');
      Witness(lim, st, AClose(c), st');
  }

  lemma CleanerEntryKnown(st: State, f: Sid)
    requires LocalInv(st) && RefsExact(st.sessions, st.cleaners, st.refs) && f in st.cleaners
    ensures f in st.sessions && st.sessions[f].role.Frontend?
    ensures InRelease(st.cleaners[f].pc) ==> st.cleaners[f].entry in st.refs && st.cleaners[f].entry in st.sessions
  {
    assert CleanerOk(st.sessions, st.cancelled, f, st.cleaners[f]);
    assert SessionOk(st.sessions, st.sessions[f]);
    assert InRelease(st.cleaners[f].pc) ==> IsOwner(st.sessions, st.cleaners[f].entry);
  }

  lemma CleanerFacts(lim: Limits, st: State, f: Sid)
    requires Inv(lim, st) && f in st.cleaners
    ensures f in st.sessions && st.sessions[f].role.Frontend?
    ensures InRelease(st.cleaners[f].pc) ==> st.cleaners[f].entry in st.refs && st.cleaners[f].entry in st.sessions
    ensures st.cleaners[f].pc.CReturnSlot? ==> st.slots > 0
  {
    Unfold(lim, st);
    CleanerEntryKnown(st, f);
    SlotHeld(lim, st, f);
  }

  lemma CleanerCanStep(lim: Limits, st: State, f: Sid, l: Lock)
    requires Inv(lim, st) && f in st.cleaners
    requires CleanerHolds(f, st.cleaners[f], l) && CleanerWaits(f, st.cleaners[f]).None?
    ensures CanStep(lim, st, Cleaner(f))
  {
    CleanerFacts(lim, st, f);
    if HoldsPool(st.cleaners[f].pc) {
      ReleaseCanStep(lim, st, f);
    } else {
      LeaveCanStep(lim, st, f);
    }
  }

  lemma RequestFacts(lim: Limits, st: State, r: Rid)
    requires Inv(lim, st) && r in st.requests
    ensures RequestOk(st.sessions, st.cleaners, st.requests[r])
    ensures st.requests[r].pc.QRetain? ==> st.requests[r].target in st.refs
  {
    Unfold(lim, st);
    assert RequestOk(st.sessions, st.cleaners, st.requests[r]);
    assert st.requests[r].pc.QRetain? ==> IsOwner(st.sessions, st.requests[r].target);
  }

  /** A thread that holds a lock and does not wait for another can step. */
  lemma HolderCanStep(lim: Limits, st: State, t: Thread, l: Lock)
    requires Inv(lim, st) && Holds(st, t, l) && WaitsFor(st, t).None?
    ensures CanStep(lim, st, t)
  {
    match t
    case Req(r) =>
      RequestFacts(lim, st, r);
      RequestCanStep(lim, st, r, l);
    case Cleaner(f) => CleanerCanStep(lim, st, f, l);
    case Closer(c) => CloserCanStep(lim, st, c);
  }

  lemma FrontTakes(lim: Limits, st: State, r: Rid)
    requires r in st.requests && (st.requests[r].pc == QGetLock || st.requests[r].pc == QAttachLock)
    requires RequestWaits(st.requests[r]).value !in st.locks
    ensures CanStep(lim, st, Req(r))
  {
    var q := st.requests[r];
    if q.pc == QGetLock {
      var st' := Acquire(SetReq(st, r, q.(pc := QGet)), GMu, Req(r));
      assert GetLock(st, r, st');
      Witness(lim, st, AGetLock(r), st');
    } else {
      var st' := Acquire(SetReq(st, r, q.(pc := QAttachCheck)), SMu(q.state), Req(r));
      assert AttachLock(st, r, st');
      Witness(lim, st, AAttachLock(r), st');
    }
  }

  lemma RequestTakes(lim: Limits, st: State, r: Rid)
    requires r in st.requests && RequestWaits(st.requests[r]).Some?
    requires RequestWaits(st.requests[r]).value !in st.locks
    ensures CanStep(lim, st, Req(r))
  {
    var q := st.requests[r];
    if q.pc == QGetLock || q.pc == QAttachLock {
      FrontTakes(lim, st, r);
    } else if q.pc == QPoolLock {
      var st' := Acquire(SetReq(st, r, q.(pc := QEnsure)), PMu(q.front.endpoint), Req(r));
      assert PoolLock(st, r, st');
      Witness(lim, st, APoolLock(r), st');
    } else {
      var st' := Acquire(SetReq(st, r, q.(pc := QConnCheck)), SMu(q.target), Req(r));
      assert ConnLock(st, r, st');
      Witness(lim, st, AConnLock(r), st');
    }
  }

  lemma CleanerTakes(lim: Limits, st: State, f: Sid)
    requires f in st.cleaners && CleanerWaits(f, st.cleaners[f]).Some?
    requires CleanerWaits(f, st.cleaners[f]).value !in st.locks
    ensures CanStep(lim, st, Cleaner(f))
  {
    var c := st.cleaners[f];
    if c.pc == CLockS {
      var st' := Acquire(SetClean(st, f, c.(pc := CInspect)), SMu(f), Cleaner(f));
      assert CleanLockS(st, f, st');
      Witness(lim, st, AClean(f), st');
    } else if c.pc == CLockP {
      var st' := Acquire(SetClean(st, f, c.(pc := CDecr)), PMu(c.key.endpoint), Cleaner(f));
      assert CleanLockP(st, f, st');
      Witness(lim, st, AClean(f), st');
    } else if c.pc == CLockO {
      var st' := Acquire(SetClean(st, f, c.(pc := CCloseOwner)), SMu(c.entry), Cleaner(f));
      assert CleanLockO(st, f, st');
      Witness(lim, st, AClean(f), st');
    } else {
      var st' := Acquire(SetClean(st, f, c.(pc := CDrop)), GMu, Cleaner(f));
      assert CleanLockG(st, f, st');
      Witness(lim, st, AClean(f), st');
    }
  }

  /** A thread whose next lock is free can take it. */
  lemma WaiterCanStep(lim: Limits, st: State, t: Thread)
    requires Inv(lim, st) && WaitsFor(st, t).Some? && WaitsFor(st, t).value !in st.locks
    ensures CanStep(lim, st, t)
  {
    match t
    case Req(r) => RequestTakes(lim, st, r);
    case Cleaner(f) => CleanerTakes(lim, st, f);
    case Closer(c) =>
      var st' := Acquire(SetCloser(st, c, KClosed), GMu, Closer(c));
      assert CloseLock(st, c, st');
      Witness(lim, st, AClose(c), st');
  }

  /** MAIN: whenever a thread is blocked on a lock, some thread that holds a lock ranking at
      least as high can take a step: the system never deadlocks. */
  lemma {:induction false} BlockedMeansProgress(lim: Limits, st: State, t: Thread)
    requires Inv(lim, st) && WaitsFor(st, t).Some? && WaitsFor(st, t).value in st.locks
    ensures exists u, l :: Holds(st, u, l) && Rank(st, l) >= Rank(st, WaitsFor(st, t).value) && CanStep(lim, st, u)
    decreases 4 - Rank(st, WaitsFor(st, t).value)
  {
    var l := WaitsFor(st, t).value;
    var u := st.locks[l];
    HolderHolds(lim, st, l);
    if WaitsFor(st, u).None? {
      HolderCanStep(lim, st, u, l);
    } else if WaitsFor(st, u).value in st.locks {
      WaitingRanks(lim, st, u, WaitsFor(st, u).value, l);
      BlockedMeansProgress(lim, st, u);
    } else {
      WaiterCanStep(lim, st, u);
    }
  }

  lemma HolderHolds(lim: Limits, st: State, l: Lock)
    requires Inv(lim, st) && l in st.locks
    ensures Holds(st, st.locks[l], l)
  {
    Unfold(lim, st);
  }
}
