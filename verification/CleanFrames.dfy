/** Steps of a cleanup goroutine that leave the pool and the backends alone. */
module CleanFrames {
  import opened Protocol
  import opened Invariant
  import opened Frames
  import opened SessionSteps

  ghost predicate CleanLocks(locks: map<Lock, Thread>, f: Sid, c: Clean) {
    forall l :: CleanerHolds(f, c, l) <==> l in locks && locks[l] == Cleaner(f)
  }

  /** What the invariant says about goroutine `f` alone. */
  ghost predicate CleanOwns(st: State, f: Sid) {
    && f in st.cleaners
    && CleanLocks(st.locks, f, st.cleaners[f])
    && CleanerOk(st.sessions, st.cancelled, f, st.cleaners[f])
  }

  lemma CleanLocksOwned(st: State, f: Sid)
    requires LockInv(st) && f in st.cleaners
    ensures CleanLocks(st.locks, f, st.cleaners[f])
  {
    assert forall l :: CleanerHolds(f, st.cleaners[f], l) <==> Holds(st, Cleaner(f), l);
  }

  lemma InvCleanOwns(st: State, f: Sid)
    requires LocalInv(st) && f in st.cleaners
    ensures CleanOwns(st, f)
  {
    CleanLocksOwned(st, f);
  }

  predicate PastOwnerClose(pc: CleanPc) {
    pc.CUnlockO? || pc.CDelete?
  }

  /** The step moves the goroutine neither into nor out of a phase the pool depends on. */
  predicate SamePhase(c: Clean, c': Clean) {
    && PastDecr(c'.pc) == PastDecr(c.pc)
    && Reaping(c'.pc) == Reaping(c.pc)
    && (Reaping(c.pc) ==> c'.key == c.key && c'.entry == c.entry)
    && (PastOwnerClose(c'.pc) ==> PastOwnerClose(c.pc))
  }

  /** No request is inside attach on frontend `f`, past the check of its context. */
  ghost predicate NobodyAttaching(requests: map<Rid, Request>, f: Sid) {
    forall r :: r in requests && Attaching(requests[r].pc) ==> requests[r].state != f
  }

  /** A step that changes the goroutine, its locks, contexts and the gateway's counters only. */
  ghost predicate CleanQuiet(st: State, f: Sid, st': State) {
    && CleanOwns(st, f) && f in st'.cleaners
    && st' == st.(cleaners := st.cleaners[f := st'.cleaners[f]], locks := st'.locks,
                  cancelled := st'.cancelled, slots := st'.slots, roster := st'.roster, wg := st'.wg)
    && st.cancelled <= st'.cancelled
    && LocksMoved(st.locks, st'.locks, Cleaner(f))
    && CleanLocks(st'.locks, f, st'.cleaners[f])
    && CleanerOk(st'.sessions, st'.cancelled, f, st'.cleaners[f])
    && SamePhase(st.cleaners[f], st'.cleaners[f])
    && (BeforeLock(st'.cleaners[f].pc) || NobodyAttaching(st.requests, f))
  }

  lemma CleanRequests(st: State, f: Sid, st': State)
    requires RequestsOk(st.sessions, st.cleaners, st.requests) && CleanQuiet(st, f, st')
    ensures RequestsOk(st'.sessions, st'.cleaners, st'.requests)
  {
    forall r | r in st.requests
      ensures RequestOk(st'.sessions, st'.cleaners, st.requests[r])
    {
      assert RequestOk(st.sessions, st.cleaners, st.requests[r]);
    }
  }

  lemma CleanLocal(st: State, f: Sid, st': State)
    requires LocalInv(st) && CleanQuiet(st, f, st')
    ensures LocalInv(st')
  {
    LocksKept(st, Cleaner(f), st');
    CleanRequests(st, f, st');
  }

  lemma CleanRefs(st: State, f: Sid, st': State)
    requires RefsExact(st.sessions, st.cleaners, st.refs) && CleanQuiet(st, f, st')
    ensures RefsExact(st'.sessions, st'.cleaners, st'.refs)
  {
    forall o | o in st.refs
      ensures Referrers(st'.sessions, st'.cleaners, o) == Referrers(st.sessions, st.cleaners, o)
    {
      SameAttached(st.sessions, st.cleaners, st'.sessions, st'.cleaners, o);
    }
  }

  lemma CleanCounted(st: State, f: Sid, st': State)
    requires EntriesCounted(st) && CleanQuiet(st, f, st')
    ensures EntriesCounted(st')
  {
  }

  lemma CleanReaps(st: State, f: Sid, st': State)
    requires ReapsOk(st.cleaners, st.entries, st.refs) && CleanQuiet(st, f, st')
    ensures ReapsOk(st'.cleaners, st'.entries, st'.refs)
  {
  }

  lemma CleanDialled(st: State, f: Sid, st': State)
    requires DialledOk(st) && CleanQuiet(st, f, st')
    ensures DialledOk(st')
  {
  }

  lemma CleanEnded(st: State, f: Sid, st': State)
    requires EndedOk(st) && CleanQuiet(st, f, st')
    ensures EndedOk(st')
  {
  }

  lemma CleanPool(st: State, f: Sid, st': State)
    requires PoolInv(st) && CleanQuiet(st, f, st')
    ensures PoolInv(st')
  {
    CleanRefs(st, f, st');
    CleanCounted(st, f, st');
    CleanReaps(st, f, st');
    CleanDialled(st, f, st');
    CleanEnded(st, f, st');
  }

  /** What the gateway's own counters still have to satisfy after the step. */
  ghost predicate Counters(lim: Limits, st: State) {
    && SlotInv(lim, st.slots, st.cleaners)
    && RosterInv(st.sessions, st.cleaners, st.roster)
    && ShutdownInv(st)
  }

  lemma CleanKeeps(lim: Limits, st: State, f: Sid, st': State)
    requires Inv(lim, st) && CleanQuiet(st, f, st') && Counters(lim, st')
    ensures Inv(lim, st')
  {
    Unfold(lim, st);
    CleanLocal(st, f, st');
    CleanPool(st, f, st');
    Fold(lim, st');
  }

  /** Away from the last steps of the goroutine the counters do not move. */
  lemma CountersKept(lim: Limits, st: State, f: Sid, c': Clean, st': State)
    requires Counters(lim, st) && f in st.cleaners
    requires st'.cleaners == st.cleaners[f := c'] && st'.sessions == st.sessions && st'.closers == st.closers
    requires st'.roster == st.roster && st'.slots == st.slots && st'.wg == st.wg
    requires st'.closed == st.closed && st'.gctx == st.gctx
    requires BeforeDrop(c'.pc) == BeforeDrop(st.cleaners[f].pc)
    requires HoldsSlot(c'.pc) == HoldsSlot(st.cleaners[f].pc)
    requires c'.pc.CEnd? == st.cleaners[f].pc.CEnd?
    ensures Counters(lim, st')
  {
    assert SlotHolders(st'.cleaners) == SlotHolders(st.cleaners);
    assert Running(st'.cleaners) == Running(st.cleaners);
  }

  /** The step is not one of the three that move the gateway's counters. */
  ghost predicate CountersStill(st: State, f: Sid, st': State) {
    && f in st.cleaners && f in st'.cleaners
    && st'.roster == st.roster && st'.slots == st.slots && st'.wg == st.wg
    && var pc, pc' := st.cleaners[f].pc, st'.cleaners[f].pc;
    && BeforeDrop(pc') == BeforeDrop(pc) && HoldsSlot(pc') == HoldsSlot(pc) && pc'.CEnd? == pc.CEnd?
  }

  lemma StillCounters(lim: Limits, st: State, f: Sid, st': State)
    requires Counters(lim, st) && CleanQuiet(st, f, st') && CountersStill(st, f, st')
    ensures Counters(lim, st')
  {
    CountersKept(lim, st, f, st'.cleaners[f], st');
  }

  lemma StillKeeps(lim: Limits, st: State, f: Sid, st': State)
    requires Inv(lim, st) && CleanQuiet(st, f, st') && CountersStill(st, f, st')
    ensures Inv(lim, st')
  {
    Unfold(lim, st);
    StillCounters(lim, st, f, st');
    CleanKeeps(lim, st, f, st');
  }

  // --- building CleanQuiet from what a single step does ------------------------------

  ghost predicate CleanMoves(st: State, f: Sid, c': Clean) {
    && CleanOwns(st, f)
    && CleanerOk(st.sessions, st.cancelled, f, c')
    && SamePhase(st.cleaners[f], c')
    && (BeforeLock(c'.pc) || NobodyAttaching(st.requests, f))
  }

  lemma CleanStay(st: State, f: Sid, c': Clean, st': State)
    requires CleanMoves(st, f, c')
    requires st' == SetClean(st, f, c').(slots := st'.slots, roster := st'.roster, wg := st'.wg)
    requires forall l :: CleanerHolds(f, c', l) == CleanerHolds(f, st.cleaners[f], l)
    ensures CleanQuiet(st, f, st')
  {
  }

  lemma CleanAcquire(st: State, f: Sid, c': Clean, l: Lock, st': State)
    requires CleanMoves(st, f, c') && l !in st.locks && st' == Acquire(SetClean(st, f, c'), l, Cleaner(f))
    requires forall m :: CleanerHolds(f, c', m) <==> CleanerHolds(f, st.cleaners[f], m) || m == l
    ensures CleanQuiet(st, f, st')
  {
  }

  lemma CleanFree(st: State, f: Sid, c': Clean, l: Lock, st': State)
    requires CleanMoves(st, f, c') && CleanerHolds(f, st.cleaners[f], l)
    requires st' == Unlock(SetClean(st, f, c'), l)
    requires forall m :: CleanerHolds(f, c', m) <==> CleanerHolds(f, st.cleaners[f], m) && m != l
    ensures CleanQuiet(st, f, st')
  {
  }
}
