/** The steps of p.release that work on the entry keep the invariant. */
module ReleaseSteps {
  import opened Wrappers
  import opened Protocol
  import opened Invariant
  import opened Frames
  import opened SessionSteps
  import opened CleanFrames
  import opened CleanSteps

  /** A step inside p.release that keeps its locks keeps LockInv and what other threads see. */
  lemma ReleaseLocal(st: State, f: Sid, c': Clean, st': State)
    requires LocalInv(st) && CleanOwns(st, f) && InRelease(st.cleaners[f].pc)
    requires st'.cleaners == st.cleaners[f := c'] && st'.locks == st.locks && st'.requests == st.requests
    requires st'.sessions == st.sessions && st'.cancelled == st.cancelled && st'.closers == st.closers
    requires InRelease(c'.pc) && c'.key == st.cleaners[f].key && c'.entry == st.cleaners[f].entry
    requires forall l :: CleanerHolds(f, c', l) == CleanerHolds(f, st.cleaners[f], l)
    ensures LocalInv(st')
  {
    LocksKept(st, Cleaner(f), st');
    AttachingExcluded(st, f);
    forall r | r in st.requests
      ensures RequestOk(st'.sessions, st'.cleaners, st.requests[r])
    {
      assert RequestOk(st.sessions, st.cleaners, st.requests[r]);
    }
  }

  /** The goroutine inside p.release is attached to the entry it releases, under its key. */
  ghost predicate Releases(st: State, f: Sid) {
    && f in st.cleaners && f in st.sessions
    && var c := st.cleaners[f];
    && st.sessions[f].owner == Some(c.entry)
    && IsOwner(st.sessions, c.entry) && st.sessions[c.entry].role.key == c.key
  }

  lemma ReleaseNamesEntry(st: State, f: Sid)
    requires SessionsOk(st.sessions) && CleanOwns(st, f) && InRelease(st.cleaners[f].pc)
    ensures Releases(st, f) && st.cleaners[f].entry != f
  {
    assert SessionOk(st.sessions, st.sessions[f]);
  }

  /** Holding the pool lock excludes every other thread from the entries of the pool. */
  ghost predicate PoolToSelf(st: State, f: Sid) {
    && f in st.cleaners
    && var e := st.cleaners[f].key.endpoint;
    && (forall r :: r in st.requests && InPool(st.requests[r].pc) ==> st.requests[r].front.endpoint != e)
    && (forall g :: g in st.cleaners && g != f && HoldsPool(st.cleaners[g].pc) ==> st.cleaners[g].key.endpoint != e)
  }

  lemma PoolLockExcludes(st: State, f: Sid)
    requires LockInv(st) && f in st.cleaners && HoldsPool(st.cleaners[f].pc)
    ensures PoolToSelf(st, f)
  {
    var l := PMu(st.cleaners[f].key.endpoint);
    assert Holds(st, Cleaner(f), l);
    assert forall r :: r in st.requests ==> (RequestHolds(st.requests[r], l) ==> Holds(st, Req(r), l));
    assert forall g :: g in st.cleaners ==> (CleanerHolds(g, st.cleaners[g], l) ==> Holds(st, Cleaner(g), l));
    forall r | r in st.requests && InPool(st.requests[r].pc)
      ensures st.requests[r].front.endpoint != l.endpoint
    {
      assert RequestHolds(st.requests[r], PMu(st.requests[r].front.endpoint));
    }
    forall g | g in st.cleaners && g != f && HoldsPool(st.cleaners[g].pc)
      ensures st.cleaners[g].key.endpoint != l.endpoint
    {
      assert CleanerHolds(g, st.cleaners[g], PMu(st.cleaners[g].key.endpoint));
    }
  }

  // --- CleanDecr ----------------------------------------------------------------------

  lemma DecrHoldings(f: Sid, c: Clean, c': Clean)
    requires c.pc.CDecr? && (c'.pc.CUnlockP? || c'.pc.CCancelOwner?) && c'.key == c.key && c'.entry == c.entry
    ensures forall l :: CleanerHolds(f, c', l) == CleanerHolds(f, c, l)
  {
  }

  lemma DecrLocal(st: State, f: Sid, st': State)
    requires CleanDecr(st, f, st') && LocalInv(st) && CleanOwns(st, f)
    ensures LocalInv(st')
  {
    DecrHoldings(f, st.cleaners[f], st'.cleaners[f]);
    ReleaseLocal(st, f, st'.cleaners[f], st');
  }

  lemma DecrDetaches(st: State, f: Sid, st': State)
    requires CleanDecr(st, f, st') && Releases(st, f)
    ensures var o := st.cleaners[f].entry;
            && f in Referrers(st.sessions, st.cleaners, o)
            && Referrers(st'.sessions, st'.cleaners, o) == Referrers(st.sessions, st.cleaners, o) - {f}
  {
  }

  lemma DecrRefs(st: State, f: Sid, st': State)
    requires CleanDecr(st, f, st') && RefsExact(st.sessions, st.cleaners, st.refs) && Releases(st, f)
    ensures RefsExact(st'.sessions, st'.cleaners, st'.refs)
    ensures st.refs[st.cleaners[f].entry] > 0
  {
    DecrDetaches(st, f, st');
    forall o | o in st.refs && o != st.cleaners[f].entry
      ensures Referrers(st'.sessions, st'.cleaners, o) == Referrers(st.sessions, st.cleaners, o)
    {
      SameAttached(st.sessions, st.cleaners, st'.sessions, st'.cleaners, o);
    }
  }

  lemma DecrEntries(st: State, f: Sid, st': State)
    requires EntriesTyped(st.sessions, st.refs, st.entries) && ReapsOk(st.cleaners, st.entries, st.refs)
    requires CleanDecr(st, f, st') && Releases(st, f) && st.refs[st.cleaners[f].entry] > 0
    ensures EntriesTyped(st'.sessions, st'.refs, st'.entries) && ReapsOk(st'.cleaners, st'.entries, st'.refs)
  {
  }

  lemma DecrCounted(st: State, f: Sid, st': State)
    requires EntriesCounted(st) && EntriesTyped(st.sessions, st.refs, st.entries)
    requires CleanDecr(st, f, st') && Releases(st, f) && CleanLocks(st.locks, f, st.cleaners[f])
    ensures EntriesCounted(st')
  {
    assert CleanerHolds(f, st.cleaners[f], PMu(st.cleaners[f].key.endpoint));
  }

  lemma DecrEnded(st: State, f: Sid, st': State)
    requires CleanDecr(st, f, st') && Releases(st, f) && st.refs[st.cleaners[f].entry] > 0
    requires EndedOk(st)
    ensures EndedOk(st')
  {
  }

  lemma DecrBackends(st: State, f: Sid, st': State)
    requires CleanDecr(st, f, st') && Releases(st, f) && st.refs[st.cleaners[f].entry] > 0
    requires DialledOk(st) && EndedOk(st)
    ensures DialledOk(st') && EndedOk(st')
  {
    DecrEnded(st, f, st');
  }

  lemma DecrPool(st: State, f: Sid, st': State)
    requires CleanDecr(st, f, st') && PoolInv(st) && Releases(st, f) && CleanLocks(st.locks, f, st.cleaners[f])
    ensures PoolInv(st')
  {
    DecrRefs(st, f, st');
    DecrEntries(st, f, st');
    DecrCounted(st, f, st');
    DecrBackends(st, f, st');
  }

  lemma DecrCounters(lim: Limits, st: State, f: Sid, st': State)
    requires CleanDecr(st, f, st') && Counters(lim, st)
    ensures Counters(lim, st')
  {
    CountersKept(lim, st, f, st'.cleaners[f], st');
  }

  lemma DecrKeeps(lim: Limits, st: State, f: Sid, st': State)
    requires CleanDecr(st, f, st') && Inv(lim, st)
    ensures Inv(lim, st')
  {
    Unfold(lim, st);
    InvCleanOwns(st, f);
    ReleaseNamesEntry(st, f);
    DecrLocal(st, f, st');
    DecrPool(st, f, st');
    DecrCounters(lim, st, f, st');
    Fold(lim, st');
  }

  // --- CleanCloseOwner ----------------------------------------------------------------

  lemma CloseOwnerLocal(st: State, f: Sid, st': State)
    requires CleanCloseOwner(st, f, st') && LocalInv(st) && CleanOwns(st, f)
    ensures LocalInv(st')
  {
    ReleaseLocal(st, f, st'.cleaners[f], st');
  }

  lemma CloseOwnerRefs(st: State, f: Sid, st': State)
    requires CleanCloseOwner(st, f, st') && RefsExact(st.sessions, st.cleaners, st.refs)
    ensures RefsExact(st'.sessions, st'.cleaners, st'.refs)
  {
    forall o | o in st.refs
      ensures Referrers(st'.sessions, st'.cleaners, o) == Referrers(st.sessions, st.cleaners, o)
    {
      SameAttached(st.sessions, st.cleaners, st'.sessions, st'.cleaners, o);
    }
  }

  lemma CloseOwnerEntries(st: State, f: Sid, st': State)
    requires EntriesCounted(st) && ReapsOk(st.cleaners, st.entries, st.refs) && DialledOk(st)
    requires CleanCloseOwner(st, f, st')
    ensures EntriesCounted(st') && ReapsOk(st'.cleaners, st'.entries, st'.refs) && DialledOk(st')
  {
  }

  /** The entry has no references left, and nobody is about to retain it. */
  lemma CloseOwnerEnded(st: State, f: Sid, st': State)
    requires EndedOk(st) && DialledOk(st) && ReapsOk(st.cleaners, st.entries, st.refs)
    requires RequestsOk(st.sessions, st.cleaners, st.requests)
    requires CleanCloseOwner(st, f, st') && Releases(st, f) && PoolToSelf(st, f)
    ensures EndedOk(st')
  {
    forall r | r in st.requests && st.requests[r].pc.QRetain?
      ensures st.requests[r].target != st.cleaners[f].entry
    {
      assert RequestOk(st.sessions, st.cleaners, st.requests[r]);
    }
  }

  lemma CloseOwnerPool(st: State, f: Sid, st': State)
    requires PoolInv(st) && RequestsOk(st.sessions, st.cleaners, st.requests)
    requires CleanCloseOwner(st, f, st') && Releases(st, f) && PoolToSelf(st, f)
    requires CleanLocks(st.locks, f, st.cleaners[f])
    ensures PoolInv(st')
  {
    CloseOwnerRefs(st, f, st');
    CloseOwnerEntries(st, f, st');
    CloseOwnerEnded(st, f, st');
  }

  lemma CloseOwnerCounters(lim: Limits, st: State, f: Sid, st': State)
    requires CleanCloseOwner(st, f, st') && Counters(lim, st)
    ensures Counters(lim, st')
  {
    CountersKept(lim, st, f, st'.cleaners[f], st');
  }

  lemma CloseOwnerKeeps(lim: Limits, st: State, f: Sid, st': State)
    requires CleanCloseOwner(st, f, st') && Inv(lim, st)
    ensures Inv(lim, st')
  {
    Unfold(lim, st);
    InvCleanOwns(st, f);
    ReleaseNamesEntry(st, f);
    PoolLockExcludes(st, f);
    CloseOwnerLocal(st, f, st');
    CloseOwnerPool(st, f, st');
    CloseOwnerCounters(lim, st, f, st');
    Fold(lim, st');
  }

  // --- CleanDelete ----------------------------------------------------------------------

  lemma DeleteLocal(st: State, f: Sid, st': State)
    requires CleanDelete(st, f, st') && LocalInv(st) && CleanOwns(st, f)
    ensures LocalInv(st')
  {
    ReleaseLocal(st, f, st'.cleaners[f], st');
  }

  lemma DeleteRefs(st: State, f: Sid, st': State)
    requires CleanDelete(st, f, st') && RefsExact(st.sessions, st.cleaners, st.refs)
    ensures RefsExact(st'.sessions, st'.cleaners, st'.refs)
  {
    forall o | o in st.refs
      ensures Referrers(st'.sessions, st'.cleaners, o) == Referrers(st.sessions, st.cleaners, o)
    {
      SameAttached(st.sessions, st.cleaners, st'.sessions, st'.cleaners, o);
    }
  }

  lemma DeleteEntries(st: State, f: Sid, st': State)
    requires EntriesTyped(st.sessions, st.refs, st.entries) && ReapsOk(st.cleaners, st.entries, st.refs)
    requires CleanDelete(st, f, st')
    ensures EntriesTyped(st'.sessions, st'.refs, st'.entries)
  {
  }

  lemma DeleteUses(st: State, f: Sid, st': State)
    requires RetainsOk(st.requests, st.entries) && ReapsOk(st.cleaners, st.entries, st.refs)
    requires CleanDelete(st, f, st') && PoolToSelf(st, f)
    ensures RetainsOk(st'.requests, st'.entries) && ReapsOk(st'.cleaners, st'.entries, st'.refs)
  {
  }

  lemma DeleteCounted(st: State, f: Sid, st': State)
    requires EntriesCounted(st) && EntriesTyped(st.sessions, st.refs, st.entries)
    requires CleanDelete(st, f, st') && Releases(st, f)
    ensures EntriesCounted(st')
  {
  }

  lemma DeleteBackends(st: State, f: Sid, st': State)
    requires CleanDelete(st, f, st') && DialledOk(st) && EndedOk(st)
    ensures DialledOk(st') && EndedOk(st')
  {
  }

  lemma DeletePool(st: State, f: Sid, st': State)
    requires CleanDelete(st, f, st') && PoolInv(st) && Releases(st, f) && PoolToSelf(st, f)
    ensures PoolInv(st')
  {
    DeleteRefs(st, f, st');
    DeleteEntries(st, f, st');
    DeleteUses(st, f, st');
    DeleteCounted(st, f, st');
    DeleteBackends(st, f, st');
  }

  lemma DeleteCounters(lim: Limits, st: State, f: Sid, st': State)
    requires CleanDelete(st, f, st') && Counters(lim, st)
    ensures Counters(lim, st')
  {
    CountersKept(lim, st, f, st'.cleaners[f], st');
  }

  lemma DeleteKeeps(lim: Limits, st: State, f: Sid, st': State)
    requires CleanDelete(st, f, st') && Inv(lim, st)
    ensures Inv(lim, st')
  {
    Unfold(lim, st);
    InvCleanOwns(st, f);
    ReleaseNamesEntry(st, f);
    PoolLockExcludes(st, f);
    DeleteLocal(st, f, st');
    DeletePool(st, f, st');
    DeleteCounters(lim, st, f, st');
    Fold(lim, st');
  }
}
