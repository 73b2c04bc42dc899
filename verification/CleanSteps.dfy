/** The steps of a cleanup goroutine keep the invariant. */
module CleanSteps {
  import opened Protocol
  import opened Invariant
  import opened Frames
  import opened SessionSteps
  import opened CleanFrames

  /** Once the goroutine has its session's lock, no request can be attaching that session. */
  lemma AttachingExcluded(st: State, f: Sid)
    requires RequestsOk(st.sessions, st.cleaners, st.requests)
    requires f in st.cleaners && !BeforeLock(st.cleaners[f].pc)
    ensures NobodyAttaching(st.requests, f)
  {
    forall r | r in st.requests && Attaching(st.requests[r].pc)
      ensures st.requests[r].state != f
    {
      assert RequestOk(st.sessions, st.cleaners, st.requests[r]);
    }
  }

  /** A request that is attaching holds its session's lock. */
  lemma FreeMeansNobodyAttaching(st: State, f: Sid)
    requires LockInv(st) && SMu(f) !in st.locks
    ensures NobodyAttaching(st.requests, f)
  {
    forall r | r in st.requests && Attaching(st.requests[r].pc)
      ensures st.requests[r].state != f
    {
      assert Holds(st, Req(r), SMu(st.requests[r].state));
    }
  }

  // --- quiet steps, without the counters ---------------------------------------------

  lemma FrontEndsQuiet(st: State, f: Sid, st': State)
    requires FrontEnds(st, f, st') && CleanOwns(st, f)
    ensures CleanQuiet(st, f, st') && CountersStill(st, f, st')
  {
    CleanStay(st, f, st'.cleaners[f], st');
  }

  lemma CleanCancelQuiet(st: State, f: Sid, st': State)
    requires CleanCancel(st, f, st') && CleanOwns(st, f)
    ensures CleanQuiet(st, f, st') && CountersStill(st, f, st')
  {
  }

  lemma CleanLockSQuiet(st: State, f: Sid, st': State)
    requires CleanLockS(st, f, st') && CleanOwns(st, f) && NobodyAttaching(st.requests, f)
    ensures CleanQuiet(st, f, st') && CountersStill(st, f, st')
  {
    CleanAcquire(st, f, st'.cleaners[f], SMu(f), st');
  }

  lemma CleanInspectQuiet(st: State, f: Sid, st': State)
    requires CleanInspect(st, f, st') && CleanOwns(st, f) && NobodyAttaching(st.requests, f)
    ensures CleanQuiet(st, f, st') && CountersStill(st, f, st')
  {
    var c := st.cleaners[f];
    match st.sessions[f].release
    case Some(rel) => CleanStay(st, f, Clean(CLockP, rel.key, rel.entry), st');
    case None => CleanStay(st, f, c.(pc := CClosePrivate), st');
  }

  lemma CleanLockPQuiet(st: State, f: Sid, st': State)
    requires CleanLockP(st, f, st') && CleanOwns(st, f) && NobodyAttaching(st.requests, f)
    ensures CleanQuiet(st, f, st') && CountersStill(st, f, st')
  {
    CleanAcquire(st, f, st'.cleaners[f], PMu(st.cleaners[f].key.endpoint), st');
  }

  lemma CleanCancelOwnerQuiet(st: State, f: Sid, st': State)
    requires CleanCancelOwner(st, f, st') && CleanOwns(st, f) && NobodyAttaching(st.requests, f)
    ensures CleanQuiet(st, f, st') && CountersStill(st, f, st')
  {
  }

  lemma CleanLockOQuiet(st: State, f: Sid, st': State)
    requires CleanLockO(st, f, st') && CleanOwns(st, f) && NobodyAttaching(st.requests, f)
    ensures CleanQuiet(st, f, st') && CountersStill(st, f, st')
  {
    CleanAcquire(st, f, st'.cleaners[f], SMu(st.cleaners[f].entry), st');
  }

  /** The frontend's session and the entry it releases are different sessions. */
  lemma CleanUnlockOQuiet(st: State, f: Sid, st': State)
    requires CleanUnlockO(st, f, st') && CleanOwns(st, f) && NobodyAttaching(st.requests, f)
    requires st.cleaners[f].entry != f
    ensures CleanQuiet(st, f, st') && CountersStill(st, f, st')
  {
    CleanFree(st, f, st'.cleaners[f], SMu(st.cleaners[f].entry), st');
  }

  lemma CleanUnlockPQuiet(st: State, f: Sid, st': State)
    requires CleanUnlockP(st, f, st') && CleanOwns(st, f) && NobodyAttaching(st.requests, f)
    ensures CleanQuiet(st, f, st') && CountersStill(st, f, st')
  {
    CleanFree(st, f, st'.cleaners[f], PMu(st.cleaners[f].key.endpoint), st');
  }

  lemma CleanUnlockSQuiet(st: State, f: Sid, st': State)
    requires CleanUnlockS(st, f, st') && CleanOwns(st, f) && NobodyAttaching(st.requests, f)
    ensures CleanQuiet(st, f, st') && CountersStill(st, f, st')
  {
    CleanFree(st, f, st'.cleaners[f], SMu(f), st');
  }

  lemma CleanLockGQuiet(st: State, f: Sid, st': State)
    requires CleanLockG(st, f, st') && CleanOwns(st, f) && NobodyAttaching(st.requests, f)
    ensures CleanQuiet(st, f, st') && CountersStill(st, f, st')
  {
    CleanAcquire(st, f, st'.cleaners[f], GMu, st');
  }

  lemma CleanDropQuiet(st: State, f: Sid, st': State)
    requires CleanDrop(st, f, st') && CleanOwns(st, f) && NobodyAttaching(st.requests, f)
    ensures CleanQuiet(st, f, st')
  {
    CleanStay(st, f, st'.cleaners[f], st');
  }

  lemma CleanReturnSlotQuiet(st: State, f: Sid, st': State)
    requires CleanReturnSlot(st, f, st') && CleanOwns(st, f) && NobodyAttaching(st.requests, f)
    ensures CleanQuiet(st, f, st')
  {
    CleanStay(st, f, st'.cleaners[f], st');
  }

  lemma CleanUnlockGQuiet(st: State, f: Sid, st': State)
    requires CleanUnlockG(st, f, st') && CleanOwns(st, f) && NobodyAttaching(st.requests, f)
    ensures CleanQuiet(st, f, st') && CountersStill(st, f, st')
  {
    CleanFree(st, f, st'.cleaners[f], GMu, st');
  }

  lemma CleanWgDoneQuiet(st: State, f: Sid, st': State)
    requires CleanWgDone(st, f, st') && CleanOwns(st, f) && NobodyAttaching(st.requests, f)
    ensures CleanQuiet(st, f, st')
  {
    CleanStay(st, f, st'.cleaners[f], st');
  }

  // --- the counters ------------------------------------------------------------------

  lemma CleanDropCounters(lim: Limits, st: State, f: Sid, st': State)
    requires CleanDrop(st, f, st') && Counters(lim, st)
    ensures Counters(lim, st')
  {
    CleanDropRoster(st, f, st');
    assert SlotHolders(st'.cleaners) == SlotHolders(st.cleaners);
    assert Running(st'.cleaners) == Running(st.cleaners);
  }

  lemma CleanDropRoster(st: State, f: Sid, st': State)
    requires CleanDrop(st, f, st') && RosterInv(st.sessions, st.cleaners, st.roster)
    ensures RosterInv(st'.sessions, st'.cleaners, st'.roster)
  {
  }

  lemma CleanReturnSlotCounters(lim: Limits, st: State, f: Sid, st': State)
    requires CleanReturnSlot(st, f, st') && Counters(lim, st)
    ensures Counters(lim, st')
  {
    assert SlotHolders(st'.cleaners) == SlotHolders(st.cleaners) - {f};
    assert Running(st'.cleaners) == Running(st.cleaners);
  }

  lemma CleanWgDoneCounters(lim: Limits, st: State, f: Sid, st': State)
    requires CleanWgDone(st, f, st') && Counters(lim, st)
    ensures Counters(lim, st')
  {
    WgDoneRunning(st, f, st');
    assert SlotHolders(st'.cleaners) == SlotHolders(st.cleaners);
  }

  lemma WgDoneRunning(st: State, f: Sid, st': State)
    requires CleanWgDone(st, f, st') && ShutdownInv(st)
    ensures ShutdownInv(st')
  {
    assert Running(st'.cleaners) == Running(st.cleaners) - {f};
  }

  // --- CleanClosePrivate --------------------------------------------------------------

  lemma ClosePrivateLocks(st: State, f: Sid, st': State)
    requires CleanClosePrivate(st, f, st') && LockInv(st)
    ensures LockInv(st')
  {
    CleanLocksOwned(st, f);
    LocksKept(st, Cleaner(f), st');
  }

  lemma ClosePrivateThreads(st: State, f: Sid, st': State)
    requires RequestsOk(st.sessions, st.cleaners, st.requests) && CleanersOk(st.sessions, st.cancelled, st.cleaners)
    requires CleanClosePrivate(st, f, st') && NobodyAttaching(st.requests, f)
    ensures RequestsOk(st'.sessions, st'.cleaners, st'.requests)
    ensures CleanersOk(st'.sessions, st'.cancelled, st'.cleaners)
  {
    forall r | r in st.requests
      ensures RequestOk(st'.sessions, st'.cleaners, st.requests[r])
    {
      assert RequestOk(st.sessions, st.cleaners, st.requests[r]);
    }
  }

  /** The frontend was never attached, so nobody's reference count is concerned. */
  lemma ClosePrivateRefs(st: State, f: Sid, st': State)
    requires RefsExact(st.sessions, st.cleaners, st.refs) && SessionsOk(st.sessions)
    requires CleanClosePrivate(st, f, st') && CleanOwns(st, f)
    ensures RefsExact(st'.sessions, st'.cleaners, st'.refs)
  {
    assert SessionOk(st.sessions, st.sessions[f]);
    forall o | o in st.refs
      ensures Referrers(st'.sessions, st'.cleaners, o) == Referrers(st.sessions, st.cleaners, o)
    {
      SameAttached(st.sessions, st.cleaners, st'.sessions, st'.cleaners, o);
    }
  }

  lemma ClosePrivateEntries(st: State, f: Sid, st': State)
    requires EntriesCounted(st) && ReapsOk(st.cleaners, st.entries, st.refs) && DialledOk(st)
    requires CleanClosePrivate(st, f, st')
    ensures EntriesCounted(st') && ReapsOk(st'.cleaners, st'.entries, st'.refs) && DialledOk(st')
  {
  }

  lemma ClosePrivateEnded(st: State, f: Sid, st': State)
    requires EndedOk(st) && DialledOk(st) && RequestsOk(st.sessions, st.cleaners, st.requests)
    requires CleanClosePrivate(st, f, st') && CleanOwns(st, f)
    ensures EndedOk(st')
  {
    forall r | r in st.requests && st.requests[r].pc.QRetain?
      ensures st.requests[r].target != f
    {
      assert RequestOk(st.sessions, st.cleaners, st.requests[r]);
    }
  }

  lemma ClosePrivateCounters(lim: Limits, st: State, f: Sid, st': State)
    requires CleanClosePrivate(st, f, st') && Counters(lim, st)
    ensures Counters(lim, st')
  {
    CountersKept(lim, st, f, st'.cleaners[f], st');
  }

  lemma ClosePrivatePool(st: State, f: Sid, st': State)
    requires CleanClosePrivate(st, f, st') && PoolInv(st) && CleanOwns(st, f)
    requires SessionsOk(st.sessions) && RequestsOk(st.sessions, st.cleaners, st.requests)
    ensures PoolInv(st')
  {
    ClosePrivateRefs(st, f, st');
    ClosePrivateEntries(st, f, st');
    ClosePrivateEnded(st, f, st');
  }

  lemma ClosePrivateLocal(st: State, f: Sid, st': State)
    requires CleanClosePrivate(st, f, st') && LocalInv(st)
    ensures LocalInv(st')
  {
    AttachingExcluded(st, f);
    ClosePrivateLocks(st, f, st');
    ClosePrivateThreads(st, f, st');
  }

  lemma ClosePrivateKeeps(lim: Limits, st: State, f: Sid, st': State)
    requires CleanClosePrivate(st, f, st') && Inv(lim, st)
    ensures Inv(lim, st')
  {
    Unfold(lim, st);
    InvCleanOwns(st, f);
    ClosePrivateLocal(st, f, st');
    ClosePrivatePool(st, f, st');
    ClosePrivateCounters(lim, st, f, st');
    Fold(lim, st');
  }
}
