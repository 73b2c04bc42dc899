/** The steps of attach that work on the pool keep the invariant. */
module PoolSteps {
  import opened Protocol
  import opened Invariant
  import opened Frames
  import opened SessionSteps

  /** Steps inside attach and connect that keep both locks and tokens. */
  lemma SameHoldings(q: Request, q': Request)
    requires q'.front == q.front && q'.state == q.state
    requires (q.pc.QEnsure? && q'.pc.QRetain?) || (q.pc.QRetain? && q'.pc.QPoolUnlock?)
             || (q'.target == q.target
                 && ((q.pc.QDial? && q'.pc.QStore?) || (q.pc.QStore? && q'.pc.QConnOk?)
                     || (q.pc.QDialFailed? && q'.pc.QConnFail?)))
    ensures forall l :: RequestHolds(q', l) == RequestHolds(q, l)
    ensures forall s :: UsesToken(q', s) == UsesToken(q, s)
  {
  }

  /** Attached frontends are counted. */
  lemma AttachedCounts(
    sessions: map<Sid, Session>, cleaners: map<Sid, Clean>, refs: map<Sid, int>, f: Sid, o: Sid)
    requires RefsExact(sessions, cleaners, refs) && o in refs && Refers(sessions, cleaners, f, o)
    ensures refs[o] > 0
  {
    assert f in Referrers(sessions, cleaners, o);
  }

  /** While a request holds a pool lock outside Retain, every entry of the pool has references. */
  lemma EntryReferenced(st: State, r: Rid, k: Key)
    requires EntriesCounted(st)
    requires k in st.entries && st.entries[k] in st.refs
    requires r in st.requests && !st.requests[r].pc.QRetain?
    requires PMu(k.endpoint) in st.locks && st.locks[PMu(k.endpoint)] == Req(r)
    ensures st.refs[st.entries[k]] != 0
  {
  }

  // --- EnsureFound ------------------------------------------------------------------

  lemma EnsureFoundRecord(st: State, r: Rid, st': State)
    requires EnsureFound(st, r, st') && EntriesTyped(st.sessions, st.refs, st.entries)
    requires RequestOk(st.sessions, st.cleaners, st.requests[r])
    ensures RequestOk(st'.sessions, st'.cleaners, st'.requests[r])
    ensures KeyOf(st.requests[r].front) == PoolKey(st.requests[r])
  {
  }

  lemma EnsureFoundEnded(st: State, r: Rid, st': State)
    requires EntriesTyped(st.sessions, st.refs, st.entries) && EntriesCounted(st) && EndedOk(st)
    requires EnsureFound(st, r, st') && OwnLocks(st.locks, r, st.requests[r])
    ensures EndedOk(st')
  {
    var q := st.requests[r];
    assert RequestHolds(q, PMu(q.front.endpoint));
    EntryReferenced(st, r, PoolKey(q));
  }

  lemma EnsureFoundLocal(st: State, r: Rid, st': State)
    requires EnsureFound(st, r, st') && LocalInv(st) && EntriesTyped(st.sessions, st.refs, st.entries)
    ensures LocalInv(st')
  {
    SameHoldings(st.requests[r], st'.requests[r]);
    RecordLocks(st, r, st'.requests[r], st');
    EnsureFoundRecord(st, r, st');
  }

  lemma EnsureFoundUses(st: State, r: Rid, st': State)
    requires EntriesCounted(st) && RetainsOk(st.requests, st.entries) && DialledOk(st)
    requires EnsureFound(st, r, st') && KeyOf(st.requests[r].front) == PoolKey(st.requests[r])
    ensures EntriesCounted(st') && RetainsOk(st'.requests, st'.entries) && DialledOk(st')
  {
  }

  lemma EnsureFoundPool(st: State, r: Rid, st': State)
    requires EnsureFound(st, r, st') && PoolInv(st) && Owns(st, r)
    ensures PoolInv(st')
  {
    EnsureFoundRecord(st, r, st');
    EnsureFoundUses(st, r, st');
    EnsureFoundEnded(st, r, st');
  }

  lemma EnsureFoundCount(lim: Limits, st: State, r: Rid, st': State)
    requires EnsureFound(st, r, st') && CountInv(lim, st)
    ensures CountInv(lim, st')
  {
    SameHoldings(st.requests[r], st'.requests[r]);
    TokensKept(lim, st.sessions, st.tokens, st.requests, r, st'.requests[r]);
  }

  lemma EnsureFoundKeeps(lim: Limits, st: State, r: Rid, st': State)
    requires EnsureFound(st, r, st') && Inv(lim, st)
    ensures Inv(lim, st')
  {
    Unfold(lim, st);
    InvOwns(st, r);
    EnsureFoundLocal(st, r, st');
    EnsureFoundPool(st, r, st');
    EnsureFoundCount(lim, st, r, st');
    Fold(lim, st');
  }

  // --- EnsureNew --------------------------------------------------------------------

  lemma EnsureNewRequest(st: State, r: Rid, o: Sid, st': State)
    requires EnsureNew(st, r, o, st') && RequestOk(st.sessions, st.cleaners, st.requests[r])
    ensures RequestOk(st'.sessions, st'.cleaners, st'.requests[r])
    ensures KeyOf(st.requests[r].front) == PoolKey(st.requests[r])
  {
  }

  lemma EnsureNewEvolves(st: State, r: Rid, o: Sid, st': State)
    requires EnsureNew(st, r, o, st')
    ensures Evolves(st.sessions, st'.sessions) && st'.cleaners == st.cleaners
    ensures forall q :: RequestOk(st.sessions, st.cleaners, q) ==> Undisturbed(st'.sessions, q)
  {
  }

  lemma EnsureNewRequests(st: State, r: Rid, o: Sid, st': State)
    requires EnsureNew(st, r, o, st') && RequestsOk(st.sessions, st.cleaners, st.requests)
    ensures RequestsOk(st'.sessions, st'.cleaners, st'.requests)
    ensures KeyOf(st.requests[r].front) == PoolKey(st.requests[r])
  {
    EnsureNewRequest(st, r, o, st');
    EnsureNewEvolves(st, r, o, st');
    forall p | p in st'.requests && p != r
      ensures RequestOk(st'.sessions, st'.cleaners, st'.requests[p])
    {
      RequestEvolves(st.sessions, st'.sessions, st.cleaners, st'.cleaners, st.requests[p]);
    }
  }

  lemma EnsureNewSessions(st: State, r: Rid, o: Sid, st': State)
    requires SessionsOk(st.sessions) && CleanersOk(st.sessions, st.cancelled, st.cleaners)
    requires EnsureNew(st, r, o, st') && RequestOk(st.sessions, st.cleaners, st.requests[r])
    ensures SessionsOk(st'.sessions) && CleanersOk(st'.sessions, st'.cancelled, st'.cleaners)
  {
  }

  lemma EnsureNewRefs(st: State, r: Rid, o: Sid, st': State)
    requires RefsExact(st.sessions, st.cleaners, st.refs) && SessionsOk(st.sessions)
    requires EnsureNew(st, r, o, st')
    ensures RefsExact(st'.sessions, st'.cleaners, st'.refs)
  {
    NewSessionUnused(st.sessions, st.cleaners, o);
    forall i | i in st'.refs
      ensures Referrers(st'.sessions, st'.cleaners, i) == Referrers(st.sessions, st.cleaners, i)
    {
      SameAttached(st.sessions, st.cleaners, st'.sessions, st'.cleaners, i);
    }
  }

  lemma EntryAdded(sessions: map<Sid, Session>, refs: map<Sid, int>, entries: map<Key, Sid>, key: Key, o: Sid)
    requires EntriesTyped(sessions, refs, entries) && key !in entries && o !in sessions
    requires forall i :: i in refs ==> i in sessions
    ensures EntriesTyped(sessions[o := NewOwner(key)], refs[o := 0], entries[key := o])
  {
  }

  lemma EnsureNewEntries(st: State, r: Rid, o: Sid, st': State)
    requires EntriesTyped(st.sessions, st.refs, st.entries)
    requires RefsExact(st.sessions, st.cleaners, st.refs)
    requires EnsureNew(st, r, o, st') && KeyOf(st.requests[r].front) == PoolKey(st.requests[r])
    ensures EntriesTyped(st'.sessions, st'.refs, st'.entries)
  {
    EntryAdded(st.sessions, st.refs, st.entries, PoolKey(st.requests[r]), o);
  }

  lemma EnsureNewUses(st: State, r: Rid, o: Sid, st': State)
    requires RefsExact(st.sessions, st.cleaners, st.refs)
    requires RetainsOk(st.requests, st.entries) && ReapsOk(st.cleaners, st.entries, st.refs)
    requires EnsureNew(st, r, o, st') && KeyOf(st.requests[r].front) == PoolKey(st.requests[r])
    ensures RetainsOk(st'.requests, st'.entries) && ReapsOk(st'.cleaners, st'.entries, st'.refs)
  {
  }

  lemma EnsureNewCounted(st: State, r: Rid, o: Sid, st': State)
    requires EntriesCounted(st) && EntriesTyped(st.sessions, st.refs, st.entries)
    requires EnsureNew(st, r, o, st') && OwnLocks(st.locks, r, st.requests[r])
    ensures EntriesCounted(st')
  {
    assert RequestHolds(st.requests[r], PMu(st.requests[r].front.endpoint));
  }

  lemma EnsureNewDialled(st: State, r: Rid, o: Sid, st': State)
    requires EnsureNew(st, r, o, st') && DialledOk(st)
    ensures DialledOk(st')
  {
  }

  lemma EnsureNewEnded(st: State, r: Rid, o: Sid, st': State)
    requires EnsureNew(st, r, o, st') && EndedOk(st) && DialledOk(st)
    ensures EndedOk(st')
  {
  }

  lemma EnsureNewRoster(st: State, r: Rid, o: Sid, st': State)
    requires EnsureNew(st, r, o, st') && RosterInv(st.sessions, st.cleaners, st.roster)
    ensures RosterInv(st'.sessions, st'.cleaners, st'.roster)
  {
  }

  lemma EnsureNewTokens(lim: Limits, st: State, r: Rid, o: Sid, st': State)
    requires TokenInv(lim, st.sessions, st.tokens, st.requests)
    requires EnsureNew(st, r, o, st') && RequestsOk(st.sessions, st.cleaners, st.requests)
    ensures TokenInv(lim, st'.sessions, st'.tokens, st'.requests)
  {
    SameHoldings(st.requests[r], st'.requests[r]);
    TokensKept(lim, st.sessions, st.tokens, st.requests, r, st'.requests[r]);
    forall p | p in st.requests
      ensures !UsesToken(st.requests[p], o)
    {
      NewSessionNoTokens(st.sessions, st.cleaners, st.requests[p], o);
    }
    NewTokens(lim, st.sessions, st.tokens, st'.requests, o, st'.sessions[o]);
  }

  lemma EnsureNewLocks(st: State, r: Rid, o: Sid, st': State)
    requires EnsureNew(st, r, o, st') && LockInv(st)
    ensures LockInv(st')
  {
    SameHoldings(st.requests[r], st'.requests[r]);
    RecordLocks(st, r, st'.requests[r], st');
  }

  lemma EnsureNewKeeps(lim: Limits, st: State, r: Rid, o: Sid, st': State)
    requires EnsureNew(st, r, o, st') && Inv(lim, st)
    ensures Inv(lim, st')
  {
    Unfold(lim, st);
    InvOwns(st, r);
    EnsureNewLocks(st, r, o, st');
    EnsureNewRequests(st, r, o, st');
    EnsureNewSessions(st, r, o, st');
    EnsureNewRefs(st, r, o, st');
    EnsureNewEntries(st, r, o, st');
    EnsureNewUses(st, r, o, st');
    EnsureNewCounted(st, r, o, st');
    EnsureNewDialled(st, r, o, st');
    EnsureNewEnded(st, r, o, st');
    EnsureNewTokens(lim, st, r, o, st');
    EnsureNewRoster(st, r, o, st');
    Fold(lim, st');
  }

  // --- Retain -----------------------------------------------------------------------

  /** Nobody else is inside attach on the same frontend. */
  lemma AttachExcludes(st: State, r: Rid, p: Rid)
    requires LockInv(st) && r in st.requests && p in st.requests && p != r
    requires InAttach(st.requests[r].pc) && InAttach(st.requests[p].pc)
    ensures st.requests[p].state != st.requests[r].state
  {
    assert Holds(st, Req(r), SMu(st.requests[r].state));
    assert Holds(st, Req(p), SMu(st.requests[p].state));
  }

  lemma RetainRecord(st: State, r: Rid, st': State)
    requires Retain(st, r, st') && RequestOk(st.sessions, st.cleaners, st.requests[r])
    requires SessionOk(st.sessions, st.sessions[st.requests[r].state])
    ensures RequestOk(st'.sessions, st'.cleaners, st'.requests[r]) && Evolves(st.sessions, st'.sessions)
  {
  }

  lemma RetainRequests(st: State, r: Rid, st': State)
    requires Retain(st, r, st') && LockInv(st) && RequestsOk(st.sessions, st.cleaners, st.requests)
    requires SessionOk(st.sessions, st.sessions[st.requests[r].state])
    ensures RequestsOk(st'.sessions, st'.cleaners, st'.requests)
  {
    assert RequestOk(st.sessions, st.cleaners, st.requests[r]);
    RetainRecord(st, r, st');
    forall p | p in st'.requests && p != r
      ensures RequestOk(st'.sessions, st'.cleaners, st'.requests[p])
    {
      assert RequestOk(st.sessions, st.cleaners, st.requests[p]);
      if Attaching(st.requests[p].pc) {
        AttachExcludes(st, r, p);
      }
      RequestEvolves(st.sessions, st'.sessions, st.cleaners, st'.cleaners, st.requests[p]);
    }
  }

  lemma RetainSessions(st: State, r: Rid, st': State)
    requires SessionsOk(st.sessions) && CleanersOk(st.sessions, st.cancelled, st.cleaners)
    requires Retain(st, r, st') && RequestOk(st.sessions, st.cleaners, st.requests[r])
    ensures SessionsOk(st'.sessions) && CleanersOk(st'.sessions, st'.cancelled, st'.cleaners)
  {
  }

  lemma RetainAttaches(st: State, r: Rid, st': State)
    requires Retain(st, r, st') && RequestOk(st.sessions, st.cleaners, st.requests[r])
    ensures var q := st.requests[r];
            && q.state !in Referrers(st.sessions, st.cleaners, q.target)
            && Referrers(st'.sessions, st'.cleaners, q.target)
               == Referrers(st.sessions, st.cleaners, q.target) + {q.state}
  {
  }

  lemma RetainRefs(st: State, r: Rid, st': State)
    requires RefsExact(st.sessions, st.cleaners, st.refs)
    requires Retain(st, r, st') && RequestOk(st.sessions, st.cleaners, st.requests[r])
    ensures RefsExact(st'.sessions, st'.cleaners, st'.refs)
  {
    var q := st.requests[r];
    forall i | i in st.refs && i != q.target
      ensures Referrers(st'.sessions, st'.cleaners, i) == Referrers(st.sessions, st.cleaners, i)
    {
      SameAttached(st.sessions, st.cleaners, st'.sessions, st'.cleaners, i);
    }
    RetainAttaches(st, r, st');
  }

  lemma RetainEntries(st: State, r: Rid, st': State)
    requires EntriesTyped(st.sessions, st.refs, st.entries) && RetainsOk(st.requests, st.entries)
    requires Retain(st, r, st') && RequestOk(st.sessions, st.cleaners, st.requests[r])
    ensures EntriesTyped(st'.sessions, st'.refs, st'.entries) && RetainsOk(st'.requests, st'.entries)
  {
  }

  lemma RetainCounted(st: State, r: Rid, st': State)
    requires Retain(st, r, st') && EntriesCounted(st) && RefsExact(st.sessions, st.cleaners, st.refs)
    ensures EntriesCounted(st')
  {
    assert st.refs[st.requests[r].target] >= 0;
  }

  /** Nobody is reaping the entry: that goroutine would hold the same pool lock. */
  lemma RetainReaps(st: State, r: Rid, st': State)
    requires LockInv(st) && ReapsOk(st.cleaners, st.entries, st.refs)
    requires EntriesTyped(st.sessions, st.refs, st.entries)
    requires Retain(st, r, st') && RequestOk(st.sessions, st.cleaners, st.requests[r])
    ensures ReapsOk(st'.cleaners, st'.entries, st'.refs)
  {
    var q := st.requests[r];
    forall f | f in st.cleaners && Reaping(st.cleaners[f].pc)
      ensures st.cleaners[f].entry != q.target
    {
      assert Holds(st, Req(r), PMu(q.front.endpoint));
      assert Holds(st, Cleaner(f), PMu(st.cleaners[f].key.endpoint));
    }
  }

  lemma RetainDialled(st: State, r: Rid, st': State)
    requires Retain(st, r, st') && DialledOk(st)
    ensures DialledOk(st')
  {
  }

  lemma RetainEnded(st: State, r: Rid, st': State)
    requires Retain(st, r, st') && EndedOk(st)
    ensures EndedOk(st')
  {
  }

  lemma RetainLocks(st: State, r: Rid, st': State)
    requires Retain(st, r, st') && LockInv(st)
    ensures LockInv(st')
  {
    SameHoldings(st.requests[r], st'.requests[r]);
    RecordLocks(st, r, st'.requests[r], st');
  }

  lemma RetainCounts(lim: Limits, st: State, r: Rid, st': State)
    requires Retain(st, r, st') && CountInv(lim, st)
    ensures CountInv(lim, st')
  {
    SameHoldings(st.requests[r], st'.requests[r]);
    TokensKept(lim, st.sessions, st.tokens, st.requests, r, st'.requests[r]);
  }

  lemma RetainKeeps(lim: Limits, st: State, r: Rid, st': State)
    requires Retain(st, r, st') && Inv(lim, st)
    ensures Inv(lim, st')
  {
    Unfold(lim, st);
    InvOwns(st, r);
    RetainLocks(st, r, st');
    RetainRequests(st, r, st');
    RetainSessions(st, r, st');
    RetainRefs(st, r, st');
    RetainEntries(st, r, st');
    RetainCounted(st, r, st');
    RetainReaps(st, r, st');
    RetainDialled(st, r, st');
    RetainEnded(st, r, st');
    RetainCounts(lim, st, r, st');
    Fold(lim, st');
  }
}
