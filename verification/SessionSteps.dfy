/** The steps of a request that create or change a session, an entry or a backend keep the
    invariant. */
module SessionSteps {
  import opened Protocol
  import opened Invariant
  import opened Frames

  /** Sessions are only added, and what has been set in one is never unset. */
  predicate Evolves(before: map<Sid, Session>, after: map<Sid, Session>) {
    forall i :: i in before ==>
      && i in after && after[i].role == before[i].role
      && (before[i].owner.Some? ==> after[i].owner == before[i].owner)
      && (before[i].release.Some? ==> after[i].release == before[i].release)
      && (before[i].backend.Some? ==> after[i].backend == before[i].backend)
      && (before[i].failed ==> after[i].failed)
  }

  predicate Dialling(pc: ReqPc) {
    pc.QDial? || pc.QStore? || pc.QDialFailed?
  }

  /** What a change of sessions may not disturb in a request that is inside attach or connect. */
  predicate Undisturbed(sessions: map<Sid, Session>, q: Request) {
    && (Attaching(q.pc) && q.state in sessions ==> sessions[q.state].owner.None?)
    && (Dialling(q.pc) && q.target in sessions ==>
          sessions[q.target].backend.None? && !sessions[q.target].failed)
  }

  lemma RequestEvolves(
    before: map<Sid, Session>, after: map<Sid, Session>,
    cleaners: map<Sid, Clean>, cleaners': map<Sid, Clean>, q: Request)
    requires RequestOk(before, cleaners, q)
    requires Evolves(before, after) && Undisturbed(after, q)
    requires forall f :: f in cleaners ==> f in cleaners' && cleaners'[f] == cleaners[f]
    ensures RequestOk(after, cleaners', q)
  {
  }

  // --- GetNew -----------------------------------------------------------------------

  lemma GotHoldings(q: Request, q': Request)
    requires q.pc == QGet && q'.pc == QGetOk
    ensures forall l :: RequestHolds(q', l) == RequestHolds(q, l)
    ensures forall s :: !UsesToken(q, s) && !UsesToken(q', s)
  {
  }

  lemma GetNewOthers(lim: Limits, st: State, r: Rid, f: Sid, st': State)
    requires GetNew(lim, st, r, f, st')
    ensures forall u, l :: u != Req(r) ==> Holds(st', u, l) == Holds(st, u, l)
  {
  }

  lemma GetNewLocks(lim: Limits, st: State, r: Rid, f: Sid, st': State)
    requires GetNew(lim, st, r, f, st') && LockInv(st)
    ensures LockInv(st')
  {
    GetNewOthers(lim, st, r, f, st');
    LocksOwned(st, r);
    GotHoldings(st.requests[r], st'.requests[r]);
    LocksKept(st, Req(r), st');
  }

  lemma GetNewRecord(lim: Limits, st: State, r: Rid, f: Sid, st': State)
    requires GetNew(lim, st, r, f, st') && RequestOk(st.sessions, st.cleaners, st.requests[r])
    ensures RequestOk(st'.sessions, st'.cleaners, st'.requests[r])
  {
  }

  lemma GetNewEvolves(lim: Limits, st: State, r: Rid, f: Sid, st': State)
    requires GetNew(lim, st, r, f, st')
    ensures Evolves(st.sessions, st'.sessions)
    ensures forall g :: g in st.cleaners ==> g in st'.cleaners && st'.cleaners[g] == st.cleaners[g]
    ensures forall q :: RequestOk(st.sessions, st.cleaners, q) ==> Undisturbed(st'.sessions, q)
  {
  }

  lemma GetNewRequests(lim: Limits, st: State, r: Rid, f: Sid, st': State)
    requires GetNew(lim, st, r, f, st') && RequestsOk(st.sessions, st.cleaners, st.requests)
    ensures RequestsOk(st'.sessions, st'.cleaners, st'.requests)
  {
    GetNewRecord(lim, st, r, f, st');
    GetNewEvolves(lim, st, r, f, st');
    forall p | p in st'.requests && p != r
      ensures RequestOk(st'.sessions, st'.cleaners, st'.requests[p])
    {
      RequestEvolves(st.sessions, st'.sessions, st.cleaners, st'.cleaners, st.requests[p]);
    }
  }

  lemma GetNewCleaners(lim: Limits, st: State, r: Rid, f: Sid, st': State)
    requires GetNew(lim, st, r, f, st') && CleanersOk(st.sessions, st.cancelled, st.cleaners)
    ensures CleanersOk(st'.sessions, st'.cancelled, st'.cleaners)
  {
    forall g | g in st'.cleaners
      ensures CleanerOk(st'.sessions, st'.cancelled, g, st'.cleaners[g])
    {
      assert g != f ==> CleanerOk(st.sessions, st.cancelled, g, st.cleaners[g]);
    }
  }

  lemma GetNewSessions(lim: Limits, st: State, r: Rid, f: Sid, st': State)
    requires GetNew(lim, st, r, f, st') && SessionsOk(st.sessions)
    requires CleanersOk(st.sessions, st.cancelled, st.cleaners)
    ensures SessionsOk(st'.sessions) && CleanersOk(st'.sessions, st'.cancelled, st'.cleaners)
  {
    GetNewCleaners(lim, st, r, f, st');
    forall i | i in st'.sessions
      ensures SessionOk(st'.sessions, st'.sessions[i])
    {
      assert i != f ==> SessionOk(st.sessions, st.sessions[i]);
    }
  }

  /** Nobody refers to a session that does not exist yet. */
  lemma NewSessionUnused(sessions: map<Sid, Session>, cleaners: map<Sid, Clean>, n: Sid)
    requires SessionsOk(sessions) && n !in sessions
    ensures Referrers(sessions, cleaners, n) == {}
  {
  }

  lemma SameAttached(
    sessions: map<Sid, Session>, cleaners: map<Sid, Clean>,
    sessions': map<Sid, Session>, cleaners': map<Sid, Clean>, o: Sid)
    requires forall f :: Refers(sessions', cleaners', f, o) == Refers(sessions, cleaners, f, o)
    ensures Referrers(sessions', cleaners', o) == Referrers(sessions, cleaners, o)
  {
    assert forall f :: f in Referrers(sessions', cleaners', o) <==> Refers(sessions', cleaners', f, o);
    assert forall f :: f in Referrers(sessions, cleaners, o) <==> Refers(sessions, cleaners, f, o);
  }

  lemma GetNewRefs(lim: Limits, st: State, r: Rid, f: Sid, st': State)
    requires GetNew(lim, st, r, f, st') && RefsExact(st.sessions, st.cleaners, st.refs)
    ensures RefsExact(st'.sessions, st'.cleaners, st'.refs)
  {
    forall o | o in st'.refs
      ensures IsOwner(st'.sessions, o) && st'.refs[o] == |Referrers(st'.sessions, st'.cleaners, o)|
    {
      SameAttached(st.sessions, st.cleaners, st'.sessions, st'.cleaners, o);
    }
  }

  lemma GetNewEntries(lim: Limits, st: State, r: Rid, f: Sid, st': State)
    requires EntriesTyped(st.sessions, st.refs, st.entries)
    requires RefsExact(st.sessions, st.cleaners, st.refs)
    requires RetainsOk(st.requests, st.entries) && ReapsOk(st.cleaners, st.entries, st.refs)
    requires GetNew(lim, st, r, f, st')
    ensures EntriesTyped(st'.sessions, st'.refs, st'.entries)
    ensures RetainsOk(st'.requests, st'.entries) && ReapsOk(st'.cleaners, st'.entries, st'.refs)
  {
  }

  lemma GetNewCounted(lim: Limits, st: State, r: Rid, f: Sid, st': State)
    requires GetNew(lim, st, r, f, st') && EntriesCounted(st)
    ensures EntriesCounted(st')
  {
  }

  lemma GetNewDialled(lim: Limits, st: State, r: Rid, f: Sid, st': State)
    requires GetNew(lim, st, r, f, st') && DialledOk(st)
    ensures DialledOk(st')
  {
  }

  lemma GetNewEnded(lim: Limits, st: State, r: Rid, f: Sid, st': State)
    requires GetNew(lim, st, r, f, st') && EndedOk(st)
    ensures EndedOk(st')
  {
  }

  lemma NewTokens(
    lim: Limits, sessions: map<Sid, Session>, tokens: map<Sid, int>, requests: map<Rid, Request>, n: Sid, s: Session)
    requires TokenInv(lim, sessions, tokens, requests)
    requires forall p :: p in requests ==> !UsesToken(requests[p], n)
    requires n !in sessions
    ensures TokenInv(lim, sessions[n := s], tokens[n := 0], requests)
  {
    assert TokenUsers(requests, n) == {};
  }

  lemma NewSessionNoTokens(sessions: map<Sid, Session>, cleaners: map<Sid, Clean>, q: Request, n: Sid)
    requires RequestOk(sessions, cleaners, q) && n !in sessions
    ensures !UsesToken(q, n)
  {
  }

  lemma GetNewTokens(lim: Limits, st: State, r: Rid, f: Sid, st': State)
    requires TokenInv(lim, st.sessions, st.tokens, st.requests)
    requires GetNew(lim, st, r, f, st') && RequestsOk(st.sessions, st.cleaners, st.requests)
    ensures TokenInv(lim, st'.sessions, st'.tokens, st'.requests)
  {
    GotHoldings(st.requests[r], st'.requests[r]);
    TokensKept(lim, st.sessions, st.tokens, st.requests, r, st'.requests[r]);
    forall p | p in st'.requests
      ensures !UsesToken(st'.requests[p], f)
    {
      if p != r {
        NewSessionNoTokens(st.sessions, st.cleaners, st.requests[p], f);
      }
    }
    NewTokens(lim, st.sessions, st.tokens, st'.requests, f, st'.sessions[f]);
  }

  lemma GetNewSlots(lim: Limits, st: State, r: Rid, f: Sid, st': State)
    requires GetNew(lim, st, r, f, st') && SlotInv(lim, st.slots, st.cleaners)
    ensures SlotInv(lim, st'.slots, st'.cleaners)
  {
    assert SlotHolders(st'.cleaners) == SlotHolders(st.cleaners) + {f};
  }

  lemma RosterGrows(
    sessions: map<Sid, Session>, cleaners: map<Sid, Clean>, roster: map<Front, Sid>, front: Front, f: Sid, c: Clean)
    requires RosterInv(sessions, cleaners, roster) && front !in roster
    requires f !in sessions && f !in cleaners && c.pc.CWait?
    ensures RosterInv(sessions[f := NewFrontend(front)], cleaners[f := c], roster[front := f])
  {
  }

  lemma GetNewRoster(lim: Limits, st: State, r: Rid, f: Sid, st': State)
    requires GetNew(lim, st, r, f, st') && RosterInv(st.sessions, st.cleaners, st.roster)
    ensures RosterInv(st'.sessions, st'.cleaners, st'.roster)
  {
    RosterGrows(st.sessions, st.cleaners, st.roster, st.requests[r].front, f, st'.cleaners[f]);
  }

  lemma GetNewShutdown(lim: Limits, st: State, r: Rid, f: Sid, st': State)
    requires GetNew(lim, st, r, f, st') && ShutdownInv(st)
    ensures ShutdownInv(st')
  {
    assert Running(st'.cleaners) == Running(st.cleaners) + {f};
  }

  lemma GetNewKeeps(lim: Limits, st: State, r: Rid, f: Sid, st': State)
    requires GetNew(lim, st, r, f, st') && Inv(lim, st)
    ensures Inv(lim, st')
  {
    Unfold(lim, st);
    GetNewLocks(lim, st, r, f, st');
    GetNewRequests(lim, st, r, f, st');
    GetNewSessions(lim, st, r, f, st');
    GetNewRefs(lim, st, r, f, st');
    GetNewEntries(lim, st, r, f, st');
    GetNewCounted(lim, st, r, f, st');
    GetNewDialled(lim, st, r, f, st');
    GetNewEnded(lim, st, r, f, st');
    GetNewTokens(lim, st, r, f, st');
    GetNewSlots(lim, st, r, f, st');
    GetNewRoster(lim, st, r, f, st');
    GetNewShutdown(lim, st, r, f, st');
    Fold(lim, st');
  }
}
