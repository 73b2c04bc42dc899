/** The steps of connect that create a backend or store the outcome of a dial keep the
    invariant. */
module ConnectSteps {
  import opened Wrappers
  import opened Protocol
  import opened Invariant
  import opened Frames
  import opened SessionSteps
  import opened PoolSteps

  // --- DialSucceeds -----------------------------------------------------------------

  lemma DialSucceedsLocal(st: State, r: Rid, b: Bid, st': State)
    requires DialSucceeds(st, r, b, st') && LocalInv(st)
    ensures LocalInv(st')
  {
    SameHoldings(st.requests[r], st'.requests[r]);
    RecordLocks(st, r, st'.requests[r], st');
    assert RequestOk(st.sessions, st.cleaners, st.requests[r]);
  }

  lemma DialSucceedsKnown(st: State, r: Rid, b: Bid, st': State)
    requires DialSucceeds(st, r, b, st') && DialledOk(st) && Owns(st, r)
    ensures forall c :: c in st'.dialled ==>
              && st'.dialled[c] in st'.sessions
              && (st'.sessions[st'.dialled[c]].backend == Some(c)
                  || Unstored(st'.locks, st'.requests, c, st'.dialled[c]))
  {
    assert RequestHolds(st.requests[r], SMu(st.requests[r].target));
  }

  lemma DialSucceedsDialled(st: State, r: Rid, b: Bid, st': State)
    requires DialSucceeds(st, r, b, st') && DialledOk(st) && Owns(st, r)
    ensures DialledOk(st')
  {
    DialSucceedsKnown(st, r, b, st');
  }

  lemma DialSucceedsEnded(st: State, r: Rid, b: Bid, st': State)
    requires DialSucceeds(st, r, b, st') && EndedOk(st)
    ensures EndedOk(st')
  {
  }

  lemma DialSucceedsCounted(st: State, r: Rid, b: Bid, st': State)
    requires DialSucceeds(st, r, b, st') && EntriesCounted(st)
    requires RetainsOk(st.requests, st.entries)
    ensures EntriesCounted(st') && RetainsOk(st'.requests, st'.entries)
  {
  }

  lemma DialSucceedsPool(st: State, r: Rid, b: Bid, st': State)
    requires DialSucceeds(st, r, b, st') && PoolInv(st) && Owns(st, r)
    ensures PoolInv(st')
  {
    DialSucceedsCounted(st, r, b, st');
    DialSucceedsDialled(st, r, b, st');
    DialSucceedsEnded(st, r, b, st');
  }

  lemma DialSucceedsCount(lim: Limits, st: State, r: Rid, b: Bid, st': State)
    requires DialSucceeds(st, r, b, st') && CountInv(lim, st)
    ensures CountInv(lim, st')
  {
    SameHoldings(st.requests[r], st'.requests[r]);
    TokensKept(lim, st.sessions, st.tokens, st.requests, r, st'.requests[r]);
  }

  lemma DialSucceedsKeeps(lim: Limits, st: State, r: Rid, b: Bid, st': State)
    requires DialSucceeds(st, r, b, st') && Inv(lim, st)
    ensures Inv(lim, st')
  {
    Unfold(lim, st);
    InvOwns(st, r);
    DialSucceedsLocal(st, r, b, st');
    DialSucceedsPool(st, r, b, st');
    DialSucceedsCount(lim, st, r, b, st');
    Fold(lim, st');
  }

  // --- StoreResult ------------------------------------------------------------------

  /** Nobody else is inside connect on the same session. */
  lemma ConnectExcludes(st: State, r: Rid, p: Rid)
    requires LockInv(st) && r in st.requests && p in st.requests && p != r
    requires InConnect(st.requests[r].pc) && InConnect(st.requests[p].pc)
    ensures st.requests[p].target != st.requests[r].target
  {
    assert Holds(st, Req(r), SMu(st.requests[r].target));
    assert Holds(st, Req(p), SMu(st.requests[p].target));
  }

  lemma StoreResultLocks(st: State, r: Rid, st': State)
    requires StoreResult(st, r, st') && LockInv(st)
    ensures LockInv(st')
  {
    SameHoldings(st.requests[r], st'.requests[r]);
    RecordLocks(st, r, st'.requests[r], st');
  }

  lemma StoreResultRecord(st: State, r: Rid, st': State)
    requires StoreResult(st, r, st') && RequestOk(st.sessions, st.cleaners, st.requests[r])
    ensures RequestOk(st'.sessions, st'.cleaners, st'.requests[r])
    ensures Evolves(st.sessions, st'.sessions)
  {
  }

  lemma StoreResultRequests(st: State, r: Rid, st': State)
    requires StoreResult(st, r, st') && LockInv(st) && RequestsOk(st.sessions, st.cleaners, st.requests)
    ensures RequestsOk(st'.sessions, st'.cleaners, st'.requests)
  {
    assert RequestOk(st.sessions, st.cleaners, st.requests[r]);
    StoreResultRecord(st, r, st');
    forall p | p in st'.requests && p != r
      ensures RequestOk(st'.sessions, st'.cleaners, st'.requests[p])
    {
      assert RequestOk(st.sessions, st.cleaners, st.requests[p]);
      if Dialling(st.requests[p].pc) {
        ConnectExcludes(st, r, p);
      }
      RequestEvolves(st.sessions, st'.sessions, st.cleaners, st'.cleaners, st.requests[p]);
    }
  }

  lemma StoreResultSessions(st: State, r: Rid, st': State)
    requires SessionsOk(st.sessions)
    requires StoreResult(st, r, st') && RequestOk(st.sessions, st.cleaners, st.requests[r])
    ensures SessionsOk(st'.sessions)
  {
    assert SessionOk(st.sessions, st.sessions[st.requests[r].state]);
  }

  lemma StoreResultCleaners(st: State, r: Rid, st': State)
    requires StoreResult(st, r, st') && CleanersOk(st.sessions, st.cancelled, st.cleaners)
    ensures CleanersOk(st'.sessions, st'.cancelled, st'.cleaners)
  {
  }

  lemma StoreResultRefs(st: State, r: Rid, st': State)
    requires StoreResult(st, r, st') && RefsExact(st.sessions, st.cleaners, st.refs)
    ensures RefsExact(st'.sessions, st'.cleaners, st'.refs)
  {
    forall o | o in st.refs
      ensures Referrers(st'.sessions, st'.cleaners, o) == Referrers(st.sessions, st.cleaners, o)
    {
      SameAttached(st.sessions, st.cleaners, st'.sessions, st'.cleaners, o);
    }
  }

  lemma StoreResultEntries(st: State, r: Rid, st': State)
    requires StoreResult(st, r, st') && EntriesTyped(st.sessions, st.refs, st.entries)
    ensures EntriesTyped(st'.sessions, st'.refs, st'.entries)
  {
  }

  lemma StoreResultKnown(st: State, r: Rid, st': State)
    requires StoreResult(st, r, st') && DialledOk(st) && Owns(st, r)
    ensures forall c :: c in st'.dialled ==>
              && st'.dialled[c] in st'.sessions
              && (st'.sessions[st'.dialled[c]].backend == Some(c)
                  || Unstored(st'.locks, st'.requests, c, st'.dialled[c]))
  {
    assert RequestHolds(st.requests[r], SMu(st.requests[r].target));
  }

  lemma StoreResultDialled(st: State, r: Rid, st': State)
    requires StoreResult(st, r, st') && DialledOk(st) && Owns(st, r)
    ensures DialledOk(st')
  {
    StoreResultKnown(st, r, st');
  }

  lemma StoreResultEnded(st: State, r: Rid, st': State)
    requires StoreResult(st, r, st') && EndedOk(st)
    ensures EndedOk(st')
  {
  }

  lemma StoreResultTokens(lim: Limits, st: State, r: Rid, st': State)
    requires StoreResult(st, r, st') && TokenInv(lim, st.sessions, st.tokens, st.requests)
    ensures TokenInv(lim, st'.sessions, st'.tokens, st'.requests)
  {
    SameHoldings(st.requests[r], st'.requests[r]);
    TokensKept(lim, st.sessions, st.tokens, st.requests, r, st'.requests[r]);
  }

  lemma StoreResultRoster(st: State, r: Rid, st': State)
    requires StoreResult(st, r, st') && RosterInv(st.sessions, st.cleaners, st.roster)
    ensures RosterInv(st'.sessions, st'.cleaners, st'.roster)
  {
  }

  lemma StoreResultCounted(st: State, r: Rid, st': State)
    requires StoreResult(st, r, st') && EntriesCounted(st)
    ensures EntriesCounted(st')
  {
  }

  lemma StoreResultLocal(st: State, r: Rid, st': State)
    requires StoreResult(st, r, st') && LocalInv(st) && Owns(st, r)
    ensures LocalInv(st')
  {
    StoreResultLocks(st, r, st');
    StoreResultRequests(st, r, st');
    StoreResultSessions(st, r, st');
    StoreResultCleaners(st, r, st');
  }

  lemma StoreResultPool(st: State, r: Rid, st': State)
    requires StoreResult(st, r, st') && PoolInv(st) && Owns(st, r)
    ensures PoolInv(st')
  {
    StoreResultRefs(st, r, st');
    StoreResultEntries(st, r, st');
    StoreResultCounted(st, r, st');
    StoreResultUses(st, r, st');
    StoreResultDialled(st, r, st');
    StoreResultEnded(st, r, st');
  }

  lemma StoreResultUses(st: State, r: Rid, st': State)
    requires StoreResult(st, r, st') && RetainsOk(st.requests, st.entries)
    ensures RetainsOk(st'.requests, st'.entries)
  {
  }

  lemma StoreResultKeeps(lim: Limits, st: State, r: Rid, st': State)
    requires StoreResult(st, r, st') && Inv(lim, st)
    ensures Inv(lim, st')
  {
    Unfold(lim, st);
    InvOwns(st, r);
    StoreResultLocal(st, r, st');
    StoreResultPool(st, r, st');
    StoreResultTokens(lim, st, r, st');
    StoreResultRoster(st, r, st');
    Fold(lim, st');
  }
}
