/** The steps of a request keep the invariant: first the steps that touch only the request
    itself, then those that change the pool, a session or a backend. */
module RequestSteps {
  import opened Protocol
  import opened Invariant
  import opened Frames

  /** The request uses the same tokens before and after the step. */
  ghost predicate SameTokens(st: State, r: Rid, st': State) {
    && r in st.requests && r in st'.requests && st'.tokens == st.tokens
    && forall s :: UsesToken(st'.requests[r], s) == UsesToken(st.requests[r], s)
  }

  /** What a step within one request keeps: its locks and tokens, and what holds of its record. */
  ghost predicate HoldingsAlike(q: Request, q': Request) {
    && Carries(q, q')
    && (forall l :: RequestHolds(q', l) == RequestHolds(q, l))
    && (forall s :: UsesToken(q', s) == UsesToken(q, s))
  }

  lemma GetLockQuiet(st: State, r: Rid, st': State)
    requires GetLock(st, r, st') && Owns(st, r)
    ensures Quiet(st, r, st') && SameTokens(st, r, st')
  {
    LockQuiet(st, r, st'.requests[r], GMu, st');
  }

  lemma GetRefuseQuiet(lim: Limits, st: State, r: Rid, st': State)
    requires GetRefuse(lim, st, r, st') && Owns(st, r)
    ensures Quiet(st, r, st') && SameTokens(st, r, st')
  {
    StayQuiet(st, r, st'.requests[r], st');
  }

  lemma ExistingOk(sessions: map<Sid, Session>, cleaners: map<Sid, Clean>, q: Request, f: Sid)
    requires RequestOk(sessions, cleaners, q) && q.pc == QGet
    requires f in sessions && f in cleaners && sessions[f].role == Frontend(q.front)
    ensures var q' := q.(pc := QGetOk, state := f);
            RequestOk(sessions, cleaners, q') && HoldingsAlike(q, q')
  {
  }

  lemma GetExistingQuiet(st: State, r: Rid, st': State)
    requires GetExisting(st, r, st') && Owns(st, r)
    requires RosterInv(st.sessions, st.cleaners, st.roster)
    ensures Quiet(st, r, st') && SameTokens(st, r, st')
  {
    var q := st.requests[r];
    ExistingOk(st.sessions, st.cleaners, q, st.roster[q.front]);
    StayQuiet(st, r, st'.requests[r], st');
  }

  lemma LeftGet(q: Request, pc: ReqPc)
    requires (q.pc == QGetOk && pc == QGate) || (q.pc == QGetRefused && pc == QDone)
    ensures forall m :: RequestHolds(q.(pc := pc), m) <==> RequestHolds(q, m) && m != GMu
    ensures forall s :: !UsesToken(q, s) && !UsesToken(q.(pc := pc), s)
  {
  }

  lemma GetUnlockQuiet(st: State, r: Rid, st': State)
    requires GetUnlock(st, r, st') && Owns(st, r)
    ensures Quiet(st, r, st') && SameTokens(st, r, st')
  {
    LeftGet(st.requests[r], st'.requests[r].pc);
    FreeQuiet(st, r, st'.requests[r], GMu, st');
  }

  lemma GatedOk(sessions: map<Sid, Session>, cleaners: map<Sid, Clean>, q: Request, pc: ReqPc)
    requires RequestOk(sessions, cleaners, q) && q.pc == QGate && (pc == QToken || pc == QDone)
    ensures RequestOk(sessions, cleaners, q.(pc := pc)) && HoldingsAlike(q, q.(pc := pc))
  {
  }

  lemma GateQuiet(st: State, r: Rid, admit: bool, st': State)
    requires Gate(st, r, admit, st') && Owns(st, r)
    ensures Quiet(st, r, st') && SameTokens(st, r, st')
  {
    GatedOk(st.sessions, st.cleaners, st.requests[r], st'.requests[r].pc);
    StayQuiet(st, r, st'.requests[r], st');
  }

  lemma ScopedOk(sessions: map<Sid, Session>, cleaners: map<Sid, Clean>, q: Request)
    requires RequestOk(sessions, cleaners, q) && q.pc == QScope
    ensures RequestOk(sessions, cleaners, Scoped(q)) && HoldingsAlike(q, Scoped(q))
  {
  }

  lemma ChooseScopeQuiet(st: State, r: Rid, st': State)
    requires ChooseScope(st, r, st') && Owns(st, r)
    ensures Quiet(st, r, st') && SameTokens(st, r, st')
  {
    ScopedOk(st.sessions, st.cleaners, st.requests[r]);
    StayQuiet(st, r, st'.requests[r], st');
  }

  lemma AttachLockQuiet(st: State, r: Rid, st': State)
    requires AttachLock(st, r, st') && Owns(st, r)
    ensures Quiet(st, r, st') && SameTokens(st, r, st')
  {
    LockQuiet(st, r, st'.requests[r], SMu(st.requests[r].state), st');
  }

  lemma CheckedOk(
    sessions: map<Sid, Session>, cancelled: set<Sid>, cleaners: map<Sid, Clean>, q: Request, stop: bool)
    requires RequestOk(sessions, cleaners, q) && q.pc == QAttachCheck
    requires SessionOk(sessions, sessions[q.state])
    requires CleanerOk(sessions, cancelled, q.state, cleaners[q.state])
    requires !stop ==> q.state !in cancelled
    ensures var q' := Checked(q, stop, sessions[q.state].owner);
            RequestOk(sessions, cleaners, q') && HoldingsAlike(q, q')
  {
  }

  /** A frontend that is not cancelled here still has its whole cleanup ahead of it, and
      the cleanup cannot pass its first lock while this request holds it. */
  lemma AttachCheckQuiet(st: State, r: Rid, st': State)
    requires AttachCheck(st, r, st') && Owns(st, r)
    requires SessionOk(st.sessions, st.sessions[st.requests[r].state])
    requires CleanerOk(st.sessions, st.cancelled, st.requests[r].state, st.cleaners[st.requests[r].state])
    ensures Quiet(st, r, st') && SameTokens(st, r, st')
  {
    var q := st.requests[r];
    CheckedOk(st.sessions, st.cancelled, st.cleaners, q, Cancelled(st, q.state));
    StayQuiet(st, r, st'.requests[r], st');
  }

  lemma PoolLockQuiet(st: State, r: Rid, st': State)
    requires PoolLock(st, r, st') && Owns(st, r)
    ensures Quiet(st, r, st') && SameTokens(st, r, st')
  {
    LockQuiet(st, r, st'.requests[r], PMu(st.requests[r].front.endpoint), st');
  }

  lemma PoolUnlockQuiet(st: State, r: Rid, st': State)
    requires PoolUnlock(st, r, st') && Owns(st, r)
    ensures Quiet(st, r, st') && SameTokens(st, r, st')
  {
    FreeQuiet(st, r, st'.requests[r], PMu(st.requests[r].front.endpoint), st');
  }

  lemma AttachedUnlockOk(sessions: map<Sid, Session>, cleaners: map<Sid, Clean>, q: Request, pc: ReqPc)
    requires RequestOk(sessions, cleaners, q)
    requires (q.pc == QAttachUnlock && pc == QOwnerToken) || (q.pc == QAttachFail && pc == QExit)
    ensures RequestOk(sessions, cleaners, q.(pc := pc)) && Carries(q, q.(pc := pc))
    ensures forall m :: RequestHolds(q.(pc := pc), m) <==> RequestHolds(q, m) && m != SMu(q.state)
    ensures forall s :: UsesToken(q.(pc := pc), s) == UsesToken(q, s)
  {
  }

  lemma AttachUnlockQuiet(st: State, r: Rid, st': State)
    requires AttachUnlock(st, r, st') && Owns(st, r)
    ensures Quiet(st, r, st') && SameTokens(st, r, st')
  {
    AttachedUnlockOk(st.sessions, st.cleaners, st.requests[r], st'.requests[r].pc);
    FreeQuiet(st, r, st'.requests[r], SMu(st.requests[r].state), st');
  }

  lemma ConnLockQuiet(st: State, r: Rid, st': State)
    requires ConnLock(st, r, st') && Owns(st, r)
    ensures Quiet(st, r, st') && SameTokens(st, r, st')
  {
    LockQuiet(st, r, st'.requests[r], SMu(st.requests[r].target), st');
  }

  lemma ConnCheckedOk(sessions: map<Sid, Session>, cleaners: map<Sid, Clean>, q: Request, q': Request)
    requires RequestOk(sessions, cleaners, q) && q.pc == QConnCheck
    requires var s := sessions[q.target];
             q' == if s.failed then q.(pc := QConnFail)
                   else if s.backend.Some? then q.(pc := QConnOk, backend := s.backend.value)
                   else q.(pc := QDial)
    ensures RequestOk(sessions, cleaners, q') && HoldingsAlike(q, q')
  {
  }

  lemma ConnCheckQuiet(st: State, r: Rid, st': State)
    requires ConnCheck(st, r, st') && Owns(st, r)
    ensures Quiet(st, r, st') && SameTokens(st, r, st')
  {
    ConnCheckedOk(st.sessions, st.cleaners, st.requests[r], st'.requests[r]);
    StayQuiet(st, r, st'.requests[r], st');
  }

  lemma DialFailsQuiet(st: State, r: Rid, st': State)
    requires DialFails(st, r, st') && Owns(st, r)
    ensures Quiet(st, r, st') && SameTokens(st, r, st')
  {
    StayQuiet(st, r, st'.requests[r], st');
  }

  lemma ConnUnlockQuiet(st: State, r: Rid, st': State)
    requires ConnUnlock(st, r, st') && Owns(st, r)
    ensures Quiet(st, r, st') && SameTokens(st, r, st')
  {
    FreeQuiet(st, r, st'.requests[r], SMu(st.requests[r].target), st');
  }

  lemma ForwardReturnsQuiet(st: State, r: Rid, st': State)
    requires ForwardReturns(st, r, st') && Owns(st, r)
    ensures Quiet(st, r, st') && SameTokens(st, r, st')
  {
    StayQuiet(st, r, st'.requests[r], st');
  }

  /** A call that looked for a token, with or without success. */
  lemma TookQuiet(st: State, r: Rid, pc: ReqPc, st': State)
    requires Owns(st, r) && st' == SetReq(st, r, st.requests[r].(pc := pc)).(tokens := st'.tokens)
    requires (st.requests[r].pc == QToken && (pc == QScope || pc == QDone))
          || (st.requests[r].pc == QOwnerToken && (pc == QConnLock || pc == QExit))
    ensures Quiet(st, r, st')
  {
    StayQuiet(st, r, st.requests[r].(pc := pc), st');
  }

  lemma TakeTokenQuiet(lim: Limits, st: State, r: Rid, st': State)
    requires TakeToken(lim, st, r, st') && Owns(st, r)
    ensures Quiet(st, r, st')
  {
    TookQuiet(st, r, st'.requests[r].pc, st');
  }

  lemma TakeOwnerTokenQuiet(lim: Limits, st: State, r: Rid, st': State)
    requires TakeOwnerToken(lim, st, r, st') && Owns(st, r)
    ensures Quiet(st, r, st')
  {
    TookQuiet(st, r, st'.requests[r].pc, st');
  }

  lemma ReturnOwnerTokenQuiet(st: State, r: Rid, st': State)
    requires ReturnOwnerToken(st, r, st') && Owns(st, r)
    ensures Quiet(st, r, st')
  {
    StayQuiet(st, r, st'.requests[r], st');
  }

  lemma ReturnTokenQuiet(st: State, r: Rid, st': State)
    requires ReturnToken(st, r, st') && Owns(st, r)
    ensures Quiet(st, r, st')
  {
    StayQuiet(st, r, st'.requests[r], st');
  }

  lemma ArriveQuiet(st: State, r: Rid, front: Front, principal: string, st': State)
    requires Arrive(st, r, front, principal, st') && LockInv(st)
    ensures Quiet(st, r, st') && st'.tokens == st.tokens
    ensures forall s :: !UsesToken(st'.requests[r], s)
  {
    assert forall l :: l in st.locks ==> Holds(st, st.locks[l], l);
  }

  lemma ExpireQuiet(st: State, r: Rid, st': State)
    requires Expire(st, r, st') && Owns(st, r)
    ensures Quiet(st, r, st') && SameTokens(st, r, st')
  {
    StayQuiet(st, r, st'.requests[r], st');
  }
}
