/** Every step keeps the invariant, hence every state of every run satisfies it. */
module Preservation {
  import opened Wrappers
  import opened Protocol
  import opened Invariant
  import opened Frames
  import opened RequestSteps
  import PoolSteps
  import SessionSteps
  import ConnectSteps
  import opened CleanFrames
  import opened CleanSteps
  import ReleaseSteps

  // --- requests -----------------------------------------------------------------------

  /** The request steps before and inside attach that change only the request's record and
      locks, with their request. */
  function QuietAttaching(a: Action): Option<Rid> {
    match a
    case AGetLock(r) => Some(r)
    case AGetRefuse(r) => Some(r)
    case AGetExisting(r) => Some(r)
    case AGetUnlock(r) => Some(r)
    case AGate(r, _) => Some(r)
    case AChooseScope(r) => Some(r)
    case AAttachLock(r) => Some(r)
    case AAttachCheck(r) => Some(r)
    case _ => None
  }

  /** The same for the rest of the call. */
  function QuietCalling(a: Action): Option<Rid> {
    match a
    case APoolLock(r) => Some(r)
    case APoolUnlock(r) => Some(r)
    case AAttachUnlock(r) => Some(r)
    case AConnLock(r) => Some(r)
    case AConnCheck(r) => Some(r)
    case ADialFails(r) => Some(r)
    case AConnUnlock(r) => Some(r)
    case AForwardReturns(r) => Some(r)
    case AExpire(r) => Some(r)
    case _ => None
  }

  predicate GetAction(a: Action) {
    a.AGetLock? || a.AGetRefuse? || a.AGetExisting? || a.AGetUnlock?
  }

  lemma QuietInGet(lim: Limits, st: State, a: Action, r: Rid, st': State)
    requires GetAction(a) && a.r == r && Step(lim, st, a, st') && Owns(st, r)
    requires RosterInv(st.sessions, st.cleaners, st.roster)
    ensures Quiet(st, r, st') && SameTokens(st, r, st')
  {
    if a.AGetLock? {
      GetLockQuiet(st, r, st');
    } else if a.AGetRefuse? {
      GetRefuseQuiet(lim, st, r, st');
    } else if a.AGetExisting? {
      GetExistingQuiet(st, r, st');
    } else {
      GetUnlockQuiet(st, r, st');
    }
  }

  lemma QuietInScope(lim: Limits, st: State, a: Action, r: Rid, st': State)
    requires a.AGate? || a.AChooseScope? || a.AAttachLock?
    requires a.r == r && Step(lim, st, a, st') && Owns(st, r)
    ensures Quiet(st, r, st') && SameTokens(st, r, st')
  {
    if a.AGate? {
      GateQuiet(st, r, a.admit, st');
    } else if a.AChooseScope? {
      ChooseScopeQuiet(st, r, st');
    } else {
      AttachLockQuiet(st, r, st');
    }
  }

  lemma QuietWhileAttaching(lim: Limits, st: State, a: Action, r: Rid, st': State)
    requires Step(lim, st, a, st') && QuietAttaching(a) == Some(r) && Owns(st, r)
    requires RosterInv(st.sessions, st.cleaners, st.roster)
    requires HasState(st.requests[r].pc) ==>
               && SessionOk(st.sessions, st.sessions[st.requests[r].state])
               && CleanerOk(st.sessions, st.cancelled, st.requests[r].state, st.cleaners[st.requests[r].state])
    ensures Quiet(st, r, st') && SameTokens(st, r, st')
  {
    if GetAction(a) {
      QuietInGet(lim, st, a, r, st');
    } else if a.AAttachCheck? {
      AttachCheckQuiet(st, r, st');
    } else {
      QuietInScope(lim, st, a, r, st');
    }
  }

  predicate ConnectAction(a: Action) {
    a.AConnLock? || a.AConnCheck? || a.ADialFails? || a.AConnUnlock?
  }

  lemma QuietInConnect(lim: Limits, st: State, a: Action, r: Rid, st': State)
    requires ConnectAction(a) && a.r == r && Step(lim, st, a, st') && Owns(st, r)
    ensures Quiet(st, r, st') && SameTokens(st, r, st')
  {
    if a.AConnLock? {
      ConnLockQuiet(st, r, st');
    } else if a.AConnCheck? {
      ConnCheckQuiet(st, r, st');
    } else if a.ADialFails? {
      DialFailsQuiet(st, r, st');
    } else {
      ConnUnlockQuiet(st, r, st');
    }
  }

  lemma QuietWhileCalling(lim: Limits, st: State, a: Action, r: Rid, st': State)
    requires Step(lim, st, a, st') && QuietCalling(a) == Some(r) && Owns(st, r)
    ensures Quiet(st, r, st') && SameTokens(st, r, st')
  {
    if ConnectAction(a) {
      QuietInConnect(lim, st, a, r, st');
    } else if a.APoolLock? {
      PoolLockQuiet(st, r, st');
    } else if a.APoolUnlock? {
      PoolUnlockQuiet(st, r, st');
    } else if a.AAttachUnlock? {
      AttachUnlockQuiet(st, r, st');
    } else if a.AForwardReturns? {
      ForwardReturnsQuiet(st, r, st');
    } else {
      ExpireQuiet(st, r, st');
    }
  }

  lemma SameTokensKept(lim: Limits, st: State, r: Rid, st': State)
    requires TokenInv(lim, st.sessions, st.tokens, st.requests)
    requires Quiet(st, r, st') && SameTokens(st, r, st')
    ensures TokenInv(lim, st.sessions, st'.tokens, st'.requests)
  {
    TokensKept(lim, st.sessions, st.tokens, st.requests, r, st'.requests[r]);
  }

  /** The two quantified facts AttachCheck needs, for one request. */
  lemma OwnFrontend(st: State, r: Rid)
    requires LocalInv(st) && r in st.requests
    ensures HasState(st.requests[r].pc) ==>
              && RequestOk(st.sessions, st.cleaners, st.requests[r])
              && SessionOk(st.sessions, st.sessions[st.requests[r].state])
              && CleanerOk(st.sessions, st.cancelled, st.requests[r].state, st.cleaners[st.requests[r].state])
  {
    assert RequestOk(st.sessions, st.cleaners, st.requests[r]);
  }

  lemma QuietActionKeeps(lim: Limits, st: State, a: Action, r: Rid, st': State)
    requires Step(lim, st, a, st') && Inv(lim, st) && r in st.requests
    requires QuietAttaching(a) == Some(r) || QuietCalling(a) == Some(r)
    ensures Inv(lim, st')
  {
    Unfold(lim, st);
    InvOwns(st, r);
    OwnFrontend(st, r);
    if QuietAttaching(a) == Some(r) {
      QuietWhileAttaching(lim, st, a, r, st');
    } else {
      QuietWhileCalling(lim, st, a, r, st');
    }
    SameTokensKept(lim, st, r, st');
    QuietKeeps(lim, st, r, st');
  }

  lemma ArriveKeeps(lim: Limits, st: State, r: Rid, front: Front, principal: string, st': State)
    requires Arrive(st, r, front, principal, st') && Inv(lim, st)
    ensures Inv(lim, st')
  {
    Unfold(lim, st);
    ArriveQuiet(st, r, front, principal, st');
    TokensKept(lim, st.sessions, st.tokens, st.requests, r, st'.requests[r]);
    QuietKeeps(lim, st, r, st');
  }

  lemma TokenNeeded(q: Request, pc: ReqPc)
    requires q.pc == QToken && (pc == QScope || pc == QDone)
    ensures forall s :: UsesToken(q.(pc := pc), s) <==> pc == QScope && s == q.state
    ensures forall s :: !UsesToken(q, s)
  {
  }

  lemma SameTokenCount(tokens: map<Sid, int>, s: Sid)
    requires s in tokens
    ensures tokens[s := tokens[s] + 0] == tokens
  {
  }

  lemma TakeTokenCounts(lim: Limits, st: State, r: Rid, st': State)
    requires TakeToken(lim, st, r, st') && TokenInv(lim, st.sessions, st.tokens, st.requests)
    ensures TokenInv(lim, st.sessions, st'.tokens, st'.requests)
  {
    var q := st.requests[r];
    TokenNeeded(q, st'.requests[r].pc);
    if st.tokens[q.state] < lim.calls {
      TokenTaken(lim, st.sessions, st.tokens, st.requests, r, q.(pc := QScope), q.state);
    } else {
      SameTokenCount(st.tokens, q.state);
      TokensKept(lim, st.sessions, st.tokens, st.requests, r, q.(pc := QDone));
    }
  }

  /** A frontend's session is never a pool owner, so the second token is of another session. */
  lemma TakeOwnerTokenCounts(lim: Limits, st: State, r: Rid, st': State)
    requires TakeOwnerToken(lim, st, r, st') && TokenInv(lim, st.sessions, st.tokens, st.requests)
    requires st.requests[r].front.endpoint.shared && st.requests[r].state != st.requests[r].target
    ensures TokenInv(lim, st.sessions, st'.tokens, st'.requests)
  {
    var q := st.requests[r];
    if st.tokens[q.target] < lim.calls {
      TokenTaken(lim, st.sessions, st.tokens, st.requests, r, st'.requests[r], q.target);
    } else {
      TokensKept(lim, st.sessions, st.tokens, st.requests, r, st'.requests[r]);
    }
  }

  lemma ReturnOwnerTokenCounts(lim: Limits, st: State, r: Rid, st': State)
    requires ReturnOwnerToken(st, r, st') && TokenInv(lim, st.sessions, st.tokens, st.requests)
    requires st.requests[r].front.endpoint.shared && st.requests[r].state != st.requests[r].target
    ensures TokenInv(lim, st.sessions, st'.tokens, st'.requests)
  {
    TokenReturned(lim, st.sessions, st.tokens, st.requests, r, st'.requests[r], st.requests[r].target);
  }

  lemma TokenGivenBack(q: Request)
    requires q.pc == QExit
    ensures forall s :: UsesToken(q, s) <==> s == q.state
    ensures forall s :: !UsesToken(q.(pc := QDone), s)
  {
  }

  lemma ReturnTokenCounts(lim: Limits, st: State, r: Rid, st': State)
    requires ReturnToken(st, r, st') && TokenInv(lim, st.sessions, st.tokens, st.requests)
    ensures TokenInv(lim, st.sessions, st'.tokens, st'.requests)
  {
    TokenGivenBack(st.requests[r]);
    TokenReturned(lim, st.sessions, st.tokens, st.requests, r, st'.requests[r], st.requests[r].state);
  }

  /** Owners and frontends are different sessions. */
  lemma TargetIsOwner(sessions: map<Sid, Session>, cleaners: map<Sid, Clean>, q: Request)
    requires RequestOk(sessions, cleaners, q) && HasTarget(q.pc) && q.front.endpoint.shared
    requires SessionOk(sessions, sessions[q.state])
    ensures IsOwner(sessions, q.target) && sessions[q.target].role.key == KeyOf(q.front) && q.state != q.target
  {
  }

  lemma LocalTarget(st: State, r: Rid)
    requires LocalInv(st) && r in st.requests && HasTarget(st.requests[r].pc) && OnlyShared(st.requests[r].pc)
    ensures st.requests[r].front.endpoint.shared && st.requests[r].state != st.requests[r].target
  {
    OwnFrontend(st, r);
    TargetIsOwner(st.sessions, st.cleaners, st.requests[r]);
  }

  lemma InvTarget(lim: Limits, st: State, r: Rid)
    requires Inv(lim, st) && r in st.requests && HasTarget(st.requests[r].pc) && OnlyShared(st.requests[r].pc)
    ensures Owns(st, r) && TokenInv(lim, st.sessions, st.tokens, st.requests)
    ensures st.requests[r].front.endpoint.shared && st.requests[r].state != st.requests[r].target
  {
    Unfold(lim, st);
    InvOwns(st, r);
    LocalTarget(st, r);
  }

  lemma TakeTokenKeeps(lim: Limits, st: State, r: Rid, st': State)
    requires TakeToken(lim, st, r, st') && Inv(lim, st)
    ensures Inv(lim, st')
  {
    Unfold(lim, st);
    InvOwns(st, r);
    TakeTokenQuiet(lim, st, r, st');
    TakeTokenCounts(lim, st, r, st');
    QuietKeeps(lim, st, r, st');
  }

  lemma TakeOwnerTokenKeeps(lim: Limits, st: State, r: Rid, st': State)
    requires TakeOwnerToken(lim, st, r, st') && Inv(lim, st)
    ensures Inv(lim, st')
  {
    InvTarget(lim, st, r);
    TakeOwnerTokenQuiet(lim, st, r, st');
    TakeOwnerTokenCounts(lim, st, r, st');
    QuietKeeps(lim, st, r, st');
  }

  lemma ReturnOwnerTokenKeeps(lim: Limits, st: State, r: Rid, st': State)
    requires ReturnOwnerToken(st, r, st') && Inv(lim, st)
    ensures Inv(lim, st')
  {
    InvTarget(lim, st, r);
    ReturnOwnerTokenQuiet(st, r, st');
    ReturnOwnerTokenCounts(lim, st, r, st');
    QuietKeeps(lim, st, r, st');
  }

  lemma ReturnTokenKeeps(lim: Limits, st: State, r: Rid, st': State)
    requires ReturnToken(st, r, st') && Inv(lim, st)
    ensures Inv(lim, st')
  {
    Unfold(lim, st);
    InvOwns(st, r);
    ReturnTokenQuiet(st, r, st');
    ReturnTokenCounts(lim, st, r, st');
    QuietKeeps(lim, st, r, st');
  }

  // --- cleanup goroutines ---------------------------------------------------------------

  /** What the invariant says about goroutine `f`, gathered for its steps. */
  ghost predicate CleanFacts(st: State, f: Sid) {
    && CleanOwns(st, f)
    && (!BeforeLock(st.cleaners[f].pc) ==> NobodyAttaching(st.requests, f))
    && (SMu(f) !in st.locks ==> NobodyAttaching(st.requests, f))
    && (InRelease(st.cleaners[f].pc) ==> st.cleaners[f].entry != f)
  }

  lemma InvCleanFacts(lim: Limits, st: State, f: Sid)
    requires Inv(lim, st) && f in st.cleaners
    ensures CleanFacts(st, f)
  {
    Unfold(lim, st);
    InvCleanOwns(st, f);
    if !BeforeLock(st.cleaners[f].pc) {
      AttachingExcluded(st, f);
    }
    if SMu(f) !in st.locks {
      FreeMeansNobodyAttaching(st, f);
    }
    if InRelease(st.cleaners[f].pc) {
      ReleaseSteps.ReleaseNamesEntry(st, f);
    }
  }

  lemma InvCounters(lim: Limits, st: State)
    requires Inv(lim, st)
    ensures Counters(lim, st)
  {
    Unfold(lim, st);
  }

  lemma FrontEndsKeeps(lim: Limits, st: State, f: Sid, st': State)
    requires FrontEnds(st, f, st') && Inv(lim, st)
    ensures Inv(lim, st')
  {
    InvCleanFacts(lim, st, f);
    FrontEndsQuiet(st, f, st');
    StillKeeps(lim, st, f, st');
  }

  lemma EndingQuiet(st: State, f: Sid, st': State)
    requires EndingStep(st, f, st') && CleanFacts(st, f) && !CleanClosePrivate(st, f, st')
    ensures CleanQuiet(st, f, st') && CountersStill(st, f, st')
  {
    if CleanCancel(st, f, st') {
      CleanCancelQuiet(st, f, st');
    } else if CleanLockS(st, f, st') {
      CleanLockSQuiet(st, f, st');
    } else {
      CleanInspectQuiet(st, f, st');
    }
  }

  lemma EndingKeeps(lim: Limits, st: State, f: Sid, st': State)
    requires EndingStep(st, f, st') && Inv(lim, st)
    ensures Inv(lim, st')
  {
    if CleanClosePrivate(st, f, st') {
      ClosePrivateKeeps(lim, st, f, st');
    } else {
      InvCleanFacts(lim, st, f);
      EndingQuiet(st, f, st');
      StillKeeps(lim, st, f, st');
    }
  }

  lemma ReleaseLockQuiet(st: State, f: Sid, st': State)
    requires CleanLockP(st, f, st') || CleanLockO(st, f, st') || CleanCancelOwner(st, f, st')
    requires CleanFacts(st, f)
    ensures CleanQuiet(st, f, st') && CountersStill(st, f, st')
  {
    if CleanLockP(st, f, st') {
      CleanLockPQuiet(st, f, st');
    } else if CleanLockO(st, f, st') {
      CleanLockOQuiet(st, f, st');
    } else {
      CleanCancelOwnerQuiet(st, f, st');
    }
  }

  lemma ReleaseUnlockQuiet(st: State, f: Sid, st': State)
    requires CleanUnlockO(st, f, st') || CleanUnlockP(st, f, st')
    requires CleanFacts(st, f)
    ensures CleanQuiet(st, f, st') && CountersStill(st, f, st')
  {
    if CleanUnlockO(st, f, st') {
      CleanUnlockOQuiet(st, f, st');
    } else {
      CleanUnlockPQuiet(st, f, st');
    }
  }

  lemma ReleaseKeeps(lim: Limits, st: State, f: Sid, st': State)
    requires ReleaseStep(st, f, st') && Inv(lim, st)
    ensures Inv(lim, st')
  {
    if CleanDecr(st, f, st') {
      ReleaseSteps.DecrKeeps(lim, st, f, st');
    } else if CleanCloseOwner(st, f, st') {
      ReleaseSteps.CloseOwnerKeeps(lim, st, f, st');
    } else if CleanDelete(st, f, st') {
      ReleaseSteps.DeleteKeeps(lim, st, f, st');
    } else {
      InvCleanFacts(lim, st, f);
      if CleanUnlockO(st, f, st') || CleanUnlockP(st, f, st') {
        ReleaseUnlockQuiet(st, f, st');
      } else {
        ReleaseLockQuiet(st, f, st');
      }
      StillKeeps(lim, st, f, st');
    }
  }

  lemma LeavingLockQuiet(st: State, f: Sid, st': State)
    requires CleanUnlockS(st, f, st') || CleanLockG(st, f, st') || CleanUnlockG(st, f, st')
    requires CleanOwns(st, f) && NobodyAttaching(st.requests, f)
    ensures CleanQuiet(st, f, st') && CountersStill(st, f, st')
  {
    if CleanUnlockS(st, f, st') {
      CleanUnlockSQuiet(st, f, st');
    } else if CleanLockG(st, f, st') {
      CleanLockGQuiet(st, f, st');
    } else {
      CleanUnlockGQuiet(st, f, st');
    }
  }

  lemma LeavingCountQuiet(st: State, f: Sid, st': State)
    requires CleanDrop(st, f, st') || CleanReturnSlot(st, f, st') || CleanWgDone(st, f, st')
    requires CleanOwns(st, f) && NobodyAttaching(st.requests, f)
    ensures CleanQuiet(st, f, st')
  {
    if CleanDrop(st, f, st') {
      CleanDropQuiet(st, f, st');
    } else if CleanReturnSlot(st, f, st') {
      CleanReturnSlotQuiet(st, f, st');
    } else {
      CleanWgDoneQuiet(st, f, st');
    }
  }

  lemma LeavingCountCounters(lim: Limits, st: State, f: Sid, st': State)
    requires CleanDrop(st, f, st') || CleanReturnSlot(st, f, st') || CleanWgDone(st, f, st')
    requires Counters(lim, st)
    ensures Counters(lim, st')
  {
    if CleanDrop(st, f, st') {
      CleanDropCounters(lim, st, f, st');
    } else if CleanReturnSlot(st, f, st') {
      CleanReturnSlotCounters(lim, st, f, st');
    } else {
      CleanWgDoneCounters(lim, st, f, st');
    }
  }

  lemma LeavingKeeps(lim: Limits, st: State, f: Sid, st': State)
    requires LeavingStep(st, f, st') && Inv(lim, st)
    ensures Inv(lim, st')
  {
    InvCleanFacts(lim, st, f);
    if CleanUnlockS(st, f, st') || CleanLockG(st, f, st') || CleanUnlockG(st, f, st') {
      LeavingLockQuiet(st, f, st');
      StillKeeps(lim, st, f, st');
    } else {
      InvCounters(lim, st);
      LeavingCountQuiet(st, f, st');
      LeavingCountCounters(lim, st, f, st');
      CleanKeeps(lim, st, f, st');
    }
  }

  lemma CleanStepKeeps(lim: Limits, st: State, f: Sid, st': State)
    requires CleanStep(st, f, st') && Inv(lim, st)
    ensures Inv(lim, st')
  {
    if EndingStep(st, f, st') {
      EndingKeeps(lim, st, f, st');
    } else if ReleaseStep(st, f, st') {
      ReleaseKeeps(lim, st, f, st');
    } else {
      LeavingKeeps(lim, st, f, st');
    }
  }

  // --- Gateway.Close --------------------------------------------------------------------

  /** A step of Close touches its own counter, the gateway's lock and its two flags. */
  ghost predicate Closes(st: State, c: Cid, st': State) {
    && c in st'.closers
    && st' == st.(closers := st.closers[c := st'.closers[c]], locks := st'.locks,
                  closed := st'.closed, gctx := st'.gctx)
    && LocksMoved(st.locks, st'.locks, Closer(c))
    && (forall l :: CloserHolds(st'.closers[c], l) <==> l in st'.locks && st'.locks[l] == Closer(c))
  }

  /** What the locks say about caller `c` of Close. */
  ghost predicate CloserOwns(st: State, c: Cid) {
    forall l :: (c in st.closers && CloserHolds(st.closers[c], l)) <==> l in st.locks && st.locks[l] == Closer(c)
  }

  lemma InvCloserOwns(st: State, c: Cid)
    requires LockInv(st)
    ensures CloserOwns(st, c)
  {
    assert forall l :: (c in st.closers && CloserHolds(st.closers[c], l)) <==> Holds(st, Closer(c), l);
  }

  lemma CloseStartCloses(st: State, c: Cid, st': State)
    requires CloseStart(st, c, st') && CloserOwns(st, c)
    ensures Closes(st, c, st')
  {
  }

  lemma CloseLockCloses(st: State, c: Cid, st': State)
    requires CloseLock(st, c, st') && CloserOwns(st, c) && ShutdownInv(st)
    ensures Closes(st, c, st') && ShutdownInv(st')
  {
  }

  lemma CloseMarkCloses(st: State, c: Cid, st': State)
    requires CloseMark(st, c, st') && CloserOwns(st, c) && ShutdownInv(st)
    ensures Closes(st, c, st') && ShutdownInv(st')
  {
    assert CloserHolds(st.closers[c], GMu);
  }

  lemma CloseCancelCloses(st: State, c: Cid, st': State)
    requires CloseCancel(st, c, st') && CloserOwns(st, c) && ShutdownInv(st)
    ensures Closes(st, c, st') && ShutdownInv(st')
  {
    assert CloserHolds(st.closers[c], GMu);
  }

  lemma CloseUnlockCloses(st: State, c: Cid, st': State)
    requires CloseUnlock(st, c, st') && CloserOwns(st, c) && ShutdownInv(st)
    ensures Closes(st, c, st') && ShutdownInv(st')
  {
    assert CloserHolds(st.closers[c], GMu);
  }

  lemma CloseFrontsCloses(st: State, c: Cid, st': State)
    requires CloseFronts(st, c, st') && CloserOwns(st, c) && ShutdownInv(st)
    ensures Closes(st, c, st') && ShutdownInv(st')
  {
  }

  lemma CloseReturnCloses(st: State, c: Cid, st': State)
    requires CloseReturn(st, c, st') && CloserOwns(st, c) && ShutdownInv(st)
    ensures Closes(st, c, st') && ShutdownInv(st')
  {
  }

  lemma CloseStepCloses(st: State, c: Cid, st': State)
    requires CloseStep(st, c, st') && CloserOwns(st, c) && ShutdownInv(st)
    ensures Closes(st, c, st') && ShutdownInv(st')
  {
    if CloseLock(st, c, st') {
      CloseLockCloses(st, c, st');
    } else if CloseMark(st, c, st') {
      CloseMarkCloses(st, c, st');
    } else if CloseCancel(st, c, st') {
      CloseCancelCloses(st, c, st');
    } else if CloseUnlock(st, c, st') {
      CloseUnlockCloses(st, c, st');
    } else if CloseFronts(st, c, st') {
      CloseFrontsCloses(st, c, st');
    } else {
      CloseReturnCloses(st, c, st');
    }
  }

  lemma CloseStepLocal(st: State, c: Cid, st': State)
    requires LocalInv(st) && Closes(st, c, st')
    ensures LocalInv(st')
  {
    LocksKept(st, Closer(c), st');
  }

  lemma CloseStepPool(st: State, c: Cid, st': State)
    requires PoolInv(st) && Closes(st, c, st')
    ensures PoolInv(st')
  {
  }

  lemma CloseStartShutdown(st: State, c: Cid, st': State)
    requires CloseStart(st, c, st') && ShutdownInv(st)
    ensures ShutdownInv(st')
  {
  }

  lemma ClosesKeeps(lim: Limits, st: State, c: Cid, st': State)
    requires Inv(lim, st) && Closes(st, c, st') && ShutdownInv(st')
    ensures Inv(lim, st')
  {
    Unfold(lim, st);
    CloseStepLocal(st, c, st');
    CloseStepPool(st, c, st');
    Fold(lim, st');
  }

  lemma CloseStartKeeps(lim: Limits, st: State, c: Cid, st': State)
    requires CloseStart(st, c, st') && Inv(lim, st)
    ensures Inv(lim, st')
  {
    Unfold(lim, st);
    InvCloserOwns(st, c);
    CloseStartCloses(st, c, st');
    CloseStartShutdown(st, c, st');
    ClosesKeeps(lim, st, c, st');
  }

  lemma CloseStepKeeps(lim: Limits, st: State, c: Cid, st': State)
    requires CloseStep(st, c, st') && Inv(lim, st)
    ensures Inv(lim, st')
  {
    Unfold(lim, st);
    InvCloserOwns(st, c);
    CloseStepCloses(st, c, st');
    ClosesKeeps(lim, st, c, st');
  }

  // --- all steps ------------------------------------------------------------------------

  predicate CountingAction(a: Action) {
    a.AArrive? || a.ATakeToken? || a.ATakeOwnerToken? || a.AReturnOwnerToken? || a.AReturnToken?
  }

  predicate SessionAction(a: Action) {
    a.AGetNew? || a.AEnsureFound? || a.AEnsureNew? || a.ARetain? || a.ADialSucceeds? || a.AStoreResult?
  }

  predicate BackgroundAction(a: Action) {
    a.AFrontEnds? || a.AClean? || a.ACloseStart? || a.AClose?
  }

  lemma CountingKeeps(lim: Limits, st: State, a: Action, st': State)
    requires Step(lim, st, a, st') && Inv(lim, st) && CountingAction(a)
    ensures Inv(lim, st')
  {
    if a.AArrive? {
      ArriveKeeps(lim, st, a.r, a.front, a.principal, st');
    } else if a.ATakeToken? {
      TakeTokenKeeps(lim, st, a.r, st');
    } else if a.ATakeOwnerToken? {
      TakeOwnerTokenKeeps(lim, st, a.r, st');
    } else if a.AReturnOwnerToken? {
      ReturnOwnerTokenKeeps(lim, st, a.r, st');
    } else {
      ReturnTokenKeeps(lim, st, a.r, st');
    }
  }

  lemma PoolActionKeeps(lim: Limits, st: State, a: Action, st': State)
    requires a.AEnsureFound? || a.AEnsureNew? || a.ARetain?
    requires Step(lim, st, a, st') && Inv(lim, st)
    ensures Inv(lim, st')
  {
    if a.AEnsureFound? {
      PoolSteps.EnsureFoundKeeps(lim, st, a.r, st');
    } else if a.AEnsureNew? {
      PoolSteps.EnsureNewKeeps(lim, st, a.r, a.n, st');
    } else {
      PoolSteps.RetainKeeps(lim, st, a.r, st');
    }
  }

  lemma SessionKeeps(lim: Limits, st: State, a: Action, st': State)
    requires Step(lim, st, a, st') && SessionAction(a) && Inv(lim, st)
    ensures Inv(lim, st')
  {
    if a.AGetNew? {
      SessionSteps.GetNewKeeps(lim, st, a.r, a.n, st');
    } else if a.ADialSucceeds? {
      ConnectSteps.DialSucceedsKeeps(lim, st, a.r, a.b, st');
    } else if a.AStoreResult? {
      ConnectSteps.StoreResultKeeps(lim, st, a.r, st');
    } else {
      PoolActionKeeps(lim, st, a, st');
    }
  }

  lemma ClosingKeeps(lim: Limits, st: State, a: Action, st': State)
    requires a.ACloseStart? || a.AClose?
    requires Step(lim, st, a, st') && Inv(lim, st)
    ensures Inv(lim, st')
  {
    if a.ACloseStart? {
      CloseStartKeeps(lim, st, a.c, st');
    } else {
      CloseStepKeeps(lim, st, a.c, st');
    }
  }

  lemma BackgroundKeeps(lim: Limits, st: State, a: Action, st': State)
    requires Step(lim, st, a, st') && Inv(lim, st) && BackgroundAction(a)
    ensures Inv(lim, st')
  {
    if a.AFrontEnds? {
      FrontEndsKeeps(lim, st, a.f, st');
    } else if a.AClean? {
      CleanStepKeeps(lim, st, a.f, st');
    } else {
      ClosingKeeps(lim, st, a, st');
    }
  }

  lemma QuietRequestKnown(lim: Limits, st: State, a: Action, st': State)
    requires Step(lim, st, a, st')
    requires !CountingAction(a) && !SessionAction(a) && !BackgroundAction(a)
    ensures QuietAttaching(a).Some? || QuietCalling(a).Some?
    ensures QuietAttaching(a).Some? ==> QuietAttaching(a).value in st.requests
    ensures QuietCalling(a).Some? ==> QuietCalling(a).value in st.requests
  {
  }

  /** MAIN: the invariant is inductive. */
  lemma StepKeepsInv(lim: Limits, st: State, a: Action, st': State)
    requires Step(lim, st, a, st') && Inv(lim, st)
    ensures Inv(lim, st')
  {
    if CountingAction(a) {
      CountingKeeps(lim, st, a, st');
    } else if SessionAction(a) {
      SessionKeeps(lim, st, a, st');
    } else if BackgroundAction(a) {
      BackgroundKeeps(lim, st, a, st');
    } else {
      QuietRequestKnown(lim, st, a, st');
      QuietActionKeeps(lim, st, a,
                       if QuietAttaching(a).Some? then QuietAttaching(a).value else QuietCalling(a).value, st');
    }
  }

  lemma NextKeepsInv(lim: Limits, st: State, st': State)
    requires Next(lim, st, st') && Inv(lim, st)
    ensures Inv(lim, st')
  {
    var a :| Step(lim, st, a, st');
    StepKeepsInv(lim, st, a, st');
  }

  /** MAIN: every state of every run satisfies the invariant. */
  lemma {:induction false} RunInv(lim: Limits, run: seq<State>, i: nat)
    requires Run(lim, run) && i < |run|
    ensures Inv(lim, run[i])
  {
    if i == 0 {
      InitInv(lim);
    } else {
      RunInv(lim, run, i - 1);
      assert StepAt(lim, run, i - 1);
      NextKeepsInv(lim, run[i - 1], run[i]);
    }
  }
}
