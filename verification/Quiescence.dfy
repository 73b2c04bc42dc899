/** Everything the bridge starts comes to an end: its own steps use up a measure that only
    arriving calls and calls of Close add to, and when none of them is left to do every call has
    returned, and with the last frontend gone so has Close. */
module Quiescence {
  import opened Protocol
  import opened Invariant
  import opened Deadlock
  import opened Preservation
  import Runs
  import Safety

  // --- the measure ----------------------------------------------------------------------------

  /** How many steps a call has before it at most; registering a session costs the steps of the
      new goroutine too. */
  function RequestLeft(pc: ReqPc): nat {
    match pc
    case QGetLock => 41
    case QGet => 40
    case QGetOk => 20
    case QGetRefused => 1
    case QGate => 19
    case QToken => 18
    case QScope => 17
    case QAttachLock => 16
    case QAttachCheck => 15
    case QPoolLock => 14
    case QEnsure => 13
    case QRetain => 12
    case QPoolUnlock => 11
    case QAttachUnlock => 10
    case QAttachFail => 2
    case QOwnerToken => 9
    case QConnLock => 8
    case QConnCheck => 7
    case QDial => 6
    case QStore => 5
    case QDialFailed => 4
    case QConnOk => 4
    case QConnFail => 3
    case QForward => 3
    case QExitOwner => 2
    case QExit => 1
    case QDone => 0
  }

  function CleanLeft(pc: CleanPc): nat {
    match pc
    case CWait => 18
    case CCancel => 17
    case CLockS => 16
    case CInspect => 15
    case CLockP => 14
    case CDecr => 13
    case CCancelOwner => 12
    case CLockO => 11
    case CCloseOwner => 10
    case CUnlockO => 9
    case CDelete => 8
    case CClosePrivate => 7
    case CUnlockP => 7
    case CUnlockS => 6
    case CLockG => 5
    case CDrop => 4
    case CReturnSlot => 3
    case CUnlockG => 2
    case CWgDone => 1
    case CEnd => 0
  }

  function CloseLeft(pc: ClosePc): nat {
    match pc
    case KLockG => 6
    case KClosed => 5
    case KCancel => 4
    case KSnapshot => 3
    case KFronts => 2
    case KWait => 1
    case KReturned => 0
  }

  ghost function Total<K(!new)>(m: map<K, nat>): nat {
    if m == map[] then 0
    else
      var k :| k in m;
      m[k] + Total(m - {k})
  }

  lemma {:induction false} TotalAt<K(!new)>(m: map<K, nat>, k: K)
    requires k in m
    ensures Total(m) == m[k] + Total(m - {k})
    decreases |m|
  {
    var i :| i in m && Total(m) == m[i] + Total(m - {i});
    if i != k {
      TotalAt(m - {i}, k);
      TotalAt(m - {k}, i);
      assert m - {i} - {k} == m - {k} - {i};
    }
  }

  /** Changing or adding one summand. */
  lemma TotalChanged<K(!new)>(m: map<K, nat>, k: K, n: nat)
    ensures Total(m[k := n]) == Total(m) - (if k in m then m[k] else 0) + n
  {
    TotalAt(m[k := n], k);
    if k in m {
      TotalAt(m, k);
      assert m[k := n] - {k} == m - {k};
    } else {
      assert m[k := n] - {k} == m;
    }
  }

  function RequestCosts(requests: map<Rid, Request>): map<Rid, nat> {
    map r | r in requests :: RequestLeft(requests[r].pc)
  }

  function CleanCosts(cleaners: map<Sid, Clean>): map<Sid, nat> {
    map f | f in cleaners :: CleanLeft(cleaners[f].pc)
  }

  function CloseCosts(closers: map<Cid, ClosePc>): map<Cid, nat> {
    map c | c in closers :: CloseLeft(closers[c])
  }

  /** No run from `st` has more steps than this without new calls. */
  ghost function Measure(st: State): nat {
    Total(RequestCosts(st.requests)) + Total(CleanCosts(st.cleaners)) + Total(CloseCosts(st.closers))
  }

  lemma RequestMoves(requests: map<Rid, Request>, r: Rid, q: Request)
    requires r in requests
    ensures Total(RequestCosts(requests[r := q]))
         == Total(RequestCosts(requests)) - RequestLeft(requests[r].pc) + RequestLeft(q.pc)
  {
    assert RequestCosts(requests[r := q]) == RequestCosts(requests)[r := RequestLeft(q.pc)];
    TotalChanged(RequestCosts(requests), r, RequestLeft(q.pc));
  }

  lemma CleanerMoves(cleaners: map<Sid, Clean>, f: Sid, c: Clean)
    ensures Total(CleanCosts(cleaners[f := c]))
         == Total(CleanCosts(cleaners)) - (if f in cleaners then CleanLeft(cleaners[f].pc) else 0) + CleanLeft(c.pc)
  {
    assert CleanCosts(cleaners[f := c]) == CleanCosts(cleaners)[f := CleanLeft(c.pc)];
    TotalChanged(CleanCosts(cleaners), f, CleanLeft(c.pc));
  }

  lemma CloserMoves(closers: map<Cid, ClosePc>, c: Cid, pc: ClosePc)
    requires c in closers
    ensures Total(CloseCosts(closers[c := pc])) == Total(CloseCosts(closers)) - CloseLeft(closers[c]) + CloseLeft(pc)
  {
    assert CloseCosts(closers[c := pc]) == CloseCosts(closers)[c := CloseLeft(pc)];
    TotalChanged(CloseCosts(closers), c, CloseLeft(pc));
  }

  // --- every step uses some of it up ------------------------------------------------------------

  /** Only request `r` moves, and it has less before it than it had. */
  ghost predicate Spends(st: State, r: Rid, st': State) {
    && r in st.requests && r in st'.requests && st'.requests == st.requests[r := st'.requests[r]]
    && RequestLeft(st'.requests[r].pc) < RequestLeft(st.requests[r].pc)
    && st'.cleaners == st.cleaners && st'.closers == st.closers
  }

  lemma SpendsLess(st: State, r: Rid, st': State)
    requires Spends(st, r, st')
    ensures Measure(st') < Measure(st)
  {
    RequestMoves(st.requests, r, st'.requests[r]);
  }

  lemma GetSpends(lim: Limits, st: State, a: Action, st': State)
    requires GetAction(a) && Step(lim, st, a, st')
    ensures Spends(st, a.r, st')
  {
  }

  lemma ScopeSpends(lim: Limits, st: State, a: Action, st': State)
    requires a.AGate? || a.AChooseScope? || a.AAttachLock?
    requires Step(lim, st, a, st')
    ensures Spends(st, a.r, st')
  {
  }

  lemma CheckSpends(st: State, r: Rid, st': State)
    requires AttachCheck(st, r, st')
    ensures Spends(st, r, st')
  {
  }

  lemma LookSpends(lim: Limits, st: State, a: Action, st': State)
    requires a.AConnLock? || a.AConnCheck?
    requires Step(lim, st, a, st')
    ensures Spends(st, a.r, st')
  {
  }

  lemma ConnectSpends(lim: Limits, st: State, a: Action, st': State)
    requires ConnectAction(a) && Step(lim, st, a, st')
    ensures Spends(st, a.r, st')
  {
    if a.AConnLock? || a.AConnCheck? {
      LookSpends(lim, st, a, st');
    } else if a.ADialFails? {
      DialFailsSpends(st, a.r, st');
    } else {
      ConnUnlockSpends(st, a.r, st');
    }
  }

  lemma DialFailsSpends(st: State, r: Rid, st': State)
    requires DialFails(st, r, st')
    ensures Spends(st, r, st')
  {
  }

  lemma ConnUnlockSpends(st: State, r: Rid, st': State)
    requires ConnUnlock(st, r, st')
    ensures Spends(st, r, st')
  {
  }

  lemma UnlocksSpend(lim: Limits, st: State, a: Action, st': State)
    requires a.APoolUnlock? || a.AAttachUnlock?
    requires Step(lim, st, a, st')
    ensures Spends(st, a.r, st')
  {
  }

  lemma PoolLockSpends(lim: Limits, st: State, a: Action, st': State)
    requires a.APoolLock? || a.APoolUnlock? || a.AAttachUnlock? || a.AForwardReturns?
    requires Step(lim, st, a, st')
    ensures Spends(st, a.r, st')
  {
    if a.APoolUnlock? || a.AAttachUnlock? {
      UnlocksSpend(lim, st, a, st');
    }
  }

  lemma QuietSpends(lim: Limits, st: State, a: Action, st': State)
    requires Step(lim, st, a, st') && !External(a)
    requires !CountingAction(a) && !SessionAction(a) && !BackgroundAction(a)
    ensures Spends(st, a.r, st')
  {
    if GetAction(a) {
      GetSpends(lim, st, a, st');
    } else if ConnectAction(a) {
      ConnectSpends(lim, st, a, st');
    } else if a.AAttachCheck? {
      CheckSpends(st, a.r, st');
    } else if a.AGate? || a.AChooseScope? || a.AAttachLock? {
      ScopeSpends(lim, st, a, st');
    } else {
      PoolLockSpends(lim, st, a, st');
    }
  }

  lemma TakeSpends(lim: Limits, st: State, r: Rid, st': State)
    requires TakeToken(lim, st, r, st') || TakeOwnerToken(lim, st, r, st')
    ensures Spends(st, r, st')
  {
  }

  lemma ReturnSpends(st: State, r: Rid, st': State)
    requires ReturnToken(st, r, st') || ReturnOwnerToken(st, r, st')
    ensures Spends(st, r, st')
  {
  }

  lemma OutcomeSpends(lim: Limits, st: State, a: Action, st': State)
    requires a.ADialSucceeds? || a.AStoreResult?
    requires Step(lim, st, a, st')
    ensures Spends(st, a.r, st')
  {
    if a.AStoreResult? {
      StoreSpends(st, a.r, st');
    }
  }

  lemma StoreSpends(st: State, r: Rid, st': State)
    requires StoreResult(st, r, st')
    ensures Spends(st, r, st')
  {
  }

  lemma PoolSpends(lim: Limits, st: State, a: Action, st': State)
    requires a.AEnsureFound? || a.AEnsureNew? || a.ARetain?
    requires Step(lim, st, a, st')
    ensures Spends(st, a.r, st')
  {
  }

  /** Registering a session starts a goroutine, at the expense of the call. */
  lemma GetNewLess(lim: Limits, st: State, r: Rid, n: Sid, st': State)
    requires GetNew(lim, st, r, n, st')
    ensures Measure(st') < Measure(st)
  {
    RequestMoves(st.requests, r, st'.requests[r]);
    CleanerMoves(st.cleaners, n, st'.cleaners[n]);
  }

  lemma CountingLess(lim: Limits, st: State, a: Action, st': State)
    requires CountingAction(a) && Step(lim, st, a, st') && !External(a)
    ensures Measure(st') < Measure(st)
  {
    if a.ATakeToken? || a.ATakeOwnerToken? {
      TakeSpends(lim, st, a.r, st');
    } else {
      ReturnSpends(st, a.r, st');
    }
    SpendsLess(st, a.r, st');
  }

  lemma SessionLess(lim: Limits, st: State, a: Action, st': State)
    requires SessionAction(a) && Step(lim, st, a, st')
    ensures Measure(st') < Measure(st)
  {
    if a.AGetNew? {
      GetNewLess(lim, st, a.r, a.n, st');
    } else {
      if a.ADialSucceeds? || a.AStoreResult? {
        OutcomeSpends(lim, st, a, st');
      } else {
        PoolSpends(lim, st, a, st');
      }
      SpendsLess(st, a.r, st');
    }
  }

  /** Only goroutine `f` moves. */
  ghost predicate CleanSpends(st: State, f: Sid, st': State) {
    && f in st.cleaners && f in st'.cleaners && st'.cleaners == st.cleaners[f := st'.cleaners[f]]
    && CleanLeft(st'.cleaners[f].pc) < CleanLeft(st.cleaners[f].pc)
    && st'.requests == st.requests && st'.closers == st.closers
  }

  lemma CancelSpends(st: State, f: Sid, st': State)
    requires FrontEnds(st, f, st') || CleanCancel(st, f, st')
    ensures CleanSpends(st, f, st')
  {
  }

  lemma InspectSpends(st: State, f: Sid, st': State)
    requires CleanLockS(st, f, st') || CleanInspect(st, f, st')
    ensures CleanSpends(st, f, st')
  {
  }

  lemma ClosePrivateSpends(st: State, f: Sid, st': State)
    requires CleanClosePrivate(st, f, st') || CleanLockP(st, f, st')
    ensures CleanSpends(st, f, st')
  {
  }

  lemma DecrSpends(st: State, f: Sid, st': State)
    requires CleanDecr(st, f, st') || CleanCancelOwner(st, f, st')
    ensures CleanSpends(st, f, st')
  {
  }

  lemma CloseOwnerSpends(st: State, f: Sid, st': State)
    requires CleanLockO(st, f, st') || CleanCloseOwner(st, f, st')
    ensures CleanSpends(st, f, st')
  {
  }

  lemma DeleteSpends(st: State, f: Sid, st': State)
    requires CleanUnlockO(st, f, st') || CleanDelete(st, f, st')
    ensures CleanSpends(st, f, st')
  {
  }

  lemma UnlockSpends(st: State, f: Sid, st': State)
    requires CleanUnlockP(st, f, st') || CleanUnlockS(st, f, st')
    ensures CleanSpends(st, f, st')
  {
  }

  lemma DropSpends(st: State, f: Sid, st': State)
    requires CleanLockG(st, f, st') || CleanDrop(st, f, st')
    ensures CleanSpends(st, f, st')
  {
  }

  lemma ReturnSlotSpends(st: State, f: Sid, st': State)
    requires CleanReturnSlot(st, f, st') || CleanUnlockG(st, f, st')
    ensures CleanSpends(st, f, st')
  {
  }

  lemma WgDoneSpends(st: State, f: Sid, st': State)
    requires CleanWgDone(st, f, st')
    ensures CleanSpends(st, f, st')
  {
  }

  lemma EndingSpends(st: State, f: Sid, st': State)
    requires FrontEnds(st, f, st') || EndingStep(st, f, st')
    ensures CleanSpends(st, f, st')
  {
    if FrontEnds(st, f, st') || CleanCancel(st, f, st') {
      CancelSpends(st, f, st');
    } else if CleanClosePrivate(st, f, st') {
      ClosePrivateSpends(st, f, st');
    } else {
      InspectSpends(st, f, st');
    }
  }

  lemma ReleaseSpends(st: State, f: Sid, st': State)
    requires ReleaseStep(st, f, st')
    ensures CleanSpends(st, f, st')
  {
    if CleanLockP(st, f, st') {
      ClosePrivateSpends(st, f, st');
    } else if CleanDecr(st, f, st') || CleanCancelOwner(st, f, st') {
      DecrSpends(st, f, st');
    } else if CleanLockO(st, f, st') || CleanCloseOwner(st, f, st') {
      CloseOwnerSpends(st, f, st');
    } else if CleanUnlockO(st, f, st') || CleanDelete(st, f, st') {
      DeleteSpends(st, f, st');
    } else {
      UnlockSpends(st, f, st');
    }
  }

  lemma LeavingSpends(st: State, f: Sid, st': State)
    requires LeavingStep(st, f, st')
    ensures CleanSpends(st, f, st')
  {
    if CleanUnlockS(st, f, st') {
      UnlockSpends(st, f, st');
    } else if CleanLockG(st, f, st') || CleanDrop(st, f, st') {
      DropSpends(st, f, st');
    } else if CleanReturnSlot(st, f, st') || CleanUnlockG(st, f, st') {
      ReturnSlotSpends(st, f, st');
    } else {
      WgDoneSpends(st, f, st');
    }
  }

  lemma GoroutineSpends(st: State, f: Sid, st': State)
    requires FrontEnds(st, f, st') || CleanStep(st, f, st')
    ensures CleanSpends(st, f, st')
  {
    if FrontEnds(st, f, st') || EndingStep(st, f, st') {
      EndingSpends(st, f, st');
    } else if ReleaseStep(st, f, st') {
      ReleaseSpends(st, f, st');
    } else {
      LeavingSpends(st, f, st');
    }
  }

  lemma GoroutineLess(st: State, f: Sid, st': State)
    requires FrontEnds(st, f, st') || CleanStep(st, f, st')
    ensures Measure(st') < Measure(st)
  {
    GoroutineSpends(st, f, st');
    CleanerMoves(st.cleaners, f, st'.cleaners[f]);
  }

  /** Only caller `c` of Close moves. */
  ghost predicate CloseSpends(st: State, c: Cid, st': State) {
    && c in st.closers && c in st'.closers && st'.closers == st.closers[c := st'.closers[c]]
    && CloseLeft(st'.closers[c]) < CloseLeft(st.closers[c])
    && st'.requests == st.requests && st'.cleaners == st.cleaners
  }

  lemma CloseMarkSpends(st: State, c: Cid, st': State)
    requires CloseLock(st, c, st') || CloseMark(st, c, st')
    ensures CloseSpends(st, c, st')
  {
  }

  lemma CloseCancelSpends(st: State, c: Cid, st': State)
    requires CloseCancel(st, c, st') || CloseUnlock(st, c, st')
    ensures CloseSpends(st, c, st')
  {
  }

  lemma CloseReturnSpends(st: State, c: Cid, st': State)
    requires CloseFronts(st, c, st') || CloseReturn(st, c, st')
    ensures CloseSpends(st, c, st')
  {
  }

  lemma CloseLess(st: State, c: Cid, st': State)
    requires CloseStep(st, c, st')
    ensures Measure(st') < Measure(st)
  {
    if CloseLock(st, c, st') || CloseMark(st, c, st') {
      CloseMarkSpends(st, c, st');
    } else if CloseCancel(st, c, st') || CloseUnlock(st, c, st') {
      CloseCancelSpends(st, c, st');
    } else {
      CloseReturnSpends(st, c, st');
    }
    CloserMoves(st.closers, c, st'.closers[c]);
  }

  /** A step other than the arrival or expiry of a call and a call of Close. */
  predicate Working(a: Action) {
    !a.AArrive? && !a.AExpire? && !a.ACloseStart?
  }

  lemma BackgroundLess(lim: Limits, st: State, a: Action, st': State)
    requires BackgroundAction(a) && Step(lim, st, a, st') && Working(a)
    ensures Measure(st') < Measure(st)
  {
    if a.AClose? {
      CloseLess(st, a.c, st');
    } else {
      GoroutineLess(st, a.f, st');
    }
  }

  /** MAIN: every step of the bridge's own code, and the end of a frontend, use up some of the
      measure. */
  lemma StepSpends(lim: Limits, st: State, a: Action, st': State)
    requires Step(lim, st, a, st') && Working(a)
    ensures Measure(st') < Measure(st)
  {
    if BackgroundAction(a) {
      BackgroundLess(lim, st, a, st');
    } else if CountingAction(a) {
      CountingLess(lim, st, a, st');
    } else if SessionAction(a) {
      SessionLess(lim, st, a, st');
    } else {
      QuietSpends(lim, st, a, st');
      SpendsLess(st, a.r, st');
    }
  }

  ghost predicate WorksAt(lim: Limits, path: seq<State>, i: nat)
    requires i + 1 < |path|
  {
    exists a :: Working(a) && Step(lim, path[i], a, path[i + 1])
  }

  /** A piece of a run in which no call arrives or expires and Close is not called anew. */
  ghost predicate WorkingPath(lim: Limits, path: seq<State>) {
    |path| > 0 && forall i: nat :: i + 1 < |path| ==> WorksAt(lim, path, i)
  }

  /** Hence no such piece is longer than the measure of its first state. */
  lemma {:induction false} WorkEnds(lim: Limits, path: seq<State>)
    requires WorkingPath(lim, path)
    ensures |path| - 1 + Measure(path[|path| - 1]) <= Measure(path[0])
  {
    if |path| > 1 {
      var front := path[..|path| - 1];
      forall i: nat | i + 1 < |front|
        ensures WorksAt(lim, front, i)
      {
        assert WorksAt(lim, path, i);
      }
      WorkEnds(lim, front);
      assert WorksAt(lim, path, |path| - 2);
      var a :| Working(a) && Step(lim, path[|path| - 2], a, path[|path| - 1]);
      StepSpends(lim, path[|path| - 2], a, path[|path| - 1]);
    }
  }

  // --- what is left when nothing can step ---------------------------------------------------------

  /** No thread's own code can take a step. */
  ghost predicate AtRest(lim: Limits, st: State) {
    forall t :: !CanStep(lim, st, t)
  }

  lemma NobodyWaits(lim: Limits, st: State, t: Thread)
    requires Inv(lim, st) && AtRest(lim, st)
    ensures WaitsFor(st, t).None?
  {
    if WaitsFor(st, t).Some? {
      if WaitsFor(st, t).value in st.locks {
        BlockedMeansProgress(lim, st, t);
      } else {
        WaiterCanStep(lim, st, t);
      }
    }
  }

  lemma NobodyHolds(lim: Limits, st: State, t: Thread, l: Lock)
    requires Inv(lim, st) && AtRest(lim, st)
    ensures !Holds(st, t, l)
  {
    if Holds(st, t, l) {
      NobodyWaits(lim, st, t);
      HolderCanStep(lim, st, t, l);
    }
  }

  lemma TakesOrLeaves(lim: Limits, st: State, r: Rid)
    requires r in st.requests && st.requests[r].state in st.tokens
    requires st.requests[r].pc == QToken || st.requests[r].pc == QExit
    requires st.requests[r].pc == QExit ==> st.tokens[st.requests[r].state] > 0
    ensures CanStep(lim, st, Req(r))
  {
    var q := st.requests[r];
    if q.pc == QToken {
      var free := st.tokens[q.state] < lim.calls;
      var st' := SetReq(SetTokens(st, q.state, st.tokens[q.state] + if free then 1 else 0), r,
                        q.(pc := if free then QScope else QDone));
      assert TakeToken(lim, st, r, st');
      Witness(lim, st, ATakeToken(r), st');
    } else {
      var st' := SetReq(SetTokens(st, q.state, st.tokens[q.state] - 1), r, q.(pc := QDone));
      assert ReturnToken(st, r, st');
      Witness(lim, st, AReturnToken(r), st');
    }
  }

  lemma TakesOrLeavesOwner(lim: Limits, st: State, r: Rid)
    requires r in st.requests && st.requests[r].target in st.tokens
    requires st.requests[r].pc == QOwnerToken || st.requests[r].pc == QExitOwner
    requires st.requests[r].pc == QExitOwner ==> st.tokens[st.requests[r].target] > 0
    ensures CanStep(lim, st, Req(r))
  {
    var q := st.requests[r];
    if q.pc == QOwnerToken {
      var free := st.tokens[q.target] < lim.calls;
      var st' := SetReq(SetTokens(st, q.target, st.tokens[q.target] + if free then 1 else 0), r,
                        q.(pc := if free then QConnLock else QExit));
      assert TakeOwnerToken(lim, st, r, st');
      Witness(lim, st, ATakeOwnerToken(r), st');
    } else {
      var st' := SetReq(SetTokens(st, q.target, st.tokens[q.target] - 1), r, q.(pc := QExit));
      assert ReturnOwnerToken(st, r, st');
      Witness(lim, st, AReturnOwnerToken(r), st');
    }
  }

  lemma PassesOn(lim: Limits, st: State, r: Rid)
    requires r in st.requests
    requires st.requests[r].pc == QGate || st.requests[r].pc == QScope || st.requests[r].pc == QForward
    ensures CanStep(lim, st, Req(r))
  {
    var q := st.requests[r];
    if q.pc == QGate {
      Witness(lim, st, AGate(r, true), SetReq(st, r, q.(pc := QToken)));
    } else if q.pc == QScope {
      Witness(lim, st, AChooseScope(r), SetReq(st, r, Scoped(q)));
    } else {
      Witness(lim, st, AForwardReturns(r), SetReq(st, r, q.(pc := ExitPc(q))));
    }
  }

  /** The channels a call will use exist, and hold what it has to take back. */
  lemma ChannelsKnown(lim: Limits, st: State, r: Rid)
    requires Inv(lim, st) && r in st.requests
    ensures var q := st.requests[r];
            && (HasState(q.pc) ==> q.state in st.tokens) && (HasTarget(q.pc) ==> q.target in st.tokens)
            && (q.pc.QExit? ==> st.tokens[q.state] > 0) && (q.pc.QExitOwner? ==> st.tokens[q.target] > 0)
  {
    Safety.ReceivesNeverBlock(lim, st, r);
    Unfold(lim, st);
    assert RequestOk(st.sessions, st.cleaners, st.requests[r]);
  }

  /** The points of a call between its locks. */
  predicate BetweenLocks(pc: ReqPc) {
    pc.QGate? || pc.QToken? || pc.QScope? || pc.QOwnerToken? || pc.QForward? || pc.QExitOwner? || pc.QExit?
  }

  lemma BetweenLocksSteps(lim: Limits, st: State, r: Rid)
    requires Inv(lim, st) && r in st.requests && BetweenLocks(st.requests[r].pc)
    ensures CanStep(lim, st, Req(r))
  {
    ChannelsKnown(lim, st, r);
    var pc := st.requests[r].pc;
    if pc.QToken? || pc.QExit? {
      TakesOrLeaves(lim, st, r);
    } else if pc.QOwnerToken? || pc.QExitOwner? {
      TakesOrLeavesOwner(lim, st, r);
    } else {
      PassesOn(lim, st, r);
    }
  }

  lemma WhereRequests(q: Request)
    ensures q.pc.QDone? || BetweenLocks(q.pc) || RequestWaits(q).Some? || exists l :: RequestHolds(q, l)
  {
    if InAttach(q.pc) {
      assert RequestHolds(q, SMu(q.state));
    } else if InConnect(q.pc) {
      assert RequestHolds(q, SMu(q.target));
    } else if q.pc.QGet? || q.pc.QGetOk? || q.pc.QGetRefused? {
      assert RequestHolds(q, GMu);
    }
  }

  lemma RequestsDone(lim: Limits, st: State, r: Rid)
    requires Inv(lim, st) && AtRest(lim, st) && r in st.requests
    ensures st.requests[r].pc.QDone?
  {
    var q := st.requests[r];
    WhereRequests(q);
    if BetweenLocks(q.pc) {
      BetweenLocksSteps(lim, st, r);
    } else if RequestWaits(q).Some? {
      NobodyWaits(lim, st, Req(r));
    } else if exists l :: RequestHolds(q, l) {
      var l :| RequestHolds(q, l);
      NobodyHolds(lim, st, Req(r), l);
    }
  }

  lemma WhereCleaners(f: Sid, c: Clean)
    ensures c.pc.CWait? || c.pc.CEnd? || c.pc.CCancel? || c.pc.CWgDone? || CleanerWaits(f, c).Some?
         || exists l :: CleanerHolds(f, c, l)
  {
    if !BeforeLock(c.pc) && !AfterUnlock(c.pc) {
      assert CleanerHolds(f, c, SMu(f));
    } else if c.pc.CDrop? || c.pc.CReturnSlot? || c.pc.CUnlockG? {
      assert CleanerHolds(f, c, GMu);
    }
  }

  lemma FreeCleanerSteps(lim: Limits, st: State, f: Sid)
    requires f in st.cleaners && (st.cleaners[f].pc.CCancel? || st.cleaners[f].pc.CWgDone?)
    ensures CanStep(lim, st, Cleaner(f))
  {
    var c := st.cleaners[f];
    if c.pc.CCancel? {
      var st' := SetClean(st, f, c.(pc := CLockS)).(cancelled := st.cancelled + {f});
      assert CleanCancel(st, f, st');
      Witness(lim, st, AClean(f), st');
    } else {
      var st' := SetClean(st, f, c.(pc := CEnd)).(wg := st.wg - 1);
      assert CleanWgDone(st, f, st');
      Witness(lim, st, AClean(f), st');
    }
  }

  lemma CleanersDone(lim: Limits, st: State, f: Sid)
    requires Inv(lim, st) && AtRest(lim, st) && f in st.cleaners
    ensures st.cleaners[f].pc.CWait? || st.cleaners[f].pc.CEnd?
  {
    var c := st.cleaners[f];
    WhereCleaners(f, c);
    if c.pc.CCancel? || c.pc.CWgDone? {
      FreeCleanerSteps(lim, st, f);
    } else if CleanerWaits(f, c).Some? {
      NobodyWaits(lim, st, Cleaner(f));
    } else if exists l :: CleanerHolds(f, c, l) {
      var l :| CleanerHolds(f, c, l);
      NobodyHolds(lim, st, Cleaner(f), l);
    }
  }

  lemma FreeCloserSteps(lim: Limits, st: State, c: Cid)
    requires c in st.closers && (st.closers[c].KFronts? || (st.closers[c].KWait? && st.wg == 0))
    ensures CanStep(lim, st, Closer(c))
  {
    if st.closers[c].KFronts? {
      var st' := SetCloser(st, c, KWait);
      assert CloseFronts(st, c, st');
      Witness(lim, st, AClose(c), st');
    } else {
      var st' := SetCloser(st, c, KReturned);
      assert CloseReturn(st, c, st');
      Witness(lim, st, AClose(c), st');
    }
  }

  lemma ClosersDone(lim: Limits, st: State, c: Cid)
    requires Inv(lim, st) && AtRest(lim, st) && c in st.closers
    ensures st.closers[c].KReturned? || (st.closers[c].KWait? && st.wg != 0)
  {
    if st.closers[c].KFronts? || (st.closers[c].KWait? && st.wg == 0) {
      FreeCloserSteps(lim, st, c);
    } else if st.closers[c].KLockG? {
      NobodyWaits(lim, st, Closer(c));
    } else if CloserHolds(st.closers[c], GMu) {
      NobodyHolds(lim, st, Closer(c), GMu);
    }
  }

  /** MAIN: when no thread can step, every call has returned, every goroutine has run to its end
      or still waits for its frontend to end, and every call of Close has returned or waits for
      such a goroutine. */
  lemma RestIsQuiet(lim: Limits, st: State)
    requires Inv(lim, st) && AtRest(lim, st)
    ensures forall r :: r in st.requests ==> st.requests[r].pc.QDone?
    ensures forall f :: f in st.cleaners ==> st.cleaners[f].pc.CWait? || st.cleaners[f].pc.CEnd?
    ensures forall c :: c in st.closers ==> st.closers[c].KReturned? || (st.closers[c].KWait? && st.wg != 0)
    ensures st.wg == 0 <==> forall f :: f in st.cleaners ==> !st.cleaners[f].pc.CWait?
  {
    forall r | r in st.requests
      ensures st.requests[r].pc.QDone?
    {
      RequestsDone(lim, st, r);
    }
    forall f | f in st.cleaners
      ensures st.cleaners[f].pc.CWait? || st.cleaners[f].pc.CEnd?
    {
      CleanersDone(lim, st, f);
    }
    forall c | c in st.closers
      ensures st.closers[c].KReturned? || (st.closers[c].KWait? && st.wg != 0)
    {
      ClosersDone(lim, st, c);
    }
    Runs.NonNegative(lim, st);
    assert forall f :: f in st.cleaners && st.cleaners[f].pc.CWait? ==> f in Running(st.cleaners);
    assert forall f :: f in Running(st.cleaners) ==> f in st.cleaners && st.cleaners[f].pc.CWait?;
  }

  lemma {:induction false} WorkKeepsInv(lim: Limits, path: seq<State>)
    requires WorkingPath(lim, path) && Inv(lim, path[0])
    ensures Inv(lim, path[|path| - 1])
  {
    if |path| > 1 {
      var front := path[..|path| - 1];
      forall i: nat | i + 1 < |front|
        ensures WorksAt(lim, front, i)
      {
        assert WorksAt(lim, path, i);
      }
      WorkKeepsInv(lim, front);
      assert WorksAt(lim, path, |path| - 2);
      var a :| Working(a) && Step(lim, path[|path| - 2], a, path[|path| - 1]);
      StepKeepsInv(lim, path[|path| - 2], a, path[|path| - 1]);
    }
  }

  /** MAIN, Close returns: let every frontend end, and let no call arrive any more.  Then the
      bridge takes at most as many steps as the measure says, and when it can take no more the
      wait group is zero, every call of Close has returned, and every other call too. */
  lemma CloseReturns(lim: Limits, path: seq<State>)
    requires WorkingPath(lim, path) && Inv(lim, path[0])
    ensures |path| - 1 <= Measure(path[0])
    ensures var st := path[|path| - 1];
            AtRest(lim, st) && (forall f :: f in st.cleaners ==> !st.cleaners[f].pc.CWait?) ==>
              && st.wg == 0 && st.roster == map[] && st.slots == 0 && st.entries == map[]
              && (forall c :: c in st.closers ==> st.closers[c].KReturned?)
              && (forall r :: r in st.requests ==> st.requests[r].pc.QDone?)
  {
    WorkEnds(lim, path);
    WorkKeepsInv(lim, path);
    var st := path[|path| - 1];
    if AtRest(lim, st) && forall f :: f in st.cleaners ==> !st.cleaners[f].pc.CWait? {
      RestIsQuiet(lim, st);
      Safety.ShutdownComplete(lim, st);
    }
  }
}
