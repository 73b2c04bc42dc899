/** What no later step can undo, and the guarantees about whole runs that follow. */
module History {
  import opened Protocol
  import opened Invariant
  import opened SessionSteps
  import opened Preservation

  /** The facts about sessions and backends that only accumulate. */
  ghost predicate Remembers(st: State, st': State) {
    && Evolves(st.sessions, st'.sessions)
    && st.cancelled <= st'.cancelled && st.ended <= st'.ended
    && (st.closed ==> st'.closed) && (st.gctx ==> st'.gctx)
    && (forall b :: b in st.dialled ==> b in st'.dialled && st'.dialled[b] == st.dialled[b])
  }

  /** A session that has failed, or has its backend, is never dialled for again. */
  ghost predicate DialsFresh(st: State, st': State) {
    forall b :: b in st'.dialled && b !in st.dialled && st'.dialled[b] in st.sessions
      ==> st.sessions[st'.dialled[b]].backend.None? && !st.sessions[st'.dialled[b]].failed
  }

  /** A pool owner that is not an entry never becomes one. */
  ghost predicate StaysDetached(st: State, st': State) {
    forall o :: IsOwner(st.sessions, o) && !InPoolMap(st.entries, st.sessions[o].role.key, o)
      ==> !InPoolMap(st'.entries, st.sessions[o].role.key, o)
  }

  /** Cleanup goroutines only advance, and a closed gateway starts no new one. */
  ghost predicate CleansOn(st: State, st': State) {
    && (forall f :: f in st.cleaners ==>
          && f in st'.cleaners
          && (PastDecr(st.cleaners[f].pc) ==> PastDecr(st'.cleaners[f].pc))
          && (PastClose(st.cleaners[f].pc) ==> PastClose(st'.cleaners[f].pc))
          && (!BeforeDrop(st.cleaners[f].pc) ==> !BeforeDrop(st'.cleaners[f].pc))
          && (st.cleaners[f].pc.CEnd? ==> st'.cleaners[f].pc.CEnd?))
    && (st.closed ==> st'.cleaners.Keys == st.cleaners.Keys && st'.wg <= st.wg
                      && forall front :: front in st'.roster ==> front in st.roster)
  }

  ghost predicate Later(st: State, st': State) {
    Remembers(st, st') && DialsFresh(st, st') && StaysDetached(st, st') && CleansOn(st, st')
  }

  lemma LaterReflexive(st: State)
    ensures Later(st, st)
  {
  }

  lemma LaterTransitive(s: State, t: State, u: State)
    requires Later(s, t) && Later(t, u)
    ensures Later(s, u)
  {
  }

  /** The step touches none of the fields that history is about. */
  ghost predicate SameHistory(st: State, st': State) {
    && st'.sessions == st.sessions && st'.cancelled == st.cancelled && st'.ended == st.ended
    && st'.closed == st.closed && st'.gctx == st.gctx && st'.dialled == st.dialled
    && st'.entries == st.entries && st'.cleaners == st.cleaners && st'.roster == st.roster && st'.wg == st.wg
    && st'.refs == st.refs
  }

  lemma SameHistoryLater(st: State, st': State)
    requires SameHistory(st, st')
    ensures Later(st, st')
  {
  }

  lemma AttachingSame(lim: Limits, st: State, a: Action, st': State)
    requires Step(lim, st, a, st') && QuietAttaching(a).Some?
    ensures SameHistory(st, st')
  {
  }

  lemma CallingSame(lim: Limits, st: State, a: Action, st': State)
    requires Step(lim, st, a, st') && QuietCalling(a).Some?
    ensures SameHistory(st, st')
  {
  }

  lemma TakeSame(lim: Limits, st: State, r: Rid, st': State)
    requires TakeToken(lim, st, r, st') || TakeOwnerToken(lim, st, r, st')
    ensures SameHistory(st, st')
  {
  }

  lemma ReturnSame(st: State, r: Rid, st': State)
    requires ReturnToken(st, r, st') || ReturnOwnerToken(st, r, st')
    ensures SameHistory(st, st')
  {
  }

  lemma CountingSame(lim: Limits, st: State, a: Action, st': State)
    requires Step(lim, st, a, st') && CountingAction(a)
    ensures SameHistory(st, st')
  {
    if a.ATakeToken? || a.ATakeOwnerToken? {
      TakeSame(lim, st, a.r, st');
    } else if a.AReturnToken? || a.AReturnOwnerToken? {
      ReturnSame(st, a.r, st');
    }
  }

  lemma GetNewLater(lim: Limits, st: State, r: Rid, n: Sid, st': State)
    requires GetNew(lim, st, r, n, st')
    ensures Later(st, st')
  {
  }

  lemma EnsureLater(st: State, a: Action, st': State)
    requires (a.AEnsureFound? && EnsureFound(st, a.r, st')) || (a.AEnsureNew? && EnsureNew(st, a.r, a.n, st'))
    ensures Later(st, st')
  {
  }

  /** Attaching sets fields that were unset. */
  lemma RetainLater(st: State, r: Rid, st': State)
    requires Retain(st, r, st') && RequestOk(st.sessions, st.cleaners, st.requests[r])
    requires SessionOk(st.sessions, st.sessions[st.requests[r].state])
    ensures Later(st, st')
  {
  }

  lemma DialLater(st: State, r: Rid, b: Bid, st': State)
    requires DialSucceeds(st, r, b, st') && RequestOk(st.sessions, st.cleaners, st.requests[r])
    ensures Later(st, st')
  {
  }

  lemma StoreLater(st: State, r: Rid, st': State)
    requires StoreResult(st, r, st') && RequestOk(st.sessions, st.cleaners, st.requests[r])
    ensures Later(st, st')
  {
  }

  lemma OutcomeLater(lim: Limits, st: State, a: Action, st': State)
    requires a.ADialSucceeds? || a.AStoreResult?
    requires Step(lim, st, a, st') && LocalInv(st)
    ensures Later(st, st')
  {
    OwnFrontend(st, a.r);
    if a.ADialSucceeds? {
      DialLater(st, a.r, a.b, st');
    } else {
      StoreLater(st, a.r, st');
    }
  }

  lemma SessionLater(lim: Limits, st: State, a: Action, st': State)
    requires Step(lim, st, a, st') && LocalInv(st) && SessionAction(a)
    ensures Later(st, st')
  {
    if a.ADialSucceeds? || a.AStoreResult? {
      OutcomeLater(lim, st, a, st');
    } else if a.AGetNew? {
      GetNewLater(lim, st, a.r, a.n, st');
    } else if a.ARetain? {
      OwnFrontend(st, a.r);
      RetainLater(st, a.r, st');
    } else {
      EnsureLater(st, a, st');
    }
  }

  /** What a step of goroutine `f` may do to history. */
  ghost predicate Advances(st: State, f: Sid, st': State) {
    && f in st.cleaners && f in st'.cleaners && st'.cleaners == st.cleaners[f := st'.cleaners[f]]
    && st'.requests == st.requests
    && st'.sessions == st.sessions && st'.dialled == st.dialled && st'.closed == st.closed && st'.gctx == st.gctx
    && st.cancelled <= st'.cancelled && st.ended <= st'.ended
    && (forall k :: k in st'.entries ==> k in st.entries && st'.entries[k] == st.entries[k])
    && (forall o :: o in st'.refs ==> o in st.refs && st'.refs[o] <= st.refs[o])
    && (forall front :: front in st'.roster ==> front in st.roster) && st'.wg <= st.wg
    && var pc, pc' := st.cleaners[f].pc, st'.cleaners[f].pc;
    && (PastDecr(pc) ==> PastDecr(pc')) && (PastClose(pc) ==> PastClose(pc'))
    && (!BeforeDrop(pc) ==> !BeforeDrop(pc')) && !pc.CEnd?
  }

  lemma AdvancesLater(st: State, f: Sid, st': State)
    requires Advances(st, f, st')
    ensures Later(st, st')
  {
  }

  lemma LockSAdvances(st: State, f: Sid, st': State)
    requires CleanLockS(st, f, st')
    ensures Advances(st, f, st')
  {
  }

  lemma CancelAdvances(st: State, f: Sid, st': State)
    requires CleanCancel(st, f, st') || CleanLockS(st, f, st')
    ensures Advances(st, f, st')
  {
    if CleanLockS(st, f, st') {
      LockSAdvances(st, f, st');
    }
  }

  lemma InspectAdvances(st: State, f: Sid, st': State)
    requires CleanInspect(st, f, st') || CleanClosePrivate(st, f, st')
    ensures Advances(st, f, st')
  {
  }

  lemma EndingAdvances(st: State, f: Sid, st': State)
    requires EndingStep(st, f, st')
    ensures Advances(st, f, st')
  {
    if CleanCancel(st, f, st') || CleanLockS(st, f, st') {
      CancelAdvances(st, f, st');
    } else {
      InspectAdvances(st, f, st');
    }
  }

  lemma FrontEndsAdvances(st: State, f: Sid, st': State)
    requires FrontEnds(st, f, st')
    ensures Advances(st, f, st')
  {
  }

  lemma DecrAdvances(st: State, f: Sid, st': State)
    requires CleanLockP(st, f, st') || CleanDecr(st, f, st')
    ensures Advances(st, f, st')
  {
    if CleanLockP(st, f, st') {
      LockPAdvances(st, f, st');
    }
  }

  lemma LockPAdvances(st: State, f: Sid, st': State)
    requires CleanLockP(st, f, st')
    ensures Advances(st, f, st')
  {
  }

  lemma CancelOwnerAdvances(st: State, f: Sid, st': State)
    requires CleanCancelOwner(st, f, st') || CleanLockO(st, f, st')
    ensures Advances(st, f, st')
  {
  }

  lemma CloseOwnerAdvances(st: State, f: Sid, st': State)
    requires CleanCloseOwner(st, f, st') || CleanUnlockO(st, f, st')
    ensures Advances(st, f, st')
  {
  }

  lemma DeleteAdvances(st: State, f: Sid, st': State)
    requires CleanDelete(st, f, st') || CleanUnlockP(st, f, st')
    ensures Advances(st, f, st')
  {
  }

  lemma ReleaseAdvances(st: State, f: Sid, st': State)
    requires ReleaseStep(st, f, st')
    ensures Advances(st, f, st')
  {
    if CleanLockP(st, f, st') || CleanDecr(st, f, st') {
      DecrAdvances(st, f, st');
    } else if CleanCancelOwner(st, f, st') || CleanLockO(st, f, st') {
      CancelOwnerAdvances(st, f, st');
    } else if CleanCloseOwner(st, f, st') || CleanUnlockO(st, f, st') {
      CloseOwnerAdvances(st, f, st');
    } else {
      DeleteAdvances(st, f, st');
    }
  }

  lemma UnlockAdvances(st: State, f: Sid, st': State)
    requires CleanUnlockS(st, f, st') || CleanLockG(st, f, st')
    ensures Advances(st, f, st')
  {
  }

  lemma DropAdvances(st: State, f: Sid, st': State)
    requires CleanDrop(st, f, st') || CleanReturnSlot(st, f, st')
    ensures Advances(st, f, st')
  {
  }

  lemma WgDoneAdvances(st: State, f: Sid, st': State)
    requires CleanUnlockG(st, f, st') || CleanWgDone(st, f, st')
    ensures Advances(st, f, st')
  {
  }

  lemma LeavingAdvances(st: State, f: Sid, st': State)
    requires LeavingStep(st, f, st')
    ensures Advances(st, f, st')
  {
    if CleanUnlockS(st, f, st') || CleanLockG(st, f, st') {
      UnlockAdvances(st, f, st');
    } else if CleanDrop(st, f, st') || CleanReturnSlot(st, f, st') {
      DropAdvances(st, f, st');
    } else {
      WgDoneAdvances(st, f, st');
    }
  }

  lemma CloseMarkLater(st: State, c: Cid, st': State)
    requires CloseLock(st, c, st') || CloseMark(st, c, st')
    ensures Later(st, st')
  {
  }

  lemma CloseCancelLater(st: State, c: Cid, st': State)
    requires CloseCancel(st, c, st') || CloseUnlock(st, c, st')
    ensures Later(st, st')
  {
  }

  lemma CloseReturnLater(st: State, c: Cid, st': State)
    requires CloseFronts(st, c, st') || CloseReturn(st, c, st')
    ensures Later(st, st')
  {
  }

  lemma CloseLater(st: State, c: Cid, st': State)
    requires CloseStep(st, c, st')
    ensures Later(st, st')
  {
    if CloseLock(st, c, st') || CloseMark(st, c, st') {
      CloseMarkLater(st, c, st');
    } else if CloseCancel(st, c, st') || CloseUnlock(st, c, st') {
      CloseCancelLater(st, c, st');
    } else {
      CloseReturnLater(st, c, st');
    }
  }

  lemma CloseStartLater(st: State, c: Cid, st': State)
    requires CloseStart(st, c, st')
    ensures Later(st, st')
  {
  }

  lemma CleanAdvances(st: State, f: Sid, st': State)
    requires CleanStep(st, f, st')
    ensures Advances(st, f, st')
  {
    if EndingStep(st, f, st') {
      EndingAdvances(st, f, st');
    } else if ReleaseStep(st, f, st') {
      ReleaseAdvances(st, f, st');
    } else {
      LeavingAdvances(st, f, st');
    }
  }

  lemma BackgroundLater(lim: Limits, st: State, a: Action, st': State)
    requires Step(lim, st, a, st') && BackgroundAction(a)
    ensures Later(st, st')
  {
    if a.AFrontEnds? || a.AClean? {
      GoroutineLater(lim, st, a, st');
    } else {
      ClosingLater(lim, st, a, st');
    }
  }

  lemma ClosingLater(lim: Limits, st: State, a: Action, st': State)
    requires a.ACloseStart? || a.AClose?
    requires Step(lim, st, a, st')
    ensures Later(st, st')
  {
    if a.ACloseStart? {
      CloseStartLater(st, a.c, st');
    } else {
      CloseLater(st, a.c, st');
    }
  }

  lemma GoroutineLater(lim: Limits, st: State, a: Action, st': State)
    requires a.AFrontEnds? || a.AClean?
    requires Step(lim, st, a, st')
    ensures Later(st, st')
  {
    if a.AFrontEnds? {
      FrontEndsAdvances(st, a.f, st');
    } else {
      CleanAdvances(st, a.f, st');
    }
    AdvancesLater(st, a.f, st');
  }

  lemma StepLater(lim: Limits, st: State, a: Action, st': State)
    requires Step(lim, st, a, st') && Inv(lim, st)
    ensures Later(st, st')
  {
    if CountingAction(a) {
      CountingSame(lim, st, a, st');
      SameHistoryLater(st, st');
    } else if SessionAction(a) {
      Unfold(lim, st);
      SessionLater(lim, st, a, st');
    } else if BackgroundAction(a) {
      BackgroundLater(lim, st, a, st');
    } else {
      QuietRequestKnown(lim, st, a, st');
      if QuietAttaching(a).Some? {
        AttachingSame(lim, st, a, st');
      } else {
        CallingSame(lim, st, a, st');
      }
      SameHistoryLater(st, st');
    }
  }

  lemma NextLater(lim: Limits, st: State, st': State)
    requires Next(lim, st, st') && Inv(lim, st)
    ensures Later(st, st')
  {
    var a :| Step(lim, st, a, st');
    StepLater(lim, st, a, st');
  }

  lemma {:induction false} RunLater(lim: Limits, run: seq<State>, i: nat, j: nat)
    requires Run(lim, run) && i <= j < |run|
    ensures Later(run[i], run[j])
    decreases j
  {
    if i < j {
      RunLater(lim, run, i, j - 1);
      RunInv(lim, run, j - 1);
      assert StepAt(lim, run, j - 1);
      NextLater(lim, run[j - 1], run[j]);
      LaterTransitive(run[i], run[j - 1], run[j]);
    } else {
      LaterReflexive(run[i]);
    }
  }
}
