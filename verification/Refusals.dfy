/** What the bridge turns away, and that it turns nothing else away: frontends whose session or
    gateway has been cancelled, sessions beyond the limit, and calls beyond the capacity of a
    frontend or of a shared backend. */
module Refusals {
  import opened Protocol
  import opened Invariant
  import opened Preservation
  import opened History
  import opened Burial

  // --- attach after a cancellation ---------------------------------------------------------------

  /** attach fails exactly for a frontend whose own context or whose gateway's context has been
      cancelled, and then it changes nothing but its own place. */
  lemma AttachFailsIffCancelled(st: State, r: Rid, st': State)
    requires AttachCheck(st, r, st')
    ensures st'.requests[r].pc == QAttachFail <==> st.requests[r].state in st.cancelled || st.gctx
    ensures st' == st.(requests := st.requests[r := st'.requests[r]])
    ensures st'.requests[r] == st.requests[r].(pc := st'.requests[r].pc, target := st'.requests[r].target)
    ensures st'.requests[r].pc == QAttachUnlock ==>
              st.sessions[st.requests[r].state].owner.Some?
              && st'.requests[r].target == st.sessions[st.requests[r].state].owner.value
  {
  }

  /** The calls between the check of the context and the new reference: waiting for the pool's
      lock, or working on its entry. */
  ghost function Entering(requests: map<Rid, Request>): set<Rid> {
    set r | r in requests && (requests[r].pc.QPoolLock? || requests[r].pc.QEnsure? || requests[r].pc.QRetain?)
  }

  /** Request `r` gets no nearer to a reference than it was. */
  ghost predicate NotNearer(st: State, r: Rid, st': State) {
    r in Entering(st'.requests) ==> r in Entering(st.requests)
  }

  lemma CheckNotNearer(st: State, r: Rid, st': State)
    requires AttachCheck(st, r, st') && st.gctx
    ensures NotNearer(st, r, st')
  {
  }

  lemma GetNotNearer(lim: Limits, st: State, a: Action, st': State)
    requires (GetAction(a) || a.AGetNew?) && Step(lim, st, a, st')
    ensures NotNearer(st, a.r, st')
  {
  }

  lemma ConnectNotNearer(lim: Limits, st: State, a: Action, st': State)
    requires ConnectAction(a) || a.ADialSucceeds? || a.AStoreResult?
    requires Step(lim, st, a, st')
    ensures NotNearer(st, a.r, st')
  {
    if ConnectAction(a) {
      ConnectActionNotNearer(lim, st, a, st');
    }
  }

  lemma ConnectActionNotNearer(lim: Limits, st: State, a: Action, st': State)
    requires ConnectAction(a) && Step(lim, st, a, st')
    ensures NotNearer(st, a.r, st')
  {
    if a.AConnUnlock? {
      ConnUnlockNotNearer(st, a.r, st');
    }
  }

  lemma ConnUnlockNotNearer(st: State, r: Rid, st': State)
    requires ConnUnlock(st, r, st')
    ensures NotNearer(st, r, st')
  {
  }

  lemma ScopeNotNearer(lim: Limits, st: State, a: Action, st': State)
    requires a.AGate? || a.AChooseScope? || a.AAttachLock? || a.AForwardReturns? || a.AExpire?
    requires Step(lim, st, a, st')
    ensures NotNearer(st, a.r, st')
  {
    if a.AForwardReturns? || a.AExpire? {
      ReturnNotNearer(lim, st, a, st');
    }
  }

  lemma ReturnNotNearer(lim: Limits, st: State, a: Action, st': State)
    requires a.AForwardReturns? || a.AExpire?
    requires Step(lim, st, a, st')
    ensures NotNearer(st, a.r, st')
  {
  }

  lemma PoolNotNearer(lim: Limits, st: State, a: Action, st': State)
    requires a.APoolLock? || a.AEnsureFound? || a.AEnsureNew? || a.ARetain? || a.APoolUnlock? || a.AAttachUnlock?
    requires Step(lim, st, a, st')
    ensures NotNearer(st, a.r, st')
  {
    if a.APoolUnlock? || a.AAttachUnlock? {
      UnlockNotNearer(lim, st, a, st');
    }
  }

  lemma UnlockNotNearer(lim: Limits, st: State, a: Action, st': State)
    requires a.APoolUnlock? || a.AAttachUnlock?
    requires Step(lim, st, a, st')
    ensures NotNearer(st, a.r, st')
  {
  }

  lemma CountingNotNearer(lim: Limits, st: State, a: Action, st': State)
    requires CountingAction(a) && Step(lim, st, a, st')
    ensures NotNearer(st, a.r, st')
  {
    if a.ATakeToken? || a.ATakeOwnerToken? {
      TakeNotNearer(lim, st, a.r, st');
    }
  }

  lemma TakeNotNearer(lim: Limits, st: State, r: Rid, st': State)
    requires TakeToken(lim, st, r, st') || TakeOwnerToken(lim, st, r, st')
    ensures NotNearer(st, r, st')
  {
  }

  lemma MoverNotNearer(lim: Limits, st: State, a: Action, st': State)
    requires Step(lim, st, a, st') && !BackgroundAction(a) && st.gctx
    ensures NotNearer(st, a.r, st')
  {
    if CountingAction(a) {
      CountingNotNearer(lim, st, a, st');
    } else if GetAction(a) || a.AGetNew? {
      GetNotNearer(lim, st, a, st');
    } else if ConnectAction(a) || a.ADialSucceeds? || a.AStoreResult? {
      ConnectNotNearer(lim, st, a, st');
    } else if a.AAttachCheck? {
      CheckNotNearer(st, a.r, st');
    } else if a.AGate? || a.AChooseScope? || a.AAttachLock? || a.AForwardReturns? || a.AExpire? {
      ScopeNotNearer(lim, st, a, st');
    } else {
      PoolNotNearer(lim, st, a, st');
    }
  }

  /** Once the gateway's context is cancelled no call enters the pool any more. */
  lemma NobodyEnters(lim: Limits, st: State, a: Action, st': State)
    requires Step(lim, st, a, st') && st.gctx
    ensures Entering(st'.requests) <= Entering(st.requests)
  {
    if BackgroundAction(a) {
      BackgroundSame(lim, st, a, st');
    } else {
      MoverNotNearer(lim, st, a, st');
      RequestEnters(lim, st, a, st');
      forall r | r in Entering(st'.requests)
        ensures r in Entering(st.requests)
      {
        assert r != a.r ==> st'.requests[r] == st.requests[r];
      }
    }
  }

  /** No session gains an owner, no entry appears and no count grows. */
  ghost predicate NothingAttached(st: State, st': State) {
    && (forall i :: i in st'.sessions && st'.sessions[i].owner.Some?
          ==> i in st.sessions && st.sessions[i].owner == st'.sessions[i].owner)
    && (forall k :: k in st'.entries ==> k in st.entries && st'.entries[k] == st.entries[k])
    && (forall o :: o in st'.refs ==> o in st.refs && st'.refs[o] <= st.refs[o])
  }

  lemma NothingAttachedTwice(s: State, t: State, u: State)
    requires NothingAttached(s, t) && NothingAttached(t, u)
    ensures NothingAttached(s, u)
  {
  }

  lemma OutcomeAttachesNothing(lim: Limits, st: State, a: Action, st': State)
    requires a.AGetNew? || a.ADialSucceeds? || a.AStoreResult?
    requires Step(lim, st, a, st')
    ensures NothingAttached(st, st')
  {
  }

  lemma BackgroundAttachesNothing(lim: Limits, st: State, a: Action, st': State)
    requires BackgroundAction(a) && Step(lim, st, a, st')
    ensures NothingAttached(st, st')
  {
    if a.AFrontEnds? {
      FrontEndsAdvances(st, a.f, st');
    } else if a.AClean? {
      CleanAdvances(st, a.f, st');
    } else {
      CloseTouches(st, a.c, st');
    }
  }

  lemma QuietAttachesNothing(lim: Limits, st: State, a: Action, st': State)
    requires Step(lim, st, a, st') && !SessionAction(a) && !BackgroundAction(a)
    ensures NothingAttached(st, st')
  {
    if CountingAction(a) {
      CountingSame(lim, st, a, st');
    } else {
      QuietRequestKnown(lim, st, a, st');
      if QuietAttaching(a).Some? {
        AttachingSame(lim, st, a, st');
      } else {
        CallingSame(lim, st, a, st');
      }
    }
  }

  lemma PoolActionEntering(lim: Limits, st: State, a: Action, st': State)
    requires a.AEnsureFound? || a.AEnsureNew? || a.ARetain?
    requires Step(lim, st, a, st')
    ensures a.r in Entering(st.requests)
  {
  }

  /** Only calls that are entering the pool attach anything. */
  lemma StepAttachesNothing(lim: Limits, st: State, a: Action, st': State)
    requires Step(lim, st, a, st') && Entering(st.requests) == {}
    ensures NothingAttached(st, st')
  {
    if a.AEnsureFound? || a.AEnsureNew? || a.ARetain? {
      PoolActionEntering(lim, st, a, st');
    } else if SessionAction(a) {
      OutcomeAttachesNothing(lim, st, a, st');
    } else if BackgroundAction(a) {
      BackgroundAttachesNothing(lim, st, a, st');
    } else {
      QuietAttachesNothing(lim, st, a, st');
    }
  }

  lemma NextAttachesNothing(lim: Limits, st: State, st': State)
    requires Next(lim, st, st') && st.gctx
    ensures Entering(st'.requests) <= Entering(st.requests)
    ensures Entering(st.requests) == {} ==> NothingAttached(st, st')
  {
    var a :| Step(lim, st, a, st');
    NobodyEnters(lim, st, a, st');
    if Entering(st.requests) == {} {
      StepAttachesNothing(lim, st, a, st');
    }
  }

  lemma StillClosed(lim: Limits, run: seq<State>, i: nat, j: nat)
    requires Run(lim, run) && i <= j < |run| && run[i].gctx
    ensures run[j].gctx
  {
    RunLater(lim, run, i, j);
  }

  lemma RunAttachesNothing(lim: Limits, run: seq<State>, i: nat, j: nat)
    requires Run(lim, run) && i <= j && j + 1 < |run| && run[i].gctx
    ensures Entering(run[j + 1].requests) <= Entering(run[j].requests)
    ensures Entering(run[j].requests) == {} ==> NothingAttached(run[j], run[j + 1])
  {
    StillClosed(lim, run, i, j);
    assert StepAt(lim, run, j);
    NextAttachesNothing(lim, run[j], run[j + 1]);
  }

  /** MAIN: after Close has cancelled the gateway's context, calls still in flight on any
      frontend attach to nothing.  The calls that are past the check may finish, no other gets
      there; and from the moment there are none, no session gains an owner, no pool gains an
      entry and no count of references grows, for the rest of the run. */
  lemma {:induction false} ClosedAttachesNothing(lim: Limits, run: seq<State>, i: nat, j: nat)
    requires Run(lim, run) && i <= j < |run| && run[i].gctx
    ensures Entering(run[j].requests) <= Entering(run[i].requests)
    ensures Entering(run[i].requests) == {} ==> NothingAttached(run[i], run[j])
    decreases j
  {
    if i < j {
      ClosedAttachesNothing(lim, run, i, j - 1);
      RunAttachesNothing(lim, run, i, j - 1);
      if Entering(run[i].requests) == {} {
        NothingAttachedTwice(run[i], run[j - 1], run[j]);
      }
    }
  }

  // --- scope ----------------------------------------------------------------------------------------

  /** A call on a shared endpoint is turned away exactly when the endpoint is not attested stateless
      or the call has no authenticated principal; otherwise it attaches.  Outside shared scope it
      goes on with its own session. */
  lemma ScopeRefusedIffUnattested(st: State, r: Rid, st': State)
    requires ChooseScope(st, r, st')
    ensures var q, q' := st.requests[r], st'.requests[r];
            && (q'.pc == QExit <==> q.front.endpoint.shared && (!q.front.endpoint.stateless || q.principal == ""))
            && (q'.pc == QAttachLock <==> q.front.endpoint.shared && q.front.endpoint.stateless && q.principal != "")
            && (q'.pc == QConnLock <==> !q.front.endpoint.shared)
            && (q'.pc == QConnLock ==> q'.target == q.state)
            && q' == q.(pc := q'.pc, target := q'.target) && st' == st.(requests := st.requests[r := q'])
  {
  }

  // --- capacity ------------------------------------------------------------------------------------

  /** A call is turned away for capacity exactly when as many calls as configured have a token of
      its frontend's session, and otherwise it takes one. */
  lemma CallRefusedIffFull(lim: Limits, st: State, r: Rid, st': State)
    requires TakeToken(lim, st, r, st') && Inv(lim, st)
    ensures st'.requests[r].pc == QDone <==> |TokenUsers(st.requests, st.requests[r].state)| == lim.calls
    ensures st'.requests[r].pc != QDone ==>
              st'.requests[r].pc == QScope && r in TokenUsers(st'.requests, st.requests[r].state)
  {
    Unfold(lim, st);
  }

  /** The same for the shared backend's session, over the calls of all its frontends. */
  lemma SharedCallRefusedIffFull(lim: Limits, st: State, r: Rid, st': State)
    requires TakeOwnerToken(lim, st, r, st') && Inv(lim, st)
    ensures st'.requests[r].pc == QExit <==> |TokenUsers(st.requests, st.requests[r].target)| == lim.calls
    ensures st'.requests[r].pc != QExit ==>
              st'.requests[r].pc == QConnLock && r in TokenUsers(st'.requests, st.requests[r].target)
  {
    Unfold(lim, st);
    assert RequestOk(st.sessions, st.cleaners, st.requests[r]);
  }

  /** get turns a frontend away exactly when the gateway is closed or, for a frontend that is not
      registered, as many sessions as configured hold a slot; it gives a registered frontend its
      session and registers any other. */
  lemma GetRefusedIffFull(lim: Limits, st: State, a: Action, st': State)
    requires Inv(lim, st) && (a.AGetRefuse? || a.AGetExisting? || a.AGetNew?) && Step(lim, st, a, st')
    ensures var front := st.requests[a.r].front;
            && (a.AGetRefuse? <==>
                  st.closed || (front !in st.roster && |SlotHolders(st.cleaners)| == lim.sessions))
            && (a.AGetExisting? ==> st'.requests[a.r].state == st.roster[front])
            && (a.AGetNew? ==> front in st'.roster && st'.roster[front] == st'.requests[a.r].state)
            && (!a.AGetNew? ==> st'.roster == st.roster && st'.slots == st.slots && st'.wg == st.wg
                                && st'.sessions == st.sessions && st'.cleaners == st.cleaners)
  {
    Unfold(lim, st);
  }
}
