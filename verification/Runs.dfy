/** Guarantees about whole runs of the code, in which any dial may succeed at any time.  Those
    that speak of live backends name the condition on dials that they need. */
module Runs {
  import opened Wrappers
  import opened Protocol
  import opened Invariant
  import opened Burial
  import opened History
  import opened Preservation
  import Paths
  import Safety

  ghost predicate NoLiveBackend(st: State, s: Sid) {
    forall b :: b in st.dialled && st.dialled[b] == s ==> !Live(st, b)
  }

  /** A session that is not open at some point of a run in which it never comes back. */
  lemma ClosedIsDead(lim: Limits, run: seq<State>, i: nat, s: Sid)
    requires Run(lim, run) && i < |run| && LocksOpen(run, s) && !Open(run[i], s)
    ensures NoLiveBackend(run[i], s)
  {
    NeverBackIffLocksOpen(lim, run, s);
    assert !Back(run[i], s);
  }

  lemma {:induction false} PathInv(lim: Limits, path: seq<State>, i: nat)
    requires Paths.Path(lim, path) && Inv(lim, path[0]) && i < |path|
    ensures Inv(lim, path[i])
  {
    if i > 0 {
      PathInv(lim, path, i - 1);
      assert StepAt(lim, path, i - 1);
      NextKeepsInv(lim, path[i - 1], path[i]);
    }
  }

  /** Whatever is reached by steps keeps the invariant, so every guarantee for single states
      holds again after a whole call of attach, connect, get, release or Close. */
  lemma ReachesKeepInv(lim: Limits, st: State, st': State)
    requires Inv(lim, st) && Paths.Reaches(lim, st, st')
    ensures Inv(lim, st')
  {
    var path :| Paths.Joins(lim, path, st, st');
    PathInv(lim, path, |path| - 1);
  }

  /** MAIN, no resurrection: once the cleanup of a frontend has passed its close, as it has
      when its registration is gone, the frontend's session has no live backend, then or at
      any later time, whatever requests are still in flight, as long as no dial for it succeeds
      for a call that took its lock only then. */
  lemma NoResurrection(lim: Limits, run: seq<State>, i: nat, j: nat, f: Sid)
    requires Run(lim, run) && i <= j < |run| && LocksOpen(run, f)
    requires f in run[i].cleaners && PastClose(run[i].cleaners[f].pc)
    ensures f in run[j].cleaners && NoLiveBackend(run[j], f)
  {
    RunLater(lim, run, i, j);
    ClosedIsDead(lim, run, j, f);
  }

  /** MAIN, no orphan: a pool owner that has left the pool never returns to it, and under the
      same condition it never has a live backend again. */
  lemma NoOrphan(lim: Limits, run: seq<State>, i: nat, j: nat, o: Sid)
    requires Run(lim, run) && i <= j < |run|
    requires IsOwner(run[i].sessions, o) && !InPoolMap(run[i].entries, run[i].sessions[o].role.key, o)
    ensures IsOwner(run[j].sessions, o) && !InPoolMap(run[j].entries, run[j].sessions[o].role.key, o)
    ensures LocksOpen(run, o) ==> NoLiveBackend(run[j], o)
  {
    RunLater(lim, run, i, j);
    if LocksOpen(run, o) {
      ClosedIsDead(lim, run, j, o);
    }
  }

  lemma FailedServesNobody(lim: Limits, st: State, s: Sid, r: Rid)
    requires Inv(lim, st) && s in st.sessions && st.sessions[s].failed
    requires r in st.requests && HasTarget(st.requests[r].pc) && st.requests[r].target == s
    ensures !HasBackend(st.requests[r].pc)
  {
    Unfold(lim, st);
    assert RequestOk(st.sessions, st.cleaners, st.requests[r]);
    assert SessionOk(st.sessions, st.sessions[s]);
  }

  /** MAIN, sticky failure: after one failed dial no later connect on that session returns a
      backend, for any of the frontends attached to it, and nothing is ever dialled for it. */
  lemma FailureIsSticky(lim: Limits, run: seq<State>, i: nat, j: nat, s: Sid, r: Rid)
    requires Run(lim, run) && i <= j < |run|
    requires s in run[i].sessions && run[i].sessions[s].failed
    ensures s in run[j].sessions && run[j].sessions[s].failed
    ensures forall b :: b in run[j].dialled && run[j].dialled[b] == s ==> b in run[i].dialled
    ensures r in run[j].requests && HasTarget(run[j].requests[r].pc) && run[j].requests[r].target == s
      ==> !HasBackend(run[j].requests[r].pc)
  {
    RunInv(lim, run, j);
    RunLater(lim, run, i, j);
    if r in run[j].requests && HasTarget(run[j].requests[r].pc) && run[j].requests[r].target == s {
      FailedServesNobody(lim, run[j], s, r);
    }
  }

  lemma ConnectReturns(lim: Limits, st: State, r: Rid)
    requires Inv(lim, st) && r in st.requests && HasBackend(st.requests[r].pc)
    ensures var q := st.requests[r];
            && q.target in st.sessions && st.sessions[q.target].backend == Some(q.backend)
            && q.backend in st.dialled && st.dialled[q.backend] == q.target
  {
    Unfold(lim, st);
    assert RequestOk(st.sessions, st.cleaners, st.requests[r]);
  }

  /** MAIN, one backend per owner: two calls that connect to the same session, at whatever
      times, are given the same backend. */
  lemma ConnectsAgree(lim: Limits, run: seq<State>, i: nat, j: nat, q: Rid, r: Rid)
    requires Run(lim, run) && i <= j < |run|
    requires q in run[i].requests && HasBackend(run[i].requests[q].pc)
    requires r in run[j].requests && HasBackend(run[j].requests[r].pc)
    requires run[i].requests[q].target == run[j].requests[r].target
    ensures run[i].requests[q].backend == run[j].requests[r].backend
  {
    RunInv(lim, run, i);
    RunInv(lim, run, j);
    RunLater(lim, run, i, j);
    ConnectReturns(lim, run[i], q);
    ConnectReturns(lim, run[j], r);
  }

  /** A frontend attaches to one owner for good, and releases it at most once: the reference
      it has given up is never counted again. */
  lemma AttachesOnce(lim: Limits, run: seq<State>, i: nat, j: nat, f: Sid, o: Sid)
    requires Run(lim, run) && i <= j < |run|
    requires f in run[i].sessions && run[i].sessions[f].owner == Some(o)
    ensures f in run[j].sessions && run[j].sessions[f].owner == Some(o)
    ensures f in run[i].cleaners && PastDecr(run[i].cleaners[f].pc)
      ==> f !in Referrers(run[j].sessions, run[j].cleaners, o)
    ensures f in run[j].cleaners && run[j].cleaners[f].pc.CEnd?
      ==> f !in Referrers(run[j].sessions, run[j].cleaners, o)
  {
    RunLater(lim, run, i, j);
  }

  /** MAIN: from the moment a frontend attaches until it is cancelled itself, its owner stays
      in the pool and the owner's backend stays open, for any number of peers that come, go
      or have their calls cancelled. */
  lemma PeersAreHarmless(lim: Limits, run: seq<State>, i: nat, j: nat, f: Sid, o: Sid)
    requires Run(lim, run) && i <= j < |run|
    requires f in run[i].sessions && run[i].sessions[f].owner == Some(o) && f !in run[j].cancelled
    ensures forall k :: i <= k <= j ==>
              && IsOwner(run[k].sessions, o) && InPoolMap(run[k].entries, run[k].sessions[o].role.key, o)
              && forall b :: b in run[k].dialled && run[k].dialled[b] == o ==> Live(run[k], b)
  {
    forall k | i <= k <= j
      ensures IsOwner(run[k].sessions, o) && InPoolMap(run[k].entries, run[k].sessions[o].role.key, o)
      ensures forall b :: b in run[k].dialled && run[k].dialled[b] == o ==> Live(run[k], b)
    {
      RunInv(lim, run, k);
      RunLater(lim, run, i, k);
      RunLater(lim, run, k, j);
      Safety.NoCloseUnderLivePeer(lim, run[k], f, o);
    }
  }

  /** Once a session has its backend no call can make it fail, whichever calls expire: the
      session keeps that backend for the rest of the run. */
  lemma EstablishedStays(lim: Limits, run: seq<State>, i: nat, j: nat, s: Sid)
    requires Run(lim, run) && i <= j < |run|
    requires s in run[i].sessions && run[i].sessions[s].backend.Some?
    ensures s in run[j].sessions && run[j].sessions[s].backend == run[i].sessions[s].backend
    ensures !run[j].sessions[s].failed
  {
    RunInv(lim, run, j);
    RunLater(lim, run, i, j);
    Unfold(lim, run[j]);
    assert SessionOk(run[j].sessions, run[j].sessions[s]);
  }

  /** Request `r` is dialling and request `p`, of another frontend attached to the same owner,
      is waiting for the owner's lock. */
  ghost predicate PeerWaits(st: State, r: Rid, p: Rid) {
    && r in st.requests && p in st.requests && st.requests[r].pc.QDial? && st.requests[p].pc.QConnLock?
    && st.requests[r].front.endpoint.shared && st.requests[r].state != st.requests[p].state
    && st.requests[r].target == st.requests[p].target
  }

  lemma DialOnOpen(lim: Limits, st: State, r: Rid)
    requires Inv(lim, st) && r in st.requests && st.requests[r].pc.QDial?
    ensures var t := st.requests[r].target;
            && t in st.sessions && st.sessions[t].backend.None? && !st.sessions[t].failed
            && SMu(t) in st.locks && st.locks[SMu(t)] == Req(r)
  {
    Unfold(lim, st);
    assert RequestOk(st.sessions, st.cleaners, st.requests[r]);
    assert Holds(st, Req(r), SMu(st.requests[r].target));
  }

  /** The call expires, its dial fails and the failure is stored: four steps that may follow. */
  lemma ExpiredDialFails(lim: Limits, st: State, r: Rid) returns (s1: State, s2: State, s3: State, s4: State)
    requires Inv(lim, st) && r in st.requests && st.requests[r].pc.QDial?
    ensures Expire(st, r, s1) && DialFails(s1, r, s2) && StoreResult(s2, r, s3) && ConnUnlock(s3, r, s4)
    ensures var t := st.requests[r].target;
            && t in st.sessions && t in s4.sessions && s4.sessions[t] == st.sessions[t].(failed := true)
            && SMu(t) !in s4.locks && s4.requests == st.requests[r := s4.requests[r]]
  {
    DialOnOpen(lim, st, r);
    var q := st.requests[r];
    var expired := q.(expired := true);
    s1 := SetReq(st, r, expired);
    s2 := SetReq(s1, r, expired.(pc := QDialFailed));
    s3 := SetReq(SetSession(s2, q.target, Stored(s2.requests[r], s2.sessions[q.target])), r, expired.(pc := QConnFail));
    s4 := Unlock(SetReq(s3, r, expired.(pc := ExitPc(s3.requests[r]))), SMu(q.target));
  }

  /** Before that, one call decides for everybody: while a call dials for a shared owner, no more
      than that call's own cancellation is needed for a run in which its dial fails and a waiting
      peer of another frontend is refused. */
  lemma FirstDialDecides(lim: Limits, st: State, r: Rid, p: Rid)
      returns (s1: State, s2: State, s3: State, s4: State, s5: State, s6: State)
    requires Inv(lim, st) && PeerWaits(st, r, p)
    ensures Expire(st, r, s1) && DialFails(s1, r, s2) && StoreResult(s2, r, s3) && ConnUnlock(s3, r, s4)
    ensures ConnLock(s4, p, s5) && ConnCheck(s5, p, s6)
    ensures s6.requests[p] == st.requests[p].(pc := QConnFail)
    ensures var t := st.requests[r].target; t in s6.sessions && s6.sessions[t].failed
  {
    s1, s2, s3, s4 := ExpiredDialFails(lim, st, r);
    s5, s6 := FailedRefuses(s4, p);
  }

  /** A call that locks a failed session is refused. */
  lemma FailedRefuses(st: State, p: Rid) returns (s1: State, s2: State)
    requires p in st.requests && st.requests[p].pc.QConnLock? && SMu(st.requests[p].target) !in st.locks
    requires st.requests[p].target in st.sessions && st.sessions[st.requests[p].target].failed
    ensures ConnLock(st, p, s1) && ConnCheck(s1, p, s2)
    ensures s2.requests[p] == st.requests[p].(pc := QConnFail) && s2.sessions == st.sessions
  {
    var q := st.requests[p];
    s1 := Acquire(SetReq(st, p, q.(pc := QConnCheck)), SMu(q.target), Req(p));
    s2 := SetReq(s1, p, q.(pc := QConnFail));
  }

  /** Request `r` has seen its dial for session `t` fail, and if it has moved on the session has
      failed. */
  ghost predicate Failing(st: State, r: Rid, t: Sid) {
    || (r in st.requests && st.requests[r].pc.QDialFailed? && st.requests[r].target == t)
    || (t in st.sessions && st.sessions[t].failed)
  }

  lemma OnlyStores(lim: Limits, st: State, a: Action, st': State)
    requires Step(lim, st, a, st') && !BackgroundAction(a)
    requires a.r in st.requests && st.requests[a.r].pc.QDialFailed?
    ensures Failing(st', a.r, st.requests[a.r].target)
  {
    if SessionAction(a) {
      SessionStores(lim, st, a, st');
    } else if CountingAction(a) {
      assert false;
    } else {
      QuietExpires(lim, st, a, st');
    }
  }

  lemma SessionStores(lim: Limits, st: State, a: Action, st': State)
    requires SessionAction(a) && Step(lim, st, a, st')
    requires a.r in st.requests && st.requests[a.r].pc.QDialFailed?
    ensures Failing(st', a.r, st.requests[a.r].target)
  {
    assert a.AStoreResult?;
  }

  lemma QuietExpires(lim: Limits, st: State, a: Action, st': State)
    requires Step(lim, st, a, st') && !SessionAction(a) && !CountingAction(a) && !BackgroundAction(a)
    requires a.r in st.requests && st.requests[a.r].pc.QDialFailed?
    ensures Failing(st', a.r, st.requests[a.r].target)
  {
    assert !GetAction(a) && !ConnectAction(a);
  }

  lemma FailingStays(lim: Limits, st: State, st': State, r: Rid, t: Sid)
    requires Next(lim, st, st') && Inv(lim, st) && Failing(st, r, t)
    ensures Failing(st', r, t)
  {
    NextLater(lim, st, st');
    if !(t in st.sessions && st.sessions[t].failed) {
      var a :| Step(lim, st, a, st');
      if BackgroundAction(a) {
        BackgroundSame(lim, st, a, st');
      } else if a.r == r {
        OnlyStores(lim, st, a, st');
      } else {
        RequestEnters(lim, st, a, st');
      }
    }
  }

  lemma {:induction false} FailingOn(lim: Limits, run: seq<State>, i: nat, j: nat, r: Rid, t: Sid)
    requires Run(lim, run) && i <= j < |run| && Failing(run[i], r, t)
    ensures Failing(run[j], r, t)
    decreases j
  {
    if i < j {
      FailingOn(lim, run, i, j - 1, r, t);
      RunInv(lim, run, j - 1);
      assert StepAt(lim, run, j - 1);
      FailingStays(lim, run[j - 1], run[j], r, t);
    }
  }

  lemma FailingServesNobody(lim: Limits, st: State, r: Rid, t: Sid, p: Rid)
    requires Inv(lim, st) && Failing(st, r, t)
    requires p in st.requests && HasTarget(st.requests[p].pc) && st.requests[p].target == t
    ensures !HasBackend(st.requests[p].pc)
  {
    Unfold(lim, st);
    assert RequestOk(st.sessions, st.cleaners, st.requests[p]);
    if t in st.sessions && st.sessions[t].failed {
      FailedServesNobody(lim, st, t, p);
    } else {
      assert RequestOk(st.sessions, st.cleaners, st.requests[r]);
    }
  }

  /** MAIN: a dial that fails, for whatever reason, decides for every peer, whatever happens
      next: at no later time has a call on the same session a backend. */
  lemma FailedDialDecides(lim: Limits, run: seq<State>, i: nat, j: nat, r: Rid, p: Rid)
    requires Run(lim, run) && i <= j < |run|
    requires r in run[i].requests && run[i].requests[r].pc.QDialFailed?
    requires p in run[j].requests && HasTarget(run[j].requests[p].pc)
    requires run[j].requests[p].target == run[i].requests[r].target
    ensures !HasBackend(run[j].requests[p].pc)
  {
    FailingOn(lim, run, i, j, r, run[i].requests[r].target);
    RunInv(lim, run, j);
    FailingServesNobody(lim, run[j], r, run[i].requests[r].target, p);
  }

  lemma NonNegative(lim: Limits, st: State)
    requires Inv(lim, st)
    ensures st.wg >= 0
    ensures st.wg == 0 <==> Running(st.cleaners) == {}
    ensures forall c :: c in st.closers && st.closers[c].KReturned? ==> st.closed && Running(st.cleaners) == {}
  {
    Unfold(lim, st);
  }

  /** MAIN, shutdown is complete and final: once Close has returned to any caller there is no
      session, slot or pool entry, no session is added, and this stays so; and every backend ever
      dialled for a session whose dials are made while it is open has been closed. */
  lemma ShutdownIsFinal(lim: Limits, run: seq<State>, i: nat, j: nat, c: Cid)
    requires Run(lim, run) && i <= j < |run|
    requires c in run[i].closers && run[i].closers[c].KReturned?
    ensures run[j].roster == map[] && run[j].slots == 0 && run[j].entries == map[]
    ensures run[j].cleaners.Keys == run[i].cleaners.Keys
    ensures forall b :: b in run[j].dialled && LocksOpen(run, run[j].dialled[b]) ==> b in run[j].ended
  {
    RunInv(lim, run, i);
    RunInv(lim, run, j);
    RunLater(lim, run, i, j);
    NonNegative(lim, run[i]);
    NonNegative(lim, run[j]);
    Safety.ShutdownComplete(lim, run[j]);
    forall b | b in run[j].dialled && LocksOpen(run, run[j].dialled[b])
      ensures b in run[j].ended
    {
      NeverBackIffLocksOpen(lim, run, run[j].dialled[b]);
      assert !Back(run[j], run[j].dialled[b]);
    }
  }

  /** Once the gateway is closed no session is registered and no goroutine is started. */
  lemma ClosedAdmitsNobody(lim: Limits, run: seq<State>, i: nat, j: nat)
    requires Run(lim, run) && i <= j < |run| && run[i].closed
    ensures run[j].closed && run[j].cleaners.Keys == run[i].cleaners.Keys && run[j].wg <= run[i].wg
    ensures forall front :: front in run[j].roster ==> front in run[i].roster
  {
    RunLater(lim, run, i, j);
  }

  /** MAIN: over a whole run every backend the pool ever dialled for a key was closed before
      the next one for that key was live, if the dials for their two owners are made while
      these are open.  At one point of time: there is one live backend for a key. */
  lemma GenerationsNeverOverlap(lim: Limits, run: seq<State>, i: nat, j: nat, b: Bid, c: Bid, key: Key)
    requires Run(lim, run) && i <= j < |run| && b != c
    requires b in run[i].dialled && LocksOpen(run, run[i].dialled[b])
    requires c in run[j].dialled && LocksOpen(run, run[j].dialled[c])
    requires Live(run[i], b) && run[i].dialled[b] in run[i].sessions
    requires run[i].sessions[run[i].dialled[b]].role == PoolOwner(key)
    requires Live(run[j], c) && run[j].dialled[c] in run[j].sessions
    requires run[j].sessions[run[j].dialled[c]].role == PoolOwner(key)
    ensures b in run[j].ended
  {
    RunInv(lim, run, j);
    RunLater(lim, run, i, j);
    if Live(run[j], b) {
      NeverBackIffLocksOpen(lim, run, run[j].dialled[b]);
      NeverBackIffLocksOpen(lim, run, run[j].dialled[c]);
      assert !Back(run[j], run[j].dialled[b]) && !Back(run[j], run[j].dialled[c]);
      Safety.OneLiveBackendPerPrincipal(lim, run[j], b, c, key);
    }
  }
}
