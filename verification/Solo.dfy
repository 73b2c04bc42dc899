/** The effect of one whole method call when no other thread takes a step in between: what
    session.attach, session.connect, Gateway.get and the cleanup goroutine do to a state,
    each reached by steps of the protocol. */
module Solo {
  import opened Wrappers
  import opened Protocol
  import opened Paths

  /** State `st` with request `r` at `q` and the given locks. */
  function At(st: State, r: Rid, q: Request, locks: map<Lock, Thread>): State {
    st.(requests := st.requests[r := q], locks := locks)
  }

  lemma AtStart(st: State, r: Rid)
    requires r in st.requests
    ensures At(st, r, st.requests[r], st.locks) == st
  {
    assert st.requests[r := st.requests[r]] == st.requests;
  }

  lemma AtMoves(st: State, r: Rid, q: Request, locks: map<Lock, Thread>, q': Request)
    ensures SetReq(At(st, r, q, locks), r, q') == At(st, r, q', locks)
  {
    assert st.requests[r := q][r := q'] == st.requests[r := q'];
  }

  lemma AtUnlocks(st: State, r: Rid, q: Request, locks: map<Lock, Thread>, l: Lock, t: Thread)
    requires l !in locks
    ensures Unlock(At(st, r, q, locks[l := t]), l) == At(st, r, q, locks)
  {
    assert locks[l := t] - {l} == locks;
  }

  // --- session.attach (shared.go:26-47) -------------------------------------------------

  /** The pool after `entry == nil` has been dealt with; `n` identifies a new owner. */
  function Ensured(st: State, key: Key, n: Sid): State {
    if key in st.entries then st
    else st.(sessions := st.sessions[n := NewOwner(key)], tokens := st.tokens[n := 0],
             refs := st.refs[n := 0], entries := st.entries[key := n])
  }

  function EntryOf(st: State, key: Key, n: Sid): Sid {
    if key in st.entries then st.entries[key] else n
  }

  /** refs++, owner and release, for frontend `f` and the entry that holds `o`. */
  function Retained(st: State, f: Sid, key: Key, o: Sid): State {
    if f in st.sessions && o in st.refs then
      st.(refs := st.refs[o := st.refs[o] + 1],
          sessions := st.sessions[f := st.sessions[f].(owner := Some(o), release := Some(Release(key, o)))])
    else st
  }

  function Attached(st: State, f: Sid, key: Key, n: Sid): State {
    if Cancelled(st, f) || f !in st.sessions || st.sessions[f].owner.Some? then st
    else Retained(Ensured(st, key, n), f, key, EntryOf(st, key, n))
  }

  /** What attach returns: no owner once the frontend is cancelled, the owner it already has,
      or the owner of the pool's entry. */
  function AttachOutcome(st: State, f: Sid, key: Key, n: Sid): Option<Sid> {
    if Cancelled(st, f) || f !in st.sessions then None
    else if st.sessions[f].owner.Some? then st.sessions[f].owner
    else Some(EntryOf(st, key, n))
  }

  ghost predicate CanAttach(st: State, r: Rid, n: Sid) {
    && r in st.requests && st.requests[r].pc == QAttachLock
    && var q := st.requests[r];
    && q.state in st.sessions && SMu(q.state) !in st.locks && PMu(q.front.endpoint) !in st.locks
    && (PoolKey(q) in st.entries ==> st.entries[PoolKey(q)] in st.refs)
    && n !in st.sessions && n !in st.cleaners
  }

  function AttachReturned(q: Request, o: Option<Sid>): Request {
    if o.Some? then q.(pc := QOwnerToken, target := o.value) else q.(pc := QExit)
  }

  lemma AttachLockAt(lim: Limits, st: State, r: Rid, q: Request, locks: map<Lock, Thread>)
    requires q.pc == QAttachLock && SMu(q.state) !in locks
    ensures Reaches(lim, At(st, r, q, locks), At(st, r, q.(pc := QAttachCheck), locks[SMu(q.state) := Req(r)]))
  {
    var q' := q.(pc := QAttachCheck);
    AtMoves(st, r, q, locks, q');
    One(lim, At(st, r, q, locks), AAttachLock(r), At(st, r, q', locks[SMu(q.state) := Req(r)]));
  }

  lemma AttachCheckAt(lim: Limits, st: State, r: Rid, q: Request, locks: map<Lock, Thread>)
    requires q.pc == QAttachCheck && q.state in st.sessions
    ensures Reaches(lim, At(st, r, q, locks),
                    At(st, r, Checked(q, Cancelled(st, q.state), st.sessions[q.state].owner), locks))
  {
    var q' := Checked(q, Cancelled(st, q.state), st.sessions[q.state].owner);
    AtMoves(st, r, q, locks, q');
    One(lim, At(st, r, q, locks), AAttachCheck(r), At(st, r, q', locks));
  }

  lemma AttachUnlockAt(lim: Limits, st: State, r: Rid, q: Request, locks: map<Lock, Thread>)
    requires q.pc == QAttachUnlock || q.pc == QAttachFail
    requires SMu(q.state) !in locks
    ensures Reaches(lim, At(st, r, q, locks[SMu(q.state) := Req(r)]),
                    At(st, r, q.(pc := if q.pc == QAttachUnlock then QOwnerToken else QExit), locks))
  {
    var q' := q.(pc := if q.pc == QAttachUnlock then QOwnerToken else QExit);
    AtMoves(st, r, q, locks[SMu(q.state) := Req(r)], q');
    AtUnlocks(st, r, q', locks, SMu(q.state), Req(r));
    One(lim, At(st, r, q, locks[SMu(q.state) := Req(r)]), AAttachUnlock(r), At(st, r, q', locks));
  }

  lemma PoolLockAt(lim: Limits, st: State, r: Rid, q: Request, locks: map<Lock, Thread>)
    requires q.pc == QPoolLock && PMu(q.front.endpoint) !in locks
    ensures Reaches(lim, At(st, r, q, locks),
                    At(st, r, q.(pc := QEnsure), locks[PMu(q.front.endpoint) := Req(r)]))
  {
    AtMoves(st, r, q, locks, q.(pc := QEnsure));
    One(lim, At(st, r, q, locks), APoolLock(r),
        At(st, r, q.(pc := QEnsure), locks[PMu(q.front.endpoint) := Req(r)]));
  }

  lemma EnsureAt(lim: Limits, st: State, r: Rid, q: Request, locks: map<Lock, Thread>, n: Sid)
    requires q.pc == QEnsure && n !in st.sessions && n !in st.cleaners
    ensures Reaches(lim, At(st, r, q, locks),
                    At(Ensured(st, PoolKey(q), n), r, q.(pc := QRetain, target := EntryOf(st, PoolKey(q), n)), locks))
  {
    var q' := q.(pc := QRetain, target := EntryOf(st, PoolKey(q), n));
    AtMoves(st, r, q, locks, q');
    if PoolKey(q) in st.entries {
      One(lim, At(st, r, q, locks), AEnsureFound(r), At(st, r, q', locks));
    } else {
      One(lim, At(st, r, q, locks), AEnsureNew(r, n), At(Ensured(st, PoolKey(q), n), r, q', locks));
    }
  }

  lemma RetainAt(lim: Limits, st: State, r: Rid, q: Request, locks: map<Lock, Thread>)
    requires q.pc == QRetain && q.state in st.sessions && q.target in st.refs
    ensures Reaches(lim, At(st, r, q, locks),
                    At(Retained(st, q.state, PoolKey(q), q.target), r, q.(pc := QPoolUnlock), locks))
  {
    AtMoves(st, r, q, locks, q.(pc := QPoolUnlock));
    One(lim, At(st, r, q, locks), ARetain(r),
        At(Retained(st, q.state, PoolKey(q), q.target), r, q.(pc := QPoolUnlock), locks));
  }

  lemma PoolUnlockAt(lim: Limits, st: State, r: Rid, q: Request, locks: map<Lock, Thread>)
    requires q.pc == QPoolUnlock && PMu(q.front.endpoint) !in locks
    ensures Reaches(lim, At(st, r, q, locks[PMu(q.front.endpoint) := Req(r)]),
                    At(st, r, q.(pc := QAttachUnlock), locks))
  {
    AtMoves(st, r, q, locks[PMu(q.front.endpoint) := Req(r)], q.(pc := QAttachUnlock));
    AtUnlocks(st, r, q.(pc := QAttachUnlock), locks, PMu(q.front.endpoint), Req(r));
    One(lim, At(st, r, q, locks[PMu(q.front.endpoint) := Req(r)]), APoolUnlock(r),
        At(st, r, q.(pc := QAttachUnlock), locks));
  }

  /** From the pool's lock to its release. */
  lemma AttachInPool(lim: Limits, st: State, r: Rid, q: Request, locks: map<Lock, Thread>, n: Sid)
    requires q.pc == QPoolLock && PMu(q.front.endpoint) !in locks && q.state in st.sessions
    requires PoolKey(q) in st.entries ==> st.entries[PoolKey(q)] in st.refs
    requires n !in st.sessions && n !in st.cleaners
    ensures var o := EntryOf(st, PoolKey(q), n);
            Reaches(lim, At(st, r, q, locks),
                    At(Retained(Ensured(st, PoolKey(q), n), q.state, PoolKey(q), o), r,
                       q.(pc := QAttachUnlock, target := o), locks))
  {
    var key, held := PoolKey(q), locks[PMu(q.front.endpoint) := Req(r)];
    var o := EntryOf(st, key, n);
    var q1, q2 := q.(pc := QEnsure), q.(pc := QRetain, target := o);
    var q3 := q2.(pc := QPoolUnlock);
    var ensured := Ensured(st, key, n);
    var retained := Retained(ensured, q.state, key, o);
    PoolLockAt(lim, st, r, q, locks);
    EnsureAt(lim, st, r, q1, held, n);
    RetainAt(lim, ensured, r, q2, held);
    PoolUnlockAt(lim, retained, r, q3, locks);
    ReachesOn(lim, At(st, r, q, locks), At(st, r, q1, held), At(ensured, r, q2, held));
    ReachesOn(lim, At(st, r, q, locks), At(ensured, r, q2, held), At(retained, r, q3, held));
    ReachesOn(lim, At(st, r, q, locks), At(retained, r, q3, held), At(retained, r, q3.(pc := QAttachUnlock), locks));
  }

  /** An undisturbed attach is a run of the protocol. */
  lemma AttachReaches(lim: Limits, st: State, r: Rid, n: Sid)
    requires CanAttach(st, r, n)
    ensures var q := st.requests[r];
            var key := PoolKey(q);
            Reaches(lim, st, At(Attached(st, q.state, key, n), r,
                                AttachReturned(q, AttachOutcome(st, q.state, key, n)), st.locks))
  {
    var q := st.requests[r];
    var held := st.locks[SMu(q.state) := Req(r)];
    var q2 := AttachChecked(lim, st, r, n);
    if Cancelled(st, q.state) || st.sessions[q.state].owner.Some? {
      AttachUnlockAt(lim, st, r, q2, st.locks);
      ReachesOn(lim, st, At(st, r, q2, held),
                At(st, r, q2.(pc := if q2.pc == QAttachUnlock then QOwnerToken else QExit), st.locks));
    } else {
      AttachRetains(lim, st, r, q, n);
      ReachesOn(lim, st, At(st, r, q2, held),
                At(Attached(st, q.state, PoolKey(q), n), r,
                   q.(pc := QOwnerToken, target := EntryOf(st, PoolKey(q), n)), st.locks));
    }
  }

  lemma AttachChecked(lim: Limits, st: State, r: Rid, n: Sid) returns (q2: Request)
    requires CanAttach(st, r, n)
    ensures var q := st.requests[r];
            && q2 == Checked(q.(pc := QAttachCheck), Cancelled(st, q.state), st.sessions[q.state].owner)
            && Reaches(lim, st, At(st, r, q2, st.locks[SMu(q.state) := Req(r)]))
  {
    var q := st.requests[r];
    var q1, held := q.(pc := QAttachCheck), st.locks[SMu(q.state) := Req(r)];
    q2 := Checked(q1, Cancelled(st, q.state), st.sessions[q.state].owner);
    AtStart(st, r);
    AttachLockAt(lim, st, r, q, st.locks);
    AttachCheckAt(lim, st, r, q1, held);
    ReachesOn(lim, st, At(st, r, q1, held), At(st, r, q2, held));
  }

  /** With the session locked: the pool's part and the unlock. */
  lemma AttachRetains(lim: Limits, st: State, r: Rid, q: Request, n: Sid)
    requires CanAttach(st, r, n) && q == st.requests[r]
    requires !Cancelled(st, q.state) && st.sessions[q.state].owner.None?
    ensures Reaches(lim, At(st, r, q.(pc := QPoolLock), st.locks[SMu(q.state) := Req(r)]),
                    At(Attached(st, q.state, PoolKey(q), n), r,
                       q.(pc := QOwnerToken, target := EntryOf(st, PoolKey(q), n)), st.locks))
  {
    var key, held := PoolKey(q), st.locks[SMu(q.state) := Req(r)];
    var after, q3 := Attached(st, q.state, key, n), q.(pc := QAttachUnlock, target := EntryOf(st, key, n));
    AttachInPool(lim, st, r, q.(pc := QPoolLock), held, n);
    AttachUnlockAt(lim, after, r, q3, st.locks);
    ReachesOn(lim, At(st, r, q.(pc := QPoolLock), held), At(after, r, q3, held),
              At(after, r, q3.(pc := QOwnerToken), st.locks));
  }

  // --- session.connect (bridge.go:91-107) ---------------------------------------------------

  /** The session after connect; `outcome` is what a dial returns if one is made. */
  function Connected(st: State, s: Sid, outcome: Option<Bid>): State {
    if s !in st.sessions || st.sessions[s].failed || st.sessions[s].backend.Some? then st
    else match outcome
      case None => SetSession(st, s, st.sessions[s].(failed := true))
      case Some(b) => SetSession(st, s, st.sessions[s].(backend := outcome)).(dialled := st.dialled[b := s])
  }

  function ConnectOutcome(st: State, s: Sid, outcome: Option<Bid>): Option<Bid> {
    if s !in st.sessions || st.sessions[s].failed then None
    else if st.sessions[s].backend.Some? then st.sessions[s].backend
    else outcome
  }

  /** A backend that a dial returns is a new one. */
  ghost predicate CanConnect(st: State, r: Rid, outcome: Option<Bid>) {
    && r in st.requests && st.requests[r].pc == QConnLock
    && var q := st.requests[r];
    && q.target in st.sessions && SMu(q.target) !in st.locks
    && (outcome.Some? ==> outcome.value !in st.dialled)
  }

  function ConnectReturned(q: Request, b: Option<Bid>): Request {
    if b.Some? then q.(pc := QForward, backend := b.value) else q.(pc := ExitPc(q))
  }

  function Looked(q: Request, s: Session): Request {
    if s.failed then q.(pc := QConnFail)
    else if s.backend.Some? then q.(pc := QConnOk, backend := s.backend.value)
    else q.(pc := QDial)
  }

  lemma ConnLockAt(lim: Limits, st: State, r: Rid, q: Request, locks: map<Lock, Thread>)
    requires q.pc == QConnLock && SMu(q.target) !in locks
    ensures Reaches(lim, At(st, r, q, locks), At(st, r, q.(pc := QConnCheck), locks[SMu(q.target) := Req(r)]))
  {
    AtMoves(st, r, q, locks, q.(pc := QConnCheck));
    One(lim, At(st, r, q, locks), AConnLock(r), At(st, r, q.(pc := QConnCheck), locks[SMu(q.target) := Req(r)]));
  }

  lemma ConnCheckAt(lim: Limits, st: State, r: Rid, q: Request, locks: map<Lock, Thread>)
    requires q.pc == QConnCheck && q.target in st.sessions
    ensures Reaches(lim, At(st, r, q, locks), At(st, r, Looked(q, st.sessions[q.target]), locks))
  {
    AtMoves(st, r, q, locks, Looked(q, st.sessions[q.target]));
    One(lim, At(st, r, q, locks), AConnCheck(r), At(st, r, Looked(q, st.sessions[q.target]), locks));
  }

  lemma DialAt(lim: Limits, st: State, r: Rid, q: Request, locks: map<Lock, Thread>, b: Bid)
    requires q.pc == QDial && b !in st.dialled
    ensures Reaches(lim, At(st, r, q, locks),
                    At(st.(dialled := st.dialled[b := q.target]), r, q.(pc := QStore, backend := b), locks))
  {
    AtMoves(st, r, q, locks, q.(pc := QStore, backend := b));
    One(lim, At(st, r, q, locks), ADialSucceeds(r, b),
        At(st.(dialled := st.dialled[b := q.target]), r, q.(pc := QStore, backend := b), locks));
  }

  lemma DialFailsAt(lim: Limits, st: State, r: Rid, q: Request, locks: map<Lock, Thread>)
    requires q.pc == QDial
    ensures Reaches(lim, At(st, r, q, locks), At(st, r, q.(pc := QDialFailed), locks))
  {
    AtMoves(st, r, q, locks, q.(pc := QDialFailed));
    One(lim, At(st, r, q, locks), ADialFails(r), At(st, r, q.(pc := QDialFailed), locks));
  }

  lemma StoreAt(lim: Limits, st: State, r: Rid, q: Request, locks: map<Lock, Thread>)
    requires (q.pc == QStore || q.pc == QDialFailed) && q.target in st.sessions
    ensures Reaches(lim, At(st, r, q, locks),
                    At(SetSession(st, q.target, Stored(q, st.sessions[q.target])), r,
                       q.(pc := if q.pc == QStore then QConnOk else QConnFail), locks))
  {
    var q' := q.(pc := if q.pc == QStore then QConnOk else QConnFail);
    AtMoves(st, r, q, locks, q');
    One(lim, At(st, r, q, locks), AStoreResult(r),
        At(SetSession(st, q.target, Stored(q, st.sessions[q.target])), r, q', locks));
  }

  lemma ConnUnlockAt(lim: Limits, st: State, r: Rid, q: Request, locks: map<Lock, Thread>)
    requires (q.pc == QConnOk || q.pc == QConnFail) && SMu(q.target) !in locks
    ensures Reaches(lim, At(st, r, q, locks[SMu(q.target) := Req(r)]),
                    At(st, r, q.(pc := if q.pc == QConnOk then QForward else ExitPc(q)), locks))
  {
    var q' := q.(pc := if q.pc == QConnOk then QForward else ExitPc(q));
    AtMoves(st, r, q, locks[SMu(q.target) := Req(r)], q');
    AtUnlocks(st, r, q', locks, SMu(q.target), Req(r));
    One(lim, At(st, r, q, locks[SMu(q.target) := Req(r)]), AConnUnlock(r), At(st, r, q', locks));
  }

  /** The dial and what is stored of it. */
  lemma DialReaches(lim: Limits, st: State, r: Rid, q: Request, locks: map<Lock, Thread>, outcome: Option<Bid>)
    requires q.pc == QDial && q.target in st.sessions
    requires st.sessions[q.target].backend.None? && !st.sessions[q.target].failed
    requires outcome.Some? ==> outcome.value !in st.dialled
    ensures Reaches(lim, At(st, r, q, locks),
                    At(Connected(st, q.target, outcome), r,
                       if outcome.Some? then q.(pc := QConnOk, backend := outcome.value) else q.(pc := QConnFail),
                       locks))
  {
    if outcome.Some? {
      var b := outcome.value;
      var mid, q' := st.(dialled := st.dialled[b := q.target]), q.(pc := QStore, backend := b);
      DialAt(lim, st, r, q, locks, b);
      StoreAt(lim, mid, r, q', locks);
      ReachesOn(lim, At(st, r, q, locks), At(mid, r, q', locks),
                At(Connected(st, q.target, outcome), r, q'.(pc := QConnOk), locks));
    } else {
      var q' := q.(pc := QDialFailed);
      DialFailsAt(lim, st, r, q, locks);
      StoreAt(lim, st, r, q', locks);
      ReachesOn(lim, At(st, r, q, locks), At(st, r, q', locks),
                At(Connected(st, q.target, outcome), r, q'.(pc := QConnFail), locks));
    }
  }

  /** An undisturbed connect is a run of the protocol. */
  lemma ConnectReaches(lim: Limits, st: State, r: Rid, outcome: Option<Bid>)
    requires CanConnect(st, r, outcome)
    ensures var q := st.requests[r];
            Reaches(lim, st, At(Connected(st, q.target, outcome), r,
                                ConnectReturned(q, ConnectOutcome(st, q.target, outcome)), st.locks))
  {
    var q := st.requests[r];
    var q2 := Looked(q.(pc := QConnCheck), st.sessions[q.target]);
    var mid := At(st, r, q2, st.locks[SMu(q.target) := Req(r)]);
    ConnectLooks(lim, st, r, q);
    ConnectFinishes(lim, st, r, q2, outcome);
    LookedReturns(q, st.sessions[q.target], ConnectOutcome(st, q.target, outcome));
    ReachesOn(lim, st, mid, At(Connected(st, q.target, outcome), r,
                               ConnectReturned(q, ConnectOutcome(st, q.target, outcome)), st.locks));
  }

  /** What a call has seen on the way leaves no trace in what connect returns. */
  lemma LookedReturns(q: Request, s: Session, b: Option<Bid>)
    requires b.None? ==> s.failed || s.backend.None?
    ensures ConnectReturned(Looked(q.(pc := QConnCheck), s), b) == ConnectReturned(q, b)
  {
  }

  lemma ConnectLooks(lim: Limits, st: State, r: Rid, q: Request)
    requires r in st.requests && st.requests[r] == q && q.pc == QConnLock
    requires q.target in st.sessions && SMu(q.target) !in st.locks
    ensures Reaches(lim, st, At(st, r, Looked(q.(pc := QConnCheck), st.sessions[q.target]),
                                st.locks[SMu(q.target) := Req(r)]))
  {
    var held, q1 := st.locks[SMu(q.target) := Req(r)], q.(pc := QConnCheck);
    AtStart(st, r);
    ConnLockAt(lim, st, r, q, st.locks);
    ConnCheckAt(lim, st, r, q1, held);
    ReachesOn(lim, st, At(st, r, q1, held), At(st, r, Looked(q1, st.sessions[q.target]), held));
  }

  lemma ConnectFinishes(lim: Limits, st: State, r: Rid, q: Request, outcome: Option<Bid>)
    requires q.target in st.sessions && q == Looked(q, st.sessions[q.target])
    requires SMu(q.target) !in st.locks
    requires outcome.Some? ==> outcome.value !in st.dialled
    ensures Reaches(lim, At(st, r, q, st.locks[SMu(q.target) := Req(r)]),
                    At(Connected(st, q.target, outcome), r,
                       ConnectReturned(q, ConnectOutcome(st, q.target, outcome)), st.locks))
  {
    var held := st.locks[SMu(q.target) := Req(r)];
    if q.pc == QDial {
      var q' := if outcome.Some? then q.(pc := QConnOk, backend := outcome.value) else q.(pc := QConnFail);
      var after := Connected(st, q.target, outcome);
      DialReaches(lim, st, r, q, held, outcome);
      ConnUnlockAt(lim, after, r, q', st.locks);
      ReachesOn(lim, At(st, r, q, held), At(after, r, q', held),
                At(after, r, ConnectReturned(q, outcome), st.locks));
    } else {
      ConnUnlockAt(lim, st, r, q, st.locks);
    }
  }

  // --- Gateway.get (bridge.go:57-90) ----------------------------------------------------------

  function Got(lim: Limits, st: State, front: Front, n: Sid): State {
    if st.closed || front in st.roster || st.slots >= lim.sessions then st
    else st.(sessions := st.sessions[n := NewFrontend(front)], tokens := st.tokens[n := 0],
             cleaners := st.cleaners[n := Clean(CWait, KeyOf(front), n)], roster := st.roster[front := n],
             slots := st.slots + 1, wg := st.wg + 1)
  }

  function GetOutcome(lim: Limits, st: State, front: Front, n: Sid): Option<Sid> {
    if st.closed then None
    else if front in st.roster then Some(st.roster[front])
    else if st.slots >= lim.sessions then None
    else Some(n)
  }

  function GetReturned(q: Request, s: Option<Sid>): Request {
    if s.Some? then q.(pc := QGate, state := s.value) else q.(pc := QDone)
  }

  lemma GetLockAt(lim: Limits, st: State, r: Rid, q: Request, locks: map<Lock, Thread>)
    requires q.pc == QGetLock && GMu !in locks
    ensures Reaches(lim, At(st, r, q, locks), At(st, r, q.(pc := QGet), locks[GMu := Req(r)]))
  {
    AtMoves(st, r, q, locks, q.(pc := QGet));
    One(lim, At(st, r, q, locks), AGetLock(r), At(st, r, q.(pc := QGet), locks[GMu := Req(r)]));
  }

  lemma GetRefuseAt(lim: Limits, st: State, r: Rid, q: Request, locks: map<Lock, Thread>)
    requires q.pc == QGet && (st.closed || (q.front !in st.roster && st.slots >= lim.sessions))
    ensures Reaches(lim, At(st, r, q, locks), At(st, r, q.(pc := QGetRefused), locks))
  {
    AtMoves(st, r, q, locks, q.(pc := QGetRefused));
    One(lim, At(st, r, q, locks), AGetRefuse(r), At(st, r, q.(pc := QGetRefused), locks));
  }

  lemma GetExistingAt(lim: Limits, st: State, r: Rid, q: Request, locks: map<Lock, Thread>)
    requires q.pc == QGet && !st.closed && q.front in st.roster
    ensures Reaches(lim, At(st, r, q, locks), At(st, r, q.(pc := QGetOk, state := st.roster[q.front]), locks))
  {
    var q' := q.(pc := QGetOk, state := st.roster[q.front]);
    AtMoves(st, r, q, locks, q');
    One(lim, At(st, r, q, locks), AGetExisting(r), At(st, r, q', locks));
  }

  lemma GetNewAt(lim: Limits, st: State, r: Rid, q: Request, locks: map<Lock, Thread>, n: Sid)
    requires q.pc == QGet && !st.closed && q.front !in st.roster && st.slots < lim.sessions
    requires n !in st.sessions && n !in st.cleaners
    ensures Reaches(lim, At(st, r, q, locks), At(Got(lim, st, q.front, n), r, q.(pc := QGetOk, state := n), locks))
  {
    AtMoves(st, r, q, locks, q.(pc := QGetOk, state := n));
    var s, t := At(st, r, q, locks), At(Got(lim, st, q.front, n), r, q.(pc := QGetOk, state := n), locks);
    assert GetNew(lim, s, r, n, t);
    One(lim, s, AGetNew(r, n), t);
  }

  lemma GetDecideAt(lim: Limits, st: State, r: Rid, q: Request, locks: map<Lock, Thread>, n: Sid)
    requires q.pc == QGet && n !in st.sessions && n !in st.cleaners
    ensures var o := GetOutcome(lim, st, q.front, n);
            Reaches(lim, At(st, r, q, locks),
                    At(Got(lim, st, q.front, n), r,
                       if o.Some? then q.(pc := QGetOk, state := o.value) else q.(pc := QGetRefused), locks))
  {
    if GetOutcome(lim, st, q.front, n).None? {
      GetRefuseAt(lim, st, r, q, locks);
    } else if q.front in st.roster {
      GetExistingAt(lim, st, r, q, locks);
    } else {
      GetNewAt(lim, st, r, q, locks, n);
    }
  }

  lemma GetUnlockAt(lim: Limits, st: State, r: Rid, q: Request, locks: map<Lock, Thread>)
    requires (q.pc == QGetOk || q.pc == QGetRefused) && GMu !in locks
    ensures Reaches(lim, At(st, r, q, locks[GMu := Req(r)]),
                    At(st, r, q.(pc := if q.pc == QGetOk then QGate else QDone), locks))
  {
    var q' := q.(pc := if q.pc == QGetOk then QGate else QDone);
    AtMoves(st, r, q, locks[GMu := Req(r)], q');
    AtUnlocks(st, r, q', locks, GMu, Req(r));
    One(lim, At(st, r, q, locks[GMu := Req(r)]), AGetUnlock(r), At(st, r, q', locks));
  }

  /** An undisturbed get is a run of the protocol. */
  lemma GetReaches(lim: Limits, st: State, r: Rid, n: Sid)
    requires r in st.requests && st.requests[r].pc == QGetLock && GMu !in st.locks
    requires n !in st.sessions && n !in st.cleaners
    ensures var front := st.requests[r].front;
            Reaches(lim, st, At(Got(lim, st, front, n), r,
                                GetReturned(st.requests[r], GetOutcome(lim, st, front, n)), st.locks))
  {
    var q, held := st.requests[r], st.locks[GMu := Req(r)];
    var o, after := GetOutcome(lim, st, q.front, n), Got(lim, st, q.front, n);
    var q2 := if o.Some? then q.(pc := QGetOk, state := o.value) else q.(pc := QGetRefused);
    AtStart(st, r);
    GetLockAt(lim, st, r, q, st.locks);
    GetDecideAt(lim, st, r, q.(pc := QGet), held, n);
    GetUnlockAt(lim, after, r, q2, st.locks);
    ReachesOn(lim, st, At(st, r, q.(pc := QGet), held), At(after, r, q2, held));
    ReachesOn(lim, st, At(after, r, q2, held), At(after, r, GetReturned(q, o), st.locks));
  }

  // --- Gateway.Close (bridge.go:39-47) --------------------------------------------------------

  function Closed(st: State): State {
    st.(closed := true, gctx := true)
  }

  function ClosingAt(st: State, c: Cid, pc: ClosePc, locks: map<Lock, Thread>): State {
    st.(closers := st.closers[c := pc], locks := locks)
  }

  lemma ClosingMoves(st: State, c: Cid, pc: ClosePc, locks: map<Lock, Thread>, pc': ClosePc)
    ensures SetCloser(ClosingAt(st, c, pc, locks), c, pc') == ClosingAt(st, c, pc', locks)
  {
    assert st.closers[c := pc][c := pc'] == st.closers[c := pc'];
  }

  lemma CloseMarkAt(lim: Limits, st: State, c: Cid, locks: map<Lock, Thread>)
    ensures Reaches(lim, ClosingAt(st, c, KClosed, locks), ClosingAt(Closed(st), c, KSnapshot, locks))
  {
    var s1, s2 := ClosingAt(st, c, KClosed, locks), ClosingAt(st.(closed := true), c, KCancel, locks);
    var s3 := ClosingAt(Closed(st), c, KSnapshot, locks);
    ClosingMoves(st, c, KClosed, locks, KCancel);
    assert CloseMark(s1, c, s2);
    One(lim, s1, AClose(c), s2);
    ClosingMoves(st.(closed := true), c, KCancel, locks, KSnapshot);
    assert CloseCancel(s2, c, s3);
    One(lim, s2, AClose(c), s3);
    ReachesOn(lim, s1, s2, s3);
  }

  lemma CloseLocksAt(lim: Limits, st: State, c: Cid, locks: map<Lock, Thread>)
    requires GMu !in locks
    ensures Reaches(lim, ClosingAt(st, c, KLockG, locks), ClosingAt(st, c, KClosed, locks[GMu := Closer(c)]))
    ensures Reaches(lim, ClosingAt(st, c, KSnapshot, locks[GMu := Closer(c)]), ClosingAt(st, c, KFronts, locks))
  {
    var held := locks[GMu := Closer(c)];
    ClosingMoves(st, c, KLockG, locks, KClosed);
    assert CloseLock(ClosingAt(st, c, KLockG, locks), c, ClosingAt(st, c, KClosed, held));
    One(lim, ClosingAt(st, c, KLockG, locks), AClose(c), ClosingAt(st, c, KClosed, held));
    ClosingMoves(st, c, KSnapshot, held, KFronts);
    assert held - {GMu} == locks;
    assert CloseUnlock(ClosingAt(st, c, KSnapshot, held), c, ClosingAt(st, c, KFronts, locks));
    One(lim, ClosingAt(st, c, KSnapshot, held), AClose(c), ClosingAt(st, c, KFronts, locks));
  }

  /** An undisturbed Close, up to its unlock, is a run of the protocol. */
  lemma CloseReaches(lim: Limits, st: State, c: Cid)
    requires c in st.closers && st.closers[c] == KLockG && GMu !in st.locks
    ensures Reaches(lim, st, ClosingAt(Closed(st), c, KFronts, st.locks))
  {
    var held := st.locks[GMu := Closer(c)];
    assert st.closers[c := KLockG] == st.closers;
    CloseLocksAt(lim, st, c, st.locks);
    CloseMarkAt(lim, st, c, held);
    CloseLocksAt(lim, Closed(st), c, st.locks);
    ReachesOn(lim, st, ClosingAt(st, c, KClosed, held), ClosingAt(Closed(st), c, KSnapshot, held));
    ReachesOn(lim, st, ClosingAt(Closed(st), c, KSnapshot, held), ClosingAt(Closed(st), c, KFronts, st.locks));
  }
}
