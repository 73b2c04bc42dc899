/** What a step leaves alone: one lemma for each part of the invariant and each kind of
    change, so that the steps only have to say what they do to their own thread. */
module Frames {
  import opened Protocol
  import opened Invariant

  /** Only thread `t` gained or lost locks. */
  predicate LocksMoved(locks: map<Lock, Thread>, locks': map<Lock, Thread>, t: Thread) {
    && (forall l :: l in locks && locks[l] != t ==> l in locks' && locks'[l] == locks[l])
    && (forall l :: l in locks' && locks'[l] != t ==> l in locks && locks[l] == locks'[l])
  }

  lemma LocksKept(st: State, t: Thread, st': State)
    requires LockInv(st)
    requires LocksMoved(st.locks, st'.locks, t)
    requires forall u, l :: u != t ==> Holds(st', u, l) == Holds(st, u, l)
    requires forall l :: Holds(st', t, l) <==> l in st'.locks && st'.locks[l] == t
    ensures LockInv(st')
  {
  }

  /** A request changes its record but not its locks. */
  lemma RecordLocks(st: State, r: Rid, q': Request, st': State)
    requires LockInv(st) && r in st.requests
    requires st'.locks == st.locks && st'.requests == st.requests[r := q']
    requires st'.cleaners == st.cleaners && st'.closers == st.closers
    requires forall l :: RequestHolds(q', l) == RequestHolds(st.requests[r], l)
    ensures LockInv(st')
  {
    LocksOwned(st, r);
    LocksKept(st, Req(r), st');
  }

  // --- steps of a request -----------------------------------------------------------

  /** The locks request `r` holds are those its program counter names. */
  ghost predicate OwnLocks(locks: map<Lock, Thread>, r: Rid, q: Request) {
    forall l :: RequestHolds(q, l) <==> l in locks && locks[l] == Req(r)
  }

  /** What the invariant says about request `r` alone. */
  ghost predicate Owns(st: State, r: Rid) {
    && r in st.requests
    && OwnLocks(st.locks, r, st.requests[r])
    && RequestOk(st.sessions, st.cleaners, st.requests[r])
  }

  lemma LocksOwned(st: State, r: Rid)
    requires LockInv(st) && r in st.requests
    ensures OwnLocks(st.locks, r, st.requests[r])
  {
    assert forall l :: RequestHolds(st.requests[r], l) <==> Holds(st, Req(r), l);
  }

  lemma InvOwns(st: State, r: Rid)
    requires LocalInv(st) && r in st.requests
    ensures Owns(st, r)
  {
    LocksOwned(st, r);
  }

  predicate QuietPc(pc: ReqPc) {
    !pc.QRetain? && !pc.QStore?
  }

  /** A record may change freely away from the two points where the pool or a session is
      about to receive what the request holds. */
  predicate Carries(q: Request, q': Request) {
    || (QuietPc(q.pc) && QuietPc(q'.pc))
    || (q'.pc == q.pc && q'.front == q.front && q'.target == q.target && q'.backend == q.backend)
  }

  predicate Continues(requests: map<Rid, Request>, r: Rid, q': Request) {
    if r in requests then Carries(requests[r], q') else QuietPc(q'.pc)
  }

  /** A step that changes the record of request `r`, its locks and tokens, and nothing else. */
  ghost predicate Quiet(st: State, r: Rid, st': State) {
    && r in st'.requests
    && st' == st.(requests := st.requests[r := st'.requests[r]], locks := st'.locks, tokens := st'.tokens)
    && LocksMoved(st.locks, st'.locks, Req(r))
    && (r in st.requests ==> OwnLocks(st.locks, r, st.requests[r]))
    && OwnLocks(st'.locks, r, st'.requests[r])
    && RequestOk(st.sessions, st.cleaners, st'.requests[r])
    && Continues(st.requests, r, st'.requests[r])
  }

  lemma QuietLocal(st: State, r: Rid, st': State)
    requires LocalInv(st) && Quiet(st, r, st')
    ensures LocalInv(st')
  {
    LocksKept(st, Req(r), st');
  }

  lemma CountedKept(st: State, r: Rid, q': Request, st': State)
    requires EntriesCounted(st)
    requires r in st.requests && st.requests[r].pc.QRetain? ==>
               q'.pc.QRetain? && q'.target == st.requests[r].target && q'.front == st.requests[r].front
    requires st'.requests == st.requests[r := q'] && st'.entries == st.entries
    requires st'.refs == st.refs && st'.cleaners == st.cleaners
    requires LocksMoved(st.locks, st'.locks, Req(r))
    requires OwnLocks(st'.locks, r, q')
    requires r in st.requests ==> OwnLocks(st.locks, r, st.requests[r])
    ensures EntriesCounted(st')
  {
  }

  lemma DialledKept(st: State, r: Rid, q': Request, st': State)
    requires DialledOk(st)
    requires r in st.requests && st.requests[r].pc.QStore? ==> q'.pc.QStore?
    requires q'.pc.QStore? ==>
               && r in st.requests && st.requests[r].pc.QStore?
               && q'.backend == st.requests[r].backend && q'.target == st.requests[r].target
    requires st'.requests == st.requests[r := q'] && st'.sessions == st.sessions && st'.dialled == st.dialled
    requires LocksMoved(st.locks, st'.locks, Req(r)) && OwnLocks(st'.locks, r, q')
    ensures DialledOk(st')
  {
  }

  lemma EndedKept(st: State, r: Rid, q': Request, st': State)
    requires EndedOk(st)
    requires q'.pc.QRetain? ==>
               r in st.requests && st.requests[r].pc.QRetain? && q'.target == st.requests[r].target
    requires st'.requests == st.requests[r := q'] && st'.sessions == st.sessions && st'.dialled == st.dialled
    requires st'.refs == st.refs && st'.cancelled == st.cancelled && st'.ended == st.ended
    ensures EndedOk(st')
  {
  }

  lemma QuietPool(st: State, r: Rid, st': State)
    requires PoolInv(st) && Quiet(st, r, st')
    ensures PoolInv(st')
  {
    CountedKept(st, r, st'.requests[r], st');
    DialledKept(st, r, st'.requests[r], st');
    EndedKept(st, r, st'.requests[r], st');
  }

  lemma TokensKept(
    lim: Limits, sessions: map<Sid, Session>, tokens: map<Sid, int>, requests: map<Rid, Request>,
    r: Rid, q': Request)
    requires TokenInv(lim, sessions, tokens, requests)
    requires forall s :: UsesToken(q', s) == (r in requests && UsesToken(requests[r], s))
    ensures TokenInv(lim, sessions, tokens, requests[r := q'])
  {
    forall s | s in tokens
      ensures TokenUsers(requests[r := q'], s) == TokenUsers(requests, s)
    {
    }
  }

  lemma TokenTaken(
    lim: Limits, sessions: map<Sid, Session>, tokens: map<Sid, int>, requests: map<Rid, Request>,
    r: Rid, q': Request, t: Sid)
    requires TokenInv(lim, sessions, tokens, requests)
    requires r in requests && t in tokens && tokens[t] < lim.calls
    requires forall s :: UsesToken(q', s) <==> UsesToken(requests[r], s) || s == t
    requires !UsesToken(requests[r], t)
    ensures TokenInv(lim, sessions, tokens[t := tokens[t] + 1], requests[r := q'])
  {
    forall s | s in tokens && s != t
      ensures TokenUsers(requests[r := q'], s) == TokenUsers(requests, s)
    {
    }
    assert TokenUsers(requests[r := q'], t) == TokenUsers(requests, t) + {r};
  }

  lemma TokenReturned(
    lim: Limits, sessions: map<Sid, Session>, tokens: map<Sid, int>, requests: map<Rid, Request>,
    r: Rid, q': Request, t: Sid)
    requires TokenInv(lim, sessions, tokens, requests)
    requires r in requests && t in tokens
    requires forall s :: UsesToken(q', s) <==> UsesToken(requests[r], s) && s != t
    requires UsesToken(requests[r], t)
    ensures TokenInv(lim, sessions, tokens[t := tokens[t] - 1], requests[r := q'])
  {
    forall s | s in tokens && s != t
      ensures TokenUsers(requests[r := q'], s) == TokenUsers(requests, s)
    {
    }
    assert TokenUsers(requests[r := q'], t) == TokenUsers(requests, t) - {r};
  }

  lemma QuietKeeps(lim: Limits, st: State, r: Rid, st': State)
    requires Inv(lim, st) && Quiet(st, r, st')
    requires TokenInv(lim, st.sessions, st'.tokens, st'.requests)
    ensures Inv(lim, st')
  {
    Unfold(lim, st);
    QuietLocal(st, r, st');
    QuietPool(st, r, st');
    Fold(lim, st');
  }

  /** The part of a quiet step that does not depend on locks. */
  ghost predicate Moves(st: State, r: Rid, q': Request) {
    && Owns(st, r)
    && RequestOk(st.sessions, st.cleaners, q')
    && Carries(st.requests[r], q')
  }

  lemma StayQuiet(st: State, r: Rid, q': Request, st': State)
    requires Moves(st, r, q') && st' == SetReq(st, r, q').(tokens := st'.tokens)
    requires forall l :: RequestHolds(q', l) == RequestHolds(st.requests[r], l)
    ensures Quiet(st, r, st')
  {
  }

  lemma LockQuiet(st: State, r: Rid, q': Request, l: Lock, st': State)
    requires Moves(st, r, q') && l !in st.locks && st' == Acquire(SetReq(st, r, q'), l, Req(r))
    requires forall m :: RequestHolds(q', m) <==> RequestHolds(st.requests[r], m) || m == l
    ensures Quiet(st, r, st')
  {
  }

  lemma FreeQuiet(st: State, r: Rid, q': Request, l: Lock, st': State)
    requires Moves(st, r, q') && RequestHolds(st.requests[r], l) && st' == Unlock(SetReq(st, r, q'), l)
    requires forall m :: RequestHolds(q', m) <==> RequestHolds(st.requests[r], m) && m != l
    ensures Quiet(st, r, st')
  {
  }
}
