/** What the code does when a dial succeeds for a call that came too late: runs that end with a
    live backend that no cleanup will close, in private scope and in shared scope. */
module Resurrection {
  import opened Wrappers
  import opened Protocol
  import opened Paths
  import opened Solo
  import SoloCleanup

  /** Some run of the code's own steps ends in `st`. */
  ghost predicate Reached(lim: Limits, st: State) {
    exists run :: Run(lim, run) && run[|run| - 1] == st
  }

  lemma ReachedOn(lim: Limits, st: State, st': State)
    requires Reached(lim, st) && Reaches(lim, st, st')
    ensures Reached(lim, st')
  {
    var run :| Run(lim, run) && run[|run| - 1] == st;
    var path :| Joins(lim, path, st, st');
    var longer := run + path[1..];
    forall i: nat | i + 1 < |longer|
      ensures StepAt(lim, longer, i)
    {
      if i + 1 < |run| {
        assert StepAt(lim, run, i);
      } else {
        assert StepAt(lim, path, i + 1 - |run|);
      }
    }
    assert Run(lim, longer) && longer[|longer| - 1] == st';
  }

  // --- one call, from its arrival to the session's lock --------------------------------------------

  function Call(front: Front, pc: ReqPc, state: Sid, target: Sid): Request {
    Request(front, front.principal, pc, state, target, 0, false)
  }

  lemma ArriveAt(lim: Limits, st: State, r: Rid, front: Front)
    requires r !in st.requests
    ensures Reaches(lim, st, At(st, r, Call(front, QGetLock, 0, 0), st.locks))
  {
    One(lim, st, AArrive(r, front, front.principal), At(st, r, Call(front, QGetLock, 0, 0), st.locks));
  }

  lemma GateAt(lim: Limits, st: State, r: Rid, q: Request, locks: map<Lock, Thread>)
    requires q.pc == QGate
    ensures Reaches(lim, At(st, r, q, locks), At(st, r, q.(pc := QToken), locks))
  {
    AtMoves(st, r, q, locks, q.(pc := QToken));
    One(lim, At(st, r, q, locks), AGate(r, true), At(st, r, q.(pc := QToken), locks));
  }

  lemma TokenAt(lim: Limits, st: State, r: Rid, q: Request, locks: map<Lock, Thread>)
    requires q.pc == QToken && q.state in st.tokens && st.tokens[q.state] == 0 < lim.calls
    ensures Reaches(lim, At(st, r, q, locks), At(SetTokens(st, q.state, 1), r, q.(pc := QScope), locks))
  {
    AtMoves(st, r, q, locks, q.(pc := QScope));
    One(lim, At(st, r, q, locks), ATakeToken(r), At(SetTokens(st, q.state, 1), r, q.(pc := QScope), locks));
  }

  lemma ScopeAt(lim: Limits, st: State, r: Rid, q: Request, locks: map<Lock, Thread>)
    requires q.pc == QScope
    ensures Reaches(lim, At(st, r, q, locks), At(st, r, Scoped(q), locks))
  {
    AtMoves(st, r, q, locks, Scoped(q));
    One(lim, At(st, r, q, locks), AChooseScope(r), At(st, r, Scoped(q), locks));
  }

  lemma OwnerTokenAt(lim: Limits, st: State, r: Rid, q: Request, locks: map<Lock, Thread>)
    requires q.pc == QOwnerToken && q.target in st.tokens && st.tokens[q.target] == 0 < lim.calls
    ensures Reaches(lim, At(st, r, q, locks), At(SetTokens(st, q.target, 1), r, q.(pc := QConnLock), locks))
  {
    AtMoves(st, r, q, locks, q.(pc := QConnLock));
    One(lim, At(st, r, q, locks), ATakeOwnerToken(r), At(SetTokens(st, q.target, 1), r, q.(pc := QConnLock), locks));
  }

  /** There is room for a first call of `front`, whose session will be `n`. */
  ghost predicate Fits(lim: Limits, st: State, r: Rid, front: Front, n: Sid) {
    && r !in st.requests && st.locks == map[] && !st.closed && !st.gctx && front !in st.roster
    && st.slots < lim.sessions && lim.calls > 0 && n !in st.sessions && n !in st.cleaners && n !in st.cancelled
  }

  /** The new session is registered and the call has its token. */
  function Registered(lim: Limits, st: State, front: Front, n: Sid): State {
    SetTokens(Got(lim, st, front, n), n, 1)
  }

  lemma GotAt(lim: Limits, st: State, r: Rid, front: Front, n: Sid)
    requires Fits(lim, st, r, front, n)
    ensures At(Got(lim, At(st, r, Call(front, QGetLock, 0, 0), map[]), front, n), r, Call(front, QGate, n, 0), map[])
         == At(Got(lim, st, front, n), r, Call(front, QGate, n, 0), map[])
  {
    AtMoves(st, r, Call(front, QGetLock, 0, 0), map[], Call(front, QGate, n, 0));
  }

  lemma CallRegisters(lim: Limits, st: State, r: Rid, front: Front, n: Sid)
    requires Fits(lim, st, r, front, n)
    ensures Reaches(lim, st, At(Got(lim, st, front, n), r, Call(front, QGate, n, 0), map[]))
  {
    var s1 := At(st, r, Call(front, QGetLock, 0, 0), map[]);
    ArriveAt(lim, st, r, front);
    GetReaches(lim, s1, r, n);
    GotAt(lim, st, r, front, n);
    ReachesOn(lim, st, s1, At(Got(lim, st, front, n), r, Call(front, QGate, n, 0), map[]));
  }

  lemma CallAdmitted(lim: Limits, st: State, r: Rid, front: Front, n: Sid)
    requires Fits(lim, st, r, front, n)
    ensures Reaches(lim, st, At(Registered(lim, st, front, n), r, Scoped(Call(front, QScope, n, 0)), map[]))
  {
    var got, done := Got(lim, st, front, n), Registered(lim, st, front, n);
    CallRegisters(lim, st, r, front, n);
    GateAt(lim, got, r, Call(front, QGate, n, 0), map[]);
    ReachesOn(lim, st, At(got, r, Call(front, QGate, n, 0), map[]), At(got, r, Call(front, QToken, n, 0), map[]));
    TokenAt(lim, got, r, Call(front, QToken, n, 0), map[]);
    ReachesOn(lim, st, At(got, r, Call(front, QToken, n, 0), map[]), At(done, r, Call(front, QScope, n, 0), map[]));
    ScopeAt(lim, done, r, Call(front, QScope, n, 0), map[]);
    ReachesOn(lim, st, At(done, r, Call(front, QScope, n, 0), map[]),
              At(done, r, Scoped(Call(front, QScope, n, 0)), map[]));
  }

  // --- a call on a shared endpoint -------------------------------------------------------------------

  /** A shared endpoint whose pool has no entry for the frontend's principal yet. */
  ghost predicate FitsPool(lim: Limits, st: State, r: Rid, front: Front, n: Sid, o: Sid) {
    && Fits(lim, st, r, front, n)
    && front.endpoint.shared && front.endpoint.stateless && front.principal != "" && KeyOf(front) !in st.entries
    && o != n && o !in st.sessions && o !in st.cleaners
  }

  function WithOwner(front: Front, o: Sid): Session {
    NewFrontend(front).(owner := Some(o), release := Some(Release(KeyOf(front), o)))
  }

  /** Session `n` is registered and has a new owner `o`; both have a token taken. */
  function Owned(st: State, front: Front, n: Sid, o: Sid): State {
    st.(sessions := st.sessions[n := NewFrontend(front)][o := NewOwner(KeyOf(front))][n := WithOwner(front, o)],
        tokens := st.tokens[n := 0][n := 1][o := 0][o := 1],
        cleaners := st.cleaners[n := Clean(CWait, KeyOf(front), n)],
        roster := st.roster[front := n], slots := st.slots + 1, wg := st.wg + 1,
        refs := st.refs[o := 0][o := 1], entries := st.entries[KeyOf(front) := o])
  }

  /** The call has attached to a new owner `o` and is about to lock it. */
  function AtOwnerLock(st: State, r: Rid, front: Front, n: Sid, o: Sid): State {
    At(Owned(st, front, n, o), r, Call(front, QConnLock, n, o), map[])
  }

  /** A first attachment to an entry that is made for it. */
  lemma AttachedNew(s: State, n: Sid, key: Key, o: Sid, rec: Session)
    requires n in s.sessions && s.sessions[n] == rec && rec.owner.None? && !Cancelled(s, n)
    requires key !in s.entries && o != n
    ensures Attached(s, n, key, o)
         == s.(sessions := s.sessions[o := NewOwner(key)]
                                     [n := rec.(owner := Some(o), release := Some(Release(key, o)))],
               tokens := s.tokens[o := 0], refs := s.refs[o := 0][o := 1], entries := s.entries[key := o])
    ensures AttachOutcome(s, n, key, o) == Some(o)
  {
  }

  lemma RegisteredIs(lim: Limits, st: State, r: Rid, front: Front, n: Sid)
    requires Fits(lim, st, r, front, n)
    ensures Registered(lim, st, front, n)
         == st.(sessions := st.sessions[n := NewFrontend(front)], tokens := st.tokens[n := 0][n := 1],
                cleaners := st.cleaners[n := Clean(CWait, KeyOf(front), n)], roster := st.roster[front := n],
                slots := st.slots + 1, wg := st.wg + 1)
  {
  }

  lemma OwnerLockIs(lim: Limits, st: State, r: Rid, front: Front, n: Sid, o: Sid, s: State)
    requires FitsPool(lim, st, r, front, n, o)
    requires s == At(Registered(lim, st, front, n), r, Call(front, QAttachLock, n, 0), map[])
    ensures AttachOutcome(s, n, KeyOf(front), o) == Some(o)
    ensures var mid := Attached(s, n, KeyOf(front), o);
            && o in mid.tokens && mid.tokens[o] == 0
            && At(SetTokens(mid, o, 1), r, Call(front, QConnLock, n, o), map[]) == AtOwnerLock(st, r, front, n, o)
  {
    RegisteredIs(lim, st, r, front, n);
    AttachedNew(s, n, KeyOf(front), o, NewFrontend(front));
    OwnedIs(st, r, front, n, o, Attached(s, n, KeyOf(front), o));
  }

  lemma OwnedIs(st: State, r: Rid, front: Front, n: Sid, o: Sid, mid: State)
    requires mid == st.(sessions := st.sessions[n := NewFrontend(front)][o := NewOwner(KeyOf(front))]
                                               [n := WithOwner(front, o)],
                        tokens := st.tokens[n := 0][n := 1][o := 0], refs := st.refs[o := 0][o := 1],
                        cleaners := st.cleaners[n := Clean(CWait, KeyOf(front), n)],
                        roster := st.roster[front := n], slots := st.slots + 1, wg := st.wg + 1,
                        entries := st.entries[KeyOf(front) := o],
                        requests := mid.requests, locks := mid.locks)
    requires mid.requests == st.requests[r := Call(front, QAttachLock, n, 0)]
    ensures At(SetTokens(mid, o, 1), r, Call(front, QConnLock, n, o), map[]) == AtOwnerLock(st, r, front, n, o)
  {
    AtMoves(Owned(st, front, n, o), r, Call(front, QAttachLock, n, 0), map[], Call(front, QConnLock, n, o));
  }

  lemma CanAttachNew(lim: Limits, st: State, r: Rid, front: Front, n: Sid, o: Sid, s: State)
    requires FitsPool(lim, st, r, front, n, o)
    requires s == At(Registered(lim, st, front, n), r, Call(front, QAttachLock, n, 0), map[])
    ensures CanAttach(s, r, o)
  {
    RegisteredIs(lim, st, r, front, n);
  }

  /** attach, from a registered session to its owner's first token. */
  lemma RegisteredAttaches(lim: Limits, st: State, r: Rid, front: Front, n: Sid, o: Sid, s: State)
    requires FitsPool(lim, st, r, front, n, o)
    requires s == At(Registered(lim, st, front, n), r, Call(front, QAttachLock, n, 0), map[])
    ensures Reaches(lim, s, AtOwnerLock(st, r, front, n, o))
  {
    var mid, q := Attached(s, n, KeyOf(front), o), Call(front, QOwnerToken, n, o);
    CanAttachNew(lim, st, r, front, n, o, s);
    AttachReaches(lim, s, r, o);
    OwnerLockIs(lim, st, r, front, n, o, s);
    OwnerTokenAt(lim, mid, r, q, map[]);
    ReachesOn(lim, s, At(mid, r, q, map[]), AtOwnerLock(st, r, front, n, o));
  }

  lemma CallAttaches(lim: Limits, st: State, r: Rid, front: Front, n: Sid, o: Sid)
    requires FitsPool(lim, st, r, front, n, o)
    ensures Reaches(lim, st, AtOwnerLock(st, r, front, n, o))
  {
    var s := At(Registered(lim, st, front, n), r, Call(front, QAttachLock, n, 0), map[]);
    CallAdmitted(lim, st, r, front, n);
    RegisteredAttaches(lim, st, r, front, n, o, s);
    ReachesOn(lim, st, s, AtOwnerLock(st, r, front, n, o));
  }

  // --- a frontend that leaves ---------------------------------------------------------------------------

  /** The goroutine of `f` has run to its end; `c` is its last record. */
  function Gone(st: State, f: Sid, front: Front, c: Clean): State {
    st.(cleaners := st.cleaners[f := c], roster := st.roster - {front}, slots := st.slots - 1, wg := st.wg - 1,
        cancelled := st.cancelled + {f})
  }

  /** Frontend `f` has just ended. */
  function Ended(st: State, f: Sid): State
    requires f in st.cleaners
  {
    SetClean(st, f, st.cleaners[f].(pc := CCancel))
  }

  lemma FrontEndsAt(lim: Limits, st: State, f: Sid)
    requires f in st.cleaners && st.cleaners[f].pc == CWait
    ensures Reaches(lim, st, Ended(st, f))
  {
    One(lim, st, AFrontEnds(f), Ended(st, f));
  }

  lemma FrontLeaves(lim: Limits, st: State, f: Sid, after: State)
    requires f in st.cleaners && st.cleaners[f].pc == CWait && SoloCleanup.CanCleanUp(Ended(st, f), f)
    requires var s := Ended(st, f);
             after == SoloCleanup.At(SoloCleanup.CleanedUp(s, f), f,
                                     SoloCleanup.Taken(s, f, s.cleaners[f]).(pc := CEnd), s.locks)
    ensures Reaches(lim, st, after)
  {
    FrontEndsAt(lim, st, f);
    SoloCleanup.CleanUpReaches(lim, Ended(st, f), f);
    ReachesOn(lim, st, Ended(st, f), after);
  }

  /** A private frontend without a backend leaves. */
  lemma PrivateLeaves(lim: Limits, st: State, f: Sid, front: Front, c: Clean)
    requires f in st.cleaners && st.cleaners[f] == c && c.pc == CWait && st.locks == map[] && st.slots > 0
    requires f in st.sessions && st.sessions[f] == NewFrontend(front)
    ensures Reaches(lim, st, Gone(st, f, front, c.(pc := CEnd)))
  {
    var s := Ended(st, f);
    SoloCleanup.LetGoCloses(SoloCleanup.CancelledOne(s, f), f);
    SoloCleanup.AtMoves(st, f, c.(pc := CCancel), map[], c.(pc := CEnd));
    FrontLeaves(lim, st, f, Gone(st, f, front, c.(pc := CEnd)));
  }

  /** The last frontend of owner `o` leaves, and the owner is reaped. */
  lemma SharedLeaves(lim: Limits, st: State, f: Sid, front: Front, o: Sid, c: Clean)
    requires f in st.cleaners && st.cleaners[f] == c && c.pc == CWait && st.locks == map[] && st.slots > 0
    requires f in st.sessions && st.sessions[f] == WithOwner(front, o) && o != f
    requires o in st.sessions && st.sessions[o] == NewOwner(KeyOf(front)) && o in st.refs && st.refs[o] == 1
    ensures Reaches(lim, st, OwnerReaped(st, f, front, o))
  {
    CleanedShared(st, f, front, o, c);
    FrontLeaves(lim, st, f, OwnerReaped(st, f, front, o));
  }

  function OwnerReaped(st: State, f: Sid, front: Front, o: Sid): State {
    var key := KeyOf(front);
    Gone(st, f, front, Clean(CEnd, key, o))
    .(cancelled := st.cancelled + {f} + {o}, refs := st.refs[o := 0], entries := st.entries - {key})
  }

  lemma CleanedShared(st: State, f: Sid, front: Front, o: Sid, c: Clean)
    requires f in st.cleaners && st.cleaners[f] == c && st.locks == map[]
    requires f in st.sessions && st.sessions[f] == WithOwner(front, o) && o != f
    requires o in st.sessions && st.sessions[o] == NewOwner(KeyOf(front)) && o in st.refs && st.refs[o] == 1
    ensures var s := Ended(st, f);
            OwnerReaped(st, f, front, o) == SoloCleanup.At(SoloCleanup.CleanedUp(s, f), f,
                                                      SoloCleanup.Taken(s, f, s.cleaners[f]).(pc := CEnd), s.locks)
  {
    var s, key := Ended(st, f), KeyOf(front);
    var s1 := SoloCleanup.CancelledOne(s, f);
    SoloCleanup.LetGoReleases(s1, f, key, o);
    ReleasedLast(s1, key, o);
    SoloCleanup.AtMoves(st, f, c.(pc := CCancel), map[], Clean(CEnd, key, o));
  }

  lemma ReleasedLast(st: State, key: Key, o: Sid)
    requires o in st.sessions && st.sessions[o].backend.None? && o in st.refs && st.refs[o] == 1
    ensures SoloCleanup.Released(st, key, o)
         == st.(refs := st.refs[o := 0], cancelled := st.cancelled + {o}, entries := st.entries - {key})
  {
    assert st.ended + {} == st.ended;
  }

  // --- the two failing runs -------------------------------------------------------------------------------

  /** A call at the lock of a session without a backend takes it and starts to dial. */
  lemma StartsDialling(lim: Limits, st: State, r: Rid, q: Request)
    requires r in st.requests && st.requests[r] == q && q.pc == QConnLock && st.locks == map[]
    requires q.target in st.sessions && st.sessions[q.target].backend.None? && !st.sessions[q.target].failed
    ensures Reaches(lim, st, At(st, r, q.(pc := QDial), map[SMu(q.target) := Req(r)]))
  {
    var q1, held := q.(pc := QConnCheck), map[SMu(q.target) := Req(r)];
    AtStart(st, r);
    ConnLockAt(lim, st, r, q, map[]);
    assert map[][SMu(q.target) := Req(r)] == held;
    ConnCheckAt(lim, st, r, q1, held);
    ReachesOn(lim, st, At(st, r, q1, held), At(st, r, q.(pc := QDial), held));
  }

  function Dialled(st: State, r: Rid, q: Request, b: Bid): State {
    st.(requests := st.requests[r := q.(pc := QStore, backend := b)], dialled := st.dialled[b := q.target])
  }

  lemma DialsAnyway(lim: Limits, st: State, r: Rid, q: Request, b: Bid)
    requires Reached(lim, st) && r in st.requests && st.requests[r] == q && q.pc == QConnLock && st.locks == map[]
    requires q.target in st.sessions && st.sessions[q.target].backend.None? && !st.sessions[q.target].failed
    requires b !in st.dialled
    ensures Reached(lim, Dialled(st, r, q, b).(locks := map[SMu(q.target) := Req(r)]))
  {
    var held := map[SMu(q.target) := Req(r)];
    var s := At(st, r, q.(pc := QDial), held);
    StartsDialling(lim, st, r, q);
    ReachedOn(lim, st, s);
    DialAt(lim, st, r, q.(pc := QDial), held, b);
    ReachedOn(lim, s, Dialled(st, r, q, b).(locks := held));
  }

  lemma InitReached(lim: Limits)
    ensures Reached(lim, Init())
  {
    assert Run(lim, [Init()]);
  }

  /** Backend `b` is live although the cleanup of its frontend `f` is over. */
  ghost predicate Resurrected(st: State, f: Sid, b: Bid) {
    f in st.cleaners && st.cleaners[f].pc.CEnd? && Live(st, b) && st.dialled[b] == f
  }

  /** MAIN: in private scope, for any limits and any frontend, a call that locks its session
      only after the cleanup is over can bring it back for good. */
  lemma PrivateFails(lim: Limits, front: Front)
    requires lim.sessions > 0 && lim.calls > 0 && !front.endpoint.shared
    ensures exists st :: Reached(lim, st) && Resurrected(st, 0, 0)
  {
    var q, c := Call(front, QConnLock, 0, 0), Clean(CWait, KeyOf(front), 0);
    InitReached(lim);
    CallAdmitted(lim, Init(), 0, front, 0);
    RegisteredIs(lim, Init(), 0, front, 0);
    var s1 := At(Registered(lim, Init(), front, 0), 0, q, map[]);
    ReachedOn(lim, Init(), s1);
    PrivateLeaves(lim, s1, 0, front, c);
    var s2 := Gone(s1, 0, front, c.(pc := CEnd));
    ReachedOn(lim, s1, s2);
    DialsAnyway(lim, s2, 0, q, 0);
    assert Resurrected(Dialled(s2, 0, q, 0).(locks := map[SMu(0) := Req(0)]), 0, 0);
  }

  /** Two owners for one key have a live backend each. */
  ghost predicate TwoLive(st: State, key: Key, b: Bid, c: Bid) {
    && b != c && Live(st, b) && Live(st, c)
    && st.dialled[b] in st.sessions && st.sessions[st.dialled[b]].role == PoolOwner(key)
    && st.dialled[c] in st.sessions && st.sessions[st.dialled[c]].role == PoolOwner(key)
  }

  /** The first frontend has come, made a call that attached, and gone; its call is still at
      the lock of the reaped owner 1. */
  function FirstGone(front: Front): State {
    OwnerReaped(AtOwnerLock(Init(), 0, front, 0, 1), 0, front, 1)
  }

  /** The second frontend has attached to the next owner, 3. */
  function SecondIn(first: Front, second: Front): State {
    AtOwnerLock(FirstGone(first), 1, second, 2, 3)
  }

  lemma FirstReached(lim: Limits, front: Front)
    requires FitsPool(lim, Init(), 0, front, 0, 1)
    ensures Reached(lim, FirstGone(front))
  {
    var s1 := AtOwnerLock(Init(), 0, front, 0, 1);
    InitReached(lim);
    CallAttaches(lim, Init(), 0, front, 0, 1);
    ReachedOn(lim, Init(), s1);
    SharedLeaves(lim, s1, 0, front, 1, Clean(CWait, KeyOf(front), 0));
    ReachedOn(lim, s1, FirstGone(front));
  }

  lemma SecondReached(lim: Limits, first: Front, second: Front)
    requires FitsPool(lim, Init(), 0, first, 0, 1) && first != second && KeyOf(first) == KeyOf(second)
    ensures Reached(lim, SecondIn(first, second))
  {
    FirstReached(lim, first);
    assert FitsPool(lim, FirstGone(first), 1, second, 2, 3);
    CallAttaches(lim, FirstGone(first), 1, second, 2, 3);
    ReachedOn(lim, FirstGone(first), SecondIn(first, second));
  }

  /** The second call is served: its owner dials. */
  function SecondServed(first: Front, second: Front): State {
    var s := SecondIn(first, second);
    At(Connected(s, 3, Some(0)), 1, Call(second, QConnLock, 2, 3).(pc := QForward, backend := 0), map[])
  }

  lemma SecondCanConnect(first: Front, second: Front, s: State)
    requires s == SecondIn(first, second) && first != second && KeyOf(first) == KeyOf(second)
    ensures CanConnect(s, 1, Some(0)) && s.requests[1] == Call(second, QConnLock, 2, 3) && s.locks == map[]
    ensures s.sessions[3] == NewOwner(KeyOf(second))
  {
  }

  lemma ServedReached(lim: Limits, first: Front, second: Front)
    requires FitsPool(lim, Init(), 0, first, 0, 1) && first != second && KeyOf(first) == KeyOf(second)
    ensures Reached(lim, SecondServed(first, second))
  {
    SecondReached(lim, first, second);
    var s := SecondIn(first, second);
    SecondCanConnect(first, second, s);
    ConnectReaches(lim, s, 1, Some(0));
    ReachedOn(lim, s, SecondServed(first, second));
  }

  /** The first call, still at its lock, sees the reaped owner without a backend. */
  lemma FirstStillThere(first: Front, second: Front, s: State)
    requires s == SecondServed(first, second) && first != second
    ensures 0 in s.requests && s.requests[0] == Call(first, QConnLock, 0, 1) && s.locks == map[]
    ensures 1 in s.sessions && s.sessions[1] == NewOwner(KeyOf(first)) && 1 !in s.dialled
  {
  }

  lemma SecondAlive(first: Front, second: Front, s: State)
    requires s == SecondServed(first, second) && first != second
    ensures s.dialled == map[0 := 3] && s.ended == {}
    ensures 3 in s.sessions && s.sessions[3].role == PoolOwner(KeyOf(second))
  {
  }

  lemma BothLive(s: State, key: Key, q: Request, st: State)
    requires st == Dialled(s, 0, q, 1).(locks := map[SMu(1) := Req(0)]) && q.target == 1
    requires s.dialled == map[0 := 3] && s.ended == {}
    requires 3 in s.sessions && s.sessions[3].role == PoolOwner(key)
    requires 1 in s.sessions && s.sessions[1].role == PoolOwner(key)
    ensures TwoLive(st, key, 0, 1)
  {
  }

  /** MAIN: in shared scope the failure breaks the one backend per principal: a call of a
      frontend that has left, still on its way to the reaped owner, dials for it while the
      owner's successor has a backend of its own. */
  lemma SharedFails(lim: Limits, first: Front, second: Front)
    requires lim.sessions > 0 && lim.calls > 0 && first != second && KeyOf(first) == KeyOf(second)
    requires first.endpoint.shared && first.endpoint.stateless && first.principal != ""
    ensures exists st :: Reached(lim, st) && TwoLive(st, KeyOf(first), 0, 1)
  {
    ServedReached(lim, first, second);
    var s, q := SecondServed(first, second), Call(first, QConnLock, 0, 1);
    FirstStillThere(first, second, s);
    DialsAnyway(lim, s, 0, q, 1);
    SecondAlive(first, second, s);
    BothLive(s, KeyOf(first), q, Dialled(s, 0, q, 1).(locks := map[SMu(1) := Req(0)]));
  }
}
