/** What the invariant means: the guarantees of the shared-backend protocol, for every state
    that the code can reach.  Only what they say about live backends depends on when dials
    succeed, and says so through `Back`. */
module Safety {
  import opened Wrappers
  import opened Protocol
  import opened Invariant
  import opened Burial
  import PoolSteps
  import Preservation

  // --- one backend per session, one live backend per principal ------------------------

  /** At most one dial ever succeeds for a session. */
  lemma OneDialPerSession(lim: Limits, st: State, b: Bid, c: Bid)
    requires Inv(lim, st) && b in st.dialled && c in st.dialled && st.dialled[b] == st.dialled[c]
    ensures b == c
  {
    Unfold(lim, st);
    var s := st.dialled[b];
    if Unstored(st.locks, st.requests, b, s) {
      StoringSession(st, s);
    } else if Unstored(st.locks, st.requests, c, s) {
      StoringSession(st, s);
    }
  }

  /** While a dialled backend waits to be stored, its session has none. */
  lemma StoringSession(st: State, s: Sid)
    requires RequestsOk(st.sessions, st.cleaners, st.requests)
    requires exists b :: Unstored(st.locks, st.requests, b, s)
    ensures s in st.sessions && st.sessions[s].backend.None?
  {
    var b :| Unstored(st.locks, st.requests, b, s);
    assert RequestOk(st.sessions, st.cleaners, st.requests[st.locks[SMu(s)].r]);
  }

  /** A live backend of a pool owner belongs to the entry of its key, or its owner has come
      back after its close. */
  lemma LiveBackendIsEntry(st: State, b: Bid, key: Key)
    requires Live(st, b) && st.dialled[b] in st.sessions && st.sessions[st.dialled[b]].role == PoolOwner(key)
    ensures InPoolMap(st.entries, key, st.dialled[b]) || Back(st, st.dialled[b])
  {
    assert !AllEnded(st.dialled, st.ended, st.dialled[b]);
  }

  /** MAIN: however attach, connect and release interleave, an endpoint has two live backends
      for one principal only if a closed owner has come back. */
  lemma OneLiveBackendPerPrincipal(lim: Limits, st: State, b: Bid, c: Bid, key: Key)
    requires Inv(lim, st) && Live(st, b) && Live(st, c)
    requires st.dialled[b] in st.sessions && st.sessions[st.dialled[b]].role == PoolOwner(key)
    requires st.dialled[c] in st.sessions && st.sessions[st.dialled[c]].role == PoolOwner(key)
    ensures b == c || Back(st, st.dialled[b]) || Back(st, st.dialled[c])
  {
    LiveBackendIsEntry(st, b, key);
    LiveBackendIsEntry(st, c, key);
    if st.dialled[b] == st.dialled[c] {
      OneDialPerSession(lim, st, b, c);
    }
  }

  /** A frontend in private scope likewise has at most one backend, and it is its own. */
  lemma PrivateBackend(lim: Limits, st: State, b: Bid, front: Front)
    requires Inv(lim, st) && b in st.dialled
    requires st.dialled[b] in st.sessions && st.sessions[st.dialled[b]].role == Frontend(front)
    ensures !front.endpoint.shared
    ensures forall c :: c in st.dialled && st.dialled[c] == st.dialled[b] ==> c == b
  {
    Unfold(lim, st);
    DialledIsPrivate(st, b);
    forall c | c in st.dialled && st.dialled[c] == st.dialled[b]
      ensures c == b
    {
      OneDialPerSession(lim, st, b, c);
    }
  }

  lemma DialledIsPrivate(st: State, b: Bid)
    requires SessionsOk(st.sessions) && RequestsOk(st.sessions, st.cleaners, st.requests) && DialledOk(st)
    requires b in st.dialled && st.dialled[b] in st.sessions && st.sessions[st.dialled[b]].role.Frontend?
    ensures !st.sessions[st.dialled[b]].role.front.endpoint.shared
  {
    var s := st.dialled[b];
    if Unstored(st.locks, st.requests, b, s) {
      var q := st.requests[st.locks[SMu(s)].r];
      assert RequestOk(st.sessions, st.cleaners, q);
      assert SessionOk(st.sessions, st.sessions[q.state]);
    } else {
      assert SessionOk(st.sessions, st.sessions[s]);
    }
  }

  // --- reference counts ---------------------------------------------------------------

  /** MAIN: whenever a pool's lock is free, an owner of the pool is an entry if and only if
      some frontend holds a reference to it, and its count is the number of those frontends. */
  lemma CountsExactWhenUnlocked(lim: Limits, st: State, o: Sid, key: Key)
    requires Inv(lim, st) && o in st.sessions && st.sessions[o].role == PoolOwner(key)
    requires PMu(key.endpoint) !in st.locks
    ensures o in st.refs && st.refs[o] == |Referrers(st.sessions, st.cleaners, o)|
    ensures (key in st.entries && st.entries[key] == o) <==> Referrers(st.sessions, st.cleaners, o) != {}
  {
    Unfold(lim, st);
    assert IsOwner(st.sessions, o);
    assert InPoolMap(st.entries, key, o) && st.refs[o] == 0
      ==> EntryInFlux(st.locks, st.requests, st.cleaners, key.endpoint, o);
  }

  lemma DetachedIsOver(st: State, o: Sid)
    requires IsOwner(st.sessions, o) && !InPoolMap(st.entries, st.sessions[o].role.key, o)
    requires RefsExact(st.sessions, st.cleaners, st.refs) && EntriesTyped(st.sessions, st.refs, st.entries)
    ensures Referrers(st.sessions, st.cleaners, o) == {} && !Open(st, o)
  {
  }

  /** A new owner for a key is created only when no frontend still holds a reference to an
      older one; and every backend of the older ones has been closed, but for those that have
      come back. */
  lemma FreshGeneration(lim: Limits, st: State, r: Rid, n: Sid, st': State, o: Sid)
    requires EnsureNew(st, r, n, st') && Inv(lim, st)
    requires o in st.sessions && st.sessions[o].role == PoolOwner(PoolKey(st.requests[r]))
    ensures Referrers(st.sessions, st.cleaners, o) == {}
    ensures (forall b :: b in st.dialled && st.dialled[b] == o ==> b in st.ended) <==> !Back(st, o)
  {
    Unfold(lim, st);
    DetachedIsOver(st, o);
  }

  lemma ReleaseCaptured(st: State, f: Sid)
    requires SessionsOk(st.sessions) && CleanersOk(st.sessions, st.cancelled, st.cleaners)
    requires f in st.cleaners && BeforeDecr(st.cleaners[f].pc)
    ensures var c := st.cleaners[f];
            && Refers(st.sessions, st.cleaners, f, c.entry)
            && c.entry in st.sessions && st.sessions[c.entry].role == PoolOwner(c.key)
  {
    assert CleanerOk(st.sessions, st.cancelled, f, st.cleaners[f]);
    assert SessionOk(st.sessions, st.sessions[f]);
  }

  /** A goroutine that is about to release finds its entry in the pool, still counted: what
      the closure captured is what the pool holds for that principal. */
  lemma ReleaseFindsItsEntry(lim: Limits, st: State, f: Sid)
    requires Inv(lim, st) && f in st.cleaners && BeforeDecr(st.cleaners[f].pc)
    ensures var c := st.cleaners[f];
            && InPoolMap(st.entries, c.key, c.entry) && IsOwner(st.sessions, c.entry)
            && c.entry in st.refs && st.refs[c.entry] > 0
  {
    Unfold(lim, st);
    ReleaseCaptured(st, f);
    PoolSteps.AttachedCounts(st.sessions, st.cleaners, st.refs, f, st.cleaners[f].entry);
  }

  // --- no close under a live peer -----------------------------------------------------

  lemma PeerCounts(st: State, f: Sid, o: Sid)
    requires SessionsOk(st.sessions) && CleanersOk(st.sessions, st.cancelled, st.cleaners)
    requires RefsExact(st.sessions, st.cleaners, st.refs)
    requires f in st.sessions && st.sessions[f].owner == Some(o) && f !in st.cancelled
    ensures IsOwner(st.sessions, o) && o in st.refs && st.refs[o] > 0
  {
    assert SessionOk(st.sessions, st.sessions[f]);
    assert CleanerOk(st.sessions, st.cancelled, f, st.cleaners[f]);
    PoolSteps.AttachedCounts(st.sessions, st.cleaners, st.refs, f, o);
  }

  lemma CountedNotClosed(st: State, o: Sid)
    requires EntriesTyped(st.sessions, st.refs, st.entries) && EndedOk(st)
    requires IsOwner(st.sessions, o) && o in st.refs && st.refs[o] > 0
    ensures InPoolMap(st.entries, st.sessions[o].role.key, o)
    ensures forall b :: b in st.dialled && st.dialled[b] == o ==> Live(st, b)
  {
  }

  /** MAIN: as long as one attached frontend has not been cancelled, its owner is the entry
      of its key and no backend of the owner has been closed by the bridge, whatever other
      frontends and calls do. */
  lemma NoCloseUnderLivePeer(lim: Limits, st: State, f: Sid, o: Sid)
    requires Inv(lim, st) && f in st.sessions && st.sessions[f].owner == Some(o) && f !in st.cancelled
    ensures IsOwner(st.sessions, o) && o in st.refs && st.refs[o] > 0
    ensures InPoolMap(st.entries, st.sessions[o].role.key, o)
    ensures forall b :: b in st.dialled && st.dialled[b] == o ==> Live(st, b)
  {
    Unfold(lim, st);
    PeerCounts(st, f, o);
    CountedNotClosed(st, o);
  }

  // --- tokens ---------------------------------------------------------------------------

  /** The requests forwarding to backend `b` right now. */
  function Forwarding(requests: map<Rid, Request>, b: Bid): set<Rid> {
    set r | r in requests && requests[r].pc.QForward? && requests[r].backend == b
  }

  lemma SubsetCount<T>(a: set<T>, b: set<T>)
    requires a <= b
    ensures |a| <= |b|
  {
    assert b == a + (b - a);
  }

  /** MAIN: however many frontends share it, a backend never serves more than
      ConcurrentCalls calls at once. */
  lemma ForwardsBounded(lim: Limits, st: State, b: Bid)
    requires Inv(lim, st) && b in st.dialled
    ensures |Forwarding(st.requests, b)| <= lim.calls
  {
    Unfold(lim, st);
    var s := st.dialled[b];
    forall r | r in Forwarding(st.requests, b)
      ensures UsesToken(st.requests[r], s)
    {
      var q := st.requests[r];
      assert RequestOk(st.sessions, st.cleaners, q);
      assert st.sessions[q.target].backend == Some(b);
    }
    SubsetCount(Forwarding(st.requests, b), TokenUsers(st.requests, s));
  }

  lemma MemberCounted(requests: map<Rid, Request>, r: Rid, s: Sid)
    requires r in requests && UsesToken(requests[r], s)
    ensures |TokenUsers(requests, s)| > 0
  {
    assert r in TokenUsers(requests, s);
  }

  lemma TokensPresent(lim: Limits, st: State, r: Rid)
    requires TokenInv(lim, st.sessions, st.tokens, st.requests)
    requires r in st.requests && RequestOk(st.sessions, st.cleaners, st.requests[r])
    ensures var q := st.requests[r];
            && (HasToken(q.pc) ==> q.state in st.tokens && st.tokens[q.state] > 0)
            && (HasOwnerToken(q) ==> q.target in st.tokens && st.tokens[q.target] > 0)
  {
    var q := st.requests[r];
    if HasToken(q.pc) {
      MemberCounted(st.requests, r, q.state);
    }
    if HasOwnerToken(q) {
      MemberCounted(st.requests, r, q.target);
    }
  }

  lemma TokensDistinct(st: State, r: Rid)
    requires LocalInv(st) && r in st.requests && HasOwnerToken(st.requests[r])
    ensures st.requests[r].target != st.requests[r].state
  {
    Preservation.OwnFrontend(st, r);
    Preservation.TargetIsOwner(st.sessions, st.cleaners, st.requests[r]);
  }

  /** MAIN: the deferred receives never block.  A call that is about to return a token finds
      one in the channel, and a call with an owner token also has its frontend's token. */
  lemma ReceivesNeverBlock(lim: Limits, st: State, r: Rid)
    requires Inv(lim, st) && r in st.requests
    ensures var q := st.requests[r];
            && (HasToken(q.pc) ==> q.state in st.tokens && st.tokens[q.state] > 0)
            && (HasOwnerToken(q) ==> HasToken(q.pc) && q.target in st.tokens && st.tokens[q.target] > 0
                                     && q.target != q.state)
  {
    Unfold(lim, st);
    TokensPresent(lim, st, r);
    if HasOwnerToken(st.requests[r]) {
      TokensDistinct(st, r);
    }
  }

  /** When no call is in progress every channel is empty: each exit returned what it took. */
  lemma IdleMeansNoTokens(lim: Limits, st: State, s: Sid)
    requires Inv(lim, st) && s in st.sessions
    requires forall r :: r in st.requests ==> !HasToken(st.requests[r].pc)
    ensures s in st.tokens && st.tokens[s] == 0
  {
    Unfold(lim, st);
    NobodyUses(st.requests, s);
  }

  lemma NobodyUses(requests: map<Rid, Request>, s: Sid)
    requires forall r :: r in requests ==> !HasToken(requests[r].pc)
    ensures TokenUsers(requests, s) == {}
  {
    assert forall r :: r in requests && HasOwnerToken(requests[r]) ==> HasToken(requests[r].pc);
  }

  // --- slots ----------------------------------------------------------------------------

  /** Two maps that undo each other have domains of the same size. */
  lemma {:induction false} SameCount(roster: map<Front, Sid>, members: set<Sid>)
    requires forall front :: front in roster ==> roster[front] in members
    requires forall f :: f in members ==> exists front :: front in roster && roster[front] == f
    requires forall x, y :: x in roster && y in roster && roster[x] == roster[y] ==> x == y
    ensures |roster| == |members|
  {
    if members == {} {
      assert roster.Keys == {};
    } else {
      var f :| f in members;
      var front :| front in roster && roster[front] == f;
      var rest := roster - {front};
      assert rest.Keys == roster.Keys - {front};
      forall g | g in members - {f}
        ensures exists x :: x in rest && rest[x] == g
      {
        var x :| x in roster && roster[x] == g;
        assert x in rest && rest[x] == g;
      }
      SameCount(rest, members - {f});
    }
  }

  /** MAIN: whenever the gateway's lock is free there are exactly as many taken slots as
      registered sessions, and never more than the limit. */
  lemma SlotsExactWhenUnlocked(lim: Limits, st: State)
    requires Inv(lim, st) && GMu !in st.locks
    ensures st.slots == |st.roster| && st.slots <= lim.sessions
  {
    Unfold(lim, st);
    forall f | f in SlotHolders(st.cleaners)
      ensures exists front :: front in st.roster && st.roster[front] == f
    {
      assert CleanerOk(st.sessions, st.cancelled, f, st.cleaners[f]);
      assert CleanerHolds(f, st.cleaners[f], GMu) ==> Holds(st, Cleaner(f), GMu);
      assert BeforeDrop(st.cleaners[f].pc);
    }
    SameCount(st.roster, SlotHolders(st.cleaners));
  }

  /** The receive that a cleanup performs while holding the gateway's lock never blocks, and
      the registration it deletes is its own. */
  lemma DropIsOwn(lim: Limits, st: State, f: Sid)
    requires Inv(lim, st) && f in st.cleaners
    ensures st.cleaners[f].pc.CDrop? ==>
              && f in st.sessions && st.sessions[f].role.Frontend?
              && st.sessions[f].role.front in st.roster && st.roster[st.sessions[f].role.front] == f
    ensures HoldsSlot(st.cleaners[f].pc) ==> st.slots > 0
  {
    Unfold(lim, st);
    RegisteredUntilDrop(st, f);
    SlotHeld(lim, st, f);
  }

  lemma RegisteredUntilDrop(st: State, f: Sid)
    requires CleanersOk(st.sessions, st.cancelled, st.cleaners) && RosterInv(st.sessions, st.cleaners, st.roster)
    requires f in st.cleaners
    ensures f in st.sessions && st.sessions[f].role.Frontend?
    ensures BeforeDrop(st.cleaners[f].pc) ==>
              st.sessions[f].role.front in st.roster && st.roster[st.sessions[f].role.front] == f
  {
    assert CleanerOk(st.sessions, st.cancelled, f, st.cleaners[f]);
  }

  // --- principal isolation ----------------------------------------------------------------

  lemma ForwardTarget(st: State, r: Rid)
    requires LocalInv(st) && r in st.requests && st.requests[r].pc.QForward?
    ensures var q := st.requests[r];
            && q.target in st.sessions && st.sessions[q.target].backend == Some(q.backend)
            && st.sessions[q.target].role == (if q.front.endpoint.shared
                                              then PoolOwner(Key(q.front.endpoint, q.principal))
                                              else Frontend(q.front))
            && (!q.front.endpoint.shared ==> q.target == q.state)
  {
    Preservation.OwnFrontend(st, r);
    if st.requests[r].front.endpoint.shared {
      Preservation.TargetIsOwner(st.sessions, st.cleaners, st.requests[r]);
    }
  }

  /** MAIN: a request forwarded on a shared endpoint reaches the backend of an owner created
      in that endpoint's pool under that request's principal; a request on a private
      endpoint reaches the backend of its own session. */
  lemma ForwardsStayWithinPrincipal(lim: Limits, st: State, r: Rid)
    requires Inv(lim, st) && r in st.requests && st.requests[r].pc.QForward?
    ensures var q := st.requests[r];
            && q.backend in st.dialled && st.dialled[q.backend] in st.sessions
            && var role := st.sessions[st.dialled[q.backend]].role;
            if q.front.endpoint.shared
            then role == PoolOwner(Key(q.front.endpoint, q.principal))
                 && q.front.endpoint.stateless && q.principal != ""
            else role == Frontend(q.front) && st.dialled[q.backend] == q.state
  {
    Unfold(lim, st);
    ForwardTarget(st, r);
    assert RequestOk(st.sessions, st.cleaners, st.requests[r]);
  }

  lemma OwnersAttested(st: State)
    requires SessionsOk(st.sessions) && RefsExact(st.sessions, st.cleaners, st.refs)
    requires EntriesTyped(st.sessions, st.refs, st.entries)
    ensures forall o, key :: o in st.sessions && st.sessions[o].role == PoolOwner(key)
              ==> key.endpoint.shared && key.endpoint.stateless && key.principal != ""
    ensures forall key :: key in st.entries
              ==> key.endpoint.shared && key.endpoint.stateless && key.principal != ""
  {
    forall o, key | o in st.sessions && st.sessions[o].role == PoolOwner(key)
      ensures key.endpoint.shared && key.endpoint.stateless && key.principal != ""
    {
      assert SessionOk(st.sessions, st.sessions[o]);
    }
  }

  lemma CallsAttested(st: State)
    requires RequestsOk(st.sessions, st.cleaners, st.requests)
    ensures forall r :: r in st.requests && st.requests[r].front.endpoint.shared
              && (st.requests[r].pc.QAttachLock? || InAttach(st.requests[r].pc) || st.requests[r].pc.QOwnerToken?
                  || st.requests[r].pc.QConnLock? || InConnect(st.requests[r].pc) || st.requests[r].pc.QForward?)
              ==> st.requests[r].front.endpoint.stateless && st.requests[r].principal != ""
  {
    forall r | r in st.requests
      ensures RequestOk(st.sessions, st.cleaners, st.requests[r])
    {
    }
  }

  /** MAIN: in every state of every run, a shared backend exists, is entered in a pool and is
      used only under an endpoint that is attested stateless and for an authenticated
      principal: nobody shares a backend anonymously. */
  lemma SharedIsAttested(lim: Limits, run: seq<State>, i: nat)
    requires Run(lim, run) && i < |run|
    ensures forall o, key :: o in run[i].sessions && run[i].sessions[o].role == PoolOwner(key)
              ==> key.endpoint.shared && key.endpoint.stateless && key.principal != ""
    ensures forall key :: key in run[i].entries
              ==> key.endpoint.shared && key.endpoint.stateless && key.principal != ""
    ensures forall r :: r in run[i].requests && run[i].requests[r].front.endpoint.shared
              && (run[i].requests[r].pc.QAttachLock? || InAttach(run[i].requests[r].pc)
                  || run[i].requests[r].pc.QOwnerToken? || run[i].requests[r].pc.QConnLock?
                  || InConnect(run[i].requests[r].pc) || run[i].requests[r].pc.QForward?)
              ==> run[i].requests[r].front.endpoint.stateless && run[i].requests[r].principal != ""
  {
    Preservation.RunInv(lim, run, i);
    Unfold(lim, run[i]);
    OwnersAttested(run[i]);
    CallsAttested(run[i]);
  }

  // --- shutdown -----------------------------------------------------------------------------

  lemma AllFinished(cleaners: map<Sid, Clean>)
    requires |Running(cleaners)| == 0
    ensures forall f :: f in cleaners ==> cleaners[f].pc.CEnd?
  {
    assert forall f :: f in cleaners && !cleaners[f].pc.CEnd? ==> f in Running(cleaners);
  }

  lemma FinishedGateway(lim: Limits, st: State)
    requires SlotInv(lim, st.slots, st.cleaners) && RosterInv(st.sessions, st.cleaners, st.roster)
    requires forall f :: f in st.cleaners ==> st.cleaners[f].pc.CEnd?
    ensures st.roster == map[] && st.slots == 0
  {
    assert SlotHolders(st.cleaners) == {};
    assert st.roster.Keys == {};
  }

  /** An entry would need a reference, a goroutine reaping it, or a request inside attach on
      a frontend whose cleanup has not started. */
  lemma FinishedPools(st: State)
    requires RefsExact(st.sessions, st.cleaners, st.refs) && EntriesTyped(st.sessions, st.refs, st.entries)
    requires EntriesCounted(st) && RequestsOk(st.sessions, st.cleaners, st.requests)
    requires forall f :: f in st.cleaners ==> st.cleaners[f].pc.CEnd?
    ensures st.entries == map[]
  {
    forall r | r in st.requests
      ensures !st.requests[r].pc.QRetain?
    {
      assert RequestOk(st.sessions, st.cleaners, st.requests[r]);
    }
    assert forall o :: Referrers(st.sessions, st.cleaners, o) == {};
    assert st.entries.Keys == {};
  }

  lemma FinishedBackends(st: State)
    requires DialledOk(st) && CleanersOk(st.sessions, st.cancelled, st.cleaners)
    requires st.entries == map[] && forall f :: f in st.cleaners ==> st.cleaners[f].pc.CEnd?
    ensures forall b :: Live(st, b) ==> Back(st, st.dialled[b])
  {
    forall b | Live(st, b)
      ensures Back(st, st.dialled[b])
    {
      var s := st.dialled[b];
      assert IsOwner(st.sessions, s) || s in st.cleaners;
      assert !AllEnded(st.dialled, st.ended, s);
    }
  }

  /** MAIN: when the wait group reaches zero nothing is left: no session, no slot and no entry
      of any pool; and every backend ever dialled has been closed, but for those of sessions
      that have come back. */
  lemma ShutdownComplete(lim: Limits, st: State)
    requires Inv(lim, st) && st.wg == 0
    ensures st.roster == map[] && st.slots == 0 && st.entries == map[]
    ensures forall b :: Live(st, b) ==> Back(st, st.dialled[b])
  {
    Unfold(lim, st);
    AllFinished(st.cleaners);
    FinishedGateway(lim, st);
    FinishedPools(st);
    FinishedBackends(st);
  }
}
