/** The cleanup goroutine of a frontend session, from the return of front.Wait to its last
    step, when no other thread takes a step in between. */
module SoloCleanup {
  import opened Wrappers
  import opened Protocol
  import opened Paths

  /** State `st` with the goroutine of `f` at `c` and the given locks. */
  function At(st: State, f: Sid, c: Clean, locks: map<Lock, Thread>): State {
    st.(cleaners := st.cleaners[f := c], locks := locks)
  }

  lemma AtStart(st: State, f: Sid)
    requires f in st.cleaners
    ensures At(st, f, st.cleaners[f], st.locks) == st
  {
    assert st.cleaners[f := st.cleaners[f]] == st.cleaners;
  }

  lemma AtMoves(st: State, f: Sid, c: Clean, locks: map<Lock, Thread>, c': Clean)
    ensures SetClean(At(st, f, c, locks), f, c') == At(st, f, c', locks)
  {
    assert st.cleaners[f := c][f := c'] == st.cleaners[f := c'];
  }

  lemma AtUnlocks(st: State, f: Sid, c: Clean, locks: map<Lock, Thread>, l: Lock, t: Thread)
    requires l !in locks
    ensures Unlock(At(st, f, c, locks[l := t]), l) == At(st, f, c, locks)
  {
    assert locks[l := t] - {l} == locks;
  }

  // --- effects ------------------------------------------------------------------------------

  predicate SameGateway(st: State, st': State) {
    && st'.roster == st.roster && st'.slots == st.slots && st'.wg == st.wg
    && st'.closed == st.closed && st'.gctx == st.gctx
  }

  function CancelledOne(st: State, s: Sid): State {
    st.(cancelled := st.cancelled + {s})
  }

  /** refs reached zero: the owner is cancelled, its backend closed and the entry deleted. */
  function Reaped(st: State, key: Key, o: Sid): (after: State)
    ensures after.sessions == st.sessions && SameGateway(st, after)
  {
    if o !in st.sessions then st
    else EndBackend(CancelledOne(st, o), st.sessions[o].backend).(entries := st.entries - {key})
  }

  /** p.release(principal, entry). */
  function Released(st: State, key: Key, o: Sid): (after: State)
    ensures after.sessions == st.sessions && SameGateway(st, after)
  {
    if o !in st.refs then st
    else var fewer := st.(refs := st.refs[o := st.refs[o] - 1]);
         if st.refs[o] == 1 then Reaped(fewer, key, o) else fewer
  }

  /** Under the session's lock: release what was attached, or close the private backend. */
  function LetGo(st: State, f: Sid): (after: State)
    ensures after.sessions == st.sessions && SameGateway(st, after)
  {
    if f !in st.sessions then st
    else match st.sessions[f].release
      case Some(rel) => Released(st, rel.key, rel.entry)
      case None => EndBackend(st, st.sessions[f].backend)
  }

  lemma LetGoReleases(st: State, f: Sid, key: Key, o: Sid)
    requires f in st.sessions && st.sessions[f].release == Some(Release(key, o))
    ensures LetGo(st, f) == Released(st, key, o)
  {
  }

  lemma LetGoCloses(st: State, f: Sid)
    requires f in st.sessions && st.sessions[f].release.None?
    ensures LetGo(st, f) == EndBackend(st, st.sessions[f].backend)
  {
  }

  /** Under the gateway's lock, and the final wg.Done. */
  function Departed(st: State, f: Sid): State {
    if f !in st.sessions || !st.sessions[f].role.Frontend? then st
    else st.(roster := st.roster - {st.sessions[f].role.front}, slots := st.slots - 1, wg := st.wg - 1)
  }

  function CleanedUp(st: State, f: Sid): State {
    Departed(LetGo(CancelledOne(st, f), f), f)
  }

  /** What session `i` and its backend are is the same in both states. */
  ghost predicate Untouched(st: State, st': State, i: Sid) {
    && st'.gctx == st.gctx && (i in st'.cancelled <==> i in st.cancelled)
    && (i in st.sessions ==> i in st'.sessions && st'.sessions[i] == st.sessions[i])
    && (i in st.tokens ==> i in st'.tokens && st'.tokens[i] == st.tokens[i])
    && forall b :: b in st.dialled && st.dialled[b] == i
         ==> b in st'.dialled && st'.dialled[b] == i && (b in st'.ended <==> b in st.ended)
  }

  lemma ReapedUntouched(st: State, key: Key, o: Sid, i: Sid)
    requires o != i && o in st.sessions
    requires var b := st.sessions[o].backend;
             b.Some? ==> b.value in st.dialled && st.dialled[b.value] == o
    ensures Untouched(st, Reaped(st, key, o), i)
  {
  }

  /** Releasing one owner leaves every other session alone. */
  lemma ReleasedUntouched(st: State, key: Key, o: Sid, i: Sid)
    requires o != i && o in st.sessions
    requires var b := st.sessions[o].backend;
             b.Some? ==> b.value in st.dialled && st.dialled[b.value] == o
    ensures Untouched(st, Released(st, key, o), i)
  {
    if o in st.refs {
      var fewer := st.(refs := st.refs[o := st.refs[o] - 1]);
      ReleasedIs(st, key, o, fewer);
      if st.refs[o] == 1 {
        ReapedUntouched(fewer, key, o, i);
        CountUntouched(st, fewer, Reaped(fewer, key, o), i);
      }
    }
  }

  lemma ReleasedIs(st: State, key: Key, o: Sid, fewer: State)
    requires o in st.refs && fewer == st.(refs := st.refs[o := st.refs[o] - 1])
    ensures Released(st, key, o) == if st.refs[o] == 1 then Reaped(fewer, key, o) else fewer
  {
  }

  /** The count itself is no part of a session. */
  lemma CountUntouched(st: State, fewer: State, after: State, i: Sid)
    requires fewer == st.(refs := fewer.refs) && Untouched(fewer, after, i)
    ensures Untouched(st, after, i)
  {
  }

  /** The goroutine's arguments after it has looked at session.release. */
  function Taken(st: State, f: Sid, c: Clean): Clean {
    if f in st.sessions && st.sessions[f].release.Some?
    then Clean(c.pc, st.sessions[f].release.value.key, st.sessions[f].release.value.entry)
    else c
  }

  // --- one step each --------------------------------------------------------------------------

  lemma CancelAt(lim: Limits, st: State, f: Sid, c: Clean, locks: map<Lock, Thread>)
    requires c.pc == CCancel
    ensures Reaches(lim, At(st, f, c, locks), At(CancelledOne(st, f), f, c.(pc := CLockS), locks))
  {
    AtMoves(st, f, c, locks, c.(pc := CLockS));
    var s, t := At(st, f, c, locks), At(CancelledOne(st, f), f, c.(pc := CLockS), locks);
    assert CleanCancel(s, f, t);
    One(lim, s, AClean(f), t);
  }

  lemma LockSAt(lim: Limits, st: State, f: Sid, c: Clean, locks: map<Lock, Thread>)
    requires c.pc == CLockS && SMu(f) !in locks
    ensures Reaches(lim, At(st, f, c, locks),
                    At(st, f, c.(pc := CInspect), locks[SMu(f) := Cleaner(f)]))
  {
    AtMoves(st, f, c, locks, c.(pc := CInspect));
    var s, t := At(st, f, c, locks), At(st, f, c.(pc := CInspect), locks[SMu(f) := Cleaner(f)]);
    assert CleanLockS(s, f, t);
    One(lim, s, AClean(f), t);
  }

  lemma InspectSharedAt(lim: Limits, st: State, f: Sid, c: Clean, locks: map<Lock, Thread>)
    requires c.pc == CInspect && f in st.sessions && st.sessions[f].release.Some?
    ensures Reaches(lim, At(st, f, c, locks), At(st, f, Taken(st, f, c).(pc := CLockP), locks))
  {
    var rel := st.sessions[f].release.value;
    var c' := Clean(CLockP, rel.key, rel.entry);
    AtMoves(st, f, c, locks, c');
    var s, t := At(st, f, c, locks), At(st, f, c', locks);
    assert CleanInspect(s, f, t);
    One(lim, s, AClean(f), t);
  }

  lemma InspectPrivateAt(lim: Limits, st: State, f: Sid, c: Clean, locks: map<Lock, Thread>)
    requires c.pc == CInspect && f in st.sessions && st.sessions[f].release.None?
    ensures Reaches(lim, At(st, f, c, locks), At(st, f, c.(pc := CClosePrivate), locks))
  {
    AtMoves(st, f, c, locks, c.(pc := CClosePrivate));
    var s, t := At(st, f, c, locks), At(st, f, c.(pc := CClosePrivate), locks);
    assert CleanInspect(s, f, t);
    One(lim, s, AClean(f), t);
  }

  lemma ClosePrivateAt(lim: Limits, st: State, f: Sid, c: Clean, locks: map<Lock, Thread>)
    requires c.pc == CClosePrivate && f in st.sessions
    ensures Reaches(lim, At(st, f, c, locks),
                    At(EndBackend(st, st.sessions[f].backend), f, c.(pc := CUnlockS), locks))
  {
    AtMoves(st, f, c, locks, c.(pc := CUnlockS));
    var s, t := At(st, f, c, locks), At(EndBackend(st, st.sessions[f].backend), f, c.(pc := CUnlockS), locks);
    assert CleanClosePrivate(s, f, t);
    One(lim, s, AClean(f), t);
  }

  lemma LockPAt(lim: Limits, st: State, f: Sid, c: Clean, locks: map<Lock, Thread>)
    requires c.pc == CLockP && PMu(c.key.endpoint) !in locks
    ensures Reaches(lim, At(st, f, c, locks),
                    At(st, f, c.(pc := CDecr), locks[PMu(c.key.endpoint) := Cleaner(f)]))
  {
    AtMoves(st, f, c, locks, c.(pc := CDecr));
    var s, t := At(st, f, c, locks), At(st, f, c.(pc := CDecr), locks[PMu(c.key.endpoint) := Cleaner(f)]);
    assert CleanLockP(s, f, t);
    One(lim, s, AClean(f), t);
  }

  lemma DecrAt(lim: Limits, st: State, f: Sid, c: Clean, locks: map<Lock, Thread>, next: CleanPc)
    requires c.pc == CDecr && c.entry in st.refs
    requires next == if st.refs[c.entry] - 1 != 0 then CUnlockP else CCancelOwner
    ensures Reaches(lim, At(st, f, c, locks),
                    At(st.(refs := st.refs[c.entry := st.refs[c.entry] - 1]), f, c.(pc := next), locks))
  {
    AtMoves(st, f, c, locks, c.(pc := next));
    var s := At(st, f, c, locks);
    var t := At(st.(refs := st.refs[c.entry := st.refs[c.entry] - 1]), f, c.(pc := next), locks);
    assert CleanDecr(s, f, t);
    One(lim, s, AClean(f), t);
  }

  lemma CancelOwnerAt(lim: Limits, st: State, f: Sid, c: Clean, locks: map<Lock, Thread>)
    requires c.pc == CCancelOwner
    ensures Reaches(lim, At(st, f, c, locks),
                    At(CancelledOne(st, c.entry), f, c.(pc := CLockO), locks))
  {
    AtMoves(st, f, c, locks, c.(pc := CLockO));
    var s, t := At(st, f, c, locks), At(CancelledOne(st, c.entry), f, c.(pc := CLockO), locks);
    assert CleanCancelOwner(s, f, t);
    One(lim, s, AClean(f), t);
  }

  lemma LockOAt(lim: Limits, st: State, f: Sid, c: Clean, locks: map<Lock, Thread>)
    requires c.pc == CLockO && SMu(c.entry) !in locks
    ensures Reaches(lim, At(st, f, c, locks),
                    At(st, f, c.(pc := CCloseOwner), locks[SMu(c.entry) := Cleaner(f)]))
  {
    AtMoves(st, f, c, locks, c.(pc := CCloseOwner));
    var s, t := At(st, f, c, locks), At(st, f, c.(pc := CCloseOwner), locks[SMu(c.entry) := Cleaner(f)]);
    assert CleanLockO(s, f, t);
    One(lim, s, AClean(f), t);
  }

  lemma CloseOwnerAt(lim: Limits, st: State, f: Sid, c: Clean, locks: map<Lock, Thread>)
    requires c.pc == CCloseOwner && c.entry in st.sessions
    ensures Reaches(lim, At(st, f, c, locks),
                    At(EndBackend(st, st.sessions[c.entry].backend), f, c.(pc := CUnlockO), locks))
  {
    AtMoves(st, f, c, locks, c.(pc := CUnlockO));
    var s, t := At(st, f, c, locks), At(EndBackend(st, st.sessions[c.entry].backend), f, c.(pc := CUnlockO), locks);
    assert CleanCloseOwner(s, f, t);
    One(lim, s, AClean(f), t);
  }

  lemma UnlockOAt(lim: Limits, st: State, f: Sid, c: Clean, locks: map<Lock, Thread>)
    requires c.pc == CUnlockO && SMu(c.entry) !in locks
    ensures Reaches(lim, At(st, f, c, locks[SMu(c.entry) := Cleaner(f)]),
                    At(st, f, c.(pc := CDelete), locks))
  {
    AtMoves(st, f, c, locks[SMu(c.entry) := Cleaner(f)], c.(pc := CDelete));
    AtUnlocks(st, f, c.(pc := CDelete), locks, SMu(c.entry), Cleaner(f));
    var s, t := At(st, f, c, locks[SMu(c.entry) := Cleaner(f)]), At(st, f, c.(pc := CDelete), locks);
    assert CleanUnlockO(s, f, t);
    One(lim, s, AClean(f), t);
  }

  lemma DeleteAt(lim: Limits, st: State, f: Sid, c: Clean, locks: map<Lock, Thread>)
    requires c.pc == CDelete
    ensures Reaches(lim, At(st, f, c, locks),
                    At(st.(entries := st.entries - {c.key}), f, c.(pc := CUnlockP), locks))
  {
    AtMoves(st, f, c, locks, c.(pc := CUnlockP));
    var s, t := At(st, f, c, locks), At(st.(entries := st.entries - {c.key}), f, c.(pc := CUnlockP), locks);
    assert CleanDelete(s, f, t);
    One(lim, s, AClean(f), t);
  }

  lemma UnlockPAt(lim: Limits, st: State, f: Sid, c: Clean, locks: map<Lock, Thread>)
    requires c.pc == CUnlockP && PMu(c.key.endpoint) !in locks
    ensures Reaches(lim, At(st, f, c, locks[PMu(c.key.endpoint) := Cleaner(f)]),
                    At(st, f, c.(pc := CUnlockS), locks))
  {
    AtMoves(st, f, c, locks[PMu(c.key.endpoint) := Cleaner(f)], c.(pc := CUnlockS));
    AtUnlocks(st, f, c.(pc := CUnlockS), locks, PMu(c.key.endpoint), Cleaner(f));
    var s, t := At(st, f, c, locks[PMu(c.key.endpoint) := Cleaner(f)]), At(st, f, c.(pc := CUnlockS), locks);
    assert CleanUnlockP(s, f, t);
    One(lim, s, AClean(f), t);
  }

  lemma UnlockSAt(lim: Limits, st: State, f: Sid, c: Clean, locks: map<Lock, Thread>)
    requires c.pc == CUnlockS && SMu(f) !in locks
    ensures Reaches(lim, At(st, f, c, locks[SMu(f) := Cleaner(f)]),
                    At(st, f, c.(pc := CLockG), locks))
  {
    AtMoves(st, f, c, locks[SMu(f) := Cleaner(f)], c.(pc := CLockG));
    AtUnlocks(st, f, c.(pc := CLockG), locks, SMu(f), Cleaner(f));
    var s, t := At(st, f, c, locks[SMu(f) := Cleaner(f)]), At(st, f, c.(pc := CLockG), locks);
    assert CleanUnlockS(s, f, t);
    One(lim, s, AClean(f), t);
  }

  lemma LockGAt(lim: Limits, st: State, f: Sid, c: Clean, locks: map<Lock, Thread>)
    requires c.pc == CLockG && GMu !in locks
    ensures Reaches(lim, At(st, f, c, locks),
                    At(st, f, c.(pc := CDrop), locks[GMu := Cleaner(f)]))
  {
    AtMoves(st, f, c, locks, c.(pc := CDrop));
    var s, t := At(st, f, c, locks), At(st, f, c.(pc := CDrop), locks[GMu := Cleaner(f)]);
    assert CleanLockG(s, f, t);
    One(lim, s, AClean(f), t);
  }

  lemma DropAt(lim: Limits, st: State, f: Sid, c: Clean, locks: map<Lock, Thread>)
    requires c.pc == CDrop && f in st.sessions && st.sessions[f].role.Frontend?
    ensures Reaches(lim, At(st, f, c, locks),
                    At(st.(roster := st.roster - {st.sessions[f].role.front}), f, c.(pc := CReturnSlot), locks))
  {
    AtMoves(st, f, c, locks, c.(pc := CReturnSlot));
    var s := At(st, f, c, locks);
    var t := At(st.(roster := st.roster - {st.sessions[f].role.front}), f, c.(pc := CReturnSlot), locks);
    assert CleanDrop(s, f, t);
    One(lim, s, AClean(f), t);
  }

  lemma ReturnSlotAt(lim: Limits, st: State, f: Sid, c: Clean, locks: map<Lock, Thread>)
    requires c.pc == CReturnSlot && st.slots > 0
    ensures Reaches(lim, At(st, f, c, locks),
                    At(st.(slots := st.slots - 1), f, c.(pc := CUnlockG), locks))
  {
    AtMoves(st, f, c, locks, c.(pc := CUnlockG));
    var s, t := At(st, f, c, locks), At(st.(slots := st.slots - 1), f, c.(pc := CUnlockG), locks);
    assert CleanReturnSlot(s, f, t);
    One(lim, s, AClean(f), t);
  }

  lemma UnlockGAt(lim: Limits, st: State, f: Sid, c: Clean, locks: map<Lock, Thread>)
    requires c.pc == CUnlockG && GMu !in locks
    ensures Reaches(lim, At(st, f, c, locks[GMu := Cleaner(f)]),
                    At(st, f, c.(pc := CWgDone), locks))
  {
    AtMoves(st, f, c, locks[GMu := Cleaner(f)], c.(pc := CWgDone));
    AtUnlocks(st, f, c.(pc := CWgDone), locks, GMu, Cleaner(f));
    var s, t := At(st, f, c, locks[GMu := Cleaner(f)]), At(st, f, c.(pc := CWgDone), locks);
    assert CleanUnlockG(s, f, t);
    One(lim, s, AClean(f), t);
  }

  lemma WgDoneAt(lim: Limits, st: State, f: Sid, c: Clean, locks: map<Lock, Thread>)
    requires c.pc == CWgDone
    ensures Reaches(lim, At(st, f, c, locks),
                    At(st.(wg := st.wg - 1), f, c.(pc := CEnd), locks))
  {
    AtMoves(st, f, c, locks, c.(pc := CEnd));
    var s, t := At(st, f, c, locks), At(st.(wg := st.wg - 1), f, c.(pc := CEnd), locks);
    assert CleanWgDone(s, f, t);
    One(lim, s, AClean(f), t);
  }

  // --- the goroutine --------------------------------------------------------------------------

  /** The last reference: cancel, close and delete, all under the pool's lock. */
  lemma ReapReaches(lim: Limits, st: State, f: Sid, c: Clean, locks: map<Lock, Thread>)
    requires c.pc == CCancelOwner && c.entry in st.sessions && SMu(c.entry) !in locks
    ensures Reaches(lim, At(st, f, c, locks), At(Reaped(st, c.key, c.entry), f, c.(pc := CUnlockP), locks))
  {
    var held := locks[SMu(c.entry) := Cleaner(f)];
    var s1 := CancelledOne(st, c.entry);
    var s2 := EndBackend(s1, st.sessions[c.entry].backend);
    CancelOwnerAt(lim, st, f, c, locks);
    LockOAt(lim, s1, f, c.(pc := CLockO), locks);
    CloseOwnerAt(lim, s1, f, c.(pc := CCloseOwner), held);
    UnlockOAt(lim, s2, f, c.(pc := CUnlockO), locks);
    DeleteAt(lim, s2, f, c.(pc := CDelete), locks);
    var start := At(st, f, c, locks);
    ReachesOn(lim, start, At(s1, f, c.(pc := CLockO), locks), At(s1, f, c.(pc := CCloseOwner), held));
    ReachesOn(lim, start, At(s1, f, c.(pc := CCloseOwner), held), At(s2, f, c.(pc := CUnlockO), held));
    ReachesOn(lim, start, At(s2, f, c.(pc := CUnlockO), held), At(s2, f, c.(pc := CDelete), locks));
    ReachesOn(lim, start, At(s2, f, c.(pc := CDelete), locks),
              At(Reaped(st, c.key, c.entry), f, c.(pc := CUnlockP), locks));
  }

  /** refs--, and the reaping if there are none left. */
  lemma CountDownReaches(lim: Limits, st: State, f: Sid, c: Clean, locks: map<Lock, Thread>, after: State)
    requires c.pc == CDecr && c.entry in st.sessions && c.entry in st.refs && SMu(c.entry) !in locks
    requires after == Released(st, c.key, c.entry)
    ensures Reaches(lim, At(st, f, c, locks), At(after, f, c.(pc := CUnlockP), locks))
  {
    var s1 := st.(refs := st.refs[c.entry := st.refs[c.entry] - 1]);
    if st.refs[c.entry] == 1 {
      var c2 := c.(pc := CCancelOwner);
      DecrAt(lim, st, f, c, locks, CCancelOwner);
      ReapReaches(lim, s1, f, c2, locks);
      ReachesOn(lim, At(st, f, c, locks), At(s1, f, c2, locks), At(after, f, c.(pc := CUnlockP), locks));
    } else {
      DecrAt(lim, st, f, c, locks, CUnlockP);
    }
  }

  /** An undisturbed release is a run of the protocol. */
  lemma ReleaseReaches(lim: Limits, st: State, f: Sid, c: Clean, locks: map<Lock, Thread>)
    requires c.pc == CLockP && c.entry in st.sessions && c.entry in st.refs
    requires PMu(c.key.endpoint) !in locks && SMu(c.entry) !in locks
    ensures Reaches(lim, At(st, f, c, locks), At(Released(st, c.key, c.entry), f, c.(pc := CUnlockS), locks))
  {
    var held := locks[PMu(c.key.endpoint) := Cleaner(f)];
    var after, start := Released(st, c.key, c.entry), At(st, f, c, locks);
    LockPAt(lim, st, f, c, locks);
    CountDownReaches(lim, st, f, c.(pc := CDecr), held, after);
    ReachesOn(lim, start, At(st, f, c.(pc := CDecr), held), At(after, f, c.(pc := CUnlockP), held));
    UnlockPAt(lim, after, f, c.(pc := CUnlockP), locks);
    ReachesOn(lim, start, At(after, f, c.(pc := CUnlockP), held), At(after, f, c.(pc := CUnlockS), locks));
  }

  lemma LetGoReaches(lim: Limits, st: State, f: Sid, c: Clean, locks: map<Lock, Thread>)
    requires c.pc == CInspect && f in st.sessions
    requires st.sessions[f].release.Some? ==>
               var rel := st.sessions[f].release.value;
               && rel.entry in st.sessions && rel.entry in st.refs
               && PMu(rel.key.endpoint) !in locks && SMu(rel.entry) !in locks
    ensures Reaches(lim, At(st, f, c, locks), At(LetGo(st, f), f, Taken(st, f, c).(pc := CUnlockS), locks))
  {
    var start := At(st, f, c, locks);
    if st.sessions[f].release.Some? {
      var c' := Taken(st, f, c).(pc := CLockP);
      InspectSharedAt(lim, st, f, c, locks);
      ReleaseReaches(lim, st, f, c', locks);
      ReachesOn(lim, start, At(st, f, c', locks), At(LetGo(st, f), f, c'.(pc := CUnlockS), locks));
    } else {
      var c' := c.(pc := CClosePrivate);
      InspectPrivateAt(lim, st, f, c, locks);
      ClosePrivateAt(lim, st, f, c', locks);
      ReachesOn(lim, start, At(st, f, c', locks), At(LetGo(st, f), f, c'.(pc := CUnlockS), locks));
    }
  }

  /** The slot is returned and the gateway unlocked. */
  lemma LeaveReaches(lim: Limits, st: State, f: Sid, c: Clean, locks: map<Lock, Thread>)
    requires c.pc == CReturnSlot && GMu !in locks && st.slots > 0
    ensures Reaches(lim, At(st, f, c, locks[GMu := Cleaner(f)]),
                    At(st.(slots := st.slots - 1, wg := st.wg - 1), f, c.(pc := CEnd), locks))
  {
    var held := locks[GMu := Cleaner(f)];
    var start, s2 := At(st, f, c, held), st.(slots := st.slots - 1);
    ReturnSlotAt(lim, st, f, c, held);
    UnlockGAt(lim, s2, f, c.(pc := CUnlockG), locks);
    WgDoneAt(lim, s2, f, c.(pc := CWgDone), locks);
    ReachesOn(lim, start, At(s2, f, c.(pc := CUnlockG), held), At(s2, f, c.(pc := CWgDone), locks));
    ReachesOn(lim, start, At(s2, f, c.(pc := CWgDone), locks),
              At(s2.(wg := st.wg - 1), f, c.(pc := CEnd), locks));
  }

  lemma DepartReaches(lim: Limits, st: State, f: Sid, c: Clean, locks: map<Lock, Thread>)
    requires c.pc == CLockG && GMu !in locks && st.slots > 0
    requires f in st.sessions && st.sessions[f].role.Frontend?
    ensures Reaches(lim, At(st, f, c, locks), At(Departed(st, f), f, c.(pc := CEnd), locks))
  {
    var held, start := locks[GMu := Cleaner(f)], At(st, f, c, locks);
    var s1 := st.(roster := st.roster - {st.sessions[f].role.front});
    LockGAt(lim, st, f, c, locks);
    DropAt(lim, st, f, c.(pc := CDrop), held);
    LeaveReaches(lim, s1, f, c.(pc := CReturnSlot), locks);
    ReachesOn(lim, start, At(st, f, c.(pc := CDrop), held), At(s1, f, c.(pc := CReturnSlot), held));
    ReachesOn(lim, start, At(s1, f, c.(pc := CReturnSlot), held), At(Departed(st, f), f, c.(pc := CEnd), locks));
  }

  ghost predicate CanCleanUp(st: State, f: Sid) {
    && f in st.cleaners && st.cleaners[f].pc == CCancel
    && f in st.sessions && st.sessions[f].role.Frontend?
    && SMu(f) !in st.locks && GMu !in st.locks && st.slots > 0
    && (st.sessions[f].release.Some? ==>
          var rel := st.sessions[f].release.value;
          && rel.entry in st.sessions && rel.entry in st.refs && rel.entry != f
          && PMu(rel.key.endpoint) !in st.locks && SMu(rel.entry) !in st.locks)
  }

  /** With the session locked, its context already cancelled. */
  lemma UnderLockReaches(lim: Limits, st: State, f: Sid, c: Clean, locks: map<Lock, Thread>, after: State)
    requires c.pc == CInspect && f in st.sessions && st.sessions[f].role.Frontend?
    requires SMu(f) !in locks && GMu !in locks && st.slots > 0
    requires st.sessions[f].release.Some? ==>
               var rel := st.sessions[f].release.value;
               && rel.entry in st.sessions && rel.entry in st.refs && rel.entry != f
               && PMu(rel.key.endpoint) !in locks && SMu(rel.entry) !in locks
    requires after == LetGo(st, f)
    ensures Reaches(lim, At(st, f, c, locks[SMu(f) := Cleaner(f)]),
                    At(Departed(after, f), f, Taken(st, f, c).(pc := CEnd), locks))
  {
    var held := locks[SMu(f) := Cleaner(f)];
    var start, c2 := At(st, f, c, held), Taken(st, f, c).(pc := CUnlockS);
    LetGoReaches(lim, st, f, c, held);
    UnlockedReaches(lim, after, f, c2, locks);
    ReachesOn(lim, start, At(after, f, c2, held), At(Departed(after, f), f, c2.(pc := CEnd), locks));
  }

  lemma UnlockedReaches(lim: Limits, st: State, f: Sid, c: Clean, locks: map<Lock, Thread>)
    requires c.pc == CUnlockS && f in st.sessions && st.sessions[f].role.Frontend?
    requires SMu(f) !in locks && GMu !in locks && st.slots > 0
    ensures Reaches(lim, At(st, f, c, locks[SMu(f) := Cleaner(f)]), At(Departed(st, f), f, c.(pc := CEnd), locks))
  {
    var held, c3 := locks[SMu(f) := Cleaner(f)], c.(pc := CLockG);
    UnlockSAt(lim, st, f, c, locks);
    DepartReaches(lim, st, f, c3, locks);
    ReachesOn(lim, At(st, f, c, held), At(st, f, c3, locks), At(Departed(st, f), f, c3.(pc := CEnd), locks));
  }

  /** An undisturbed cleanup is a run of the protocol. */
  lemma CleanUpReaches(lim: Limits, st: State, f: Sid)
    requires CanCleanUp(st, f)
    ensures Reaches(lim, st, At(CleanedUp(st, f), f, Taken(st, f, st.cleaners[f]).(pc := CEnd), st.locks))
  {
    var c, held := st.cleaners[f], st.locks[SMu(f) := Cleaner(f)];
    var s1 := CancelledOne(st, f);
    AtStart(st, f);
    CancelAt(lim, st, f, c, st.locks);
    LockSAt(lim, s1, f, c.(pc := CLockS), st.locks);
    ReachesOn(lim, st, At(s1, f, c.(pc := CLockS), st.locks), At(s1, f, c.(pc := CInspect), held));
    UnderLockReaches(lim, s1, f, c.(pc := CInspect), st.locks, LetGo(s1, f));
    ReachesOn(lim, st, At(s1, f, c.(pc := CInspect), held),
              At(CleanedUp(st, f), f, Taken(st, f, c).(pc := CEnd), st.locks));
  }
}
