# A verified model of the MCP host bridge

The bridge gives several frontend sessions access to MCP backends on the same host. This
project models the parts of it whose guarantees are global or whose loops are delicate, and
proves those guarantees in Dafny. `dafny verify dfyconfig.toml` checks everything.

## What is modelled

**The shared-backend ownership protocol** (`Protocol.dfy`). Sessions, pools of
reference-counted backends, cleanup goroutines, slots, call tokens, lazy dialling and
shutdown are one labelled step system. Taking a lock, releasing a lock and every access made
under a lock are separate steps, so a run interleaves any number of requests, cleanup
goroutines and callers of `Close` at the grain of the locks. Endpoints, principals,
frontends, sessions and requests are unbounded; sessions are named by incarnation, because
`get` may register the same frontend again after its entry was deleted. `Invariant.dfy` holds
the inductive invariant; `Frames`, `RequestSteps`, `SessionSteps`, `PoolSteps`,
`ConnectSteps`, `CleanFrames`, `CleanSteps`, `ReleaseSteps` and `Preservation` show that
every step keeps it. A dial may succeed at any time: a run of this system is a run of the
code. `Safety` draws the guarantees about single states, `Deadlock` the ones about waiting,
`History` and `Runs` the ones about whole runs, and `Quiescence` shows that everything the
bridge starts comes to an end. `Burial` says exactly when a session gets a live backend after
its close, and `Resurrection` shows two families of runs in which one does. `Refusals` says what the
bridge turns away, and that it turns nothing else away.

**The objects themselves** (`Runtime.dfy`). The Go structs are classes with the same fields,
and `attach`, `release`, `connect`, `get`, the cleanup goroutine and `Close` are methods that
update them. `Solo` and `SoloCleanup` define what one such call does to a protocol state when
nobody else steps in between, and prove that this effect is a run of the protocol; each
method turns objects that model a state into objects that model its effect.

**The bounded readers** (`Lines.dfy`, `Bounds.dfy`). `lineBound` and `totalBound` are classes
over a source that returns data in pieces of any size, with the end reported together with
data or afterwards, and over a model of `bufio.Reader.ReadSlice` with its 4096-byte array that
is reused. `Lines` says what the whole input should deliver.

**Schema compaction** (`Json`, `Schema`, `Meaning`, `MeaningKept`, `Rewrite`). Compaction as a
function on trees; an evaluator for JSON Schema (JSON Schema Core 2020-12, sections 10 and 11,
with `$id` and `$ref` by sections 8.2.1 and 8.2.3.1; a reference to an object or array of
schemas or to a description, which is no schema by section 9.4.2, fails); and the in-place
rewrite over mutable maps, with decoding into fresh maps in front of it.

**Listing, calling and metadata lookup** (`Config`, `Listing`, `Describe`). `Config.Validate`,
the list filters and the gates over whole paginations, and the paging loop of `describeTool`.

## Named assumptions

- `Protocol.FixedPrincipal`: all requests of one frontend carry one principal
  (`SECURITY.md:21-22`). `attach` returns an existing owner without reading the principal
  again, so isolation rests on this.
- A read from a source that has room either returns data or reports the end.
- Encoding a schema to JSON and decoding it again copies the tree.

## When dials succeed

`connect` does not look at the session's context before it dials. The code relies on
`context.AfterFunc` cancelling the call (`internal/bridge/bridge.go:204-207`) and on a dial
under a cancelled context failing (`internal/bridge/process.go:29-31`), but `AfterFunc` is
asynchronous. So nothing is assumed about dials: counts, locks, tokens, slots, isolation, one dial per
session, sticky failure and shutdown hold in every run, whichever dials succeed. What can go
wrong is exactly this. Call a session `Open` while its cleanup or reaping has not passed its
close, and `Back` when it has a live backend although it is not open.

- A dial that succeeds brings its session back if and only if the session is not open
  (`Burial.DialIsSafeIffOpen`), and no other step brings anyone back
  (`Burial.StepBringsNobody`).
- While a call holds the session's lock, whether the session is open cannot change
  (`Burial.LockSettles`), so it is settled before the dial starts. A cancellation that arrives
  during the dial does no harm: the cleanup waits for the lock and then closes the backend.
- Hence, session by session and over whole runs, the promise of
  `internal/bridge/shared.go:23-25` is kept if and only if no dial succeeds for a call that took
  the session's lock after its close, `Burial.LocksOpen` (`Burial.NeverBackIffLocksOpen`). That
  the caller's frontend is not cancelled yet when the call takes the lock,
  `Burial.DialAssumption`, is enough (`Burial.UncancelledLocksSuffice`).
- The code alone does not ensure it: in private scope a session can get a live backend after
  its cleanup is over (`Resurrection.PrivateFails`), and in shared scope a reaped owner can get
  one while its successor has another, so that one principal has two
  (`Resurrection.SharedFails`).

Only statements about live backends depend on this, and they name the sessions concerned:
`LocksOpen` is required of the sessions in `Runs.NoResurrection` and
`Runs.GenerationsNeverOverlap`, and guards the last clause of `Runs.NoOrphan` and
`Runs.ShutdownIsFinal`; the corresponding lemmas of `Safety` speak of `Back`.

## Peers

"Peers are harmless" holds from the moment a backend is established
(`Runs.EstablishedStays`). Before that, the one call that dials decides for every peer: if its
dial fails, no call on that owner ever gets a backend (`Runs.FailedDialDecides`,
`Runs.FailureIsSticky`), and the call's own cancellation is all that such a run needs
(`Runs.FirstDialDecides`).

## Model

| member | source | states |
|---|---|---|
| Preservation.RunInv | internal/bridge/bridge.go:55-107 | every state of every run of the code, under any interleaving of requests, cleanups and closers and with any dials succeeding, satisfies the inductive invariant from which the guarantees below follow |
| Safety.OneLiveBackendPerPrincipal | internal/bridge/shared.go:49-65 | in every reachable state an endpoint has at most one live backend per principal, unless a closed owner of that principal has come back |
| Safety.LiveBackendIsEntry | internal/bridge/shared.go:35-42 | a live backend of a pool owner belongs to the entry the pool holds for that principal now, unless its owner has come back |
| Safety.OneDialPerSession | internal/bridge/bridge.go:91-107 | at most one dial ever succeeds for a session, even between the dial and the store of its result |
| Safety.PrivateBackend | internal/bridge/bridge.go:208-228 | outside shared scope a frontend has at most one backend and it is its own |
| Safety.CountsExactWhenUnlocked | internal/bridge/shared.go:26-55 | when the pool lock is free, refs is the number of attached and unreleased frontends, and an owner is an entry exactly when that number is positive |
| Safety.FreshGeneration | internal/bridge/shared.go:37-42 | a new owner for a principal is made only when no frontend refers to an older one; and all backends of an older one are closed exactly if it has not come back |
| Safety.ReleaseFindsItsEntry | internal/bridge/shared.go:45-55 | the entry captured by the release closure is still the pool's entry, with a positive count, when release runs |
| Safety.NoCloseUnderLivePeer | internal/bridge/shared.go:49-61 | while one attached frontend is not cancelled its owner stays the pool entry and its backend is not closed |
| Safety.ForwardsBounded | internal/bridge/bridge.go:198-227 | forwards in progress to one backend never exceed ConcurrentCalls, over any number of frontends |
| Safety.ReceivesNeverBlock | internal/bridge/bridge.go:198-226 | a call that will return a token finds one in the channel, and a call with an owner token also holds its frontend token, of a different session |
| Safety.IdleMeansNoTokens | internal/bridge/bridge.go:198-226 | every exit path returned what it took: with no call in progress all channels are empty |
| Safety.SlotsExactWhenUnlocked | internal/bridge/bridge.go:64-87 | when g.mu is free the number of taken slots is the number of sessions and within the limit |
| Safety.DropIsOwn | internal/bridge/bridge.go:84-87 | a cleanup deletes the registration of its own incarnation, and its receive from slots never blocks |
| Safety.ForwardsStayWithinPrincipal | internal/bridge/bridge.go:208-232 | a forwarded request reaches a backend of its own, non-empty principal in the pool of its own, stateless endpoint, or of its own session in private scope |
| Safety.SharedIsAttested | internal/bridge/bridge.go:208-223 | at every moment of every run each pool entry and each owner ever made belongs to an endpoint that is shared and attested stateless and to an authenticated principal, and so does every shared call from attach up to its forward |
| Safety.ShutdownComplete | internal/bridge/bridge.go:39-90 | when the wait group is zero no session, slot or pool entry is left, and a backend that is still live is one of a session that has come back |
| Deadlock.WaitingRanks | internal/bridge/shared.go:26-64 | a thread waits only for a lock that ranks above all it holds, by frontend, pool, owner and gateway lock; nobody waits while holding g.mu |
| Deadlock.NoCircularWait | internal/bridge/shared.go:26-64 | no chain of waiting threads closes into a circle |
| Deadlock.BlockedMeansProgress | internal/bridge/bridge.go:55-107 | whenever a thread is blocked on a lock, some thread holding a lock of at least that rank has an enabled step of its own code |
| Quiescence.StepSpends | internal/bridge/bridge.go:39-107 | every step other than the arrival or expiry of a call or a call of Close strictly lowers a natural-number measure of the state, so no piece of a run without those is longer than the measure |
| Quiescence.RestIsQuiet | internal/bridge/bridge.go:39-107 | when no thread can step, every call has returned, every goroutine has ended or waits for its frontend, and every call of Close has returned or waits for such a goroutine; the wait group is zero exactly when no frontend is waited for |
| Quiescence.CloseReturns | internal/bridge/bridge.go:39-52 | once no call arrives and the frontends end, the bridge stops after at most as many steps as the measure, with the wait group at zero, nothing registered and every call of Close returned |
| Runs.NoResurrection | internal/bridge/bridge.go:73-90 | in a run in which no dial for the session succeeds for a call that locked it too late, the session has no live backend from its close on, whatever requests are still in flight |
| Runs.NoOrphan | internal/bridge/shared.go:56-64 | in every run an owner removed from the pool never returns to it, and under that condition on its dials never has a live backend again, dials in progress included |
| Runs.GenerationsNeverOverlap | internal/bridge/shared.go:62-64 | over a run, each backend dialled for a principal is closed before the next one for that principal is live, if no dial for their two owners succeeds for a call that locked too late |
| Runs.ConnectsAgree | internal/bridge/bridge.go:91-107 | all successful connects on one session, at any times, give the same backend |
| Runs.FailureIsSticky | internal/bridge/bridge.go:94-104 | after a failed dial no later connect on that session succeeds and nothing is dialled for it |
| Runs.EstablishedStays | internal/bridge/bridge.go:97-99 | an established session keeps its backend and never fails, whichever calls expire |
| Runs.FirstDialDecides | internal/bridge/bridge.go:91-107 | while a call dials for a shared owner, the expiry of that call alone can lead, through a failing dial and the stored failure, to the refusal of a peer of another frontend that waits for the lock |
| Runs.FailedDialDecides | internal/bridge/bridge.go:100-104 | from the moment a dial has failed, before the failure is even stored, no call on the same session has a backend at any later time of any run |
| Runs.AttachesOnce | internal/bridge/shared.go:32-46 | a frontend attaches to one owner for good and a reference it gave up is never counted again |
| Runs.PeersAreHarmless | internal/bridge/shared.go:49-61 | between attaching and its own cancellation a frontend keeps its owner and an open backend through every peer's coming and going |
| Runs.ClosedAdmitsNobody | internal/bridge/bridge.go:39-60 | once closed is set no session is registered and the wait group only falls |
| Runs.ShutdownIsFinal | internal/bridge/bridge.go:39-52 | once Close has returned no session, slot or pool entry is left and none is added, in every run; and every backend ever dialled for a session under the condition on dials is closed |
| Runs.ReachesKeepInv | internal/bridge/bridge.go:55-107 | any sequence of steps, in particular one whole call, keeps the invariant |
| Refusals.AttachFailsIffCancelled | internal/bridge/shared.go:26-34 | attach fails exactly when the frontend's own context or the gateway's has been cancelled, and changes nothing |
| Refusals.ClosedAttachesNothing | internal/bridge/bridge.go:39-47 | once Close has cancelled the gateway's context no call gets past that check; from the moment none is past it, no session gains an owner, no pool an entry and no entry a reference, for the rest of every run |
| Refusals.ScopeRefusedIffUnattested | internal/bridge/bridge.go:208-218 | a call on a shared endpoint is refused exactly when the endpoint is not attested stateless or the principal is empty |
| Refusals.CallRefusedIffFull | internal/bridge/bridge.go:198-203 | in a reachable state a call is refused for capacity exactly when ConcurrentCalls calls of its frontend have a token |
| Refusals.SharedCallRefusedIffFull | internal/bridge/bridge.go:222-227 | the same for the calls of all frontends on one shared backend |
| Refusals.GetRefusedIffFull | internal/bridge/bridge.go:55-72 | get refuses exactly when the gateway is closed, or the frontend is not registered and as many sessions as configured hold slots; a registered frontend gets its own session |
| Burial.DialIsSafeIffOpen | internal/bridge/bridge.go:100-106 | a successful dial brings its session back if and only if the session is not open, that is, its cleanup has passed the close, a reaping has closed it, or as an owner it has left its pool; nobody else is affected |
| Burial.StepBringsNobody | internal/bridge/bridge.go:73-107 | no step of any thread other than such a dial brings a session back |
| Burial.LockSettles | internal/bridge/bridge.go:91-107 | while a call is inside connect no step of any thread changes whether its session is open |
| Burial.NeverBackIffLocksOpen | internal/bridge/shared.go:23-25 | for every run and session: the session never has a live backend after its close if and only if every successful dial for it is of a call that took its lock while it was open |
| Burial.UncancelledIsOpen | internal/bridge/bridge.go:204-207 | the target of a call whose frontend is not cancelled is open, in private and in shared scope |
| Burial.UncancelledLocksSuffice | internal/bridge/bridge.go:204-207 | a session does not come back if no dial for it succeeds for a call whose frontend was cancelled before it took the lock; a cancellation during the dial is harmless |
| Resurrection.PrivateFails | internal/bridge/shared.go:23-25 | for any limits and any frontend outside shared scope, a run of the code ends with a live backend of a session whose cleanup is over |
| Resurrection.SharedFails | internal/bridge/shared.go:62-64 | for any limits and any two frontends of one principal on a shared endpoint, a run of the code ends with two live backends for that principal |
| Solo.AttachReaches | internal/bridge/shared.go:26-47 | an undisturbed attach, with each of its outcomes, is a run of the protocol |
| Solo.ConnectReaches | internal/bridge/bridge.go:91-107 | an undisturbed connect, whether it finds, dials or fails, is a run of the protocol |
| Solo.GetReaches | internal/bridge/bridge.go:55-90 | an undisturbed get, refusing, finding or registering, is a run of the protocol |
| Solo.CloseReaches | internal/bridge/bridge.go:39-47 | an undisturbed Close up to its unlock is a run of the protocol |
| SoloCleanup.CleanUpReaches | internal/bridge/bridge.go:73-88 | an undisturbed cleanup goroutine, release included, is a run of the protocol |
| SoloCleanup.ReleaseReaches | internal/bridge/shared.go:49-65 | an undisturbed release, with or without reaping, is a run of the protocol |
| SoloCleanup.ReleasedUntouched | internal/bridge/shared.go:49-65 | a release changes no session but the owner it releases |
| Runtime.SessionState.Attach | internal/bridge/shared.go:26-47 | null exactly when the frontend's or the gateway's context is cancelled, and then nothing changes; an owner already attached is returned as it is; otherwise the pool has an entry for this principal, the one it had or a new one, with one more reference, and owner and release name it; frontend and pool model the effect on the protocol |
| Runtime.SessionState.Retain | internal/bridge/shared.go:43-45 | one more reference, on this entry only, and owner and release set to it |
| Runtime.BackendPool.Ensure | internal/bridge/shared.go:37-42 | the entry found, or a blank new owner under the gateway's context |
| Runtime.BackendPool.Release | internal/bridge/shared.go:49-65 | one reference less; with the last one the entry is deleted, its context cancelled and its backend closed, and otherwise these are untouched; pool and owner model the effect on the protocol |
| Runtime.SessionState.Connect | internal/bridge/bridge.go:91-107 | null for a failed session, the backend if there is one; otherwise the dial's result is stored, a failed dial as failed; the session models the effect on the protocol |
| Runtime.Gateway.Get | internal/bridge/bridge.go:55-90 | null exactly when closed, or when the frontend is not registered and no slot is free, and then nothing changes; otherwise the registered session, a new one being blank, counted and given a slot |
| Runtime.Gateway.CleanUp | internal/bridge/bridge.go:73-88 | gateway, session, pool and owner afterwards model the effect of the whole goroutine |
| Runtime.Gateway.Close | internal/bridge/bridge.go:39-47 | closed and cancelled, with every registered frontend in the snapshot once |
| Lines.DeliversLongestGoodPrefix | internal/bridge/bounds.go:24-70 | the bytes delivered are the longest prefix of lines that are each within the limit, valid and ended by byte 10 or by the end of the input; then comes the fault of the first line that is not, or the end of the input |
| Lines.JoinSplit | internal/bridge/bounds.go:40-45 | splitting into lines loses and moves nothing |
| Lines.SplitShape | internal/bridge/bounds.go:40-45 | byte 10 occurs only at the end of a line and only the last line may lack it |
| Lines.DeliversPrefix | internal/bridge/bounds.go:24-70 | only bytes of the input are delivered, in order and from its start |
| Bounds.BufferedReader.ReadSlice | internal/bridge/bounds.go:34-40 | each slice is the next part of the input, ends at a newline, fills the buffer or ends the input, however the source splits its data |
| Bounds.LineBound.Assemble | internal/bridge/bounds.go:38-48 | slices of a reused buffer are put together to exactly the next line, never more than the limit |
| Bounds.LineBound.NextFrame | internal/bridge/bounds.go:38-65 | a frame is made pending only if it is the next good line; each kind of failure is the one the whole input prescribes |
| Bounds.LineBound.Read | internal/bridge/bounds.go:24-70 | for any buffer size the next bytes of the prescribed delivery are handed out; an error comes only when none are left; after the end of the input every later read answers with the end, after any other error with the limit error |
| Bounds.ReadAllLines | internal/bridge/bounds.go:24-70 | reading to the end gives the prescribed bytes and error, independent of read sizes and of how the source splits its data |
| Bounds.TotalBound.Read | internal/bridge/bounds.go:78-94 | the bytes handed out are the source's next ones and counted exactly; the probe of one byte beyond the budget never reaches the caller, and the limit error repeats for ever |
| Bounds.ReadAllBody | internal/bridge/bounds.go:78-94 | reading to the end gives the whole body and its end, or exactly the first limit bytes and the limit error |
| Schema.Shorten | internal/bridge/metadata.go:15-22 | the result has at most limit runes; a longer text keeps its start and ends in the suffix, with no negative slice bound for a limit of at least 39 |
| Schema.ChangesOnlyDescriptions | internal/bridge/metadata.go:42-68 | at every place of the tree nothing differs except string descriptions of reachable schemas, which are shortened |
| Schema.LiteralsKept | internal/bridge/metadata.go:42-60 | the values of const, enum, default, examples, required, type, $ref and $id, and of every key other than the twenty-one keywords and a string description, are left as they are |
| Schema.DescriptionUnder | internal/bridge/metadata.go:46-65 | under each of the six keywords for named schemas and the fifteen for schemas or lists of them, a string description is cut to the limit, ending in the note |
| Schema.CompactIdempotent | internal/bridge/metadata.go:44-68 | compacting twice is compacting once |
| MeaningKept.CompactionKeepsMeaning | internal/bridge/metadata.go:42-68 | an instance is valid against the compacted schema exactly when it is valid against the original, with the same evaluated properties and items, for every dialect and nesting depth, references into keywords that compaction does not walk included; type, const, enum, required and the bounds are read from the compacted object itself |
| MeaningKept.ResolveCompact | internal/bridge/metadata.go:49-67 | a reference to a subschema finds its compacted form, and one through a keyword that compaction does not walk finds the same text as before |
| MeaningKept.StrayReferenceDiffers | internal/bridge/metadata.go:49-55 | read as a schema, an object of named schemas can accept an instance before compaction and reject it afterwards, so references to such containers are outside the theorem |
| Rewrite.Document.ShortenSchema | internal/bridge/metadata.go:44-68 | the in-place rewrite changes only cells of its tree and leaves the compacted value, whatever order maps are visited in |
| Rewrite.Document.ShortenNamed | internal/bridge/metadata.go:50-54 | each named child compacted, in any order, the others untouched |
| Rewrite.Document.Decode | internal/bridge/metadata.go:32-37 | decoding makes a tree of maps that nothing else refers to |
| Rewrite.Document.CompactSchema | internal/bridge/metadata.go:24-40 | a compacted copy that shares no map with the original, which is left as it was and may share maps within itself; no schema stays none |
| Rewrite.ValueKept | internal/bridge/metadata.go:42-43 | a value none of whose maps is rewritten keeps its meaning |
| Config.Config.Validate | internal/config/config.go:94-198 | accepts exactly the policies whose parts are acceptable once the defaults are filled in, in any visiting order, and fills in the defaults and nothing else |
| Config.Config.CheckLimits | internal/config/config.go:133-157 | zero limits become 16, 4, 60, 300, 1 MiB and 4 MiB, any other is kept, and all must be in range |
| Config.LimitsAccepted | internal/config/config.go:133-157 | the limits accepted, in terms of what the policy said: zero or within the range of each field |
| Config.CheckServer | internal/config/config.go:160-195 | no fault exactly when the server's policy is acceptable (description limit 0, or 64 to 4096 without the reserved name; shared exactly when attested stateless; one source; sound allowlists, not all empty), and each fault says what is wrong |
| Config.CheckList | internal/config/config.go:187-194 | an allowlist passes exactly when it has no empty, wildcard or duplicate entry |
| Listing.Allowed | internal/bridge/bridge.go:109-116 | membership in the list |
| Listing.ForwardTools | internal/bridge/bridge.go:244-274 | a page becomes its allowed tools as presented, with the helper at the end of a first page only |
| Listing.PresentedFields | internal/bridge/metadata.go:70-81 | a presented tool has the name, the cut description and each of its own two schemas compacted; without a limit it is unchanged |
| Listing.ExposedInOrder | internal/bridge/bridge.go:250-262 | the tools kept are those at the positions of allowed names, all of them, once each, in order and as presented |
| Listing.PaginationAgrees | internal/bridge/bridge.go:244-270 | paging through the bridge gives the filter of everything upstream, in order, with the helper once, at the end of the first page |
| Listing.SameCursors | internal/bridge/bridge.go:244-270 | the client is led through the upstream's own cursors and its pagination ends when the upstream's does |
| Listing.HelperOnce | internal/config/config.go:164-168 | the helper is the only listed tool of its name, given the reserved-name rule |
| Listing.ListedIffCallable | internal/bridge/bridge.go:159-174 | every listed tool passes the tools/call gate, and an upstream tool is listed exactly when it does |
| Listing.CallGate | internal/bridge/bridge.go:163-174 | the helper is admitted exactly about a tool on the allowlist, and any other name exactly when it is on the allowlist |
| Listing.ForwardNamed | internal/bridge/bridge.go:280-305 | the entries of a forwarded page are those of the upstream page whose name is on the list, and its cursor is the upstream's |
| Listing.KeptInOrder | internal/bridge/bridge.go:280-305 | the entries kept are those at the positions of names on the list, all of them, once each, unchanged and in order |
| Listing.KeptPagination | internal/bridge/bridge.go:275-306 | over a whole pagination the client follows the upstream's cursors and sees exactly the listed entries of all pages, once each and in order |
| Describe.DescribeTool | internal/bridge/metadata.go:109-141 | refused, with nothing asked, exactly when the target is missing or not on the allowlist; otherwise 1 to 64 requests from the empty cursor on, and a tool found has the target's name; requests and answer are those of the specified walk |
| Describe.WalkBounded | internal/bridge/metadata.go:114-121 | for any backend at most 64 requests are made and no cursor is requested twice |
| Describe.LastPageDecides | internal/bridge/metadata.go:114-140 | the answer is told by the last page asked for: a tool on it, its failure, the end of the list or the 64th page, or a next cursor whose hash was seen |
| Describe.FindsFirst | internal/bridge/metadata.go:114-138 | if the pages that the walk is given have the tool, the tool on the first of them that has it is returned, after exactly the requests up to it, if and only if that page is among the first 64 and no two cursors up to it have the same hash; the backend may change between requests |
| Describe.FoundIsFirst | internal/bridge/metadata.go:122-134 | whatever is returned is the first tool of that name in cursor order |
| Describe.DeterministicFinds | internal/bridge/metadata.go:114-138 | for a backend that does not change during the walk, and a hash that does not confuse its first 64 cursors, the tool is found whenever one of the first 64 pages has it |
| Describe.RejectionIsFinal | internal/bridge/metadata.go:114-141 | for such a backend and hash a rejection other than at the page limit means no page reachable by cursors holds the tool |

## Left out

- Dialling, spawning processes, pipes, signals and the transports: a dial returns a backend or fails, and closing ends a backend; a child started by a dial that then fails is not represented.
- A backend that ends by itself: the protocol tracks which backends the bridge has closed, not which have crashed.
- Time: a call timeout, a client's cancellation and the propagation of a context's cancellation are events that may happen at any moment.
- `Gateway.Close` calling Close on its snapshot of frontends: a frontend may end at any time, so the calls add no behaviour.
- Fairness: that an enabled step is eventually taken, or that a dial or a forwarded call returns at all, is not claimed; `Quiescence` bounds the steps that can be taken and says what holds when none is left.
- Runtime: the methods run undisturbed; interleavings are covered by the step system. Taking and returning call tokens is modelled only there.
- The SDK, HTTP serving, keep-alive, `privateResult`, `boundedHTTP`, headers, tokens and origin checks: single-branch wrappers or library code.
- Parsing of URLs, addresses, names, registry and policy files: arbitrary predicates in `Config.Parsers`; `Resolve` and `Registry` are not modelled.
- Rewrite: references between maps are numbered cells of one document instead of Dafny objects; aliasing and update in place are kept.
- Listing.CallGate: covers tools/call; the gates for prompts and resources are the same membership test, and refusals carry no error codes.
- Bytes that are not valid UTF-8 in a tool description: texts are sequences of runes.
- Errors of `json.Marshal` and `json.Decode` in `compactSchema` and `describeTool`: trees and tools always encode.
- bufio's ErrNoProgress after 100 empty reads, excluded by the assumption on sources.
- MeaningKept.CompactionKeepsMeaning: a `$ref` to an object or array of schemas, or to a string description, fails before and after compaction, because those are not schemas and reading them as such would not survive it (`MeaningKept.StrayReferenceDiffers`).
- JSON Schema keywords that take no schema, regular expressions, number syntax and equality of values: arbitrary in `Meaning.Dialect`, as is what minContains and maxContains admit; `$dynamicRef` is not followed.
