# A verified model of the setpoint control plane

setpoint converges declared resources (containers and networks) by level-triggered
reconciliation: users write a Spec through a server, workers take keys from a
deduplicating queue, read the store, resolve references through other resources'
Status, and create, replace or remove objects in Docker. The strongest promises of that
design hold only because its parts work together. This project models the parts and
proves the promises over every interleaving and every run.

Run `dafny verify dfyconfig.toml` (Dafny 4.11) to check it.

## How it is organised

| Files | What they hold |
|---|---|
| `Model`, `Engine`, `Ordered` | resources, references, Status; the Docker objects; references in name order |
| `Backoff`, `Queues`, `QueueRuns`, `Wakeups` | the rate limiter and work queue as classes, runs of queue operations, the worker pool with its condition variable |
| `Store`, `Storage` | the store contract on a pure map; the in-memory store on an explicit heap |
| `Tokens`, `JsonStrings`, `JsonText` | the token scanner, JSON string escaping and decoding, a JSON lexer, grammar and canonical form |
| `JsonGrammar`, `Fingerprints`, `Marshalling` | lexer and parser against the grammar of RFC 8259; which Specs share a fingerprint; the bytes that are hashed |
| `Substitution`, `DocumentSubstitution`, `Cascade`, `MemberNames` | what substitution does to a string, to a document and to a fingerprint |
| `Admission` | what the server accepts, and what that guarantees at resolution |
| `System`, `SystemInvariant`, `SystemFootprint`, `Segments` | the concurrent system: one step per mutex-protected operation or Docker call; its invariant; the stretch of a run that is one pass |
| `SystemTheorems`, `Ordering`, `AbsorbedWrites`, `TeardownProgress`, `ReportedIds` | what holds in every reachable state and over every run |
| `Passes`, `PassFrame`, `PassVerdicts`, `Simulation` | one whole pass as a function; what its object, Status and outcome mean; a worker running alone computes it |
| `Provider`, `Reconciling` | the Docker providers and the reconciler as imperative classes, proved against that function |
| `Convergence`, `Stranding` | rounds of passes: how soon everything is Ready, and what is never repaired |
| `OverlappingRounds`, `Teardown` | runs of the whole system in which passes of different keys overlap: how soon everything is Ready, and how soon everything is gone |

A Go string or byte slice is a `seq<char>` whose chars are bytes. `History` in module
`System` records what happened; no step reads it.

## What the code does not promise

Four expectations turned out false of the code. Each is shown by a lemma on a concrete
input or run. For the first, second and fourth the exact condition is proved as an if
and only if; for the third a sufficient one.

- The repository's README.md:35-36, 61 says that a container stopped with `docker kill`
  heals. The code acts only on objects that are missing or stale
  (core/reconcile/reconciler.go:344-365), and its own test pins that. The model follows
  the code: `Stranding.KilledStaysKilled`, `Stranding.FailedStartStrands`. A stopped
  object is repaired by a fault-free pass if and only if the Spec that pass resolves has
  another fingerprint than the object (`Stranding.RepairedIffStale`); until a pass does,
  it stays stopped whatever happens (`Stranding.StrandedForever`).
- A write the server accepts can have no effect at all: a Put to a marked entry that a
  worker is about to erase goes with the entry (`AbsorbedWrites.AWriteCanBeAbsorbed`).
  A Put or Delete is kept in every run that follows if and only if no worker stands
  between reading the mark of its key and erasing the entry when it is made
  (`AbsorbedWrites.NoLostWriteIff`); so one that finds its entry absent or unmarked
  always is (`AbsorbedWrites.UnmarkedWriteIsNeverLost`).
- A replaced value need not make its dependents stale: with a token inside a member
  name, two members can collide and the canonical form stays
  (`MemberNames.TokenInANameHidesTheChange`). It is sufficient that the Spec repeats no
  name and has no token in one (`MemberNames.ReplacementAlwaysShows`). That is not
  necessary, but every change that stays hidden comes from a repeated name: one of the
  two substituted documents has one (`MemberNames.HiddenChangeRepeatsAName`).
- The comment at core/reconcile/queue.go:55 says that capping the shift avoids overflow.
  It does if and only if the base is below 2^43 ns (`Backoff.ShiftNeverOverflowsIff`);
  the configured base is.

Two further boundaries: an empty substituted value could join the halves of a surrogate
pair (`Substitution.EmptyValueJoinsSurrogates`), but resolution never yields an empty
value (`Admission.ResolvedStringsDecode`); and the store's string key corresponds to the
queue's (kind, name) key only for kinds without a slash (`Storage.StoreKeyIsInjective`,
`Storage.SlashedKindsCollide`).

## Assumptions

- SHA-256 is collision free: a fingerprint is the canonical JSON value, equal exactly when
  the bytes that are hashed are (`Marshalling.FingerprintIsOfBytes`).
- Docker never issues an object id twice, and refuses to remove a network exactly while
  a container is attached to it.
- Only the control plane creates objects with its ownership labels; anybody may remove
  or stop them.
- Runs begin with an empty store and no owned objects. The store is in memory, so a
  restart is a new run.
- The convergence results assume what each of them names in its preconditions: calls
  succeed, ids are fresh, a stale network is not in use, nothing up to date is stopped.
  With networks that reference nothing, and a substrate in which every container runs
  and every network matches its Spec, the last two are proved
  (`Convergence.ConvergesWhenTidy`). An empty one is such (`Convergence.NothingIsTidy`).

## Model

| member | source | states |
|---|---|---|
| Backoff.ShiftNeverOverflowsIff | core/reconcile/queue.go:55-60 | the shift capped at 20 doublings never overflows 64 bits if and only if the base is below 2^43 ns |
| Backoff.OverflowShortensTheDelay | core/reconcile/queue.go:60-64 | beyond that bound a delay can fall below the base: 2^44 + 1 ns after twenty failures |
| Backoff.DelayStaysInBounds | core/reconcile/queue.go:48-65 | every delay lies between base and max |
| Backoff.DelayNeverShrinks | core/reconcile/queue.go:48-65 | more failures in a row never wait less |
| Backoff.DelayIsExponentialIff | core/reconcile/queue.go:48-65 | the delay is min(base * 2^n, max) for every n if and only if 21 doublings reach max |
| Backoff.ConfiguredDelayIsExponential | core/reconcile/reconciler.go:29-31 | with the configured 5 ms and 1000 s the delay is exponential up to the cap for every failure count |
| Backoff.TotalDelayClosedForm | core/reconcile/queue.go:48-65 | the total of the first n delays: geometric up to the first capped one, then linear |
| Backoff.ConfiguredTotalDelay | core/reconcile/reconciler.go:29-31 | for the configured bounds the total is 5 ms * (2^n - 1) for up to 18 failures, then 1000 s more for each |
| Backoff.RateLimiter.When | core/reconcile/queue.go:48-65 | the delay for the failures counted so far, and one more failure counted for this key only |
| Backoff.RateLimiter.Forget | core/reconcile/queue.go:67-71 | this key's count is gone, the others stay |
| Queues.WorkQueue.Add | core/reconcile/queue.go:103-119 | the new queue state: no change when shut down or already dirty, dirty only while held, else appended |
| Queues.WorkQueue.AddAfter | core/reconcile/queue.go:124-130 | a positive delay arms one timer and changes nothing else; otherwise the key is added now |
| Queues.WorkQueue.AddRateLimited | core/reconcile/queue.go:134-136 | a failing key always goes through a timer and its failure count grows by one |
| Queues.WorkQueue.Fire | core/reconcile/queue.go:129 | a timer that fires is spent and adds its key |
| Queues.WorkQueue.Take | core/reconcile/queue.go:152-160 | the oldest ready key becomes held and clean; shutdown is reported exactly when nothing is ready |
| Queues.WorkQueue.Release | core/reconcile/queue.go:165-174 | the key is no longer held, and is ready again exactly if it was re-marked meanwhile |
| Queues.WorkQueue.Forget | core/reconcile/queue.go:139-141 | only the key's failure count is reset |
| Queues.WorkQueue.Stop | core/reconcile/queue.go:178-183 | the queue is closed with its contents unchanged |
| QueueRuns.RunKeepsOk | core/reconcile/queue.go:80-183 | over every sequence of operations ready has no duplicates and lists exactly the dirty keys nobody holds |
| QueueRuns.AcceptedEnqueuesAreGotten | core/reconcile/queue.go:103-161 | per key, accepted enqueues equal gets plus one if the key is still dirty |
| QueueRuns.FirstInFirstOut | core/reconcile/queue.go:145-161 | a key at position i is returned by exactly the (i+1)-th later get, whatever happens in between |
| QueueRuns.HeldByOneWorker | core/reconcile/queue.go:100-161 | a held key is not handed out again before its done |
| QueueRuns.RerunExactlyOnce | core/reconcile/queue.go:100-102 | any number of enqueues while a key is held make it ready once after done (with core/reconcile/queue.go:163-174) |
| QueueRuns.ShutdownDrains | core/reconcile/queue.go:176-183 | after shutdown dirty never grows and the successful gets are exactly the keys that leave it |
| QueueRuns.RefinesLine | core/reconcile/queue.go:79-174 | slice and two maps refine a line of keys that are idle, pending, running or running-dirty |
| QueueRuns.LineListsPending | core/reconcile/queue.go:79-88 | the line lists exactly the pending keys |
| Wakeups.NeverAllAsleepWithWork | core/reconcile/queue.go:113-118 | under signal-and-continue waiting with barging, while a worker is blocked the ready keys are at most the workers already woken (with core/reconcile/queue.go:145-151) |
| Wakeups.PoolRunsQueue | core/reconcile/queue.go:145-174 | whatever the pool does is a legal run of the queue |
| Wakeups.ExitedPoolLeftNothing | core/reconcile/reconciler.go:96-117 | when all workers have exited, ready, dirty and processing are empty, late re-adds included |
| Wakeups.ShutdownTerminates | core/reconcile/reconciler.go:153-161 | after shutdown the number of worker steps is bounded by the work left |
| Wakeups.ShutdownNeverStuck | core/reconcile/queue.go:176-183 | after shutdown some worker can always step until all have exited |
| Store.UsersKeepStatus | core/store/store.go:17-23 | over any run of user writes the Status of an existing entry stays, the entry stays, and so does its mark |
| Store.ReconcilerKeepsSpec | core/store/store.go:17-42 | over any run of reconciler writes a surviving entry keeps Spec, References and mark, and none is added |
| Store.MarkIsSticky | core/store/memory.go:33-38 | through any mix of operations a mark disappears only with its entry (with core/store/memory.go:86-98) |
| Storage.CopyResource | core/store/memory.go:111-123 | an equal resource none of whose parts existed before |
| Storage.CopyStatus | core/store/memory.go:125-136 | an equal Status whose Observed map, if any, is new |
| Storage.Memory.Put | core/store/memory.go:27-45 | every other record is as before; this one has the caller's Spec and references and the time of the write; if it was there it keeps Status, creation time and mark, else it is created now; nothing is shared with the caller |
| Storage.Memory.Get | core/store/memory.go:47-56 | not found exactly when absent; else a fresh copy of the stored value |
| Storage.Memory.List | core/store/memory.go:58-69 | a fresh copy of every entry of the kind, each once, and of no other |
| Storage.Memory.UpdateStatus | core/store/memory.go:71-84 | only the Status of this entry changes; the caller's map is not kept |
| Storage.Memory.MarkForDeletion | core/store/memory.go:86-98 | every other record is as before; this one gets the time of the request as its mark, unless it already has one |
| Storage.Memory.Delete | core/store/memory.go:100-109 | exactly this key goes; not found exactly when absent |
| Storage.GetIsIsolated | core/store/memory.go:11-13 | whatever a caller writes to what Get returned, the store does not change (with core/store/memory.go:55) |
| Storage.PutIsIsolated | core/store/memory.go:11-13 | whatever a caller writes after Put to what it passed in, the store holds what was put (with core/store/memory.go:31) |
| Storage.UpdateStatusIsIsolated | core/store/memory.go:79-82 | whatever a caller writes afterwards to the Observed map passed to UpdateStatus, the store keeps the Status that was set |
| Storage.StoreKeyIsInjective | core/store/memory.go:25 | keys with slash-free kinds correspond one to one with their strings |
| Storage.SlashedKindsCollide | core/store/memory.go:25 | with a slash in a kind two different keys share an entry |
| Storage.FindsTheSame | core/store/memory.go:47-56 | the store finds an entry under its string exactly when the contract finds it under its key, with equal content |
| Storage.OpRefines | core/store/memory.go:25-109 | each store operation does to the pure map what the contract says |
| Storage.RunRefines | core/store/store.go:17-42 | over any run of operations the stored records are the contract's map |
| Storage.CreatedNeverChanges | core/store/memory.go:27-45 | over any run an entry that is not removed keeps its creation time, and once marked the time of its mark (with core/store/memory.go:86-98) |
| Tokens.TokenTextMatches | core/api/resource.go:45-47 | the text of a token with a valid name is matched as that token, whatever follows |
| Tokens.TokenIff | core/api/resource.go:45-47 | a text starts with a token of a name exactly when it starts with `$(ref:`, the name, which consists of letters, digits, `_`, `.` and `-`, and `)` |
| Tokens.NoMatchInsideAMatch | core/api/resource.go:45 | matches cannot overlap |
| Tokens.ScanFindsEveryMatch | core/api/resource.go:57-63 | the left-to-right scan finds every position where a token matches |
| Tokens.ScanIsIncreasing | core/api/resource.go:55-63 | the scan yields each such position once, in order, and nothing else |
| Tokens.TokensAreScanned | core/api/resource.go:55-63 | the listed names are the names at the scanned positions, in order, duplicates kept |
| Tokens.EveryTokenIsListed | core/api/resource.go:57-63 | no matching token goes unlisted |
| Tokens.SubstitutionFillsHoles | core/api/resource.go:65-82 | substitution replaces each token once and keeps every other byte |
| Tokens.PiecesCoverSpec | core/api/resource.go:57-82 | the pieces it works on are those of the Spec, their holes its tokens in order |
| Tokens.UnusedValuesChangeNothing | core/api/resource.go:67-75 | tokens without a value are left untouched |
| Tokens.ChangedValueChangesBytes | core/api/resource.go:69-82 | if one value changes and some token uses it the substituted bytes differ, however many tokens there are |
| JsonStrings.DecodeConcat | core/api/resource.go:76-80 | decoding a string body distributes over a cut, unless it splits a UTF-8 sequence or a surrogate pair |
| JsonStrings.EscapeDecodes | core/api/resource.go:76-80 | an escaped value is a legal string body that decodes to the value, stray bytes replaced, whatever follows |
| JsonStrings.EscapeRoundTripsIff | core/api/resource.go:76-80 | decode of escape is the value if and only if the value is valid UTF-8 |
| JsonStrings.SimpleEscapes | providers/docker/provider.go:212-214 | what each two-byte escape of section 7 of RFC 8259 stands for |
| JsonStrings.SurrogatesDecode | providers/docker/provider.go:212-214 | two escapes that are the UTF-16 of a code point decode to it |
| JsonStrings.EscapeDecodesUnit | providers/docker/provider.go:212-214 | a single escape decodes to its code point, and a lone low half to the replacement character |
| JsonStrings.HexBothCases | providers/docker/provider.go:212-214 | the hexadecimal digits of an escape may be in either case |
| JsonStrings.EncodeReadsBack | providers/docker/provider.go:212-214 | the bytes a decoded escape yields are the UTF-8 of the code point (section 3 of RFC 3629) |
| Substitution.SubstitutedBodyIsValid | core/api/resource.go:65-82 | substituting in a legal string body leaves a legal string body |
| Substitution.SubstitutedStringDecodes | core/api/resource.go:65-82 | with no empty value, a substituted literal decodes to its literal segments interleaved with the raw values |
| Substitution.EmptyValueJoinsSurrogates | core/api/resource.go:69-82 | with an empty value a substituted literal can decode otherwise: two surrogate halves join |
| JsonGrammar.NumberIff | providers/docker/provider.go:212-222 | a text is accepted as a number exactly when it is sign, integer, fraction and exponent as section 6 of RFC 8259 has them |
| JsonGrammar.LexIff | providers/docker/provider.go:212-222 | a text lexes to some lexemes exactly when it is laid out from them with white space, two numbers never touching (section 2 of RFC 8259) |
| JsonGrammar.DocumentIff | providers/docker/provider.go:212-222 | a text is a document with a value exactly when it is laid out from lexemes that denote the value (sections 2 to 7 of RFC 8259) |
| Fingerprints.WhiteSpaceIsNoChange | providers/docker/provider.go:203-211 | texts laid out from the same lexemes have one fingerprint |
| Fingerprints.FingerprintIff | providers/docker/provider.go:203-211 | Specs that repeat no member name have the same fingerprint exactly when their values are equal up to the order of members, at any depth |
| Fingerprints.CanonicalKeepsValue | providers/docker/provider.go:212-218 | the canonical form of a Spec that repeats no member name is its value, with members sorted by name |
| Fingerprints.LastMemberWins | providers/docker/provider.go:212-222 | a member followed by another of its name plays no part in the fingerprint |
| Fingerprints.RawBytesCount | providers/docker/provider.go:210-218 | a Spec that is no JSON shares its fingerprint with nothing but itself |
| Marshalling.MarshalRoundTrips | providers/docker/provider.go:215-218 | a value of words, numbers and valid UTF-8 strings, written out, is read back as that value |
| Marshalling.FingerprintIsOfBytes | providers/docker/provider.go:212-222 | two Specs have the same fingerprint exactly when the bytes hashed for them are equal |
| DocumentSubstitution.SubstitutionKeepsLexemes | core/api/resource.go:65-82 | substitution changes the bodies of string lexemes and nothing else |
| DocumentSubstitution.SubstitutionPreservesJson | core/reconcile/reconciler.go:258-265 | if the Spec is JSON (RFC 8259) so is the result, lexeme for lexeme: the check after the splice cannot fail (with core/api/resource.go:65-68) |
| Cascade.TokensAreInStrings | core/api/resource.go:40-47 | in a document every token lies inside a string |
| Cascade.CanonicalPermutes | providers/docker/provider.go:208-218 | canonicalization without repeated member names permutes the strings of a document |
| Cascade.ReplacementCascades | providers/docker/provider.go:91 | if one resolved value used by a token changes, the fingerprint of the substituted Spec changes (no repeated names after substitution) (with providers/docker/provider.go:203-222) |
| MemberNames.NamesStayDistinct | core/api/resource.go:65-82 | with no token in a member name, substitution neither makes nor removes repeated names |
| MemberNames.ReplacementAlwaysShows | providers/docker/provider.go:203-222 | if the Spec repeats no member name and has no token in one, changing a value it uses always changes the fingerprint (with core/reconcile/reconciler.go:344-365) |
| MemberNames.HiddenChangeRepeatsAName | providers/docker/provider.go:203-222 | when one used value changes, none being empty, and the fingerprint stays, one of the two substituted documents repeats a member name |
| MemberNames.TokenInANameHidesTheChange | providers/docker/provider.go:212-222 | a Spec without repeated names but with a token in one, whose fingerprint does not change |
| Admission.NormalizingTwiceIff | core/server/server.go:55-60 | normalizing a kind again keeps it exactly when it does not end in s, and "s" becomes empty |
| Admission.NormalizedIff | core/server/server.go:55-60 | the normalized kind is the one text without upper-case letters that is the kind, in either case, without its final s |
| Admission.SameKind | core/server/server.go:55-60 | upper and lower case, singular and plural address the same kind |
| Admission.CheckReferences | core/server/server.go:77-89 | accepted exactly when every name is addressable and every field is filled; a rejection names a faulty entry and its fault |
| Admission.ValidateReferences | core/server/server.go:75-96 | accepted exactly when every name is one a token can address, every kind, name and field is filled, and every token is declared; accepted references keep name and field and have their kind normalized; an undeclared token reported is the first one |
| Admission.Server.Put | core/server/server.go:98-131 | a rejected write changes nothing; an accepted one stores Spec and normalized references under the normalized kind, keeps Status and mark of an entry that was there, leaves every other entry, and nudges; every stored Spec stays one whose tokens are declared |
| Admission.Server.Delete | core/server/server.go:158-169 | found exactly when present; marks and nudges, else changes nothing |
| Admission.EveryMatchIsDeclared | core/server/server.go:90-94 | in an accepted Spec every position where a token matches has a declared name |
| Admission.ResolutionVerdict | core/reconcile/reconciler.go:238-256 | resolution succeeds exactly when every read does and every target is present, Ready and has the field set; otherwise it waits for the first reference in name order that is not |
| Admission.ResolvedValues | core/reconcile/reconciler.go:238-256 | when resolution succeeds exactly the declared names have values, each the non-empty one its Ready target reports |
| Admission.WaitsFor | core/reconcile/reconciler.go:240-255 | a reference waits for its target to exist, then to be Ready, then to have the field; it waits for nothing exactly when a value is reported |
| Admission.ResolvesIffResolvable | core/reconcile/reconciler.go:238-256 | with no failing read, references resolve exactly when every target is there, Ready and has the field, and park otherwise |
| Admission.ResolvedIsSpliced | core/reconcile/reconciler.go:227-266 | the Spec handed on is the declared one with every token of a declared reference replaced by its target's escaped value; with nothing declared it is the Spec itself; it is refused exactly when the splice is no JSON |
| Admission.AcceptedIsSpliced | core/server/server.go:75-96 | of an accepted Spec no token is left over: the Spec handed on is the splice of its pieces (with core/reconcile/reconciler.go:258-260) |
| Admission.AdmissionClosesResolution | core/server/server.go:75-96 | when resolution succeeds every token of an accepted Spec is replaced once by its escaped value and no other byte changes (with core/reconcile/reconciler.go:227-260) |
| Admission.ResolvedStringsDecode | core/reconcile/reconciler.go:252-259 | when resolution succeeds every string literal decodes to its segments interleaved with the values the targets report |
| Admission.NoReferencesIsIdentity | core/reconcile/reconciler.go:228-230 | with nothing declared an accepted Spec has no token, so the shortcut agrees with substituting |
| Provider.Docker.Observe | providers/docker/provider.go:77-109 | absence, or the report on the key's only object: the first 12 bytes of its id under containerId or networkId, its image and state or its driver, Ready exactly when it runs, up to date exactly when its hash is the Spec's (with providers/docker/network.go:53-78) |
| Provider.Docker.Create | providers/docker/provider.go:111-148 | succeeds exactly when no call fails; then there is one object more, with the key, the fingerprint of the Spec, and the image and network, or the driver, the Spec decodes to, a container running; a failed start leaves that container stopped (with providers/docker/network.go:80-93) |
| Provider.CreatedIsAttached | providers/docker/provider.go:127-139 | a container created on a network that is there, named by id, short id or name, is attached to it, and Docker then refuses to remove the network |
| Provider.Docker.Update | providers/docker/provider.go:150-161 | removal then creation, stopping where the first of them fails (with providers/docker/network.go:95-104) |
| Provider.Docker.Delete | providers/docker/provider.go:163-181 | success leaves no owned object of the key; failure names a cause; nothing else is touched either way (with providers/docker/network.go:111-128) |
| Reconciling.SortedReferences | core/reconcile/reconciler.go:232-236 | whatever the map order, one result: the references in name order |
| Reconciling.Reconciler.ResolveReferences | core/reconcile/reconciler.go:227-267 | the Spec spliced from the values the targets report, the message of the first reference in name order that cannot be read, or an error; with no failing read it waits exactly when some reference cannot be read |
| Reconciling.Reconciler.ConvergeObject | core/reconcile/reconciler.go:330-380 | substrate, Status and outcome of converge in every combination of failing calls; a success with none failing leaves the one object of the Spec, as the Status tells it; a kind other than container and network is left alone with an Error Status; one object per key stays so |
| Reconciling.Reconciler.ReconcileDeletion | core/reconcile/reconciler.go:274-301 | store, substrate and outcome of the removal path |
| Reconciling.Reconciler.Reconcile | core/reconcile/reconciler.go:196-216 | a marked snapshot takes the removal path, any other resolves and converges |
| Reconciling.Reconciler.Process | core/reconcile/reconciler.go:166-185 | world as Pass computes; a timer unless the pass succeeded; failures counted or forgotten by outcome; the key released |
| Reconciling.Reconciler.Nudge | core/reconcile/reconciler.go:84-92 | afterwards the one-place nudge slot is full, and the call never waits |
| Reconciling.Reconciler.Resync | core/reconcile/reconciler.go:139-148 | every listed key is enqueued once, in some order; a failed List changes nothing |
| Reconciling.SweepLeavesAllDirty | core/reconcile/reconciler.go:119-148 | after a sweep every listed key is dirty and no queued key moved, unless the queue is shut down |
| SystemInvariant.StepKeepsInv | core/reconcile/reconciler.go:122-380 | every step of every interleaving keeps the invariant |
| SystemTheorems.NoOrphans | core/reconcile/reconciler.go:269-324 | in every reachable state each owned object has an entry in the store (with core/store/memory.go:33-38) |
| SystemTheorems.AtMostOneObject | providers/docker/provider.go:89 | in every reachable state no key owns two objects, so the first one listed is the only one (with core/reconcile/reconciler.go:344-365) |
| SystemTheorems.NeverTwoPassesOnOneKey | core/reconcile/queue.go:100-174 | no two workers are in a pass over the same key |
| SystemTheorems.RemovalIsDeliberate | core/reconcile/reconciler.go:274-324 | an entry goes only marked, after a pass read the mark, with no object left |
| SystemTheorems.RemovalIsOwnAndUnused | providers/docker/network.go:106-128 | a worker removes only objects of its own key, and no network in use |
| SystemTheorems.NetworkOutlivesContainers | providers/docker/network.go:106-128 | in every run in which nobody outside removes the network, it and its entry outlive each container attached to it (with core/reconcile/reconciler.go:274-324) |
| SystemTheorems.CreationIsWanted | core/reconcile/reconciler.go:186-199 | an object appears only for an entry that is there and whose mark no pass has read |
| SystemTheorems.DeletionIsFinal | core/reconcile/reconciler.go:196-199 | once a pass has read the mark no run creates an object of the key while the entry lasts, despite concurrent Puts (with core/store/memory.go:36-38) |
| TeardownProgress.TeardownGoesOn | core/reconcile/reconciler.go:274-324 | in every reachable state before shutdown, once a pass has read the mark and until the entry is erased, a worker is at the removal or another pass over the key is on its way (with core/reconcile/reconciler.go:163-185) |
| AbsorbedWrites.NoLostWriteIff | core/server/server.go:127-131 | an accepted Put or Delete is kept in every later run (a pass that found the entry has read it, or something will lead to a read; shutdown and the time after a failed List excepted) if and only if, when it is made, no worker is between reading the mark of the key and erasing the entry (with core/reconcile/reconciler.go:274-324) |
| AbsorbedWrites.UnmarkedWriteIsNeverLost | core/server/server.go:158-169 | a Put or Delete that finds its entry absent or unmarked is kept in every later run, whatever writes and marks follow (with core/reconcile/reconciler.go:84-185) |
| AbsorbedWrites.AWriteCanBeAbsorbed | core/store/memory.go:33-38 | a reachable state in which an accepted Put was not read and nothing will lead to a read (with core/reconcile/reconciler.go:300) |
| SystemTheorems.NoLostRetry | core/reconcile/reconciler.go:174-183 | after a pass that failed, waited or started a removal another is on its way until it begins, even if the timer fires before done (with core/reconcile/reconciler.go:206-210) |
| SystemTheorems.BackoffCountsFailedPasses | core/reconcile/reconciler.go:163-185 | a key's failure count is the length of its trailing run of failed passes: waiting accrues no backoff (with core/reconcile/queue.go:132-141) |
| Ordering.TargetsAreReadyFirst | core/reconcile/reconciler.go:196-256 | with fixed references the first Ready of a key comes strictly after the first Ready of each target, and objects exist only for keys whose targets were Ready (with core/reconcile/reconciler.go:367-379) |
| Ordering.StuckNeverReady | core/reconcile/reconciler.go:227-256 | no key of a set in which each needs another is ever Ready or created |
| Ordering.CycleNeverReady | core/reconcile/reconciler.go:218-256 | nothing on, or on a path into, a reference cycle of any length is ever Ready or created |
| ReportedIds.ReportedIdIsOwn | providers/docker/network.go:62-73 | in every reachable state the id a Ready resource reports is the first 12 bytes of an id whose object, if still there, is its own (with providers/docker/provider.go:91-101) |
| ReportedIds.ReferencedNetworkIsKept | providers/docker/network.go:106-128 | in every reachable state a container whose network is the id a Ready network reports is attached to that network while it is there, and Docker keeps it (with core/reconcile/reconciler.go:238-260) |
| PassFrame.PassElsewhere | core/reconcile/reconciler.go:166-380 | whatever fails, a pass leaves other keys' entries and objects alone and keeps one object per key |
| PassVerdicts.FaultFreeConverge | core/reconcile/reconciler.go:330-380 | with no failing call an absent container or network is created, one that matches the Spec is left, any other is replaced, unless it is a network in use; the Status tells what is there |
| PassVerdicts.OtherKindsAreLeft | core/reconcile/reconciler.go:331-337 | a kind without a provider gets an Error Status, nothing is touched, and nothing is retried (with cmd/setpointd/main.go:42-47) |
| PassVerdicts.ConvergeFailsIff | core/reconcile/reconciler.go:330-380 | converge fails exactly when a call it makes fails; the Status is then Error, or Creating when only the second look failed |
| PassVerdicts.WantedIsSpliced | core/reconcile/reconciler.go:227-260 | the Spec the convergence results speak of exists exactly when the references can be read, and is the spliced one |
| PassVerdicts.SettledMeans | core/reconcile/reconciler.go:367-379 | a settled key has one object, running, with the fingerprint of the spliced Spec, and a Ready Status that tells that object |
| PassVerdicts.SettledCarries | providers/docker/provider.go:96-100 | a settled resource can be referenced by exactly the fields of its kind (with providers/docker/network.go:69-72) |
| PassVerdicts.AbsentIsForgotten | core/reconcile/reconciler.go:166-176 | a vanished resource is forgotten, and a failing read is a failure; neither changes anything |
| PassVerdicts.UnmarkedPass | core/reconcile/reconciler.go:196-216 | with no failing call an entry whose references can be read is converged to its spliced Spec; any other is Pending on the first that cannot, and asks for another pass |
| PassVerdicts.FaultFreePass | core/reconcile/reconciler.go:196-216 | a fault-free pass over a container or network whose references can be read ends Ready exactly when it has no object, a matching one that runs, or a stale one that is not a network in use; then it has one object, running, with the fingerprint of the spliced Spec |
| PassVerdicts.FailureIsRecorded | core/reconcile/reconciler.go:330-366 | a failing pass over an unmarked entry is recorded as Error or Creating, never Ready |
| PassVerdicts.UnrecordedPass | core/reconcile/reconciler.go:303-308 | when the Status cannot be written the store stays as it was, unless the entry is erased |
| PassVerdicts.MarkedPass | core/reconcile/reconciler.go:274-301 | a pass over a marked entry erases it, or started a removal and asks for another pass, or failed, each exactly when the calls say so; an entry that stays is never a success |
| PassVerdicts.MarkedPassLeaves | core/reconcile/reconciler.go:274-301 | what each of these leaves in store and substrate, and the Deleting Status recorded |
| PassVerdicts.ReportedNetworkAttaches | providers/docker/network.go:62-73 | a container created with the networkId a Ready network reports is attached to that network (with providers/docker/provider.go:127-139) |
| Simulation.ActSimulates | core/reconcile/reconciler.go:166-380 | each operation of a worker leaves the end of its pass where it was |
| Simulation.SystemRunsPass | core/reconcile/reconciler.go:166-380 | for every environment a worker running alone ends its pass with the store, substrate and outcome of Pass |
| Convergence.ReadyMeansConverged | core/reconcile/reconciler.go:367-379 | whatever fails, a pass records Ready only when the key's object runs and matches the Spec the pass resolved |
| Convergence.SmoothConverge | core/reconcile/reconciler.go:330-380 | when every call succeeds the key ends with one running, up-to-date object and a Ready Status; an object already so is kept |
| Convergence.BoundedConvergence | core/reconcile/reconciler.go:227-267 | a resource of reference depth r is Ready after r + 1 rounds in any order, its object changed by at most r + 1 passes (with core/reconcile/reconciler.go:330-380) |
| Convergence.LaterRoundsAreIdle | core/reconcile/reconciler.go:344-365 | rounds beyond the deepest resource change nothing |
| Convergence.ConvergesWhenTidy | core/reconcile/reconciler.go:227-267 | where every container runs and every network matches its Spec, with networks that reference nothing, fault-free passes suffice (with core/reconcile/reconciler.go:330-380) |
| Convergence.ConvergenceIsPossible | core/reconcile/reconciler.go:227-267 | from every such world there are fault-free rounds that bring everything to Ready (with core/reconcile/reconciler.go:330-380) |
| OverlappingRounds.OverlappingConvergence | core/reconcile/reconciler.go:153-185 | in a run of the whole system without user writes, drift or failing calls, a resource of reference depth r is Ready after r + 1 stretches in each of which every key has a whole pass, however the passes of different keys overlap, and stays so (with core/reconcile/reconciler.go:227-267, 330-380) |
| OverlappingRounds.QuiescentAfterStretches | core/reconcile/reconciler.go:344-365 | after more such stretches than the deepest resource needs, no such run changes store or substrate |
| Stranding.UpToDateIsLeftAlone | core/reconcile/reconciler.go:344-379 | an up-to-date object is left as it is and the resource is Ready exactly if it runs |
| Stranding.RepairedIffStale | core/reconcile/reconciler.go:344-365 | a fault-free pass makes a resource whose object does not run Ready if and only if the Spec it resolves has another fingerprint than the object |
| Stranding.StrandedForever | core/reconcile/reconciler_test.go:155-170 | no passes, in any order and with any failures, repair a stopped object as long as each pass over its key resolves to a Spec with the object's fingerprint or does not resolve |
| Stranding.FailedStartStrands | providers/docker/provider.go:144-146 | one failed ContainerStart leaves a stopped container that no later pass starts until one resolves its Spec to another fingerprint |
| Stranding.KilledStaysKilled | README.md:35-36 | a container killed out of band is not started again and not Ready, whatever passes follow, until one resolves its Spec to another fingerprint (with core/reconcile/reconciler.go:344-365) |
| Teardown.ThreeStretchesEmptyEverything | core/reconcile/reconciler.go:269-301 | from any reachable state with everything marked, in a run without user writes or failing calls, the first stretch with a whole pass over every key removes every container, the second every network, the third every entry, however the passes overlap (with providers/docker/network.go:106-128) |

## Left out

- HTTP routing, headers and response encoding, the command line client, flags, signals and wiring: input and output only.
- JSON decoding of request bodies and of Specs into a provider's own struct: what a Spec decodes to (image, network, driver), and whether that or an image pull fails, is an answer of the environment.
- The Go JSON decoder's limit of 10000 nesting levels: the grammar here has none.
- Formatting of numbers in the canonical form: numbers are kept as written, so 1.0 and 1 count as different Specs.
- Timestamps other than those of a stored resource, log output and the text of error messages: a Status message is a value naming its cause.
- Real time: a timer may fire at any moment after it is armed, the sweep at any moment the loop waits.
- Overflow of the failure counter after 2^63 failures in a row.
- Spurious wakeups: Go's condition variable has none.
- Actor and metadata fields that no code acts on; the field order and null maps of the JSON shown to users.
- Restart and persistence, other stores and providers, compositions and the portal.
- Admission.NormalizedIff: lower-casing is modelled for ASCII letters; strings.ToLower also maps other scripts.
- Admission.NormalizingTwiceIff: the same holds here, and of SameKind.
- AbsorbedWrites.NoLostWriteIff: it leaves out the time after a failed List until the next sweep, and the time after shutdown; this store's List cannot fail.
- Reconciling.Reconciler.Process: the store is its abstract value here, which module Storage refines; the blocking loops of the workers and of the resync loop are steps of module System.
- Provider.Docker.Delete: nothing else runs during the call; removals in between by others are steps of module System.
- Convergence.BoundedConvergence: its bound on how many passes change an object is for passes that follow one another; `OverlappingRounds.OverlappingConvergence` covers overlapping passes without that bound.
- Teardown.ThreeStretchesEmptyEverything: no user writes and no failing calls during the three stretches; others may remove or stop objects.
